/**
 * The service template catalogue (src/data/templates.ts): the nineteen predefined listings, the
 * lookups by category and by id, the distinct categories, and `fillTemplate`, which substitutes
 * the first `{field}` placeholder of each supplied field in turn.
 *
 * A description template is kept as its pieces: literal text and `{field}` placeholders, in the
 * order they appear; `Description` renders the string the source holds.
 */
module Templates {
  import opened Wrappers
  import opened Sequences
  /** A piece of a description template: literal text, or the placeholder `{name}`. */
  datatype Segment = Lit(text: string) | Field(name: string)
  datatype PriceRange = PriceRange(min: int, max: int)
  /** `ServiceTemplate`. */
  datatype ServiceTemplate = ServiceTemplate(
    id: string,
    category: string,
    title: string,
    segments: seq<Segment>,
    suggestedPrice: PriceRange,
    fillFields: seq<string>,
    tags: seq<string>)
  /** The placeholder text for field `f`. */
  function Placeholder(f: string): (p: string)
    ensures |p| == |f| + 2 && p[0] == '{' && p[|p| - 1] == '}'
  {
    "{" + f + "}"
  }
  function RenderSegment(s: Segment): string {
    match s
    case Lit(text) => text
    case Field(name) => Placeholder(name)
  }
  /** The pieces joined into one string. */
  function Render(segments: seq<Segment>): string {
    if segments == [] then "" else RenderSegment(segments[0]) + Render(segments[1..])
  }
  /** `descriptionTemplate`. */
  function Description(t: ServiceTemplate): string {
    Render(t.segments)
  }
  /** A catalogue entry is well formed: its fill fields are exactly its placeholders, and its price range is not empty. */
  predicate WellFormed(t: ServiceTemplate) {
    && (forall f :: f in t.fillFields ==> Field(f) in t.segments)
    && (forall s :: s in t.segments && s.Field? ==> s.name in t.fillFields)
    && t.suggestedPrice.min <= t.suggestedPrice.max
  }

  /** `serviceTemplates`, in source order. */
  const Catalogue: seq<ServiceTemplate> := [
    CodeReview, BugFix, FeatureImplementation, ArchitectureDesign,
    ApiDevelopment, WebResearch, CompetitiveAnalysis, DataAnalysis,
    MarketResearch, TechnicalWriting, ContentEditing, Summarization,
    Copywriting, ScriptWriting, WorkflowAutomation, IntegrationSetup,
    StrategyConsultation, ProblemSolving, TechnicalReview
  ]

  const CodeReview: ServiceTemplate :=
    ServiceTemplate("code-review", "development", "Code Review",
      [Lit("I will review your "), Field("language"), Lit(" codebase, focusing on "), Field("focus_area"), Lit(". Deliverables include "), Field("deliverables"), Lit(".")],
      PriceRange(5, 20), ["language", "focus_area", "deliverables"], ["code", "review", "quality"])

  const BugFix: ServiceTemplate :=
    ServiceTemplate("bug-fix", "development", "Bug Fix",
      [Lit("I will diagnose and fix bugs in your "), Field("language"), Lit(" codebase. Includes root cause analysis and "), Field("additional_services"), Lit(".")],
      PriceRange(3, 15), ["language", "additional_services"], ["bug", "fix", "debugging"])

  const FeatureImplementation: ServiceTemplate :=
    ServiceTemplate("feature-implementation", "development", "Feature Implementation",
      [Lit("I will implement "), Field("feature_type"), Lit(" features in "), Field("language"), Lit(". Includes "), Field("includes"), Lit(".")],
      PriceRange(10, 50), ["feature_type", "language", "includes"], ["feature", "implementation", "coding"])

  const ArchitectureDesign: ServiceTemplate :=
    ServiceTemplate("architecture-design", "development", "Architecture Design",
      [Lit("I will design a "), Field("system_type"), Lit(" architecture for your "), Field("project_type"), Lit(" project. Deliverables: "), Field("deliverables"), Lit(".")],
      PriceRange(8, 30), ["system_type", "project_type", "deliverables"], ["architecture", "design", "system"])

  const ApiDevelopment: ServiceTemplate :=
    ServiceTemplate("api-development", "development", "API Development",
      [Lit("I will build a "), Field("api_style"), Lit(" API for "), Field("use_case"), Lit(". Includes "), Field("features"), Lit(".")],
      PriceRange(15, 40), ["api_style", "use_case", "features"], ["api", "backend", "endpoints"])

  const WebResearch: ServiceTemplate :=
    ServiceTemplate("web-research", "research", "Web Research",
      [Lit("I will research "), Field("topic"), Lit(" and provide a "), Field("format"), Lit(" summary covering "), Field("aspects"), Lit(".")],
      PriceRange(2, 10), ["topic", "format", "aspects"], ["research", "web", "information"])

  const CompetitiveAnalysis: ServiceTemplate :=
    ServiceTemplate("competitive-analysis", "research", "Competitive Analysis",
      [Lit("I will analyze competitors in the "), Field("industry"), Lit(" space, comparing "), Field("comparison_points"), Lit(". Format: "), Field("deliverable_format"), Lit(".")],
      PriceRange(5, 20), ["industry", "comparison_points", "deliverable_format"], ["competitive", "analysis", "market"])

  const DataAnalysis: ServiceTemplate :=
    ServiceTemplate("data-analysis", "research", "Data Analysis",
      [Lit("I will analyze your "), Field("data_type"), Lit(" data to identify "), Field("analysis_goals"), Lit(". Output: "), Field("output_format"), Lit(".")],
      PriceRange(5, 25), ["data_type", "analysis_goals", "output_format"], ["data", "analysis", "insights"])

  const MarketResearch: ServiceTemplate :=
    ServiceTemplate("market-research", "research", "Market Research",
      [Lit("I will research the "), Field("market"), Lit(" market including "), Field("research_areas"), Lit(". Deliverable: "), Field("deliverable"), Lit(".")],
      PriceRange(8, 25), ["market", "research_areas", "deliverable"], ["market", "research", "trends"])

  const TechnicalWriting: ServiceTemplate :=
    ServiceTemplate("technical-writing", "content", "Technical Writing",
      [Lit("I will write "), Field("content_type"), Lit(" documentation for "), Field("subject"), Lit(". Style: "), Field("style"), Lit(".")],
      PriceRange(5, 20), ["content_type", "subject", "style"], ["writing", "technical", "documentation"])

  const ContentEditing: ServiceTemplate :=
    ServiceTemplate("content-editing", "content", "Content Editing",
      [Lit("I will edit your "), Field("content_type"), Lit(" for "), Field("editing_focus"), Lit(". Includes "), Field("includes"), Lit(".")],
      PriceRange(3, 12), ["content_type", "editing_focus", "includes"], ["editing", "content", "polish"])

  const Summarization: ServiceTemplate :=
    ServiceTemplate("summarization", "content", "Summarization",
      [Lit("I will summarize "), Field("source_material"), Lit(" into a "), Field("output_length"), Lit(" "), Field("format"), Lit(".")],
      PriceRange(2, 8), ["source_material", "output_length", "format"], ["summary", "condensing", "tldr"])

  const Copywriting: ServiceTemplate :=
    ServiceTemplate("copywriting", "content", "Copywriting",
      [Lit("I will write "), Field("copy_type"), Lit(" copy for "), Field("purpose"), Lit(". Tone: "), Field("tone"), Lit(".")],
      PriceRange(5, 15), ["copy_type", "purpose", "tone"], ["copy", "marketing", "persuasion"])

  const ScriptWriting: ServiceTemplate :=
    ServiceTemplate("script-writing", "automation", "Script Writing",
      [Lit("I will write a "), Field("language"), Lit(" script to "), Field("task"), Lit(". Includes "), Field("features"), Lit(".")],
      PriceRange(5, 20), ["language", "task", "features"], ["script", "automation", "tooling"])

  const WorkflowAutomation: ServiceTemplate :=
    ServiceTemplate("workflow-automation", "automation", "Workflow Automation",
      [Lit("I will automate your "), Field("workflow_type"), Lit(" workflow using "), Field("tools"), Lit(". Expected time savings: "), Field("savings"), Lit(".")],
      PriceRange(10, 35), ["workflow_type", "tools", "savings"], ["workflow", "automation", "efficiency"])

  const IntegrationSetup: ServiceTemplate :=
    ServiceTemplate("integration-setup", "automation", "Integration Setup",
      [Lit("I will set up integration between "), Field("system_a"), Lit(" and "), Field("system_b"), Lit(". Features: "), Field("features"), Lit(".")],
      PriceRange(8, 25), ["system_a", "system_b", "features"], ["integration", "api", "connection"])

  const StrategyConsultation: ServiceTemplate :=
    ServiceTemplate("strategy-consultation", "advisory", "Strategy Consultation",
      [Lit("I will provide strategic advice on "), Field("topic"), Lit(" for "), Field("context"), Lit(". Format: "), Field("format"), Lit(".")],
      PriceRange(10, 30), ["topic", "context", "format"], ["strategy", "consultation", "advice"])

  const ProblemSolving: ServiceTemplate :=
    ServiceTemplate("problem-solving", "advisory", "Problem-Solving Session",
      [Lit("I will help you solve "), Field("problem_type"), Lit(" by "), Field("approach"), Lit(". Output: "), Field("deliverable"), Lit(".")],
      PriceRange(5, 20), ["problem_type", "approach", "deliverable"], ["problem", "solving", "brainstorm"])

  const TechnicalReview: ServiceTemplate :=
    ServiceTemplate("technical-review", "advisory", "Technical Review",
      [Lit("I will review your "), Field("subject"), Lit(" and provide feedback on "), Field("aspects"), Lit(". Report style: "), Field("style"), Lit(".")],
      PriceRange(8, 25), ["subject", "aspects", "style"], ["review", "technical", "feedback"])

  // Each template of the catalogue is well formed.
  /** The catalogue holds nineteen templates. */
  lemma CatalogueSize()
    ensures |Catalogue| == 19
  {
  }

  lemma CodeReviewWellFormed() ensures WellFormed(CodeReview) {}
  lemma BugFixWellFormed() ensures WellFormed(BugFix) {}
  lemma FeatureImplementationWellFormed() ensures WellFormed(FeatureImplementation) {}
  lemma ArchitectureDesignWellFormed() ensures WellFormed(ArchitectureDesign) {}
  lemma ApiDevelopmentWellFormed() ensures WellFormed(ApiDevelopment) {}
  lemma WebResearchWellFormed() ensures WellFormed(WebResearch) {}
  lemma CompetitiveAnalysisWellFormed() ensures WellFormed(CompetitiveAnalysis) {}
  lemma DataAnalysisWellFormed() ensures WellFormed(DataAnalysis) {}
  lemma MarketResearchWellFormed() ensures WellFormed(MarketResearch) {}
  lemma TechnicalWritingWellFormed() ensures WellFormed(TechnicalWriting) {}
  lemma ContentEditingWellFormed() ensures WellFormed(ContentEditing) {}
  lemma SummarizationWellFormed() ensures WellFormed(Summarization) {}
  lemma CopywritingWellFormed() ensures WellFormed(Copywriting) {}
  lemma ScriptWritingWellFormed() ensures WellFormed(ScriptWriting) {}
  lemma WorkflowAutomationWellFormed() ensures WellFormed(WorkflowAutomation) {}
  lemma IntegrationSetupWellFormed() ensures WellFormed(IntegrationSetup) {}
  lemma StrategyConsultationWellFormed() ensures WellFormed(StrategyConsultation) {}
  lemma ProblemSolvingWellFormed() ensures WellFormed(ProblemSolving) {}
  lemma TechnicalReviewWellFormed() ensures WellFormed(TechnicalReview) {}


  // ---------------------------------------------------------------- placeholders in text

  /** `p` occurs in `s` starting at index `i`. */
  predicate OccursAt(s: string, p: string, i: int) {
    0 <= i && i + |p| <= |s| && s[i..i + |p|] == p
  }

  ghost predicate Occurs(s: string, p: string) {
    exists i :: OccursAt(s, p, i)
  }

  /** `p` occurs at `i` and nowhere before. */
  predicate FirstAt(s: string, p: string, i: int) {
    OccursAt(s, p, i) && forall j :: 0 <= j < i ==> !OccursAt(s, p, j)
  }

  /** A field of a template renders as its placeholder somewhere in the text. */
  lemma {:induction false} PlaceholderRendered(segments: seq<Segment>, f: string)
    requires Field(f) in segments
    ensures Occurs(Render(segments), Placeholder(f))
  {
    var head := RenderSegment(segments[0]);
    var rest := Render(segments[1..]);
    var p := Placeholder(f);
    if segments[0] == Field(f) {
      assert (head + rest)[0..|p|] == p;
      assert OccursAt(Render(segments), p, 0);
    } else {
      assert Field(f) in segments[1..];
      PlaceholderRendered(segments[1..], f);
      var j :| OccursAt(rest, p, j);
      assert (head + rest)[|head| + j..|head| + j + |p|] == rest[j..j + |p|];
      assert OccursAt(Render(segments), p, |head| + j);
    }
  }

  /** In a well-formed template, such as every catalogue entry, each fill field appears as a `{field}` placeholder. */
  lemma FieldsHavePlaceholders(t: ServiceTemplate, f: string)
    requires WellFormed(t) && f in t.fillFields
    ensures Occurs(Description(t), Placeholder(f))
  {
    PlaceholderRendered(t.segments, f);
  }

  /** The first index at or after `k` where `p` occurs in `s`. */
  function FindFrom(s: string, p: string, k: nat): (r: Option<nat>)
    requires k <= |s|
    decreases |s| - k
    ensures r.Some? ==> k <= r.value && OccursAt(s, p, r.value) && forall j :: k <= j < r.value ==> !OccursAt(s, p, j)
    ensures r.None? ==> forall j :: k <= j ==> !OccursAt(s, p, j)
  {
    if k + |p| > |s| then None
    else if s[k..k + |p|] == p then Some(k)
    else
      assert |p| > 0;
      FindFrom(s, p, k + 1)
  }

  /**
   * `String.prototype.replace` with a string pattern: the first occurrence of `p` replaced by `v`,
   * or `s` itself when `p` does not occur.
   */
  function ReplaceFirst(s: string, p: string, v: string): (r: string)
    ensures !Occurs(s, p) ==> r == s
    ensures Occurs(s, p) ==> exists i :: FirstAt(s, p, i) && r == s[..i] + v + s[i + |p|..]
  {
    match FindFrom(s, p, 0)
    case None => s
    case Some(i) =>
      assert FirstAt(s, p, i);
      s[..i] + v + s[i + |p|..]
  }

  /** There is only one first occurrence. */
  lemma FirstUnique(s: string, p: string, i: int, j: int)
    requires FirstAt(s, p, i) && FirstAt(s, p, j)
    ensures i == j
  {
  }

  /** Replacing leaves the text before the first occurrence alone and puts the value right after it. */
  lemma ReplaceFirstShape(s: string, p: string, v: string, i: int)
    requires FirstAt(s, p, i)
    ensures |ReplaceFirst(s, p, v)| == |s| - |p| + |v|
    ensures ReplaceFirst(s, p, v)[..i] == s[..i]
    ensures OccursAt(ReplaceFirst(s, p, v), v, i)
  {
    var j :| FirstAt(s, p, j) && ReplaceFirst(s, p, v) == s[..j] + v + s[j + |p|..];
    FirstUnique(s, p, i, j);
    var r := ReplaceFirst(s, p, v);
    assert r[i..i + |v|] == v;
  }

  // ---------------------------------------------------------------- lookups

  /** `getTemplatesByCategory`: the templates of one category, in catalogue order. */
  function ByCategory(ts: seq<ServiceTemplate>, category: string): (r: seq<ServiceTemplate>)
    ensures |r| <= |ts|
    ensures forall t :: t in r <==> t in ts && t.category == category
  {
    if ts == [] then []
    else
      var rest := ByCategory(ts[1..], category);
      assert forall t :: t in ts <==> t == ts[0] || t in ts[1..];
      if ts[0].category == category then [ts[0]] + rest else rest
  }

  /** Filtering distributes over concatenation, so it keeps the catalogue order. */
  lemma {:induction false} ByCategoryConcat(a: seq<ServiceTemplate>, b: seq<ServiceTemplate>, category: string)
    ensures ByCategory(a + b, category) == ByCategory(a, category) + ByCategory(b, category)
  {
    if a != [] {
      assert (a + b)[1..] == a[1..] + b;
      ByCategoryConcat(a[1..], b, category);
    } else {
      assert a + b == b;
    }
  }

  /** `getTemplateById`: the first template with that id, if any. */
  function ById(ts: seq<ServiceTemplate>, id: string): (r: Option<ServiceTemplate>)
    ensures r.None? <==> forall k :: 0 <= k < |ts| ==> ts[k].id != id
    ensures r.Some? ==> exists k :: (0 <= k < |ts| && ts[k] == r.value && r.value.id == id &&
      forall j :: 0 <= j < k ==> ts[j].id != id)
  {
    if ts == [] then None
    else if ts[0].id == id then
      assert ts[0] == ts[0];
      Some(ts[0])
    else
      var r := ById(ts[1..], id);
      assert forall k :: 0 < k < |ts| ==> ts[k] == ts[1..][k - 1];
      if r.Some? then
        var k :| 0 <= k < |ts[1..]| && ts[1..][k] == r.value && r.value.id == id &&
          forall j :: 0 <= j < k ==> ts[1..][j].id != id;
        assert ts[k + 1] == r.value;
        r
      else r
  }

  /** Whether some template of `ts` is in category `c`. */
  predicate HasCategory(ts: seq<ServiceTemplate>, c: string) {
    exists t :: t in ts && t.category == c
  }

  /** The index of the first template of category `c`. */
  function FirstOf(ts: seq<ServiceTemplate>, c: string): (k: nat)
    requires HasCategory(ts, c)
    ensures k < |ts| && ts[k].category == c && forall j :: 0 <= j < k ==> ts[j].category != c
  {
    if ts[0].category == c then 0
    else
      assert HasCategory(ts[1..], c) by {
        var t :| t in ts && t.category == c;
        assert t in ts[1..];
      }
      var k := FirstOf(ts[1..], c);
      assert forall j :: 1 <= j <= k ==> ts[j] == ts[1..][j - 1];
      k + 1
  }

  /** `getAllCategories` (`[...new Set(...)]`): every category of `ts` exactly once. */
  function AllCategories(ts: seq<ServiceTemplate>): (cs: seq<string>)
    ensures Distinct(cs)
    ensures forall c :: c in cs <==> HasCategory(ts, c)
  {
    if ts == [] then []
    else
      var init := ts[..|ts| - 1];
      var last := ts[|ts| - 1];
      var before := AllCategories(init);
      assert forall t :: t in ts <==> t in init || t == last;
      if last.category in before then before else before + [last.category]
  }

  /** The categories come in the order in which they first appear in `ts` (a Set keeps insertion order). */
  lemma {:induction false} CategoriesInFirstAppearanceOrder(ts: seq<ServiceTemplate>)
    ensures forall c :: c in AllCategories(ts) ==> HasCategory(ts, c)
    ensures forall i, j :: 0 <= i < j < |AllCategories(ts)| ==>
      FirstOf(ts, AllCategories(ts)[i]) < FirstOf(ts, AllCategories(ts)[j])
  {
    if ts != [] {
      var init := ts[..|ts| - 1];
      var last := ts[|ts| - 1];
      assert ts == init + [last];
      CategoriesInFirstAppearanceOrder(init);
      var before := AllCategories(init);
      forall c | c in before
        ensures FirstOf(ts, c) == FirstOf(init, c) < |ts| - 1
      {
        FirstOfPrefix(init, last, c);
      }
      if last.category !in before {
        assert !HasCategory(init, last.category);
        assert FirstOf(ts, last.category) == |ts| - 1;
      }
    }
  }

  lemma FirstOfPrefix(init: seq<ServiceTemplate>, last: ServiceTemplate, c: string)
    requires HasCategory(init, c)
    ensures HasCategory(init + [last], c) && FirstOf(init + [last], c) == FirstOf(init, c)
  {
    var ts := init + [last];
    var k := FirstOf(init, c);
    assert ts[k] == init[k];
    assert HasCategory(ts, c) by { assert ts[k] in ts; }
  }

  // ---------------------------------------------------------------- filling

  /** The description after substituting the entries of `values` in order, each at its first placeholder. */
  function FillAll(s: string, values: seq<(string, string)>): string {
    if values == [] then s
    else
      var last := values[|values| - 1];
      ReplaceFirst(FillAll(s, values[..|values| - 1]), Placeholder(last.0), last.1)
  }

  /**
   * `fillTemplate`: nothing for an unknown template id; otherwise its description with each
   * entry of `values` (in `Object.entries` order) substituted at the first placeholder of its field.
   */
  method FillTemplate(catalogue: seq<ServiceTemplate>, templateId: string, values: seq<(string, string)>) returns (r: Option<string>)
    ensures r.None? <==> ById(catalogue, templateId).None?
    ensures r.Some? ==> r.value == FillAll(Description(ById(catalogue, templateId).value), values)
  {
    var t := ById(catalogue, templateId);
    if t.None? {
      return None;
    }
    var description := Description(t.value);
    var i := 0;
    while i < |values|
      invariant 0 <= i <= |values|
      invariant description == FillAll(Description(t.value), values[..i])
    {
      assert values[..i + 1][..i] == values[..i];
      var (field, value) := values[i];
      description := ReplaceFirst(description, Placeholder(field), value);
      i := i + 1;
    }
    assert values[..|values|] == values;
    return Some(description);
  }

  /** An entry whose placeholder no longer occurs in the text leaves the text as it is. */
  lemma FillSkipsMissing(s: string, values: seq<(string, string)>, field: string, value: string)
    requires !Occurs(FillAll(s, values), Placeholder(field))
    ensures FillAll(s, values + [(field, value)]) == FillAll(s, values)
  {
    assert (values + [(field, value)])[..|values|] == values;
  }

  /** A single supplied field of a well-formed template lands at the first occurrence of its placeholder. */
  lemma FillOneField(t: ServiceTemplate, field: string, value: string)
    requires WellFormed(t) && field in t.fillFields
    ensures exists i :: (FirstAt(Description(t), Placeholder(field), i) &&
      FillAll(Description(t), [(field, value)]) ==
        Description(t)[..i] + value + Description(t)[i + |Placeholder(field)|..])
  {
    var d := Description(t);
    var p := Placeholder(field);
    FieldsHavePlaceholders(t, field);
    assert [(field, value)][..0] == [];
    assert FillAll(d, [(field, value)]) == ReplaceFirst(d, p, value);
  }
}
