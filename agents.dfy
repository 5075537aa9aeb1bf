/**
 * The agent directory of the service revision (src/services/agents.ts): referral codes,
 * registration with the starter grant and referral linkage, and the primitive row updates
 * the job and review services build on (the guarded balance delta, the job counters and
 * the reputation recomputed from reviews).
 *
 * `Math.random()` and `uuid()` are parameters: `suffixes` are the successive random code
 * suffixes, `uuidPart` the first four characters of a fresh UUID, and `id` the fresh agent id.
 */
module AgentService {
  import opened Wrappers
  import opened Economy
  import opened Ledger

  // ---------------------------------------------------------------- referral codes

  /** `toUpperCase` on one character, for the ASCII letters. */
  function Upper(c: char): char {
    if 'a' <= c <= 'z' then (c as int - 32) as char else c
  }

  predicate IsCapital(c: char) {
    'A' <= c <= 'Z'
  }

  /** One character of a code prefix: upper-cased, and 'X' unless that gives a letter A–Z. */
  function CodeChar(c: char): char {
    if IsCapital(Upper(c)) then Upper(c) else 'X'
  }

  /** Every character upper-cased and replaced by 'X' when it is not then a letter A–Z. */
  function Sanitize(s: string): (r: string)
    ensures |r| == |s|
    ensures forall i :: 0 <= i < |s| ==> r[i] == CodeChar(s[i]) && IsCapital(r[i])
  {
    if s == [] then [] else [CodeChar(s[0])] + Sanitize(s[1..])
  }

  /** Every character upper-cased (the fallback code does no replacement). */
  function UpperAll(s: string): (r: string)
    ensures |r| == |s|
    ensures forall i :: 0 <= i < |s| ==> r[i] == Upper(s[i])
  {
    if s == [] then [] else [Upper(s[0])] + UpperAll(s[1..])
  }

  /** `name.slice(0, 4)`. */
  function Head4(name: string): (h: string)
    ensures |h| == Min(|name|, 4) && h == name[..|h|]
  {
    if |name| <= 4 then name else name[..4]
  }

  /** The `PREFIX-SUFFIX` code `generateReferralCode` builds from a name and a random suffix. */
  function ReferralCode(name: string, suffix: string): (code: string)
    ensures |code| == Min(|name|, 4) + 1 + |suffix|
    ensures forall i :: 0 <= i < Min(|name|, 4) ==> code[i] == CodeChar(name[i]) && IsCapital(code[i])
    ensures code[Min(|name|, 4)] == '-' && code[Min(|name|, 4) + 1..] == suffix
  {
    Sanitize(Head4(name)) + "-" + suffix
  }

  /** The code the fallback builds from the name and the start of a UUID, both upper-cased. */
  function FallbackCode(name: string, uuidPart: string): (code: string)
    ensures |code| == Min(|name|, 4) + 1 + |uuidPart|
    ensures forall i :: 0 <= i < Min(|name|, 4) ==> code[i] == Upper(name[i])
    ensures code[Min(|name|, 4)] == '-'
    ensures forall i :: 0 <= i < |uuidPart| ==> code[Min(|name|, 4) + 1 + i] == Upper(uuidPart[i])
  {
    UpperAll(Head4(name)) + "-" + UpperAll(uuidPart)
  }

  /** The position of the first '-' in `s`, or `|s|` when there is none. */
  function DashAt(s: string): (k: nat)
    ensures k <= |s|
    ensures forall i :: 0 <= i < k ==> s[i] != '-'
    ensures k < |s| ==> s[k] == '-'
  {
    if s == [] then 0 else if s[0] == '-' then 0 else 1 + DashAt(s[1..])
  }

  /** A code split at its first '-' into prefix and suffix. */
  function SplitCode(code: string): Option<(string, string)> {
    var k := DashAt(code);
    if k < |code| then Some((code[..k], code[k + 1..])) else None
  }

  /**
   * A generated code has a prefix of at most four capitals, taken from the start of the name
   * (a letter kept and upper-cased, anything else 'X'), then '-', then the suffix; splitting it
   * at its first '-' gives back exactly the prefix and the suffix.
   */
  lemma ReferralCodeShape(name: string, suffix: string)
    ensures var p := Sanitize(Head4(name));
      && |p| == Min(|name|, 4)
      && (forall i :: 0 <= i < |p| ==> IsCapital(p[i]))
      && (forall i :: 0 <= i < |p| && IsCapital(Upper(name[i])) ==> p[i] == Upper(name[i]))
      && SplitCode(ReferralCode(name, suffix)) == Some((p, suffix))
  {
    var p := Sanitize(Head4(name));
    var code := ReferralCode(name, suffix);
    assert forall i :: 0 <= i < |p| ==> code[i] == p[i] && code[i] != '-';
    assert code[|p|] == '-';
    DashFirst(code, |p|);
    assert code[..|p|] == p;
    assert code[|p| + 1..] == suffix;
  }

  /** The first dash is at `k` when `k` holds a dash and nothing before it does. */
  lemma {:induction false} DashFirst(s: string, k: nat)
    requires k < |s| && s[k] == '-'
    requires forall i :: 0 <= i < k ==> s[i] != '-'
    ensures DashAt(s) == k
  {
    if k > 0 {
      DashFirst(s[1..], k - 1);
    }
  }

  /** The fallback does not replace non-letters by 'X', so it can disagree with the generated prefix. */
  lemma FallbackKeepsNonLetters()
    ensures SplitCode(FallbackCode("a1", "0000")).value.0 == "A1"
    ensures SplitCode(ReferralCode("a1", "0000")).value.0 == "AX"
  {
    ReferralCodeShape("a1", "0000");
    var c := FallbackCode("a1", "0000");
    assert c[0] == 'A' && c[1] == '1' && c[2] == '-';
    assert c[3] == Upper("0000"[0]) && c[4] == Upper("0000"[1]) && c[5] == Upper("0000"[2]) && c[6] == Upper("0000"[3]);
    assert c == "A1-0000";
    DashFirst("A1-0000", 2);
  }

  /** The fallback upper-cases the UUID part as well as the name: a lower-case hex UUID comes out in capitals. */
  lemma FallbackUpperCasesUuid()
    ensures FallbackCode("abcd", "3f2a") == "ABCD-3F2A"
  {
    var c := FallbackCode("abcd", "3f2a");
    assert c[0] == Upper('a') && c[1] == Upper('b') && c[2] == Upper('c') && c[3] == Upper('d') && c[4] == '-';
    assert c[5] == Upper("3f2a"[0]) && c[6] == Upper("3f2a"[1]) && c[7] == Upper("3f2a"[2]) && c[8] == Upper("3f2a"[3]);
    assert c == "ABCD-3F2A";
  }

  /** The referral codes in use. */
  function CodesOf(agents: map<AgentId, Agent>): set<string> {
    set a | a in agents :: agents[a].referralCode
  }

  /**
   * What `getUniqueReferralCode` settles on from the `k`-th candidate on: the first of the
   * candidates `k` to 9 that is not in use, and the fallback code when all ten are taken.
   */
  function UniqueCode(used: set<string>, name: string, suffixes: seq<string>, uuidPart: string, k: nat): (code: string)
    requires k <= 10 && |suffixes| == 11
    ensures code == FallbackCode(name, uuidPart) ||
      (code !in used && exists j :: k <= j < 10 && code == ReferralCode(name, suffixes[j]))
    decreases 10 - k
  {
    if k == 10 then FallbackCode(name, uuidPart)
    else if ReferralCode(name, suffixes[k]) !in used then ReferralCode(name, suffixes[k])
    else UniqueCode(used, name, suffixes, uuidPart, k + 1)
  }

  /** The candidates `lo` to `hi - 1` are all in use. */
  predicate AllTaken(used: set<string>, name: string, suffixes: seq<string>, lo: nat, hi: nat)
    requires hi <= |suffixes|
  {
    forall i :: lo <= i < hi ==> ReferralCode(name, suffixes[i]) in used
  }

  /**
   * The code chosen is the first of the ten checked candidates that is free, so it is free,
   * and every candidate before it is in use; it is the fallback only when all ten are in use.
   */
  lemma {:induction false} UniqueCodeIsFirstFree(used: set<string>, name: string, suffixes: seq<string>, uuidPart: string, k: nat)
    requires k <= 10 && |suffixes| == 11
    ensures var code := UniqueCode(used, name, suffixes, uuidPart, k);
      || (exists j :: k <= j < 10 && code == ReferralCode(name, suffixes[j]) && code !in used && AllTaken(used, name, suffixes, k, j))
      || (code == FallbackCode(name, uuidPart) && AllTaken(used, name, suffixes, k, 10))
    decreases 10 - k
  {
    var code := UniqueCode(used, name, suffixes, uuidPart, k);
    if k == 10 {
      assert AllTaken(used, name, suffixes, k, 10);
    } else if ReferralCode(name, suffixes[k]) !in used {
      assert AllTaken(used, name, suffixes, k, k);
      assert k <= k < 10 && code == ReferralCode(name, suffixes[k]) && code !in used && AllTaken(used, name, suffixes, k, k);
    } else {
      UniqueCodeIsFirstFree(used, name, suffixes, uuidPart, k + 1);
      if code == FallbackCode(name, uuidPart) && AllTaken(used, name, suffixes, k + 1, 10) {
        assert AllTaken(used, name, suffixes, k, 10);
      } else {
        var j :| k + 1 <= j < 10 && code == ReferralCode(name, suffixes[j]) && code !in used && AllTaken(used, name, suffixes, k + 1, j);
        assert AllTaken(used, name, suffixes, k, j);
      }
    }
  }

  /**
   * `getUniqueReferralCode`: tries a fresh candidate up to ten times and falls back to a
   * UUID-suffixed code; the eleventh random suffix is drawn but never checked.
   */
  method GetUniqueReferralCode(db: Db, name: string, suffixes: seq<string>, uuidPart: string) returns (code: string)
    requires |suffixes| == 11
    ensures code == UniqueCode(CodesOf(db.agents), name, suffixes, uuidPart, 0)
  {
    var used := CodesOf(db.agents);
    code := ReferralCode(name, suffixes[0]);
    var attempts := 0;
    while attempts < 10
      invariant 0 <= attempts <= 10
      invariant attempts < 10 ==> code == ReferralCode(name, suffixes[attempts])
      invariant UniqueCode(used, name, suffixes, uuidPart, 0) == UniqueCode(used, name, suffixes, uuidPart, attempts)
    {
      if code !in used {
        return;
      }
      code := ReferralCode(name, suffixes[attempts + 1]);
      attempts := attempts + 1;
    }
    code := FallbackCode(name, uuidPart);
  }

  // ---------------------------------------------------------------- lookups

  /** The first agent listed in `order` holding referral code `code`. */
  function FindByCode(order: seq<AgentId>, agents: map<AgentId, Agent>, code: string): (r: Option<AgentId>)
    ensures r.Some? ==> r.value in order && r.value in agents && agents[r.value].referralCode == code
    ensures r.None? ==> forall a :: a in order && a in agents ==> agents[a].referralCode != code
  {
    if order == [] then None
    else if order[0] in agents && agents[order[0]].referralCode == code then Some(order[0])
    else FindByCode(order[1..], agents, code)
  }

  /** Whether some agent is registered under the Moltbook id `m`. */
  predicate MoltbookTaken(agents: map<AgentId, Agent>, m: string) {
    exists a :: a in agents && agents[a].moltbookId == Some(m)
  }

  // ---------------------------------------------------------------- registration

  datatype RegisterError =
    | MoltbookIdTaken      // 'Agent with this Moltbook ID already exists'
    | ReferralCodeTaken    // the UNIQUE constraint on referral_code refuses the insert

  /** The row `registerAgent` inserts. */
  function NewAgent(name: string, moltbookId: Option<string>, code: string, referredBy: Option<AgentId>, now: Time): Agent {
    Agent(name, OrNull(moltbookId), STARTER_SHELLS, 0.0, 0, 0, referredBy, code, 0, false, None, now, None)
  }

  /** A registered agent starts with the starter grant, no reputation, no jobs, no referrals and no bonus paid. */
  lemma NewAgentStarts(name: string, moltbookId: Option<string>, code: string, referredBy: Option<AgentId>, now: Time)
    ensures var a := NewAgent(name, moltbookId, code, referredBy, now);
      && a.balance == 10 && a.reputation == 0.0 && a.jobsCompleted == 0 && a.jobsRequested == 0
      && a.referralsMade == 0 && !a.referralBonusPaid && a.referralCode == code && a.referredBy == referredBy
      && (a.moltbookId.Some? <==> moltbookId.Some? && moltbookId.value != "")
  {
  }

  /** One more referral on an agent's row. */
  function Referred(a: Agent): Agent {
    a.(referralsMade := a.referralsMade + 1)
  }

  /**
   * The referral step of `registerAgent`: a truthy code that matches an agent makes it the
   * referrer and raises its referral count by one; any other code changes nothing.
   */
  method CountReferral(db: Db, referralCode: Option<string>) returns (referrer: Option<AgentId>)
    requires db.Valid()
    modifies db
    ensures db.Valid()
    ensures referrer == (if Truthy(referralCode) then FindByCode(old(db.agentOrder), old(db.agents), referralCode.value) else None)
    ensures referrer.Some? ==>
      referrer.value in old(db.agents) && db.agents == old(db.agents)[referrer.value := Referred(old(db.agents)[referrer.value])]
    ensures referrer.None? ==> db.agents == old(db.agents)
    ensures CodesOf(db.agents) == CodesOf(old(db.agents))
    ensures db.agentOrder == old(db.agentOrder) && db.jobs == old(db.jobs) && db.jobOrder == old(db.jobOrder)
    ensures db.log == old(db.log) && db.reviews == old(db.reviews)
  {
    referrer := None;
    if Truthy(referralCode) {
      referrer := FindByCode(db.agentOrder, db.agents, referralCode.value);
      if referrer.Some? {
        var b := Referred(db.agents[referrer.value]);
        var agents' := db.agents[referrer.value := b];
        ProfileChange(db.agents, db.agentOrder, db.jobs, db.jobOrder, db.log, db.reviews, referrer.value, b);
        CodesKept(db.agents, referrer.value, b);
        db.agents := agents';
      }
    }
  }

  /** Replacing an agent's row by one with the same code leaves the codes in use alone. */
  lemma CodesKept(agents: map<AgentId, Agent>, a: AgentId, b: Agent)
    requires a in agents && b.referralCode == agents[a].referralCode
    ensures CodesOf(agents[a := b]) == CodesOf(agents)
  {
    forall c | c in CodesOf(agents)
      ensures c in CodesOf(agents[a := b])
    {
      var x :| x in agents && agents[x].referralCode == c;
      assert agents[a := b][x].referralCode == c;
    }
  }

  /** The agents table after the referral step. */
  function AfterReferral(agents: map<AgentId, Agent>, referrer: Option<AgentId>): map<AgentId, Agent> {
    if referrer.Some? && referrer.value in agents then agents[referrer.value := Referred(agents[referrer.value])] else agents
  }

  /**
   * The insert step of `registerAgent`: the agent row under a fresh id, with its starter grant,
   * and the one `starter_grant` row that records it.
   */
  method InsertAgent(db: Db, id: AgentId, agent: Agent)
    requires db.Valid() && id !in db.agents && id != TIDE_POOL
    requires agent.balance == STARTER_SHELLS && !agent.referralBonusPaid && agent.referralCode !in CodesOf(db.agents)
    modifies db
    ensures db.Valid()
    ensures db.agents == old(db.agents)[id := agent] && db.agentOrder == old(db.agentOrder) + [id]
    ensures db.log == old(db.log) + [Entry(id, StarterGrant, STARTER_SHELLS)]
    ensures db.jobs == old(db.jobs) && db.jobOrder == old(db.jobOrder) && db.reviews == old(db.reviews)
  {
    assert forall a :: a in db.agents ==> db.agents[a].referralCode != agent.referralCode by {
      forall a | a in db.agents
        ensures db.agents[a].referralCode != agent.referralCode
      {
        assert db.agents[a].referralCode in CodesOf(db.agents);
      }
    }
    var agents', order', log' := db.agents[id := agent], db.agentOrder + [id], db.log + [Entry(id, StarterGrant, STARTER_SHELLS)];
    Register(db.agents, db.agentOrder, db.jobs, db.jobOrder, db.log, db.reviews, id, agent);
    db.agents, db.agentOrder, db.log := agents', order', log';
  }

  /**
   * `registerAgent`. A Moltbook id already registered is refused before anything changes.
   * Otherwise a referral code that matches an agent makes it the referrer, whose referral count
   * goes up by one (an unknown code is ignored); then the new agent is inserted with the starter
   * grant and one `starter_grant` row is logged. The insert runs outside any transaction, so
   * when the fallback code is already taken the referrer keeps its raised count.
   */
  method RegisterAgent(
    db: Db, id: AgentId, name: string, moltbookId: Option<string>, referralCode: Option<string>,
    suffixes: seq<string>, uuidPart: string, now: Time)
    returns (r: Result<Agent, RegisterError>)
    requires db.Valid() && id !in db.agents && id != TIDE_POOL
    requires |suffixes| == 11
    modifies db
    ensures db.Valid()
    ensures db.jobs == old(db.jobs) && db.jobOrder == old(db.jobOrder) && db.reviews == old(db.reviews)
    ensures Truthy(moltbookId) && MoltbookTaken(old(db.agents), moltbookId.value) ==>
      r == Err(MoltbookIdTaken) && db.agents == old(db.agents) && db.agentOrder == old(db.agentOrder) && db.log == old(db.log)
    ensures !(Truthy(moltbookId) && MoltbookTaken(old(db.agents), moltbookId.value)) ==>
      var code := UniqueCode(CodesOf(old(db.agents)), name, suffixes, uuidPart, 0);
      var referrer := if Truthy(referralCode) then FindByCode(old(db.agentOrder), old(db.agents), referralCode.value) else None;
      var counted := AfterReferral(old(db.agents), referrer);
      if code in CodesOf(old(db.agents)) then
        r == Err(ReferralCodeTaken) && db.agents == counted && db.agentOrder == old(db.agentOrder) && db.log == old(db.log)
      else
        && r == Ok(NewAgent(name, moltbookId, code, referrer, now))
        && db.agents == counted[id := r.value]
        && db.agentOrder == old(db.agentOrder) + [id]
        && db.log == old(db.log) + [Entry(id, StarterGrant, STARTER_SHELLS)]
  {
    if Truthy(moltbookId) && MoltbookTaken(db.agents, moltbookId.value) {
      return Err(MoltbookIdTaken);
    }
    var code := GetUniqueReferralCode(db, name, suffixes, uuidPart);
    var referrer := CountReferral(db, referralCode);
    if code in CodesOf(db.agents) {
      return Err(ReferralCodeTaken);
    }
    var agent := NewAgent(name, moltbookId, code, referrer, now);
    InsertAgent(db, id, agent);
    r := Ok(agent);
  }

  // ---------------------------------------------------------------- row updates

  /**
   * `updateAgentBalance`: adds `delta` to the balance only when the agent exists and the
   * result is not negative, and reports whether it did; otherwise nothing changes. It writes
   * no transaction row: its callers do.
   */
  method UpdateAgentBalance(db: Db, id: AgentId, delta: int) returns (applied: bool)
    modifies db
    ensures applied <==> id in old(db.agents) && old(db.agents)[id].balance + delta >= 0
    ensures applied ==> db.agents == old(db.agents)[id := WithDelta(old(db.agents)[id], delta)]
    ensures applied ==> db.agents[id].balance >= 0
    ensures !applied ==> db.agents == old(db.agents)
    ensures db.agentOrder == old(db.agentOrder) && db.jobs == old(db.jobs) && db.jobOrder == old(db.jobOrder)
    ensures db.log == old(db.log) && db.reviews == old(db.reviews)
  {
    if id in db.agents && db.agents[id].balance + delta >= 0 {
      db.agents := db.agents[id := WithDelta(db.agents[id], delta)];
      applied := true;
    } else {
      applied := false;
    }
  }

  /** The agent's row with `delta` added to its balance, everything else kept. */
  function WithDelta(a: Agent, delta: int): (b: Agent)
    ensures Credits(a, b, delta) && b.(balance := a.balance) == a
  {
    a.(balance := a.balance + delta)
  }

  datatype JobCounter = CompletedJobs | RequestedJobs

  /** The agent's row with the selected job counter one higher and nothing else changed. */
  function Counted(a: Agent, field: JobCounter): (b: Agent)
    ensures field == CompletedJobs ==> b.jobsCompleted == a.jobsCompleted + 1 && b.jobsRequested == a.jobsRequested
    ensures field == RequestedJobs ==> b.jobsRequested == a.jobsRequested + 1 && b.jobsCompleted == a.jobsCompleted
    ensures SameAccount(a, b) && b.(jobsCompleted := a.jobsCompleted, jobsRequested := a.jobsRequested) == a
  {
    match field
    case CompletedJobs => a.(jobsCompleted := a.jobsCompleted + 1)
    case RequestedJobs => a.(jobsRequested := a.jobsRequested + 1)
  }

  /**
   * `incrementJobCount`: raises the selected counter of an existing agent by one; an unknown id
   * changes nothing. It moves no shells, so it keeps the books wherever it is called.
   */
  method IncrementJobCount(db: Db, id: AgentId, field: JobCounter)
    modifies db
    ensures id in old(db.agents) ==> db.agents == old(db.agents)[id := Counted(old(db.agents)[id], field)]
    ensures id !in old(db.agents) ==> db.agents == old(db.agents)
    ensures db.agentOrder == old(db.agentOrder) && db.jobs == old(db.jobs) && db.jobOrder == old(db.jobOrder)
    ensures db.log == old(db.log) && db.reviews == old(db.reviews)
  {
    if id in db.agents {
      db.agents := db.agents[id := Counted(db.agents[id], field)];
    }
  }

  // ---------------------------------------------------------------- reputation

  /** The ratings agent `id` received, in the order the reviews were stored. */
  function RatingsOf(reviews: seq<Review>, id: AgentId): (rs: seq<real>)
    ensures |rs| <= |reviews|
    ensures forall x :: x in rs ==> exists i :: 0 <= i < |reviews| && reviews[i].reviewee == id && reviews[i].rating == x
  {
    if reviews == [] then []
    else
      var last := reviews[|reviews| - 1];
      RatingsOf(reviews[..|reviews| - 1], id) + (if last.reviewee == id then [last.rating] else [])
  }

  function Sum(xs: seq<real>): real {
    if xs == [] then 0.0 else Sum(xs[..|xs| - 1]) + xs[|xs| - 1]
  }

  /** `AVG(rating)`, with the `?? 0` of the callers: the mean of the ratings received, 0 when there are none. */
  function AverageRating(reviews: seq<Review>, id: AgentId): (avg: real)
    ensures RatingsOf(reviews, id) == [] ==> avg == 0.0
    ensures RatingsOf(reviews, id) != [] ==> avg * (|RatingsOf(reviews, id)| as real) == Sum(RatingsOf(reviews, id))
  {
    var rs := RatingsOf(reviews, id);
    if rs == [] then 0.0 else Sum(rs) / (|rs| as real)
  }

  /** Ratings all within [lo, hi] sum to between n·lo and n·hi. */
  lemma {:induction false} SumBounds(xs: seq<real>, lo: real, hi: real)
    requires forall x :: x in xs ==> lo <= x <= hi
    ensures (|xs| as real) * lo <= Sum(xs) <= (|xs| as real) * hi
  {
    if xs != [] {
      var init := xs[..|xs| - 1];
      assert forall x :: x in init ==> x in xs;
      SumBounds(init, lo, hi);
      assert xs[|xs| - 1] in xs;
    }
  }

  /**
   * Every admitted rating is between 1 and 5, so an agent with reviews has an average between
   * 1 and 5, and one without has 0.
   */
  lemma AverageRatingBounds(jobs: map<JobId, Job>, reviews: seq<Review>, id: AgentId)
    requires ReviewsAdmitted(jobs, reviews)
    ensures RatingsOf(reviews, id) == [] ==> AverageRating(reviews, id) == 0.0
    ensures RatingsOf(reviews, id) != [] ==> 1.0 <= AverageRating(reviews, id) <= 5.0
  {
    var rs := RatingsOf(reviews, id);
    forall x | x in rs
      ensures 1.0 <= x <= 5.0
    {
      var i :| 0 <= i < |reviews| && reviews[i].reviewee == id && reviews[i].rating == x;
      assert Admitted(jobs, reviews[i]);
    }
    SumBounds(rs, 1.0, 5.0);
    if rs != [] {
      var n := |rs| as real;
      assert n * 1.0 <= Sum(rs) <= n * 5.0;
      assert 1.0 <= Sum(rs) / n <= 5.0 by {
        DivideBounds(Sum(rs), n, 1.0, 5.0);
      }
    }
  }

  lemma DivideBounds(s: real, n: real, lo: real, hi: real)
    requires n > 0.0 && n * lo <= s <= n * hi
    ensures lo <= s / n <= hi
  {
  }

  /** Appending one review about `id` adds its rating to the ratings of `id` and to no one else's. */
  lemma RatingsAppend(reviews: seq<Review>, r: Review, id: AgentId)
    ensures RatingsOf(reviews + [r], id) == RatingsOf(reviews, id) + (if r.reviewee == id then [r.rating] else [])
  {
    assert (reviews + [r])[..|reviews|] == reviews;
  }

  /** The agent's row with its reputation score replaced and nothing else changed. */
  function Rescored(a: Agent, score: real): (b: Agent)
    ensures b.reputation == score && SameAccount(a, b) && b.(reputation := a.reputation) == a
  {
    a.(reputation := score)
  }

  /** `updateReputationScore`: sets an existing agent's reputation to the mean of the ratings it received, or 0. */
  method UpdateReputationScore(db: Db, id: AgentId)
    requires db.Valid()
    modifies db
    ensures db.Valid()
    ensures id in old(db.agents) ==>
      db.agents == old(db.agents)[id := Rescored(old(db.agents)[id], AverageRating(old(db.reviews), id))]
    ensures id !in old(db.agents) ==> db.agents == old(db.agents)
    ensures db.agentOrder == old(db.agentOrder) && db.jobs == old(db.jobs) && db.jobOrder == old(db.jobOrder)
    ensures db.log == old(db.log) && db.reviews == old(db.reviews)
  {
    var score := AverageRating(db.reviews, id);
    if id in db.agents {
      var b := Rescored(db.agents[id], score);
      var agents' := db.agents[id := b];
      ProfileChange(db.agents, db.agentOrder, db.jobs, db.jobOrder, db.log, db.reviews, id, b);
      db.agents := agents';
    }
  }
}
