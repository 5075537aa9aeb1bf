/**
 * Reputation decay (dist/services/decay.js): agents inactive for more than 30 days lose 0.01
 * reputation per whole week beyond that, never below the floor of 3.0. `applyReputationDecay`
 * writes the new scores and one zero-amount `reputation_decay` row per decayed agent;
 * `previewReputationDecay` computes the same summary without writing.
 *
 * Scores are `real` rather than JavaScript doubles. The clock is the parameter `now`, read once
 * for the whole run; times are milliseconds since the epoch.
 */
module Decay {
  import opened Wrappers
  import opened Ledger
  import AgentService

  const DECAY_THRESHOLD_DAYS: int := 30
  const DECAY_RATE_PER_WEEK: real := 0.01
  const REPUTATION_FLOOR: real := 3.0
  const MS_PER_DAY: int := 1000 * 60 * 60 * 24

  function MaxReal(a: real, b: real): real {
    if a >= b then a else b
  }

  /** The whole weeks of inactivity beyond the threshold: `Math.floor(daysOverThreshold / 7)`. */
  function WeeksOver(daysInactive: int): (weeks: nat)
    requires daysInactive > DECAY_THRESHOLD_DAYS
    ensures weeks * 7 <= daysInactive - DECAY_THRESHOLD_DAYS < weeks * 7 + 7
  {
    (daysInactive - DECAY_THRESHOLD_DAYS) / 7
  }

  /** `calculateDecay`: 0 up to 30 inactive days, then 0.01 per whole week beyond them. */
  function CalculateDecay(daysInactive: int): (d: real)
    ensures d >= 0.0
    ensures daysInactive <= DECAY_THRESHOLD_DAYS ==> d == 0.0
    ensures daysInactive > DECAY_THRESHOLD_DAYS ==> d == (WeeksOver(daysInactive) as real) * DECAY_RATE_PER_WEEK
  {
    if daysInactive <= DECAY_THRESHOLD_DAYS then 0.0
    else (WeeksOver(daysInactive) as real) * DECAY_RATE_PER_WEEK
  }

  /** More inactivity never means less decay. */
  lemma DecayMonotone(a: int, b: int)
    requires a <= b
    ensures CalculateDecay(a) <= CalculateDecay(b)
  {
    if a > DECAY_THRESHOLD_DAYS {
      WeeksMonotone(a - DECAY_THRESHOLD_DAYS, b - DECAY_THRESHOLD_DAYS);
    }
  }

  lemma WeeksMonotone(x: int, y: int)
    requires 0 <= x <= y
    ensures x / 7 <= y / 7
  {
  }

  /** 36 days is less than a whole week past the threshold; 100 days is ten weeks past it. */
  lemma DecayExamples()
    ensures CalculateDecay(30) == 0.0 && CalculateDecay(36) == 0.0
    ensures CalculateDecay(37) == 0.01 && CalculateDecay(100) == 0.10
  {
    assert (100 - DECAY_THRESHOLD_DAYS) / 7 == 10;
  }

  // ---------------------------------------------------------------- inactivity

  /** A job counting as activity of `id`: completed by it as provider, with a completion time. */
  predicate CompletedBy(job: Job, id: AgentId) {
    job.provider == id && job.status == Completed && job.completedAt.Some?
  }

  /**
   * `getLastJobCompletionDate`: MAX(completed_at) over the jobs `id` completed as provider, or
   * nothing when there are none.
   */
  function LastCompletion(jobOrder: seq<JobId>, jobs: map<JobId, Job>, id: AgentId): (t: Option<Time>)
    ensures t.None? <==> forall k :: 0 <= k < |jobOrder| && jobOrder[k] in jobs ==> !CompletedBy(jobs[jobOrder[k]], id)
    ensures t.Some? ==> exists k :: (0 <= k < |jobOrder| && jobOrder[k] in jobs &&
      CompletedBy(jobs[jobOrder[k]], id) && jobs[jobOrder[k]].completedAt == t)
    ensures t.Some? ==> forall k :: 0 <= k < |jobOrder| && jobOrder[k] in jobs && CompletedBy(jobs[jobOrder[k]], id) ==>
      jobs[jobOrder[k]].completedAt.value <= t.value
  {
    if jobOrder == [] then None
    else
      var init := jobOrder[..|jobOrder| - 1];
      var last := jobOrder[|jobOrder| - 1];
      var before := LastCompletion(init, jobs, id);
      assert forall k :: 0 <= k < |init| ==> init[k] == jobOrder[k];
      if last in jobs && CompletedBy(jobs[last], id) then
        var c := jobs[last].completedAt.value;
        if before.Some? && before.value >= c then before else Some(c)
      else before
  }

  /**
   * `getDaysInactive`: whole days from the last completion, or from the agent's creation when
   * it has none, to `now`. `Math.floor` of the quotient is Dafny's division by a positive divisor.
   */
  function DaysInactive(jobOrder: seq<JobId>, jobs: map<JobId, Job>, id: AgentId, createdAt: Time, now: Time): (days: int)
    ensures
      var from := LastCompletion(jobOrder, jobs, id).GetOr(createdAt);
      days * MS_PER_DAY <= now - from < (days + 1) * MS_PER_DAY
  {
    var from := LastCompletion(jobOrder, jobs, id).GetOr(createdAt);
    (now - from) / MS_PER_DAY
  }

  // ---------------------------------------------------------------- one agent

  /** One entry of `results`. */
  datatype DecayResult = DecayResult(
    agentId: AgentId,
    agentName: string,
    previousScore: real,
    newScore: real,
    decayApplied: real,
    daysInactive: int)

  /**
   * What the loop body decides for one examined agent: with positive decay, the score drops to
   * at most the floor, and an entry is recorded only when it actually dropped.
   */
  function Assess(id: AgentId, a: Agent, days: int): (r: Option<DecayResult>)
    ensures r.Some? ==>
      && r.value.agentId == id && r.value.agentName == a.name && r.value.daysInactive == days
      && r.value.previousScore == a.reputation
      && REPUTATION_FLOOR <= r.value.newScore < r.value.previousScore
      && r.value.decayApplied == r.value.previousScore - r.value.newScore
      && 0.0 < r.value.decayApplied <= CalculateDecay(days)
    ensures r.None? <==> CalculateDecay(days) == 0.0 || a.reputation <= REPUTATION_FLOOR
    ensures r.Some? && a.reputation - CalculateDecay(days) >= REPUTATION_FLOOR ==>
      r.value.decayApplied == CalculateDecay(days)
  {
    var decay := CalculateDecay(days);
    if decay > 0.0 then
      var newScore := MaxReal(REPUTATION_FLOOR, a.reputation - decay);
      var actual := a.reputation - newScore;
      if actual > 0.0 then Some(DecayResult(id, a.name, a.reputation, newScore, actual, days))
      else None
    else None
  }

  // ---------------------------------------------------------------- the run, as a specification

  /** `WHERE reputation_score > 3.0`, in table order. */
  function Examined(agentOrder: seq<AgentId>, agents: map<AgentId, Agent>): (ids: seq<AgentId>)
    ensures |ids| <= |agentOrder|
    ensures forall x :: x in ids <==> x in agentOrder && x in agents && agents[x].reputation > REPUTATION_FLOOR
  {
    if agentOrder == [] then []
    else
      var init := agentOrder[..|agentOrder| - 1];
      var last := agentOrder[|agentOrder| - 1];
      assert forall x :: x in agentOrder <==> x in init || x == last;
      Examined(init, agents) + (if last in agents && agents[last].reputation > REPUTATION_FLOOR then [last] else [])
  }

  /** The assessment of one examined agent against the state the run started from. */
  function AssessIn(jobOrder: seq<JobId>, jobs: map<JobId, Job>, agents: map<AgentId, Agent>, id: AgentId, now: Time): Option<DecayResult>
    requires id in agents
  {
    Assess(id, agents[id], DaysInactive(jobOrder, jobs, id, agents[id].createdAt, now))
  }

  /** The results the loop pushes for the examined ids `ids`, in order. */
  function Results(ids: seq<AgentId>, agents: map<AgentId, Agent>, jobOrder: seq<JobId>, jobs: map<JobId, Job>, now: Time): (rs: seq<DecayResult>)
    requires forall x :: x in ids ==> x in agents
    ensures |rs| <= |ids|
  {
    if ids == [] then []
    else
      var init := ids[..|ids| - 1];
      var last := ids[|ids| - 1];
      assert forall x :: x in init ==> x in ids;
      Results(init, agents, jobOrder, jobs, now) + Recorded(AssessIn(jobOrder, jobs, agents, last, now))
  }

  /** The entry `results.push` adds: one for a result, none otherwise. */
  function Recorded(o: Option<DecayResult>): seq<DecayResult> {
    if o.Some? then [o.value] else []
  }

  /** One more examined id adds its assessment to the results. */
  lemma ResultsStep(ids: seq<AgentId>, i: nat, agents: map<AgentId, Agent>, jobOrder: seq<JobId>, jobs: map<JobId, Job>, now: Time)
    requires i < |ids| && forall x :: x in ids ==> x in agents
    ensures forall x :: x in ids[..i] ==> x in agents
    ensures forall x :: x in ids[..i + 1] ==> x in agents
    ensures Results(ids[..i + 1], agents, jobOrder, jobs, now) ==
      Results(ids[..i], agents, jobOrder, jobs, now) + Recorded(AssessIn(jobOrder, jobs, agents, ids[i], now))
  {
    assert ids[..i + 1][..i] == ids[..i];
  }

  function TotalDecay(rs: seq<DecayResult>): real {
    if rs == [] then 0.0 else TotalDecay(rs[..|rs| - 1]) + rs[|rs| - 1].decayApplied
  }

  /** The summary both entry points return. */
  datatype DecaySummary = DecaySummary(
    processedAt: Time,
    agentsChecked: nat,
    agentsDecayed: nat,
    totalDecayApplied: real,
    results: seq<DecayResult>)

  /** The summary of a run over the given state at time `now`. */
  function Expected(agents: map<AgentId, Agent>, agentOrder: seq<AgentId>, jobOrder: seq<JobId>, jobs: map<JobId, Job>, now: Time): (s: DecaySummary)
    ensures s.processedAt == now
    ensures s.agentsChecked == |Examined(agentOrder, agents)| <= |agentOrder|
    ensures s.agentsDecayed == |s.results| <= s.agentsChecked
  {
    var ids := Examined(agentOrder, agents);
    var rs := Results(ids, agents, jobOrder, jobs, now);
    DecaySummary(now, |ids|, |rs|, TotalDecay(rs), rs)
  }

  /** Every recorded result comes from an examined agent and lowers its score, never below the floor. */
  lemma {:induction false} ResultsSound(ids: seq<AgentId>, agents: map<AgentId, Agent>, jobOrder: seq<JobId>, jobs: map<JobId, Job>, now: Time)
    requires forall x :: x in ids ==> x in agents
    ensures forall r :: r in Results(ids, agents, jobOrder, jobs, now) ==>
      && r.agentId in ids
      && r.previousScore == agents[r.agentId].reputation
      && REPUTATION_FLOOR <= r.newScore < r.previousScore
      && r.decayApplied == r.previousScore - r.newScore > 0.0
  {
    if ids != [] {
      var init := ids[..|ids| - 1];
      assert forall x :: x in init ==> x in ids;
      ResultsSound(init, agents, jobOrder, jobs, now);
    }
  }

  lemma {:induction false} TotalPositive(rs: seq<DecayResult>)
    requires forall r :: r in rs ==> r.decayApplied > 0.0
    ensures TotalDecay(rs) >= 0.0
    ensures TotalDecay(rs) == 0.0 <==> rs == []
  {
    if rs != [] {
      var init := rs[..|rs| - 1];
      assert forall r :: r in init ==> r in rs;
      TotalPositive(init);
      assert rs[|rs| - 1] in rs;
    }
  }

  /**
   * The summary: at most one result per examined agent, each lowering a score above the floor to
   * no less than the floor, and a total decay that is positive exactly when some agent decayed.
   */
  lemma SummaryFacts(agents: map<AgentId, Agent>, agentOrder: seq<AgentId>, jobOrder: seq<JobId>, jobs: map<JobId, Job>, now: Time)
    ensures
      var s := Expected(agents, agentOrder, jobOrder, jobs, now);
      && s.agentsDecayed == |s.results| <= s.agentsChecked
      && (forall r :: r in s.results ==>
            r.agentId in agents && REPUTATION_FLOOR <= r.newScore < r.previousScore == agents[r.agentId].reputation)
      && s.totalDecayApplied >= 0.0
      && (s.totalDecayApplied > 0.0 <==> s.agentsDecayed > 0)
  {
    var ids := Examined(agentOrder, agents);
    ResultsSound(ids, agents, jobOrder, jobs, now);
    TotalPositive(Results(ids, agents, jobOrder, jobs, now));
  }

  /** The agents map after the score writes of `rs`, in order. */
  function Decayed(agents: map<AgentId, Agent>, rs: seq<DecayResult>): (after: map<AgentId, Agent>)
    ensures after.Keys == agents.Keys
  {
    if rs == [] then agents
    else
      var before := Decayed(agents, rs[..|rs| - 1]);
      var r := rs[|rs| - 1];
      if r.agentId in before then before[r.agentId := AgentService.Rescored(before[r.agentId], r.newScore)] else before
  }

  /** The zero-amount `reputation_decay` rows written for `rs`, in order. */
  function DecayRows(rs: seq<DecayResult>): (rows: seq<Tx>)
    ensures |rows| == |rs|
    ensures forall k :: 0 <= k < |rs| ==> rows[k] == Entry(rs[k].agentId, ReputationDecay, 0)
  {
    if rs == [] then [] else DecayRows(rs[..|rs| - 1]) + [Entry(rs[|rs| - 1].agentId, ReputationDecay, 0)]
  }

  /** One more result adds its score write and its row. */
  lemma WritesStep(agents: map<AgentId, Agent>, log: seq<Tx>, rs: seq<DecayResult>, r: DecayResult)
    requires r.agentId in agents
    ensures r.agentId in Decayed(agents, rs)
    ensures Decayed(agents, rs + [r]) ==
      Decayed(agents, rs)[r.agentId := AgentService.Rescored(Decayed(agents, rs)[r.agentId], r.newScore)]
    ensures log + DecayRows(rs + [r]) == log + DecayRows(rs) + [Entry(r.agentId, ReputationDecay, 0)]
    ensures TotalDecay(rs + [r]) == TotalDecay(rs) + r.decayApplied
  {
    assert (rs + [r])[..|rs|] == rs;
  }

  // ---------------------------------------------------------------- the two entry points

  /** The score write and the log row for one decayed agent. */
  method WriteDecay(db: Db, id: AgentId, newScore: real)
    requires id in db.agents
    modifies db
    ensures db.agents == old(db.agents)[id := AgentService.Rescored(old(db.agents)[id], newScore)]
    ensures db.log == old(db.log) + [Entry(id, ReputationDecay, 0)]
    ensures db.agentOrder == old(db.agentOrder) && db.jobs == old(db.jobs)
    ensures db.jobOrder == old(db.jobOrder) && db.reviews == old(db.reviews)
  {
    db.agents := db.agents[id := AgentService.Rescored(db.agents[id], newScore)];
    db.log := db.log + [Entry(id, ReputationDecay, 0)];
  }

  /** One decayed agent's new score and zero-amount row keep the books. */
  lemma DecayRowKeepsBooks(
    agents: map<AgentId, Agent>, agentOrder: seq<AgentId>, jobs: map<JobId, Job>, jobOrder: seq<JobId>,
    log: seq<Tx>, reviews: seq<Review>, id: AgentId, newScore: real)
    requires Consistent(agents, agentOrder, jobs, jobOrder, log, reviews)
    requires id in agents
    ensures Consistent(agents[id := AgentService.Rescored(agents[id], newScore)], agentOrder, jobs, jobOrder,
                       log + [Entry(id, ReputationDecay, 0)], reviews)
  {
    var rescored := AgentService.Rescored(agents[id], newScore);
    ProfileChange(agents, agentOrder, jobs, jobOrder, log, reviews, id, rescored);
    NeutralRow(agents[id := rescored], agentOrder, jobs, jobOrder, log, reviews, Entry(id, ReputationDecay, 0));
  }

  /** Writing the scores and rows of results about registered agents keeps the books. */
  lemma {:induction false} DecayKeepsBooks(
    agents: map<AgentId, Agent>, agentOrder: seq<AgentId>, jobs: map<JobId, Job>, jobOrder: seq<JobId>,
    log: seq<Tx>, reviews: seq<Review>, rs: seq<DecayResult>)
    requires Consistent(agents, agentOrder, jobs, jobOrder, log, reviews)
    requires forall r :: r in rs ==> r.agentId in agents
    ensures Consistent(Decayed(agents, rs), agentOrder, jobs, jobOrder, log + DecayRows(rs), reviews)
  {
    if rs == [] {
      assert log + DecayRows(rs) == log;
    } else {
      var init := rs[..|rs| - 1];
      var r := rs[|rs| - 1];
      assert r in rs && forall x :: x in init ==> x in rs;
      assert rs == init + [r];
      DecayKeepsBooks(agents, agentOrder, jobs, jobOrder, log, reviews, init);
      WritesStep(agents, log, init, r);
      DecayRowKeepsBooks(Decayed(agents, init), agentOrder, jobs, jobOrder, log + DecayRows(init), reviews,
                         r.agentId, r.newScore);
    }
  }

  /**
   * One pass of the loop of `applyReputationDecay`, for the `i`-th examined agent: its assessment
   * is pushed and, when it decays, its new score and its row are written.
   */
  method DecayStep(
    db: Db, ids: seq<AgentId>, i: nat, agents0: map<AgentId, Agent>, log0: seq<Tx>,
    jobOrder: seq<JobId>, jobs: map<JobId, Job>, now: Time, results: seq<DecayResult>, total: real)
    returns (results': seq<DecayResult>, total': real)
    requires i < |ids| && forall x :: x in ids ==> x in agents0
    requires results == Results(ids[..i], agents0, jobOrder, jobs, now) && total == TotalDecay(results)
    requires db.agents == Decayed(agents0, results) && db.log == log0 + DecayRows(results)
    modifies db
    ensures forall x :: x in ids[..i + 1] ==> x in agents0
    ensures results' == Results(ids[..i + 1], agents0, jobOrder, jobs, now) && total' == TotalDecay(results')
    ensures db.agents == Decayed(agents0, results') && db.log == log0 + DecayRows(results')
    ensures db.agentOrder == old(db.agentOrder) && db.jobs == old(db.jobs)
    ensures db.jobOrder == old(db.jobOrder) && db.reviews == old(db.reviews)
  {
    var id := ids[i];
    ResultsStep(ids, i, agents0, jobOrder, jobs, now);
    var outcome := AssessIn(jobOrder, jobs, agents0, id, now);
    results', total' := results, total;
    if outcome.Some? {
      var res := outcome.value;
      WritesStep(agents0, log0, results, res);
      WriteDecay(db, id, res.newScore);
      results' := results + [res];
      total' := total + res.decayApplied;
    }
  }

  /**
   * The loop of `applyReputationDecay`: for each examined agent of the starting state, in order,
   * the assessment; for each decayed one, its new score and its row are written at once.
   */
  method RunDecay(db: Db, now: Time) returns (summary: DecaySummary)
    modifies db
    ensures summary == Expected(old(db.agents), old(db.agentOrder), old(db.jobOrder), old(db.jobs), now)
    ensures db.agents == Decayed(old(db.agents), summary.results)
    ensures db.log == old(db.log) + DecayRows(summary.results)
    ensures db.agentOrder == old(db.agentOrder) && db.jobs == old(db.jobs)
    ensures db.jobOrder == old(db.jobOrder) && db.reviews == old(db.reviews)
  {
    var agents0 := db.agents;
    var log0 := db.log;
    var jobOrder := db.jobOrder;
    var jobs := db.jobs;
    var ids := Examined(db.agentOrder, db.agents);
    var results: seq<DecayResult> := [];
    var total := 0.0;
    var i := 0;
    assert ids[..0] == [];
    while i < |ids|
      invariant 0 <= i <= |ids| && forall x :: x in ids[..i] ==> x in agents0
      invariant results == Results(ids[..i], agents0, jobOrder, jobs, now) && total == TotalDecay(results)
      invariant db.agents == Decayed(agents0, results) && db.log == log0 + DecayRows(results)
      invariant db.agentOrder == old(db.agentOrder) && db.jobs == jobs
      invariant db.jobOrder == jobOrder && db.reviews == old(db.reviews)
    {
      results, total := DecayStep(db, ids, i, agents0, log0, jobOrder, jobs, now, results, total);
      i := i + 1;
    }
    assert ids[..|ids|] == ids;
    summary := DecaySummary(now, |ids|, |results|, total, results);
  }

  /**
   * `applyReputationDecay`: returns the summary of a run over the state it started from, writes
   * each decayed agent's new score and one zero-amount row per decayed agent, and keeps the books.
   */
  method ApplyReputationDecay(db: Db, now: Time) returns (summary: DecaySummary)
    requires db.Valid()
    modifies db
    ensures db.Valid()
    ensures summary == Expected(old(db.agents), old(db.agentOrder), old(db.jobOrder), old(db.jobs), now)
    ensures db.agents == Decayed(old(db.agents), summary.results)
    ensures db.log == old(db.log) + DecayRows(summary.results)
    ensures db.agentOrder == old(db.agentOrder) && db.jobs == old(db.jobs)
    ensures db.jobOrder == old(db.jobOrder) && db.reviews == old(db.reviews)
  {
    SummaryFacts(db.agents, db.agentOrder, db.jobOrder, db.jobs, now);
    DecayKeepsBooks(db.agents, db.agentOrder, db.jobs, db.jobOrder, db.log, db.reviews,
                    Expected(db.agents, db.agentOrder, db.jobOrder, db.jobs, now).results);
    summary := RunDecay(db, now);
  }

  /** `previewReputationDecay`: the same summary as a run would return, and no write at all. */
  method PreviewReputationDecay(db: Db, now: Time) returns (summary: DecaySummary)
    ensures summary == Expected(db.agents, db.agentOrder, db.jobOrder, db.jobs, now)
  {
    var ids := Examined(db.agentOrder, db.agents);
    var results: seq<DecayResult> := [];
    var total := 0.0;
    var i := 0;
    while i < |ids|
      invariant 0 <= i <= |ids|
      invariant results == Results(ids[..i], db.agents, db.jobOrder, db.jobs, now)
      invariant total == TotalDecay(results)
    {
      var id := ids[i];
      ResultsStep(ids, i, db.agents, db.jobOrder, db.jobs, now);
      var outcome := AssessIn(db.jobOrder, db.jobs, db.agents, id, now);
      if outcome.Some? {
        WritesStep(db.agents, [], results, outcome.value);
        results := results + [outcome.value];
        total := total + outcome.value.decayApplied;
      }
      i := i + 1;
    }
    assert ids[..|ids|] == ids;
    summary := DecaySummary(now, |ids|, |results|, total, results);
  }

  // ---------------------------------------------------------------- one agent's status

  datatype DecayStatus = DecayStatus(
    agentId: AgentId,
    currentScore: real,
    daysInactive: int,
    pendingDecay: real,
    projectedScore: real,
    atFloor: bool)

  /** `getAgentDecayStatus`: nothing for an unknown agent, otherwise the decay it would undergo. */
  function GetAgentDecayStatus(agents: map<AgentId, Agent>, jobOrder: seq<JobId>, jobs: map<JobId, Job>, id: AgentId, now: Time): (s: Option<DecayStatus>)
    ensures s.None? <==> id !in agents
    ensures s.Some? ==>
      && s.value.currentScore == agents[id].reputation
      && s.value.pendingDecay == CalculateDecay(s.value.daysInactive) >= 0.0
      && s.value.projectedScore >= REPUTATION_FLOOR
      && (s.value.atFloor <==> s.value.currentScore <= REPUTATION_FLOOR)
      && (!s.value.atFloor ==> s.value.projectedScore <= s.value.currentScore)
  {
    if id !in agents then None
    else
      var a := agents[id];
      var days := DaysInactive(jobOrder, jobs, id, a.createdAt, now);
      var pending := CalculateDecay(days);
      Some(DecayStatus(id, a.reputation, days, pending, MaxReal(REPUTATION_FLOOR, a.reputation - pending), a.reputation <= REPUTATION_FLOOR))
  }

  /**
   * The status agrees with a run: an agent above the floor whose projected score is lower is
   * decayed by the run to exactly that score, and one whose projection equals its score is not.
   */
  lemma StatusAgreesWithRun(agents: map<AgentId, Agent>, jobOrder: seq<JobId>, jobs: map<JobId, Job>, id: AgentId, now: Time)
    requires id in agents
    ensures
      var s := GetAgentDecayStatus(agents, jobOrder, jobs, id, now).value;
      var r := AssessIn(jobOrder, jobs, agents, id, now);
      && (r.Some? <==> s.projectedScore < s.currentScore)
      && (r.Some? ==> r.value.newScore == s.projectedScore && r.value.decayApplied == s.currentScore - s.projectedScore)
  {
  }

  /** Below the floor the status projects a score of 3.0, above the current one; a run never examines such an agent. */
  lemma StatusBelowFloor(agents: map<AgentId, Agent>, agentOrder: seq<AgentId>, jobOrder: seq<JobId>, jobs: map<JobId, Job>, id: AgentId, now: Time)
    requires id in agents && agents[id].reputation < REPUTATION_FLOOR
    ensures GetAgentDecayStatus(agents, jobOrder, jobs, id, now).value.projectedScore == REPUTATION_FLOOR > agents[id].reputation
    ensures id !in Examined(agentOrder, agents)
  {
  }
}
