/**
 * The store every service writes to: the agents, jobs, transactions and reviews
 * tables, held by one `Db` object that is passed to the services (the database
 * connection that both revisions reach through `getDb()`).
 *
 * Its invariant `Valid()` is the accounting of the shell economy:
 *  - every agent's balance is non-negative and equals the sum of its transaction rows;
 *  - escrow is conserved: what the job rows still hold is exactly what the escrow rows took in
 *    and the payment, fee and refund rows have not yet given out;
 *  - shells are conserved: balances + escrow + collected fees == shells minted by grants and bonuses;
 *  - activity mining never paid more than two bonuses per completed job among the first ten;
 *  - the referral bonus was paid to an agent exactly when its flag is set, and at most once;
 *  - every review passed the admission rules and no reviewer reviewed a job twice.
 */
module Ledger {
  import opened Wrappers
  import opened Economy
  import opened Sequences

  type AgentId = string
  type JobId = string

  /** A point in time, in milliseconds since the epoch (what `Date.getTime()` returns). */
  type Time = int

  /** The agent id the fee rows of the service revision are written to. */
  const TIDE_POOL: AgentId := "tide-pool"

  /** An agents row, with every column that either revision reads or writes, whether or not its schema declares it. */
  datatype Agent = Agent(
    name: string,
    moltbookId: Option<string>,
    balance: int,
    reputation: real,
    jobsCompleted: int,
    jobsRequested: int,
    referredBy: Option<AgentId>,
    referralCode: string,
    referralsMade: int,
    referralBonusPaid: bool,
    webhookUrl: Option<string>,
    createdAt: Time,
    lastJobCompletedAt: Option<Time>)

  datatype JobStatus = Requested | Accepted | Delivered | Completed | Cancelled | Disputed

  /** A jobs row; `amount` is `agreed_price` in the route revision, `title` exists only there. */
  datatype Job = Job(
    serviceId: Option<string>,
    requester: AgentId,
    provider: AgentId,
    amount: int,
    title: Option<string>,
    description: Option<string>,
    deliverable: Option<string>,
    status: JobStatus,
    createdAt: Time,
    completedAt: Option<Time>)

  datatype TxKind =
    // written by the service revision (src/services)
    | StarterGrant | EscrowLock | Payment | PlatformFee | EscrowRelease
    | ActivityMiningBonus | ReputationDecay
    // written by the route revision (projects/agent-economy)
    | Escrow | Fee | Refund | ReferralBonusNew | ReferralBonusReferrer

  /**
   * A transactions row. The service revision writes `Entry`: one agent and a signed amount.
   * The route revision writes `Transfer`: an optional source, an optional destination
   * (NULL stands for escrow or the Tide Pool) and a positive amount.
   */
  datatype Tx =
    | Entry(agent: AgentId, kind: TxKind, amount: int)
    | Transfer(from: Option<AgentId>, to: Option<AgentId>, kind: TxKind, amount: int, job: Option<JobId>)

  /** A reviews row; the service revision does not insist on whole-number ratings, so a rating is real. */
  datatype Review = Review(job: JobId, reviewer: AgentId, reviewee: AgentId, rating: real, comment: Option<string>)

  // ---------------------------------------------------------------- foreign keys

  /**
   * The foreign keys of the transactions table, which SQLite enforces under `foreign_keys = ON`:
   * an `Entry` row names a registered agent (`agent_id`, src/db/schema.ts); a `Transfer` row
   * names registered agents as its source and destination when it has them, and a job whose
   * row is already inserted when it is tagged with one (projects/agent-economy/src/db/index.ts).
   */
  predicate RowAdmitted(agents: map<AgentId, Agent>, jobs: map<JobId, Job>, t: Tx) {
    match t
    case Entry(agent, _, _) => agent in agents
    case Transfer(from, to, _, _, job) =>
      && (from.Some? ==> from.value in agents)
      && (to.Some? ==> to.value in agents)
      && (job.Some? ==> job.value in jobs)
  }

  /** The tables a sequence of statements leaves behind, and whether it ran to its end. */
  datatype Attempt = Attempt(finished: bool, agents: map<AgentId, Agent>, jobs: map<JobId, Job>, log: seq<Tx>)

  // ---------------------------------------------------------------- job lifecycle

  /** The status changes the two revisions allow between them; every other change is illegal. */
  predicate CanMove(from: JobStatus, to: JobStatus) {
    match (from, to)
    case (Requested, Accepted) => true
    case (Requested, Cancelled) => true
    case (Accepted, Delivered) => true
    case (Delivered, Completed) => true
    case (Accepted, Disputed) => true
    case (Delivered, Disputed) => true
    case _ => false
  }

  /** Statuses that no operation leaves. */
  predicate Terminal(s: JobStatus) {
    s == Completed || s == Cancelled || s == Disputed
  }

  /** While a job is open or disputed, its amount stays out of the requester's balance and unpaid. */
  predicate InEscrow(s: JobStatus) {
    s == Requested || s == Accepted || s == Delivered || s == Disputed
  }

  /** A terminal status has no legal successor, and every legal move starts from a status in escrow. */
  lemma LifecycleShape(from: JobStatus, to: JobStatus)
    ensures Terminal(from) ==> !CanMove(from, to)
    ensures CanMove(from, to) ==> InEscrow(from) && from != Disputed
    ensures CanMove(from, to) ==> from != to
  {
  }

  /** The parties and the amount of a job never change once it exists. */
  predicate SameDeal(a: Job, b: Job) {
    a.requester == b.requester && a.provider == b.provider && a.amount == b.amount
  }

  /** Between two states of the jobs table, no job vanished, no deal changed and every status change was legal. */
  ghost predicate JobsEvolve(before: map<JobId, Job>, after: map<JobId, Job>) {
    forall id :: id in before ==>
      id in after && SameDeal(before[id], after[id]) &&
      (after[id].status == before[id].status || CanMove(before[id].status, after[id].status))
  }

  /** A legal status change of one job, its deal kept, is an evolution of the table. */
  lemma MoveEvolves(jobs: map<JobId, Job>, id: JobId, job: Job)
    requires id in jobs && SameDeal(jobs[id], job) && CanMove(jobs[id].status, job.status)
    ensures JobsEvolve(jobs, jobs[id := job])
  {
  }

  /** Inserting a new job is an evolution of the table. */
  lemma InsertEvolves(jobs: map<JobId, Job>, id: JobId, job: Job)
    requires id !in jobs
    ensures JobsEvolve(jobs, jobs[id := job])
  {
  }


  // ---------------------------------------------------------------- keys and insertion order

  lemma PrefixMembers(s: seq<string>, n: nat)
    requires n <= |s|
    ensures forall x :: x in s[..n] ==> x in s
  {
  }

  lemma LastNotInPrefix(s: seq<string>)
    requires Distinct(s) && s != []
    ensures s[|s| - 1] !in s[..|s| - 1]
  {
    var prefix := s[..|s| - 1];
    forall i | 0 <= i < |prefix|
      ensures prefix[i] != s[|s| - 1]
    {
      assert prefix[i] == s[i];
    }
  }

  lemma DistinctAppend(s: seq<string>, x: string)
    requires Distinct(s) && x !in s
    ensures Distinct(s + [x])
  {
  }

  /** `order` lists the keys of `m` once each: the order in which rows were inserted. */
  ghost predicate Enumerates<V>(order: seq<string>, m: map<string, V>) {
    Distinct(order) && forall k :: k in order <==> k in m
  }

  // ---------------------------------------------------------------- sums over the tables

  /** The shells in the balances of the agents listed in `order`. */
  function TotalBalance(order: seq<AgentId>, agents: map<AgentId, Agent>): int {
    if order == [] then 0
    else
      var k := order[|order| - 1];
      TotalBalance(order[..|order| - 1], agents) + (if k in agents then agents[k].balance else 0)
  }

  /** Changing an agent that `order` does not list leaves the total alone. */
  lemma {:induction false} BalanceUntouched(order: seq<AgentId>, agents: map<AgentId, Agent>, k: AgentId, agent: Agent)
    requires k !in order
    ensures TotalBalance(order, agents[k := agent]) == TotalBalance(order, agents)
  {
    if order != [] {
      PrefixMembers(order, |order| - 1);
      BalanceUntouched(order[..|order| - 1], agents, k, agent);
    }
  }

  /** Changing one listed agent changes the total by the difference of its two balances. */
  lemma {:induction false} BalanceUpdate(order: seq<AgentId>, agents: map<AgentId, Agent>, k: AgentId, agent: Agent)
    requires Distinct(order) && k in order && k in agents
    ensures TotalBalance(order, agents[k := agent]) == TotalBalance(order, agents) - agents[k].balance + agent.balance
  {
    var n := |order| - 1;
    var prefix := order[..n];
    assert Distinct(prefix);
    if order[n] == k {
      LastNotInPrefix(order);
      BalanceUntouched(prefix, agents, k, agent);
    } else {
      assert k in prefix by {
        var i :| 0 <= i < |order| && order[i] == k;
        assert i < n;
        assert prefix[i] == k;
      }
      BalanceUpdate(prefix, agents, k, agent);
    }
  }

  /** Appending a new agent to the table and to the order adds its balance. */
  lemma BalanceInsert(order: seq<AgentId>, agents: map<AgentId, Agent>, k: AgentId, agent: Agent)
    requires k !in order
    ensures TotalBalance(order + [k], agents[k := agent]) == TotalBalance(order, agents) + agent.balance
  {
    assert (order + [k])[..|order|] == order;
    BalanceUntouched(order, agents, k, agent);
  }

  /** Two tables with the same keys and the same balances have the same total. */
  lemma {:induction false} BalancePointwise(order: seq<AgentId>, agents: map<AgentId, Agent>, agents': map<AgentId, Agent>)
    requires forall k :: k in agents <==> k in agents'
    requires forall k :: k in agents ==> agents[k].balance == agents'[k].balance
    ensures TotalBalance(order, agents') == TotalBalance(order, agents)
  {
    if order != [] {
      BalancePointwise(order[..|order| - 1], agents, agents');
    }
  }

  /** What a job holds in escrow. */
  function Held(j: Job): int {
    if InEscrow(j.status) then j.amount else 0
  }

  function CompletedOne(j: Job): int {
    if j.status == Completed then 1 else 0
  }

  /** The shells held in escrow by the jobs listed in `order`. */
  function Escrowed(order: seq<JobId>, jobs: map<JobId, Job>): int {
    if order == [] then 0
    else
      var k := order[|order| - 1];
      Escrowed(order[..|order| - 1], jobs) + (if k in jobs then Held(jobs[k]) else 0)
  }

  /** `SELECT COUNT(*) FROM jobs WHERE status = 'completed'`, over the jobs listed in `order`. */
  function CompletedCount(order: seq<JobId>, jobs: map<JobId, Job>): int {
    if order == [] then 0
    else
      var k := order[|order| - 1];
      CompletedCount(order[..|order| - 1], jobs) + (if k in jobs then CompletedOne(jobs[k]) else 0)
  }

  /** Changing a job that `order` does not list leaves both tallies alone. */
  lemma {:induction false} JobsUntouched(order: seq<JobId>, jobs: map<JobId, Job>, k: JobId, job: Job)
    requires k !in order
    ensures Escrowed(order, jobs[k := job]) == Escrowed(order, jobs)
    ensures CompletedCount(order, jobs[k := job]) == CompletedCount(order, jobs)
  {
    if order != [] {
      PrefixMembers(order, |order| - 1);
      JobsUntouched(order[..|order| - 1], jobs, k, job);
    }
  }

  /** Changing one listed job changes each tally by the difference of its two contributions. */
  lemma {:induction false} JobsUpdate(order: seq<JobId>, jobs: map<JobId, Job>, k: JobId, job: Job)
    requires Distinct(order) && k in order && k in jobs
    ensures Escrowed(order, jobs[k := job]) == Escrowed(order, jobs) - Held(jobs[k]) + Held(job)
    ensures CompletedCount(order, jobs[k := job]) == CompletedCount(order, jobs) - CompletedOne(jobs[k]) + CompletedOne(job)
  {
    var n := |order| - 1;
    var prefix := order[..n];
    assert Distinct(prefix);
    if order[n] == k {
      LastNotInPrefix(order);
      JobsUntouched(prefix, jobs, k, job);
    } else {
      assert k in prefix by {
        var i :| 0 <= i < |order| && order[i] == k;
        assert i < n;
        assert prefix[i] == k;
      }
      JobsUpdate(prefix, jobs, k, job);
    }
  }

  /** Appending a new job to the table and to the order adds its contributions. */
  lemma JobsInsert(order: seq<JobId>, jobs: map<JobId, Job>, k: JobId, job: Job)
    requires k !in order
    ensures Escrowed(order + [k], jobs[k := job]) == Escrowed(order, jobs) + Held(job)
    ensures CompletedCount(order + [k], jobs[k := job]) == CompletedCount(order, jobs) + CompletedOne(job)
  {
    assert (order + [k])[..|order|] == order;
    JobsUntouched(order, jobs, k, job);
  }

  /** No count of jobs is negative. */
  lemma {:induction false} CompletedCountNonNegative(order: seq<JobId>, jobs: map<JobId, Job>)
    ensures CompletedCount(order, jobs) >= 0
  {
    if order != [] {
      CompletedCountNonNegative(order[..|order| - 1], jobs);
    }
  }

  /** The completed jobs that `order` lists. */
  ghost function CompletedIds(order: seq<JobId>, jobs: map<JobId, Job>): set<JobId> {
    set id | id in order && id in jobs && jobs[id].status == Completed
  }

  /** Listing one more job adds it to the completed ones exactly when it is completed. */
  lemma CompletedIdsAppend(prefix: seq<JobId>, last: JobId, jobs: map<JobId, Job>)
    ensures CompletedIds(prefix + [last], jobs)
         == CompletedIds(prefix, jobs) + (if last in jobs && jobs[last].status == Completed then {last} else {})
  {
  }

  /** The completed count is the number of distinct completed jobs listed. */
  lemma {:induction false} CompletedCountIsCardinality(order: seq<JobId>, jobs: map<JobId, Job>)
    requires Distinct(order)
    ensures CompletedCount(order, jobs) == |CompletedIds(order, jobs)|
  {
    if order != [] {
      var n := |order| - 1;
      var prefix := order[..n];
      assert Distinct(prefix);
      CompletedCountIsCardinality(prefix, jobs);
      LastNotInPrefix(order);
      assert order == prefix + [order[n]];
      CompletedIdsAppend(prefix, order[n], jobs);
    }
  }

  // ---------------------------------------------------------------- sums over the log

  /** What a transaction row adds to agent `a`'s balance. */
  function Effect(t: Tx, a: AgentId): int {
    match t
    case Entry(agent, _, amount) => if agent == a then amount else 0
    case Transfer(from, to, _, amount, _) =>
      (if to == Some(a) then amount else 0) - (if from == Some(a) then amount else 0)
  }

  /** What a row gives out of escrow (negative: what it takes into escrow). */
  function EscrowFlow(t: Tx): int {
    match t
    case Entry(_, kind, amount) =>
      if kind == EscrowLock || kind == EscrowRelease || kind == Payment || kind == PlatformFee then amount else 0
    case Transfer(_, _, kind, amount, _) =>
      if kind == Escrow then -amount
      else if kind == Payment || kind == Fee || kind == Refund then amount
      else 0
  }

  /** Shells a row creates: starter grants and bonuses. */
  function Minting(t: Tx): int {
    match t
    case Entry(_, kind, amount) => if kind == StarterGrant || kind == ActivityMiningBonus then amount else 0
    case Transfer(_, _, kind, amount, _) => if kind == ReferralBonusNew || kind == ReferralBonusReferrer then amount else 0
  }

  /** Shells a row puts into the Tide Pool. */
  function FeeIncome(t: Tx): int {
    match t
    case Entry(_, kind, amount) => if kind == PlatformFee then amount else 0
    case Transfer(_, _, kind, amount, _) => if kind == Fee then amount else 0
  }

  /** Shells a row pays as activity-mining bonus. */
  function MiningIncome(t: Tx): int {
    match t
    case Entry(_, kind, amount) => if kind == ActivityMiningBonus then amount else 0
    case Transfer(_, _, _, _, _) => 0
  }

  /** What a row pays `a` as a newly referred agent. */
  function ReferralShare(t: Tx, a: AgentId): int {
    if t.Transfer? && t.kind == ReferralBonusNew && t.to == Some(a) then t.amount else 0
  }

  /** What the log has given out of escrow, net of what it took in. */
  function LogEscrowFlow(log: seq<Tx>): int {
    if log == [] then 0 else LogEscrowFlow(log[..|log| - 1]) + EscrowFlow(log[|log| - 1])
  }

  /** Shells the log has minted. */
  function LogMinted(log: seq<Tx>): int {
    if log == [] then 0 else LogMinted(log[..|log| - 1]) + Minting(log[|log| - 1])
  }

  /** Shells the log has paid to the Tide Pool. */
  function LogFees(log: seq<Tx>): int {
    if log == [] then 0 else LogFees(log[..|log| - 1]) + FeeIncome(log[|log| - 1])
  }

  /** Shells the log has paid as activity-mining bonus. */
  function LogMining(log: seq<Tx>): int {
    if log == [] then 0 else LogMining(log[..|log| - 1]) + MiningIncome(log[|log| - 1])
  }

  /** The sum of agent `a`'s rows: what its balance must be. */
  function Credited(log: seq<Tx>, a: AgentId): int {
    if log == [] then 0 else Credited(log[..|log| - 1], a) + Effect(log[|log| - 1], a)
  }

  /** Shells paid to `a` as a newly referred agent. */
  function ReferralPaid(log: seq<Tx>, a: AgentId): int {
    if log == [] then 0 else ReferralPaid(log[..|log| - 1], a) + ReferralShare(log[|log| - 1], a)
  }

  /** Appending one row adds its share to each global sum over the log. */
  lemma LogAppend(log: seq<Tx>, t: Tx)
    ensures LogEscrowFlow(log + [t]) == LogEscrowFlow(log) + EscrowFlow(t)
    ensures LogMinted(log + [t]) == LogMinted(log) + Minting(t)
    ensures LogFees(log + [t]) == LogFees(log) + FeeIncome(t)
    ensures LogMining(log + [t]) == LogMining(log) + MiningIncome(t)
  {
    assert (log + [t])[..|log|] == log;
  }

  /** Appending one row adds its share to an agent's own sums. */
  lemma AgentRowsAppend(log: seq<Tx>, t: Tx, a: AgentId)
    ensures Credited(log + [t], a) == Credited(log, a) + Effect(t, a)
    ensures ReferralPaid(log + [t], a) == ReferralPaid(log, a) + ReferralShare(t, a)
  {
    assert (log + [t])[..|log|] == log;
  }

  // ---------------------------------------------------------------- the invariant

  /**
   * What the log says about one agent id: a registered agent's balance is non-negative and equals the
   * sum of its rows, and it was paid the referral bonus once if its flag is set and never otherwise;
   * an id that is neither registered nor the Tide Pool has no rows of its own.
   */
  ghost predicate AccountAgrees(agents: map<AgentId, Agent>, log: seq<Tx>, a: AgentId) {
    if a in agents then
      && agents[a].balance >= 0
      && agents[a].balance == Credited(log, a)
      && ReferralPaid(log, a) == (if agents[a].referralBonusPaid then REFERRAL_BONUS else 0)
    else
      a != TIDE_POOL ==> Credited(log, a) == 0 && ReferralPaid(log, a) == 0
  }

  /** Jobs refer to registered agents, never hire their requester, and carry a positive amount. */
  ghost predicate JobsWellFormed(agents: map<AgentId, Agent>, jobs: map<JobId, Job>) {
    forall id :: id in jobs ==>
      jobs[id].requester in agents && jobs[id].provider in agents &&
      jobs[id].requester != jobs[id].provider && jobs[id].amount > 0
  }

  /** The admission rules a stored review passed. */
  ghost predicate Admitted(jobs: map<JobId, Job>, r: Review) {
    && r.job in jobs
    && jobs[r.job].status == Completed
    && (r.reviewer == jobs[r.job].requester || r.reviewer == jobs[r.job].provider)
    && (r.reviewee == jobs[r.job].requester || r.reviewee == jobs[r.job].provider)
    && r.reviewer != r.reviewee
    && 1.0 <= r.rating <= 5.0
  }

  /** No stored review has the same job and reviewer as `r`. */
  predicate FirstBy(reviews: seq<Review>, r: Review) {
    forall i :: 0 <= i < |reviews| ==> reviews[i].job != r.job || reviews[i].reviewer != r.reviewer
  }

  ghost predicate ReviewsAdmitted(jobs: map<JobId, Job>, reviews: seq<Review>) {
    && (forall i :: 0 <= i < |reviews| ==> Admitted(jobs, reviews[i]))
    && (forall i, j :: 0 <= i < j < |reviews| ==>
          reviews[i].job != reviews[j].job || reviews[i].reviewer != reviews[j].reviewer)
  }

  /** The UNIQUE constraint on referral codes. */
  ghost predicate CodesUnique(agents: map<AgentId, Agent>) {
    forall a, b :: a in agents && b in agents && a != b ==> agents[a].referralCode != agents[b].referralCode
  }

  /** The shape of the tables: keys, references between rows, and the constraints on reviews and codes. */
  ghost predicate Tables(
    agents: map<AgentId, Agent>, agentOrder: seq<AgentId>,
    jobs: map<JobId, Job>, jobOrder: seq<JobId>, reviews: seq<Review>)
  {
    && Enumerates(agentOrder, agents)
    && Enumerates(jobOrder, jobs)
    && TIDE_POOL !in agents
    && JobsWellFormed(agents, jobs)
    && ReviewsAdmitted(jobs, reviews)
    && CodesUnique(agents)
  }

  /** Each agent's balance and referral flag agree with its own rows of the log. */
  ghost predicate Records(agents: map<AgentId, Agent>, log: seq<Tx>) {
    forall a :: AccountAgrees(agents, log, a)
  }

  /** What escrow should hold by the log, less what the jobs hold: zero when the books balance. */
  function EscrowGap(jobOrder: seq<JobId>, jobs: map<JobId, Job>, log: seq<Tx>): int {
    LogEscrowFlow(log) + Escrowed(jobOrder, jobs)
  }

  /** Shells held less shells minted: zero when the books balance. */
  function SupplyGap(agentOrder: seq<AgentId>, agents: map<AgentId, Agent>, jobOrder: seq<JobId>, jobs: map<JobId, Job>, log: seq<Tx>): int {
    TotalBalance(agentOrder, agents) + Escrowed(jobOrder, jobs) + LogFees(log) - LogMinted(log)
  }

  /** The most activity mining may have paid once `completed` jobs are completed: two bonuses for each of the first ten. */
  function MiningCap(completed: int): (cap: int)
    ensures cap == 2 * ACTIVITY_MINING_BONUS * Min(completed, ACTIVITY_MINING_THRESHOLD)
  {
    if completed < 10 then 10 * completed else 100
  }

  /**
   * The global books: escrow holds exactly what the log took into it and has not yet given out;
   * balances, escrow and fees add up to the shells ever minted; activity mining paid at most
   * two bonuses for each of the first ten completed jobs.
   */
  ghost predicate Books(
    agents: map<AgentId, Agent>, agentOrder: seq<AgentId>,
    jobs: map<JobId, Job>, jobOrder: seq<JobId>, log: seq<Tx>)
  {
    && EscrowGap(jobOrder, jobs, log) == 0
    && SupplyGap(agentOrder, agents, jobOrder, jobs, log) == 0
    && LogMining(log) <= MiningCap(CompletedCount(jobOrder, jobs))
  }

  /** The accounting of the shell economy (see the module comment). */
  ghost predicate Consistent(
    agents: map<AgentId, Agent>, agentOrder: seq<AgentId>,
    jobs: map<JobId, Job>, jobOrder: seq<JobId>,
    log: seq<Tx>, reviews: seq<Review>)
  {
    && Tables(agents, agentOrder, jobs, jobOrder, reviews)
    && Records(agents, log)
    && Books(agents, agentOrder, jobs, jobOrder, log)
  }

  /**
   * What the invariant promises of a state, in the terms of the schema: jobs name two distinct
   * registered agents and a positive amount, referral codes are unique, every stored review
   * passed admission, every balance is non-negative and equals the agent's own rows of the log,
   * and no shell is missing from escrow or from the supply.
   */
  lemma ConsistentMeans(
    agents: map<AgentId, Agent>, agentOrder: seq<AgentId>,
    jobs: map<JobId, Job>, jobOrder: seq<JobId>,
    log: seq<Tx>, reviews: seq<Review>)
    requires Consistent(agents, agentOrder, jobs, jobOrder, log, reviews)
    ensures forall id :: id in jobs ==>
      jobs[id].requester in agents && jobs[id].provider in agents &&
      jobs[id].requester != jobs[id].provider && jobs[id].amount > 0
    ensures forall a, b :: a in agents && b in agents && a != b ==> agents[a].referralCode != agents[b].referralCode
    ensures forall i :: 0 <= i < |reviews| ==> Admitted(jobs, reviews[i])
    ensures forall a :: a in agents ==> 0 <= agents[a].balance == Credited(log, a)
    ensures EscrowGap(jobOrder, jobs, log) == 0 && SupplyGap(agentOrder, agents, jobOrder, jobs, log) == 0
  {
    forall a | a in agents
      ensures 0 <= agents[a].balance == Credited(log, a)
    {
      BalanceNonNegative(agents, log, a);
    }
  }

  // ---------------------------------------------------------------- primitive steps

  /**
   * `after` is the agents row `before` with `delta` added to its balance, its referral code and
   * referral flag kept; the columns the accounting does not read (counters, reputation, timestamps,
   * webhook) may change with it.
   */
  predicate Credits(before: Agent, after: Agent, delta: int) {
    after.balance == before.balance + delta &&
    after.referralCode == before.referralCode &&
    after.referralBonusPaid == before.referralBonusPaid
  }

  /** `after` differs from `before` only in columns the accounting does not read. */
  predicate SameAccount(before: Agent, after: Agent) {
    Credits(before, after, 0)
  }

  /** `after` is `before` paid the referral bonus as a referred agent: ten more shells and the flag newly set. */
  predicate ReferralCredits(before: Agent, after: Agent) {
    after.balance == before.balance + REFERRAL_BONUS &&
    after.referralCode == before.referralCode &&
    !before.referralBonusPaid && after.referralBonusPaid
  }

  /** Under the records, a registered agent's balance is the sum of its rows and is not negative. */
  lemma BalanceNonNegative(agents: map<AgentId, Agent>, log: seq<Tx>, a: AgentId)
    requires Records(agents, log) && a in agents
    ensures 0 <= agents[a].balance == Credited(log, a)
  {
    assert AccountAgrees(agents, log, a);
  }

  /** How replacing agent `a` by `agent` and posting row `t` moves the gaps. */
  lemma GapsPost(
    agents: map<AgentId, Agent>, agentOrder: seq<AgentId>, jobs: map<JobId, Job>, jobOrder: seq<JobId>,
    log: seq<Tx>, a: AgentId, agent: Agent, t: Tx)
    requires Distinct(agentOrder) && a in agentOrder && a in agents
    ensures EscrowGap(jobOrder, jobs, log + [t]) == EscrowGap(jobOrder, jobs, log) + EscrowFlow(t)
    ensures SupplyGap(agentOrder, agents[a := agent], jobOrder, jobs, log + [t])
         == SupplyGap(agentOrder, agents, jobOrder, jobs, log) + agent.balance - agents[a].balance + FeeIncome(t) - Minting(t)
    ensures LogMining(log + [t]) == LogMining(log) + MiningIncome(t)
  {
    LogAppend(log, t);
    BalanceUpdate(agentOrder, agents, a, agent);
  }

  /** How appending row `t` alone moves the gaps. */
  lemma GapsRow(
    agents: map<AgentId, Agent>, agentOrder: seq<AgentId>, jobs: map<JobId, Job>, jobOrder: seq<JobId>,
    log: seq<Tx>, t: Tx)
    ensures EscrowGap(jobOrder, jobs, log + [t]) == EscrowGap(jobOrder, jobs, log) + EscrowFlow(t)
    ensures SupplyGap(agentOrder, agents, jobOrder, jobs, log + [t])
         == SupplyGap(agentOrder, agents, jobOrder, jobs, log) + FeeIncome(t) - Minting(t)
    ensures LogMining(log + [t]) == LogMining(log) + MiningIncome(t)
  {
    LogAppend(log, t);
  }

  /** How replacing job `id` by `job` moves the gaps and the completed count. */
  lemma GapsJob(
    agents: map<AgentId, Agent>, agentOrder: seq<AgentId>, jobs: map<JobId, Job>, jobOrder: seq<JobId>,
    log: seq<Tx>, id: JobId, job: Job)
    requires Distinct(jobOrder) && id in jobOrder && id in jobs
    ensures EscrowGap(jobOrder, jobs[id := job], log) == EscrowGap(jobOrder, jobs, log) - Held(jobs[id]) + Held(job)
    ensures SupplyGap(agentOrder, agents, jobOrder, jobs[id := job], log)
         == SupplyGap(agentOrder, agents, jobOrder, jobs, log) - Held(jobs[id]) + Held(job)
    ensures CompletedCount(jobOrder, jobs[id := job]) == CompletedCount(jobOrder, jobs) - CompletedOne(jobs[id]) + CompletedOne(job)
  {
    JobsUpdate(jobOrder, jobs, id, job);
  }

  /** Row `t` changes the balance of agent `a` by `delta` and of no other agent, and pays no referral bonus. */
  predicate Lands(t: Tx, a: AgentId, delta: int) {
    || (t.Entry? && t.agent == a && t.amount == delta)
    || (t.Transfer? && t.from == None && t.to == Some(a) && t.amount == delta && t.kind != ReferralBonusNew)
    || (t.Transfer? && t.from == Some(a) && t.to == None && t.amount == -delta)
  }

  /** Row `t` changes no agent's balance. */
  predicate LandsNowhere(t: Tx) {
    (t.Entry? && t.agent == TIDE_POOL) || (t.Transfer? && t.from == None && t.to == None)
  }

  /** Replacing agent `a`, with a row that lands on it for the change of balance, keeps every agent's records. */
  lemma PostRecords(agents: map<AgentId, Agent>, log: seq<Tx>, a: AgentId, agent: Agent, t: Tx)
    requires Records(agents, log)
    requires a in agents && agent.balance >= 0 && agent.referralBonusPaid == agents[a].referralBonusPaid
    requires Lands(t, a, agent.balance - agents[a].balance)
    ensures Records(agents[a := agent], log + [t])
  {
    var log' := log + [t];
    var agents' := agents[a := agent];
    forall b
      ensures AccountAgrees(agents', log', b)
    {
      assert AccountAgrees(agents, log, b);
      AgentRowsAppend(log, t, b);
    }
  }

  /** Two such replacements in a row. */
  lemma PostTwice(
    agents: map<AgentId, Agent>, log: seq<Tx>,
    a: AgentId, first: Agent, t1: Tx, b: AgentId, second: Agent, t2: Tx)
    requires Records(agents, log)
    requires a in agents && first.balance >= 0 && first.referralBonusPaid == agents[a].referralBonusPaid
    requires Lands(t1, a, first.balance - agents[a].balance)
    requires b in agents && second.balance >= 0 && second.referralBonusPaid == agents[a := first][b].referralBonusPaid
    requires Lands(t2, b, second.balance - agents[a := first][b].balance)
    ensures Records(agents[a := first][b := second], log + [t1] + [t2])
  {
    PostRecords(agents, log, a, first, t1);
    PostRecords(agents[a := first], log + [t1], b, second, t2);
  }

  /** A row that lands on no agent keeps every agent's records. */
  lemma PostNowhere(agents: map<AgentId, Agent>, log: seq<Tx>, t: Tx)
    requires Records(agents, log) && LandsNowhere(t) && TIDE_POOL !in agents
    ensures Records(agents, log + [t])
  {
    var log' := log + [t];
    forall b
      ensures AccountAgrees(agents, log', b)
    {
      assert AccountAgrees(agents, log, b);
      AgentRowsAppend(log, t, b);
    }
  }

  /** A change of an agent that keeps its key and its code keeps the tables' shape. */
  lemma TablesAccount(
    agents: map<AgentId, Agent>, agentOrder: seq<AgentId>,
    jobs: map<JobId, Job>, jobOrder: seq<JobId>, reviews: seq<Review>, a: AgentId, agent: Agent)
    requires Tables(agents, agentOrder, jobs, jobOrder, reviews)
    requires a in agents && agent.referralCode == agents[a].referralCode
    ensures Tables(agents[a := agent], agentOrder, jobs, jobOrder, reviews)
  {
  }

  /** Two such changes in a row. */
  lemma TablesTwoAccounts(
    agents: map<AgentId, Agent>, agentOrder: seq<AgentId>, jobs: map<JobId, Job>, jobOrder: seq<JobId>,
    reviews: seq<Review>, a: AgentId, first: Agent, b: AgentId, second: Agent)
    requires Tables(agents, agentOrder, jobs, jobOrder, reviews)
    requires a in agents && first.referralCode == agents[a].referralCode
    requires b in agents && second.referralCode == agents[a := first][b].referralCode
    ensures Tables(agents[a := first][b := second], agentOrder, jobs, jobOrder, reviews)
  {
    TablesAccount(agents, agentOrder, jobs, jobOrder, reviews, a, first);
    TablesAccount(agents[a := first], agentOrder, jobs, jobOrder, reviews, b, second);
  }

  /** A change of a job that keeps its deal, and never un-completes it, keeps the tables' shape. */
  lemma TablesJob(
    agents: map<AgentId, Agent>, agentOrder: seq<AgentId>,
    jobs: map<JobId, Job>, jobOrder: seq<JobId>, reviews: seq<Review>, id: JobId, job: Job)
    requires Tables(agents, agentOrder, jobs, jobOrder, reviews)
    requires id in jobs && SameDeal(jobs[id], job)
    requires jobs[id].status == Completed ==> job.status == Completed
    ensures Tables(agents, agentOrder, jobs[id := job], jobOrder, reviews)
  {
    var jobs' := jobs[id := job];
    forall i | 0 <= i < |reviews|
      ensures Admitted(jobs', reviews[i])
    {
      assert Admitted(jobs, reviews[i]);
    }
  }

  /** Such a change of a job together with a change of the balance of one agent. */
  lemma TablesJobAndAccount(
    agents: map<AgentId, Agent>, agentOrder: seq<AgentId>, jobs: map<JobId, Job>, jobOrder: seq<JobId>,
    reviews: seq<Review>, id: JobId, job: Job, a: AgentId, agent: Agent)
    requires Tables(agents, agentOrder, jobs, jobOrder, reviews)
    requires id in jobs && SameDeal(jobs[id], job)
    requires jobs[id].status == Completed ==> job.status == Completed
    requires a in agents && agent.referralCode == agents[a].referralCode
    ensures Tables(agents[a := agent], agentOrder, jobs[id := job], jobOrder, reviews)
  {
    TablesJob(agents, agentOrder, jobs, jobOrder, reviews, id, job);
    TablesAccount(agents, agentOrder, jobs[id := job], jobOrder, reviews, a, agent);
  }

  /** Inserting a well-formed job under a new id keeps the tables' shape. */
  lemma TablesInsert(
    agents: map<AgentId, Agent>, agentOrder: seq<AgentId>,
    jobs: map<JobId, Job>, jobOrder: seq<JobId>, reviews: seq<Review>, id: JobId, job: Job)
    requires Tables(agents, agentOrder, jobs, jobOrder, reviews)
    requires id !in jobs && job.amount > 0
    requires job.requester in agents && job.provider in agents && job.requester != job.provider
    ensures Tables(agents, agentOrder, jobs[id := job], jobOrder + [id], reviews)
  {
    DistinctAppend(jobOrder, id);
    var jobs' := jobs[id := job];
    forall i | 0 <= i < |reviews|
      ensures Admitted(jobs', reviews[i])
    {
      assert Admitted(jobs, reviews[i]);
    }
  }

  // ---------------------------------------------------------------- the accounting of each event

  /** A row that takes `amount` from `a` into escrow: `escrow_lock` (service) or `escrow` (route). */
  predicate EscrowRow(t: Tx, a: AgentId, amount: int) {
    t == Entry(a, EscrowLock, -amount) || (t.Transfer? && t == Transfer(Some(a), None, Escrow, amount, t.job))
  }

  /** A row that gives `amount` back from escrow to `a`: `escrow_release` (service) or `refund` (route). */
  predicate ReleaseRow(t: Tx, a: AgentId, amount: int) {
    t == Entry(a, EscrowRelease, amount) || (t.Transfer? && t == Transfer(None, Some(a), Refund, amount, t.job))
  }

  /** A row that pays `amount` from escrow to `a`. */
  predicate PaymentRow(t: Tx, a: AgentId, amount: int) {
    t == Entry(a, Payment, amount) || (t.Transfer? && t == Transfer(None, Some(a), Payment, amount, t.job))
  }

  /** A row that pays `amount` from escrow to the Tide Pool. */
  predicate FeeRow(t: Tx, amount: int) {
    t == Entry(TIDE_POOL, PlatformFee, amount) || (t.Transfer? && t == Transfer(None, None, Fee, amount, t.job))
  }

  lemma BooksOpen(
    agents: map<AgentId, Agent>, agentOrder: seq<AgentId>, jobs: map<JobId, Job>, jobOrder: seq<JobId>,
    log: seq<Tx>, id: JobId, job: Job, requester: Agent, t: Tx)
    requires Books(agents, agentOrder, jobs, jobOrder, log)
    requires Distinct(agentOrder) && job.requester in agentOrder && job.requester in agents
    requires id !in jobOrder && job.status == Requested
    requires requester.balance == agents[job.requester].balance - job.amount
    requires EscrowRow(t, job.requester, job.amount)
    ensures Books(agents[job.requester := requester], agentOrder, jobs[id := job], jobOrder + [id], log + [t])
  {
    GapsPost(agents, agentOrder, jobs, jobOrder, log, job.requester, requester, t);
    JobsInsert(jobOrder, jobs, id, job);
  }

  lemma TablesOpen(
    agents: map<AgentId, Agent>, agentOrder: seq<AgentId>, jobs: map<JobId, Job>, jobOrder: seq<JobId>,
    reviews: seq<Review>, id: JobId, job: Job, requester: Agent)
    requires Tables(agents, agentOrder, jobs, jobOrder, reviews)
    requires id !in jobs && job.amount > 0
    requires job.requester in agents && job.provider in agents && job.requester != job.provider
    requires requester.referralCode == agents[job.requester].referralCode
    ensures Tables(agents[job.requester := requester], agentOrder, jobs[id := job], jobOrder + [id], reviews)
  {
    TablesAccount(agents, agentOrder, jobs, jobOrder, reviews, job.requester, requester);
    TablesInsert(agents[job.requester := requester], agentOrder, jobs, jobOrder, reviews, id, job);
  }

  /**
   * Opening a job: the requester, who can afford it, is debited the amount, one escrow row is
   * logged and the job is inserted as requested. The books still balance.
   */
  lemma OpenEscrow(
    agents: map<AgentId, Agent>, agentOrder: seq<AgentId>, jobs: map<JobId, Job>, jobOrder: seq<JobId>,
    log: seq<Tx>, reviews: seq<Review>, id: JobId, job: Job, requester: Agent, t: Tx)
    requires Consistent(agents, agentOrder, jobs, jobOrder, log, reviews)
    requires id !in jobs && job.status == Requested && job.amount > 0
    requires job.requester in agents && job.provider in agents && job.requester != job.provider
    requires agents[job.requester].balance >= job.amount
    requires Credits(agents[job.requester], requester, -job.amount)
    requires EscrowRow(t, job.requester, job.amount)
    ensures Consistent(agents[job.requester := requester], agentOrder, jobs[id := job], jobOrder + [id], log + [t], reviews)
  {
    BooksOpen(agents, agentOrder, jobs, jobOrder, log, id, job, requester, t);
    PostRecords(agents, log, job.requester, requester, t);
    TablesOpen(agents, agentOrder, jobs, jobOrder, reviews, id, job, requester);
  }

  lemma BooksMove(
    agents: map<AgentId, Agent>, agentOrder: seq<AgentId>, jobs: map<JobId, Job>, jobOrder: seq<JobId>,
    log: seq<Tx>, id: JobId, job: Job)
    requires Books(agents, agentOrder, jobs, jobOrder, log)
    requires Distinct(jobOrder) && id in jobOrder && id in jobs
    requires jobs[id].amount == job.amount && InEscrow(jobs[id].status) && InEscrow(job.status)
    ensures Books(agents, agentOrder, jobs[id := job], jobOrder, log)
  {
    GapsJob(agents, agentOrder, jobs, jobOrder, log, id, job);
  }

  /**
   * A status change between two escrow statuses (accept, deliver, dispute) moves no shells,
   * so the books still balance.
   */
  lemma MoveInEscrow(
    agents: map<AgentId, Agent>, agentOrder: seq<AgentId>, jobs: map<JobId, Job>, jobOrder: seq<JobId>,
    log: seq<Tx>, reviews: seq<Review>, id: JobId, job: Job)
    requires Consistent(agents, agentOrder, jobs, jobOrder, log, reviews)
    requires id in jobs && SameDeal(jobs[id], job)
    requires InEscrow(jobs[id].status) && InEscrow(job.status)
    ensures Consistent(agents, agentOrder, jobs[id := job], jobOrder, log, reviews)
  {
    BooksMove(agents, agentOrder, jobs, jobOrder, log, id, job);
    TablesJob(agents, agentOrder, jobs, jobOrder, reviews, id, job);
  }

  lemma BooksRelease(
    agents: map<AgentId, Agent>, agentOrder: seq<AgentId>, jobs: map<JobId, Job>, jobOrder: seq<JobId>,
    log: seq<Tx>, id: JobId, job: Job, requester: Agent, t: Tx)
    requires Books(agents, agentOrder, jobs, jobOrder, log)
    requires Distinct(agentOrder) && job.requester in agentOrder && job.requester in agents
    requires Distinct(jobOrder) && id in jobOrder && id in jobs
    requires jobs[id].status == Requested && jobs[id].amount == job.amount && job.status == Cancelled
    requires requester.balance == agents[job.requester].balance + job.amount
    requires ReleaseRow(t, job.requester, job.amount)
    ensures Books(agents[job.requester := requester], agentOrder, jobs[id := job], jobOrder, log + [t])
  {
    GapsJob(agents, agentOrder, jobs, jobOrder, log, id, job);
    GapsPost(agents, agentOrder, jobs[id := job], jobOrder, log, job.requester, requester, t);
  }

  /**
   * Cancelling a requested job: the amount goes back from escrow to the requester with one release
   * row, and the job is cancelled. The books still balance.
   */
  lemma ReleaseEscrow(
    agents: map<AgentId, Agent>, agentOrder: seq<AgentId>, jobs: map<JobId, Job>, jobOrder: seq<JobId>,
    log: seq<Tx>, reviews: seq<Review>, id: JobId, job: Job, requester: Agent, t: Tx)
    requires Consistent(agents, agentOrder, jobs, jobOrder, log, reviews)
    requires id in jobs && jobs[id].status == Requested
    requires SameDeal(jobs[id], job) && job.status == Cancelled
    requires Credits(agents[job.requester], requester, job.amount)
    requires ReleaseRow(t, job.requester, job.amount)
    ensures Consistent(agents[job.requester := requester], agentOrder, jobs[id := job], jobOrder, log + [t], reviews)
  {
    BalanceNonNegative(agents, log, job.requester);
    BooksRelease(agents, agentOrder, jobs, jobOrder, log, id, job, requester, t);
    PostRecords(agents, log, job.requester, requester, t);
    TablesJobAndAccount(agents, agentOrder, jobs, jobOrder, reviews, id, job, job.requester, requester);
  }

  /** Completing the job and paying the provider leaves exactly the fee in escrow. */
  lemma SettlePayment(
    agents: map<AgentId, Agent>, agentOrder: seq<AgentId>, jobs: map<JobId, Job>, jobOrder: seq<JobId>,
    log: seq<Tx>, id: JobId, job: Job, payout: int, fee: int, provider: Agent, pay: Tx)
    requires Books(agents, agentOrder, jobs, jobOrder, log)
    requires Distinct(agentOrder) && job.provider in agentOrder && job.provider in agents
    requires Distinct(jobOrder) && id in jobOrder && id in jobs
    requires jobs[id].status == Delivered && jobs[id].amount == job.amount && job.status == Completed
    requires payout + fee == job.amount && provider.balance == agents[job.provider].balance + payout
    requires PaymentRow(pay, job.provider, payout)
    ensures EscrowGap(jobOrder, jobs[id := job], log + [pay]) == -fee
    ensures SupplyGap(agentOrder, agents[job.provider := provider], jobOrder, jobs[id := job], log + [pay]) == -fee
    ensures LogMining(log + [pay]) == LogMining(log)
    ensures CompletedCount(jobOrder, jobs[id := job]) == CompletedCount(jobOrder, jobs) + 1
  {
    GapsJob(agents, agentOrder, jobs, jobOrder, log, id, job);
    GapsPost(agents, agentOrder, jobs[id := job], jobOrder, log, job.provider, provider, pay);
  }

  lemma BooksSettle(
    agents: map<AgentId, Agent>, agentOrder: seq<AgentId>, jobs: map<JobId, Job>, jobOrder: seq<JobId>,
    log: seq<Tx>, id: JobId, job: Job, provider: Agent, pay: Tx)
    requires Books(agents, agentOrder, jobs, jobOrder, log)
    requires Distinct(agentOrder) && job.provider in agentOrder && job.provider in agents
    requires Distinct(jobOrder) && id in jobOrder && id in jobs
    requires jobs[id].status == Delivered && jobs[id].amount == job.amount && job.status == Completed
    requires TidePoolFee(job.amount) == 0
    requires provider.balance == agents[job.provider].balance + Payout(job.amount)
    requires PaymentRow(pay, job.provider, Payout(job.amount))
    ensures Books(agents[job.provider := provider], agentOrder, jobs[id := job], jobOrder, log + [pay])
    ensures LogMining(log + [pay]) == LogMining(log)
    ensures CompletedCount(jobOrder, jobs[id := job]) == CompletedCount(jobOrder, jobs) + 1
  {
    SettlePayment(agents, agentOrder, jobs, jobOrder, log, id, job, Payout(job.amount), TidePoolFee(job.amount), provider, pay);
  }

  lemma BooksSettleFee(
    agents: map<AgentId, Agent>, agentOrder: seq<AgentId>, jobs: map<JobId, Job>, jobOrder: seq<JobId>,
    log: seq<Tx>, id: JobId, job: Job, payout: int, fee: int, provider: Agent, pay: Tx, feeRow: Tx)
    requires Books(agents, agentOrder, jobs, jobOrder, log)
    requires Distinct(agentOrder) && job.provider in agentOrder && job.provider in agents
    requires Distinct(jobOrder) && id in jobOrder && id in jobs
    requires jobs[id].status == Delivered && jobs[id].amount == job.amount && job.status == Completed
    requires payout + fee == job.amount && provider.balance == agents[job.provider].balance + payout
    requires PaymentRow(pay, job.provider, payout) && FeeRow(feeRow, fee)
    ensures Books(agents[job.provider := provider], agentOrder, jobs[id := job], jobOrder, log + [pay] + [feeRow])
    ensures LogMining(log + [pay] + [feeRow]) == LogMining(log)
    ensures CompletedCount(jobOrder, jobs[id := job]) == CompletedCount(jobOrder, jobs) + 1
  {
    SettlePayment(agents, agentOrder, jobs, jobOrder, log, id, job, payout, fee, provider, pay);
    GapsRow(agents[job.provider := provider], agentOrder, jobs[id := job], jobOrder, log + [pay], feeRow);
  }

  /**
   * Settling a delivered job whose fee is zero, in the route revision that then writes no fee row:
   * the provider is paid the whole amount and the job is completed. The books still balance;
   * no mining bonus was paid and one more job counts as completed.
   */
  lemma Settle(
    agents: map<AgentId, Agent>, agentOrder: seq<AgentId>, jobs: map<JobId, Job>, jobOrder: seq<JobId>,
    log: seq<Tx>, reviews: seq<Review>, id: JobId, job: Job, provider: Agent, pay: Tx)
    requires Consistent(agents, agentOrder, jobs, jobOrder, log, reviews)
    requires id in jobs && jobs[id].status == Delivered
    requires SameDeal(jobs[id], job) && job.status == Completed
    requires TidePoolFee(job.amount) == 0
    requires Credits(agents[job.provider], provider, Payout(job.amount))
    requires PaymentRow(pay, job.provider, Payout(job.amount))
    ensures Consistent(agents[job.provider := provider], agentOrder, jobs[id := job], jobOrder, log + [pay], reviews)
    ensures LogMining(log + [pay]) == LogMining(log)
    ensures CompletedCount(jobOrder, jobs[id := job]) == CompletedCount(jobOrder, jobs) + 1
  {
    FeeSplit(job.amount);
    BalanceNonNegative(agents, log, job.provider);
    BooksSettle(agents, agentOrder, jobs, jobOrder, log, id, job, provider, pay);
    PostRecords(agents, log, job.provider, provider, pay);
    TablesJobAndAccount(agents, agentOrder, jobs, jobOrder, reviews, id, job, job.provider, provider);
  }

  /**
   * Settling a delivered job: the provider is paid the payout, the fee goes to the Tide Pool with
   * its own row, and the job is completed. The books still balance; no mining bonus was paid and
   * one more job counts as completed.
   */
  lemma SettleWithFee(
    agents: map<AgentId, Agent>, agentOrder: seq<AgentId>, jobs: map<JobId, Job>, jobOrder: seq<JobId>,
    log: seq<Tx>, reviews: seq<Review>, id: JobId, job: Job, provider: Agent, pay: Tx, feeRow: Tx)
    requires Consistent(agents, agentOrder, jobs, jobOrder, log, reviews)
    requires id in jobs && jobs[id].status == Delivered
    requires SameDeal(jobs[id], job) && job.status == Completed
    requires Credits(agents[job.provider], provider, Payout(job.amount))
    requires PaymentRow(pay, job.provider, Payout(job.amount))
    requires FeeRow(feeRow, TidePoolFee(job.amount))
    ensures Consistent(agents[job.provider := provider], agentOrder, jobs[id := job], jobOrder, log + [pay] + [feeRow], reviews)
    ensures LogMining(log + [pay] + [feeRow]) == LogMining(log)
    ensures CompletedCount(jobOrder, jobs[id := job]) == CompletedCount(jobOrder, jobs) + 1
  {
    FeeSplit(job.amount);
    BalanceNonNegative(agents, log, job.provider);
    BooksSettleFee(agents, agentOrder, jobs, jobOrder, log, id, job, Payout(job.amount), TidePoolFee(job.amount), provider, pay, feeRow);
    PostRecords(agents, log, job.provider, provider, pay);
    PostNowhere(agents[job.provider := provider], log + [pay], feeRow);
    TablesJobAndAccount(agents, agentOrder, jobs, jobOrder, reviews, id, job, job.provider, provider);
  }

  lemma BooksMining(
    agents: map<AgentId, Agent>, agentOrder: seq<AgentId>, jobs: map<JobId, Job>, jobOrder: seq<JobId>,
    log: seq<Tx>, r: AgentId, requester: Agent, p: AgentId, provider: Agent)
    requires Books(agents, agentOrder, jobs, jobOrder, log)
    requires Distinct(agentOrder) && r in agentOrder && p in agentOrder && r in agents && p in agents
    requires requester.balance == agents[r].balance + ACTIVITY_MINING_BONUS
    requires provider.balance == agents[r := requester][p].balance + ACTIVITY_MINING_BONUS
    requires LogMining(log) + 2 * ACTIVITY_MINING_BONUS <= MiningCap(CompletedCount(jobOrder, jobs))
    ensures Books(agents[r := requester][p := provider], agentOrder, jobs, jobOrder,
      log + [Entry(r, ActivityMiningBonus, ACTIVITY_MINING_BONUS)] + [Entry(p, ActivityMiningBonus, ACTIVITY_MINING_BONUS)])
  {
    var b1 := Entry(r, ActivityMiningBonus, ACTIVITY_MINING_BONUS);
    var b2 := Entry(p, ActivityMiningBonus, ACTIVITY_MINING_BONUS);
    GapsPost(agents, agentOrder, jobs, jobOrder, log, r, requester, b1);
    GapsPost(agents[r := requester], agentOrder, jobs, jobOrder, log + [b1], p, provider, b2);
  }

  /**
   * Paying the activity-mining bonus to both parties of a job, with one row each, keeps the
   * books balanced as long as the bonuses paid so far leave room under the mining bound.
   */
  lemma PayMiningBonus(
    agents: map<AgentId, Agent>, agentOrder: seq<AgentId>, jobs: map<JobId, Job>, jobOrder: seq<JobId>,
    log: seq<Tx>, reviews: seq<Review>, r: AgentId, requester: Agent, p: AgentId, provider: Agent)
    requires Consistent(agents, agentOrder, jobs, jobOrder, log, reviews)
    requires r in agents && p in agents
    requires Credits(agents[r], requester, ACTIVITY_MINING_BONUS)
    requires Credits(agents[r := requester][p], provider, ACTIVITY_MINING_BONUS)
    requires LogMining(log) + 2 * ACTIVITY_MINING_BONUS <= MiningCap(CompletedCount(jobOrder, jobs))
    ensures Consistent(agents[r := requester][p := provider], agentOrder, jobs, jobOrder,
      log + [Entry(r, ActivityMiningBonus, ACTIVITY_MINING_BONUS)] + [Entry(p, ActivityMiningBonus, ACTIVITY_MINING_BONUS)],
      reviews)
  {
    BalanceNonNegative(agents, log, r);
    BalanceNonNegative(agents, log, p);
    BooksMining(agents, agentOrder, jobs, jobOrder, log, r, requester, p, provider);
    PostTwice(agents, log, r, requester, Entry(r, ActivityMiningBonus, ACTIVITY_MINING_BONUS),
      p, provider, Entry(p, ActivityMiningBonus, ACTIVITY_MINING_BONUS));
    TablesTwoAccounts(agents, agentOrder, jobs, jobOrder, reviews, r, requester, p, provider);
  }

  /** The row paying the referred agent its bonus. */
  function ReferredRow(referred: AgentId): Tx {
    Transfer(None, Some(referred), ReferralBonusNew, REFERRAL_BONUS, None)
  }

  /** The row paying the referrer its bonus. */
  function ReferrerRow(referrer: AgentId): Tx {
    Transfer(None, Some(referrer), ReferralBonusReferrer, REFERRAL_BONUS, None)
  }

  lemma BooksReferral(
    agents: map<AgentId, Agent>, agentOrder: seq<AgentId>, jobs: map<JobId, Job>, jobOrder: seq<JobId>,
    log: seq<Tx>, referred: AgentId, referredAgent: Agent, referrer: AgentId, referrerAgent: Agent)
    requires Books(agents, agentOrder, jobs, jobOrder, log)
    requires Distinct(agentOrder) && referred in agentOrder && referrer in agentOrder
    requires referred in agents && referrer in agents
    requires referredAgent.balance == agents[referred].balance + REFERRAL_BONUS
    requires referrerAgent.balance == agents[referred := referredAgent][referrer].balance + REFERRAL_BONUS
    ensures Books(agents[referred := referredAgent][referrer := referrerAgent], agentOrder, jobs, jobOrder,
      log + [ReferredRow(referred)] + [ReferrerRow(referrer)])
  {
    GapsPost(agents, agentOrder, jobs, jobOrder, log, referred, referredAgent, ReferredRow(referred));
    GapsPost(agents[referred := referredAgent], agentOrder, jobs, jobOrder, log + [ReferredRow(referred)],
      referrer, referrerAgent, ReferrerRow(referrer));
  }

  lemma ReferredRecords(agents: map<AgentId, Agent>, log: seq<Tx>, referred: AgentId, referredAgent: Agent)
    requires Records(agents, log)
    requires referred in agents && ReferralCredits(agents[referred], referredAgent)
    ensures Records(agents[referred := referredAgent], log + [ReferredRow(referred)])
  {
    var t := ReferredRow(referred);
    var log' := log + [t];
    var agents' := agents[referred := referredAgent];
    forall b
      ensures AccountAgrees(agents', log', b)
    {
      assert AccountAgrees(agents, log, b);
      AgentRowsAppend(log, t, b);
    }
  }

  lemma ReferralRecords(
    agents: map<AgentId, Agent>, log: seq<Tx>,
    referred: AgentId, referredAgent: Agent, referrer: AgentId, referrerAgent: Agent)
    requires Records(agents, log)
    requires referred in agents && referrer in agents
    requires ReferralCredits(agents[referred], referredAgent)
    requires Credits(agents[referred := referredAgent][referrer], referrerAgent, REFERRAL_BONUS)
    ensures Records(agents[referred := referredAgent][referrer := referrerAgent], log + [ReferredRow(referred)] + [ReferrerRow(referrer)])
  {
    BalanceNonNegative(agents, log, referred);
    BalanceNonNegative(agents, log, referrer);
    ReferredRecords(agents, log, referred, referredAgent);
    PostRecords(agents[referred := referredAgent], log + [ReferredRow(referred)], referrer, referrerAgent, ReferrerRow(referrer));
  }

  /**
   * Paying the referral bonus: the referred agent gains the bonus with a `referral_bonus_new` row and
   * has its flag set, and the referrer gains the bonus with a `referral_bonus_referrer` row.
   * Allowed only while the flag is clear, which is what keeps the bonus to one payment.
   */
  lemma PayReferralBonus(
    agents: map<AgentId, Agent>, agentOrder: seq<AgentId>, jobs: map<JobId, Job>, jobOrder: seq<JobId>,
    log: seq<Tx>, reviews: seq<Review>,
    referred: AgentId, referredAgent: Agent, referrer: AgentId, referrerAgent: Agent)
    requires Consistent(agents, agentOrder, jobs, jobOrder, log, reviews)
    requires referred in agents && referrer in agents
    requires ReferralCredits(agents[referred], referredAgent)
    requires Credits(agents[referred := referredAgent][referrer], referrerAgent, REFERRAL_BONUS)
    ensures Consistent(agents[referred := referredAgent][referrer := referrerAgent], agentOrder, jobs, jobOrder,
      log + [ReferredRow(referred)] + [ReferrerRow(referrer)], reviews)
  {
    BooksReferral(agents, agentOrder, jobs, jobOrder, log, referred, referredAgent, referrer, referrerAgent);
    ReferralRecords(agents, log, referred, referredAgent, referrer, referrerAgent);
    TablesTwoAccounts(agents, agentOrder, jobs, jobOrder, reviews, referred, referredAgent, referrer, referrerAgent);
  }

  lemma BooksRegister(
    agents: map<AgentId, Agent>, agentOrder: seq<AgentId>, jobs: map<JobId, Job>, jobOrder: seq<JobId>,
    log: seq<Tx>, id: AgentId, agent: Agent)
    requires Books(agents, agentOrder, jobs, jobOrder, log)
    requires id !in agentOrder && agent.balance == STARTER_SHELLS
    ensures Books(agents[id := agent], agentOrder + [id], jobs, jobOrder, log + [Entry(id, StarterGrant, STARTER_SHELLS)])
  {
    LogAppend(log, Entry(id, StarterGrant, STARTER_SHELLS));
    BalanceInsert(agentOrder, agents, id, agent);
  }

  lemma RegisterRecords(agents: map<AgentId, Agent>, log: seq<Tx>, id: AgentId, agent: Agent)
    requires Records(agents, log)
    requires id !in agents && id != TIDE_POOL && agent.balance == STARTER_SHELLS && !agent.referralBonusPaid
    ensures Records(agents[id := agent], log + [Entry(id, StarterGrant, STARTER_SHELLS)])
  {
    var t := Entry(id, StarterGrant, STARTER_SHELLS);
    var log' := log + [t];
    var agents' := agents[id := agent];
    forall b
      ensures AccountAgrees(agents', log', b)
    {
      assert AccountAgrees(agents, log, b);
      AgentRowsAppend(log, t, b);
    }
  }

  /**
   * Registering a new agent with the starter grant, a referral code nobody holds and no referral bonus
   * yet, logged with one `starter_grant` row, keeps the books balanced.
   */
  lemma Register(
    agents: map<AgentId, Agent>, agentOrder: seq<AgentId>, jobs: map<JobId, Job>, jobOrder: seq<JobId>,
    log: seq<Tx>, reviews: seq<Review>, id: AgentId, agent: Agent)
    requires Consistent(agents, agentOrder, jobs, jobOrder, log, reviews)
    requires id !in agents && id != TIDE_POOL
    requires agent.balance == STARTER_SHELLS && !agent.referralBonusPaid
    requires forall a :: a in agents ==> agents[a].referralCode != agent.referralCode
    ensures Consistent(agents[id := agent], agentOrder + [id], jobs, jobOrder,
                       log + [Entry(id, StarterGrant, STARTER_SHELLS)], reviews)
  {
    BooksRegister(agents, agentOrder, jobs, jobOrder, log, id, agent);
    RegisterRecords(agents, log, id, agent);
    DistinctAppend(agentOrder, id);
  }

  /** Storing a review that passed the admission rules, and is not a second one by its reviewer on its job, keeps the books. */
  lemma AdmitReview(
    agents: map<AgentId, Agent>, agentOrder: seq<AgentId>, jobs: map<JobId, Job>, jobOrder: seq<JobId>,
    log: seq<Tx>, reviews: seq<Review>, r: Review)
    requires Consistent(agents, agentOrder, jobs, jobOrder, log, reviews)
    requires Admitted(jobs, r) && FirstBy(reviews, r)
    ensures Consistent(agents, agentOrder, jobs, jobOrder, log, reviews + [r])
  {
    var reviews' := reviews + [r];
    assert ReviewsAdmitted(jobs, reviews') by {
      forall i | 0 <= i < |reviews'|
        ensures Admitted(jobs, reviews'[i])
      {
        if i < |reviews| {
          assert reviews'[i] == reviews[i];
        }
      }
      forall i, j | 0 <= i < j < |reviews'|
        ensures reviews'[i].job != reviews'[j].job || reviews'[i].reviewer != reviews'[j].reviewer
      {
        assert reviews'[i] == reviews[i];
      }
    }
  }

  /** Changing columns of one agent the accounting does not read (reputation, counters, webhook) keeps the books. */
  lemma ProfileChange(
    agents: map<AgentId, Agent>, agentOrder: seq<AgentId>, jobs: map<JobId, Job>, jobOrder: seq<JobId>,
    log: seq<Tx>, reviews: seq<Review>, a: AgentId, agent: Agent)
    requires Consistent(agents, agentOrder, jobs, jobOrder, log, reviews)
    requires a in agents && SameAccount(agents[a], agent)
    ensures Consistent(agents[a := agent], agentOrder, jobs, jobOrder, log, reviews)
  {
    BalanceUpdate(agentOrder, agents, a, agent);
    var agents' := agents[a := agent];
    forall b
      ensures AccountAgrees(agents', log, b)
    {
      assert AccountAgrees(agents, log, b);
    }
    TablesAccount(agents, agentOrder, jobs, jobOrder, reviews, a, agent);
  }

  /** Appending a row that moves no shells (a reputation-decay row) keeps the books. */
  lemma NeutralRow(
    agents: map<AgentId, Agent>, agentOrder: seq<AgentId>, jobs: map<JobId, Job>, jobOrder: seq<JobId>,
    log: seq<Tx>, reviews: seq<Review>, t: Tx)
    requires Consistent(agents, agentOrder, jobs, jobOrder, log, reviews)
    requires t.Entry? && t.kind == ReputationDecay && t.amount == 0
    ensures Consistent(agents, agentOrder, jobs, jobOrder, log + [t], reviews)
  {
    GapsRow(agents, agentOrder, jobs, jobOrder, log, t);
    var log' := log + [t];
    forall b
      ensures AccountAgrees(agents, log', b)
    {
      assert AccountAgrees(agents, log, b);
      AgentRowsAppend(log, t, b);
    }
  }

  /** The database. */
  class Db {
    var agents: map<AgentId, Agent>
    var agentOrder: seq<AgentId>
    var jobs: map<JobId, Job>
    var jobOrder: seq<JobId>
    var log: seq<Tx>
    var reviews: seq<Review>

    ghost predicate Valid()
      reads this
    {
      Consistent(agents, agentOrder, jobs, jobOrder, log, reviews)
    }

    /** A fresh, empty database. */
    constructor ()
      ensures Valid()
      ensures agents == map[] && jobs == map[] && log == [] && reviews == []
    {
      agents, agentOrder := map[], [];
      jobs, jobOrder := map[], [];
      log, reviews := [], [];
    }
  }

  /** `UPDATE jobs SET ... WHERE id = ?`: one job row rewritten, nothing else. */
  method SetJob(db: Db, id: JobId, job: Job)
    modifies db
    ensures db.jobs == old(db.jobs)[id := job]
    ensures db.agents == old(db.agents) && db.agentOrder == old(db.agentOrder) && db.jobOrder == old(db.jobOrder)
    ensures db.log == old(db.log) && db.reviews == old(db.reviews)
  {
    db.jobs := db.jobs[id := job];
  }
}
