/**
 * The job handlers of the route revision (projects/agent-economy/src/api/jobs.ts), which do
 * their own SQL instead of calling the services: rows are typed transfers with a `from` and a
 * `to`, the fee is floored and only logged when positive, there is no activity mining, the
 * provider's first completion may pay a referral bonus both ways, and an accepted or delivered
 * job can be disputed. Handlers send no notifications.
 *
 * The job id (`uuidv4()`) and the clock are parameters; the JSON body is a record of optional
 * fields.
 */
module JobRoutes {
  import opened Wrappers
  import opened Economy
  import opened Ledger

  /** The failures the handlers answer with, each with its HTTP status. */
  datatype RouteError =
    | MissingFields                          // 400 'requester_id, provider_id, title, and agreed_price required'
    | NonPositivePrice                       // 400 'agreed_price must be positive'
    | SelfJob                                // 400 'Cannot create job for yourself'
    | RequesterNotFound                      // 404
    | ProviderNotFound                       // 404
    | InsufficientBalance                    // 400
    | JobNotFound                            // 404
    | WrongStatus(status: JobStatus)         // 400 "Cannot <verb> job in '<status>' status"

  function HttpStatus(e: RouteError): (code: int)
    ensures code == 404 <==> e in {RequesterNotFound, ProviderNotFound, JobNotFound}
    ensures code == 400 || code == 404
  {
    match e
    case RequesterNotFound => 404
    case ProviderNotFound => 404
    case JobNotFound => 404
    case _ => 400
  }

  /** The body of `POST /jobs`; an absent field is `None`. */
  datatype CreateRequest = CreateRequest(
    requesterId: Option<AgentId>,
    providerId: Option<AgentId>,
    serviceId: Option<string>,
    title: Option<string>,
    description: Option<string>,
    agreedPrice: Option<int>)

  /** `!agreed_price` is false only for a present, non-zero number. */
  predicate PriceGiven(p: Option<int>) {
    p.Some? && p.value != 0
  }

  /**
   * Which check of `POST /jobs` fails first, if any: missing fields, non-positive price,
   * self-hire, unknown requester, unknown provider, short balance, in that order.
   */
  function CreateCheck(agents: map<AgentId, Agent>, q: CreateRequest): (e: Option<RouteError>)
    ensures e.None? <==>
      && Truthy(q.requesterId) && Truthy(q.providerId) && Truthy(q.title) && q.agreedPrice.Some? && q.agreedPrice.value > 0
      && q.requesterId != q.providerId && q.requesterId.value in agents && q.providerId.value in agents
      && agents[q.requesterId.value].balance >= q.agreedPrice.value
    ensures !(Truthy(q.requesterId) && Truthy(q.providerId) && Truthy(q.title) && PriceGiven(q.agreedPrice)) ==> e == Some(MissingFields)
  {
    if !(Truthy(q.requesterId) && Truthy(q.providerId) && Truthy(q.title) && PriceGiven(q.agreedPrice)) then Some(MissingFields)
    else if q.agreedPrice.value <= 0 then Some(NonPositivePrice)
    else if q.requesterId.value == q.providerId.value then Some(SelfJob)
    else if q.requesterId.value !in agents then Some(RequesterNotFound)
    else if q.providerId.value !in agents then Some(ProviderNotFound)
    else if agents[q.requesterId.value].balance < q.agreedPrice.value then Some(InsufficientBalance)
    else None
  }

  /** The job row `POST /jobs` inserts. */
  function RequestedJob(q: CreateRequest, now: Time): Job
    requires q.requesterId.Some? && q.providerId.Some? && q.agreedPrice.Some?
  {
    Job(OrNull(q.serviceId), q.requesterId.value, q.providerId.value, q.agreedPrice.value,
        q.title, OrNull(q.description), None, Requested, now, None)
  }

  /** The requester's row after `POST /jobs`: the price debited and one more job requested. */
  function Escrowed(a: Agent, price: int): Agent {
    a.(balance := a.balance - price, jobsRequested := a.jobsRequested + 1)
  }

  /** The `escrow` row: from the requester to nobody, tagged with the job. */
  function EscrowTransfer(requester: AgentId, price: int, id: JobId): Tx {
    Transfer(Some(requester), None, Escrow, price, Some(id))
  }

  /**
   * The transaction of `POST /jobs` with the job row inserted before the `escrow` row that names
   * it, as the foreign key on `transactions.job_id` demands: debit, job insert, `escrow` row,
   * requested-jobs counter (`CreateStatements` is the order as written).
   */
  method OpenJob(db: Db, id: JobId, job: Job)
    requires job.requester in db.agents
    modifies db
    ensures db.agents == old(db.agents)[job.requester := Escrowed(old(db.agents)[job.requester], job.amount)]
    ensures db.log == old(db.log) + [EscrowTransfer(job.requester, job.amount, id)]
    ensures db.jobs == old(db.jobs)[id := job] && db.jobOrder == old(db.jobOrder) + [id]
    ensures db.agentOrder == old(db.agentOrder) && db.reviews == old(db.reviews)
  {
    var r := job.requester;
    db.agents := db.agents[r := db.agents[r].(balance := db.agents[r].balance - job.amount)];
    db.jobs, db.jobOrder := db.jobs[id := job], db.jobOrder + [id];
    db.log := db.log + [EscrowTransfer(r, job.amount, id)];
    db.agents := db.agents[r := db.agents[r].(jobsRequested := db.agents[r].jobsRequested + 1)];
  }

  /**
   * `POST /jobs`. A failed check changes nothing. Otherwise, in one transaction, the requester
   * is debited the price, an `escrow` row is logged, the job is inserted as requested, and the
   * requester's requested-jobs counter goes up by one.
   */
  method CreateJob(db: Db, id: JobId, q: CreateRequest, now: Time) returns (r: Result<Job, RouteError>)
    requires db.Valid() && id !in db.jobs
    modifies db
    ensures db.Valid() && JobsEvolve(old(db.jobs), db.jobs)
    ensures db.agentOrder == old(db.agentOrder) && db.reviews == old(db.reviews)
    ensures CreateCheck(old(db.agents), q).Some? ==>
      && r == Err(CreateCheck(old(db.agents), q).value)
      && db.agents == old(db.agents) && db.jobs == old(db.jobs) && db.jobOrder == old(db.jobOrder) && db.log == old(db.log)
    ensures CreateCheck(old(db.agents), q).None? ==>
      var requester := q.requesterId.value;
      && r == Ok(RequestedJob(q, now))
      && db.agents == old(db.agents)[requester := Escrowed(old(db.agents)[requester], q.agreedPrice.value)]
      && db.log == old(db.log) + [EscrowTransfer(requester, q.agreedPrice.value, id)]
      && db.jobs == old(db.jobs)[id := r.value] && db.jobOrder == old(db.jobOrder) + [id]
      && Attempt(true, db.agents, db.jobs, db.log) == Transaction(old(db.agents), old(db.jobs), old(db.log), JobFirstStatements(id, r.value))
  {
    var check := CreateCheck(db.agents, q);
    if check.Some? {
      return Err(check.value);
    }
    var job := RequestedJob(q, now);
    OpenEscrow(db.agents, db.agentOrder, db.jobs, db.jobOrder, db.log, db.reviews, id, job,
      Escrowed(db.agents[job.requester], job.amount), EscrowTransfer(job.requester, job.amount, id));
    InsertEvolves(db.jobs, id, job);
    CreateJobFirstCommits(db.agents, db.jobs, db.log, id, job);
    OpenJob(db, id, job);
    r := Ok(job);
  }

  /** One statement of a handler's transaction, as the SQL it runs. */
  datatype Statement =
    | AddToBalance(agent: AgentId, delta: int)   // UPDATE agents SET balance = balance + ? WHERE id = ?
    | CountRequested(agent: AgentId)             // UPDATE agents SET jobs_requested = jobs_requested + 1 WHERE id = ?
    | InsertRow(t: Tx)                           // INSERT INTO transactions
    | InsertJob(id: JobId, job: Job)             // INSERT INTO jobs

  /**
   * One statement on the tables. An UPDATE of an unknown id matches no row and changes nothing;
   * an insert the keys refuse throws, which `finished` records.
   */
  function Run(a: Attempt, s: Statement): (b: Attempt)
    ensures b.finished == a.finished || (b.agents == a.agents && b.jobs == a.jobs && b.log == a.log)
  {
    match s
    case AddToBalance(k, delta) =>
      if k in a.agents then a.(agents := a.agents[k := a.agents[k].(balance := a.agents[k].balance + delta)]) else a
    case CountRequested(k) =>
      if k in a.agents then a.(agents := a.agents[k := a.agents[k].(jobsRequested := a.agents[k].jobsRequested + 1)]) else a
    case InsertRow(t) =>
      if RowAdmitted(a.agents, a.jobs, t) then a.(log := a.log + [t]) else a.(finished := false)
    case InsertJob(id, job) =>
      if id !in a.jobs && job.requester in a.agents && job.provider in a.agents then a.(jobs := a.jobs[id := job])
      else a.(finished := false)
  }

  /** The statements in order, up to the first that throws. */
  function RunAll(a: Attempt, ss: seq<Statement>): (b: Attempt)
    ensures !a.finished ==> b == a
    decreases |ss|
  {
    if ss == [] || !a.finished then a else RunAll(Run(a, ss[0]), ss[1..])
  }

  /** `db.transaction(...)`: the statements commit together, or a throw rolls all of them back. */
  function Transaction(agents: map<AgentId, Agent>, jobs: map<JobId, Job>, log: seq<Tx>, ss: seq<Statement>): (a: Attempt)
    ensures !a.finished ==> a == Attempt(false, agents, jobs, log)
  {
    var end := RunAll(Attempt(true, agents, jobs, log), ss);
    if end.finished then end else Attempt(false, agents, jobs, log)
  }

  /**
   * The transaction of `POST /jobs` as written (projects/agent-economy/src/api/jobs.ts:50-66):
   * debit, `escrow` row, job insert, counter.
   */
  function CreateStatements(id: JobId, job: Job): seq<Statement> {
    [AddToBalance(job.requester, -job.amount), InsertRow(EscrowTransfer(job.requester, job.amount, id)),
     InsertJob(id, job), CountRequested(job.requester)]
  }

  /** The same statements with the job row inserted before the `escrow` row that names it. */
  function JobFirstStatements(id: JobId, job: Job): seq<Statement> {
    [AddToBalance(job.requester, -job.amount), InsertJob(id, job),
     InsertRow(EscrowTransfer(job.requester, job.amount, id)), CountRequested(job.requester)]
  }

  /**
   * As written, `POST /jobs` never creates a job: for a fresh id, the `escrow` row names a job
   * not yet inserted, the foreign key refuses it, and the transaction rolls back, so the handler
   * throws (a 500) and the tables are as before.
   */
  lemma {:induction false} CreateAsWrittenRollsBack(agents: map<AgentId, Agent>, jobs: map<JobId, Job>, log: seq<Tx>, id: JobId, job: Job)
    requires id !in jobs
    ensures Transaction(agents, jobs, log, CreateStatements(id, job)) == Attempt(false, agents, jobs, log)
  {
    var ss := CreateStatements(id, job);
    var a1 := Run(Attempt(true, agents, jobs, log), ss[0]);
    assert a1.jobs == jobs;
    var a2 := Run(a1, ss[1]);
    assert !a2.finished;
    assert RunAll(a1, ss[1..]) == RunAll(a2, ss[2..]);
  }

  /**
   * With the job row first, the same transaction commits for every request that passes the
   * checks, and leaves exactly the tables `OpenJob` writes.
   */
  lemma {:induction false} CreateJobFirstCommits(agents: map<AgentId, Agent>, jobs: map<JobId, Job>, log: seq<Tx>, id: JobId, job: Job)
    requires id !in jobs && job.requester in agents && job.provider in agents
    ensures Transaction(agents, jobs, log, JobFirstStatements(id, job)) ==
      Attempt(true, agents[job.requester := Escrowed(agents[job.requester], job.amount)], jobs[id := job],
              log + [EscrowTransfer(job.requester, job.amount, id)])
  {
    var ss := JobFirstStatements(id, job);
    var a1 := Run(Attempt(true, agents, jobs, log), ss[0]);
    var a2 := Run(a1, ss[1]);
    assert a2.finished && a2.jobs == jobs[id := job];
    var a3 := Run(a2, ss[2]);
    assert a3.finished && a3.log == log + [EscrowTransfer(job.requester, job.amount, id)];
    var a4 := Run(a3, ss[3]);
    assert RunAll(a4, ss[4..]) == a4;
    assert RunAll(a3, ss[3..]) == a4;
    assert RunAll(a2, ss[2..]) == a4;
    assert RunAll(a1, ss[1..]) == a4;
  }

  /** The status changes the handlers make without moving shells: only ever a legal move. */
  method MoveJob(db: Db, id: JobId, from: set<JobStatus>, to: JobStatus) returns (r: Result<Job, RouteError>)
    requires db.Valid()
    requires forall s :: s in from ==> CanMove(s, to)
    requires InEscrow(to)
    modifies db
    ensures db.Valid() && JobsEvolve(old(db.jobs), db.jobs)
    ensures db.agents == old(db.agents) && db.agentOrder == old(db.agentOrder) && db.jobOrder == old(db.jobOrder)
    ensures db.log == old(db.log) && db.reviews == old(db.reviews)
    ensures id !in old(db.jobs) ==> r == Err(JobNotFound) && db.jobs == old(db.jobs)
    ensures id in old(db.jobs) && old(db.jobs)[id].status !in from ==>
      r == Err(WrongStatus(old(db.jobs)[id].status)) && db.jobs == old(db.jobs)
    ensures id in old(db.jobs) && old(db.jobs)[id].status in from ==>
      r == Ok(old(db.jobs)[id].(status := to)) && db.jobs == old(db.jobs)[id := r.value]
  {
    if id !in db.jobs {
      return Err(JobNotFound);
    }
    var job := db.jobs[id];
    if job.status !in from {
      return Err(WrongStatus(job.status));
    }
    LifecycleShape(job.status, to);
    var moved := job.(status := to);
    MoveInEscrow(db.agents, db.agentOrder, db.jobs, db.jobOrder, db.log, db.reviews, id, moved);
    MoveEvolves(db.jobs, id, moved);
    SetJob(db, id, moved);
    r := Ok(moved);
  }

  /** `PATCH /jobs/:id/accept`: a requested job becomes accepted. */
  method AcceptJob(db: Db, id: JobId) returns (r: Result<Job, RouteError>)
    requires db.Valid()
    modifies db
    ensures db.Valid() && JobsEvolve(old(db.jobs), db.jobs)
    ensures db.agents == old(db.agents) && db.agentOrder == old(db.agentOrder) && db.jobOrder == old(db.jobOrder)
    ensures db.log == old(db.log) && db.reviews == old(db.reviews)
    ensures id !in old(db.jobs) ==> r == Err(JobNotFound) && db.jobs == old(db.jobs)
    ensures id in old(db.jobs) && old(db.jobs)[id].status != Requested ==>
      r == Err(WrongStatus(old(db.jobs)[id].status)) && db.jobs == old(db.jobs)
    ensures id in old(db.jobs) && old(db.jobs)[id].status == Requested ==>
      r == Ok(old(db.jobs)[id].(status := Accepted)) && db.jobs == old(db.jobs)[id := r.value]
  {
    r := MoveJob(db, id, {Requested}, Accepted);
  }

  /** `PATCH /jobs/:id/deliver`: an accepted job becomes delivered (this revision stores no deliverable). */
  method DeliverJob(db: Db, id: JobId) returns (r: Result<Job, RouteError>)
    requires db.Valid()
    modifies db
    ensures db.Valid() && JobsEvolve(old(db.jobs), db.jobs)
    ensures db.agents == old(db.agents) && db.agentOrder == old(db.agentOrder) && db.jobOrder == old(db.jobOrder)
    ensures db.log == old(db.log) && db.reviews == old(db.reviews)
    ensures id !in old(db.jobs) ==> r == Err(JobNotFound) && db.jobs == old(db.jobs)
    ensures id in old(db.jobs) && old(db.jobs)[id].status != Accepted ==>
      r == Err(WrongStatus(old(db.jobs)[id].status)) && db.jobs == old(db.jobs)
    ensures id in old(db.jobs) && old(db.jobs)[id].status == Accepted ==>
      r == Ok(old(db.jobs)[id].(status := Delivered)) && db.jobs == old(db.jobs)[id := r.value]
  {
    r := MoveJob(db, id, {Accepted}, Delivered);
  }

  /**
   * `PATCH /jobs/:id/dispute`: an accepted or delivered job becomes disputed, with no effect on
   * any balance; the escrow stays held. The reason is echoed back, an empty one as none.
   */
  method DisputeJob(db: Db, id: JobId, reason: Option<string>) returns (r: Result<(Job, Option<string>), RouteError>)
    requires db.Valid()
    modifies db
    ensures db.Valid() && JobsEvolve(old(db.jobs), db.jobs)
    ensures db.agents == old(db.agents) && db.agentOrder == old(db.agentOrder) && db.jobOrder == old(db.jobOrder)
    ensures db.log == old(db.log) && db.reviews == old(db.reviews)
    ensures id !in old(db.jobs) ==> r == Err(JobNotFound) && db.jobs == old(db.jobs)
    ensures id in old(db.jobs) && old(db.jobs)[id].status !in {Accepted, Delivered} ==>
      r == Err(WrongStatus(old(db.jobs)[id].status)) && db.jobs == old(db.jobs)
    ensures id in old(db.jobs) && old(db.jobs)[id].status in {Accepted, Delivered} ==>
      r == Ok((old(db.jobs)[id].(status := Disputed), OrNull(reason))) && db.jobs == old(db.jobs)[id := r.value.0]
  {
    var moved := MoveJob(db, id, {Accepted, Delivered}, Disputed);
    match moved
    case Err(e) => r := Err(e);
    case Ok(job) => r := Ok((job, OrNull(reason)));
  }

  /** A row whose balance goes up by `n`, as `UPDATE agents SET balance = balance + n` does. */
  function Topped(a: Agent, n: int): (b: Agent)
    ensures Credits(a, b, n)
  {
    a.(balance := a.balance + n)
  }

  /** The row `PATCH /jobs/:id/cancel` writes: a refund from nobody to the requester. */
  function RefundTransfer(requester: AgentId, price: int, id: JobId): Tx {
    Transfer(None, Some(requester), Refund, price, Some(id))
  }

  /** The transaction of `PATCH /jobs/:id/cancel`: refund, `refund` row, status. */
  method RefundJob(db: Db, id: JobId, job: Job)
    requires job.requester in db.agents
    modifies db
    ensures db.agents == old(db.agents)[job.requester := Topped(old(db.agents)[job.requester], job.amount)]
    ensures db.log == old(db.log) + [RefundTransfer(job.requester, job.amount, id)]
    ensures db.jobs == old(db.jobs)[id := job.(status := Cancelled)]
    ensures db.agentOrder == old(db.agentOrder) && db.jobOrder == old(db.jobOrder) && db.reviews == old(db.reviews)
  {
    var r := job.requester;
    db.agents := db.agents[r := Topped(db.agents[r], job.amount)];
    db.log := db.log + [RefundTransfer(r, job.amount, id)];
    db.jobs := db.jobs[id := job.(status := Cancelled)];
  }

  /** `PATCH /jobs/:id/cancel`: only a requested job; the requester gets the whole price back. */
  method CancelJob(db: Db, id: JobId) returns (r: Result<Job, RouteError>)
    requires db.Valid()
    modifies db
    ensures db.Valid() && JobsEvolve(old(db.jobs), db.jobs)
    ensures db.agentOrder == old(db.agentOrder) && db.jobOrder == old(db.jobOrder) && db.reviews == old(db.reviews)
    ensures id !in old(db.jobs) ==> r == Err(JobNotFound)
    ensures id in old(db.jobs) && old(db.jobs)[id].status != Requested ==> r == Err(WrongStatus(old(db.jobs)[id].status))
    ensures r.Err? ==> db.agents == old(db.agents) && db.jobs == old(db.jobs) && db.log == old(db.log)
    ensures id in old(db.jobs) && old(db.jobs)[id].status == Requested ==>
      var j := old(db.jobs)[id];
      && j.requester in old(db.agents)
      && r == Ok(j.(status := Cancelled))
      && db.agents == old(db.agents)[j.requester := Topped(old(db.agents)[j.requester], j.amount)]
      && db.log == old(db.log) + [RefundTransfer(j.requester, j.amount, id)]
      && db.jobs == old(db.jobs)[id := r.value]
  {
    if id !in db.jobs {
      return Err(JobNotFound);
    }
    var job := db.jobs[id];
    if job.status != Requested {
      return Err(WrongStatus(job.status));
    }
    ReleaseEscrow(db.agents, db.agentOrder, db.jobs, db.jobOrder, db.log, db.reviews, id, job.(status := Cancelled),
      Topped(db.agents[job.requester], job.amount), RefundTransfer(job.requester, job.amount, id));
    MoveEvolves(db.jobs, id, job.(status := Cancelled));
    RefundJob(db, id, job);
    r := Ok(job.(status := Cancelled));
  }

  // ---------------------------------------------------------------- completion

  /**
   * The condition of `processReferralBonus`: the provider has completed no job yet, was
   * referred, has not had its bonus, and its referrer still exists.
   */
  predicate ReferralDue(agents: map<AgentId, Agent>, p: AgentId)
    requires p in agents
  {
    var a := agents[p];
    a.jobsCompleted == 0 && Truthy(a.referredBy) && !a.referralBonusPaid && a.referredBy.value in agents
  }

  /** The provider's row after its referral bonus: ten more shells and the flag set. */
  function BonusPaid(a: Agent): Agent {
    a.(balance := a.balance + REFERRAL_BONUS, referralBonusPaid := true)
  }

  /** The agents after `processReferralBonus`: both parties credited when it is due, nobody otherwise. */
  function ReferralAgents(agents: map<AgentId, Agent>, p: AgentId): (after: map<AgentId, Agent>)
    requires p in agents
    ensures after.Keys == agents.Keys
  {
    if ReferralDue(agents, p) then
      var referrer := agents[p].referredBy.value;
      var a1 := agents[p := BonusPaid(agents[p])];
      a1[referrer := Topped(a1[referrer], REFERRAL_BONUS)]
    else agents
  }

  /** The log after `processReferralBonus`: a `referral_bonus_new` and a `referral_bonus_referrer` row when it is due. */
  function ReferralLog(log: seq<Tx>, agents: map<AgentId, Agent>, p: AgentId): seq<Tx>
    requires p in agents
  {
    if ReferralDue(agents, p) then log + [ReferredRow(p)] + [ReferrerRow(agents[p].referredBy.value)] else log
  }

  /** The provider's row after being paid: the payout, one more job completed, and the completion time. */
  function PaidOut(a: Agent, payout: int, now: Time): Agent {
    a.(balance := a.balance + payout, jobsCompleted := a.jobsCompleted + 1, lastJobCompletedAt := Some(now))
  }

  function PaymentTransfer(provider: AgentId, payout: int, id: JobId): Tx {
    Transfer(None, Some(provider), Payment, payout, Some(id))
  }

  function FeeTransfer(fee: int, id: JobId): Tx {
    Transfer(None, None, Fee, fee, Some(id))
  }

  /** The agents after a completion: the referral step, then the provider paid. */
  function CompletedAgents(agents: map<AgentId, Agent>, job: Job, now: Time): (after: map<AgentId, Agent>)
    requires job.provider in agents
    ensures after.Keys == agents.Keys
  {
    var a1 := ReferralAgents(agents, job.provider);
    a1[job.provider := PaidOut(a1[job.provider], Payout(job.amount), now)]
  }

  /** The log after a completion: the referral rows, the `payment` row, and a `fee` row only when the fee is positive. */
  function CompletedLog(log: seq<Tx>, agents: map<AgentId, Agent>, id: JobId, job: Job): seq<Tx>
    requires job.provider in agents
  {
    var l1 := ReferralLog(log, agents, job.provider);
    if TidePoolFee(job.amount) > 0
    then l1 + [PaymentTransfer(job.provider, Payout(job.amount), id)] + [FeeTransfer(TidePoolFee(job.amount), id)]
    else l1 + [PaymentTransfer(job.provider, Payout(job.amount), id)]
  }

  /** A route completion keeps the books: the referral bonus is minted, the price leaves escrow as payout and fee. */
  lemma {:induction false} RouteCompletionKeepsBooks(
    agents: map<AgentId, Agent>, agentOrder: seq<AgentId>, jobs: map<JobId, Job>, jobOrder: seq<JobId>,
    log: seq<Tx>, reviews: seq<Review>, id: JobId, now: Time)
    requires Consistent(agents, agentOrder, jobs, jobOrder, log, reviews)
    requires id in jobs && jobs[id].status == Delivered
    ensures jobs[id].provider in agents
    ensures var job := jobs[id];
      Consistent(CompletedAgents(agents, job, now), agentOrder, jobs[id := job.(status := Completed, completedAt := Some(now))],
                 jobOrder, CompletedLog(log, agents, id, job), reviews)
  {
    var job := jobs[id];
    var p := job.provider;
    var done := job.(status := Completed, completedAt := Some(now));
    FeeSplit(job.amount);
    var a1 := agents;
    var l1 := log;
    if ReferralDue(agents, p) {
      var referrer := agents[p].referredBy.value;
      var a0 := agents[p := BonusPaid(agents[p])];
      PayReferralBonus(agents, agentOrder, jobs, jobOrder, log, reviews,
        p, BonusPaid(agents[p]), referrer, Topped(a0[referrer], REFERRAL_BONUS));
      a1 := a0[referrer := Topped(a0[referrer], REFERRAL_BONUS)];
      l1 := log + [ReferredRow(p)] + [ReferrerRow(referrer)];
    }
    assert a1 == ReferralAgents(agents, p) && l1 == ReferralLog(log, agents, p);
    var pay := PaymentTransfer(p, Payout(job.amount), id);
    if TidePoolFee(job.amount) > 0 {
      SettleWithFee(a1, agentOrder, jobs, jobOrder, l1, reviews, id, done, PaidOut(a1[p], Payout(job.amount), now),
        pay, FeeTransfer(TidePoolFee(job.amount), id));
    } else {
      Settle(a1, agentOrder, jobs, jobOrder, l1, reviews, id, done, PaidOut(a1[p], Payout(job.amount), now), pay);
    }
  }

  /**
   * `processReferralBonus`, run on the provider's row as read before the transaction: when the
   * bonus is due, the provider gets ten shells with a `referral_bonus_new` row, the referrer ten
   * with a `referral_bonus_referrer` row, and the provider's flag is set. Returns the referrer's
   * name when it paid.
   */
  method ProcessReferralBonus(db: Db, p: AgentId) returns (referrerName: Option<string>)
    requires p in db.agents
    modifies db
    ensures referrerName.Some? <==> ReferralDue(old(db.agents), p)
    ensures referrerName.Some? ==> referrerName.value == old(db.agents)[old(db.agents)[p].referredBy.value].name
    ensures db.agents == ReferralAgents(old(db.agents), p)
    ensures db.log == ReferralLog(old(db.log), old(db.agents), p)
    ensures db.agentOrder == old(db.agentOrder) && db.jobs == old(db.jobs) && db.jobOrder == old(db.jobOrder)
    ensures db.reviews == old(db.reviews)
  {
    var provider := db.agents[p];
    if provider.jobsCompleted == 0 && Truthy(provider.referredBy) && !provider.referralBonusPaid {
      if provider.referredBy.value in db.agents {
        var referrer := provider.referredBy.value;
        referrerName := Some(db.agents[referrer].name);
        db.agents := db.agents[p := db.agents[p].(balance := db.agents[p].balance + REFERRAL_BONUS)];
        db.log := db.log + [ReferredRow(p)];
        db.agents := db.agents[referrer := db.agents[referrer].(balance := db.agents[referrer].balance + REFERRAL_BONUS)];
        db.log := db.log + [ReferrerRow(referrer)];
        db.agents := db.agents[p := db.agents[p].(referralBonusPaid := true)];
        return;
      }
    }
    referrerName := None;
  }

  /** The transaction of `PATCH /jobs/:id/complete`: referral step, provider paid, `payment` row, `fee` row when positive, status. */
  method RecordCompletion(db: Db, id: JobId, job: Job, now: Time) returns (referrerName: Option<string>)
    requires job.provider in db.agents
    modifies db
    ensures referrerName.Some? <==> ReferralDue(old(db.agents), job.provider)
    ensures referrerName.Some? ==> referrerName.value == old(db.agents)[old(db.agents)[job.provider].referredBy.value].name
    ensures db.agents == CompletedAgents(old(db.agents), job, now)
    ensures db.log == CompletedLog(old(db.log), old(db.agents), id, job)
    ensures db.jobs == old(db.jobs)[id := job.(status := Completed, completedAt := Some(now))]
    ensures db.agentOrder == old(db.agentOrder) && db.jobOrder == old(db.jobOrder) && db.reviews == old(db.reviews)
  {
    var fee := TidePoolFee(job.amount);
    var payout := job.amount - fee;
    var p := job.provider;
    referrerName := ProcessReferralBonus(db, p);
    db.agents := db.agents[p := PaidOut(db.agents[p], payout, now)];
    db.log := db.log + [PaymentTransfer(p, payout, id)];
    if fee > 0 {
      db.log := db.log + [FeeTransfer(fee, id)];
    }
    db.jobs := db.jobs[id := job.(status := Completed, completedAt := Some(now))];
  }

  /** What `PATCH /jobs/:id/complete` answers: the job, the payout split and, when paid, the referrer's name. */
  datatype CompletionResponse = CompletionResponse(job: Job, payout: int, fee: int, referrer: Option<string>)

  /**
   * `PATCH /jobs/:id/complete`. Only a delivered job. In one transaction the referral bonus is
   * settled first, while the provider's completed count is still the old one; then the provider
   * is paid the price less the floored fee and credited a completed job, the `payment` row and
   * (when the fee is positive) the `fee` row are logged, and the job is completed.
   */
  method CompleteJob(db: Db, id: JobId, now: Time) returns (r: Result<CompletionResponse, RouteError>)
    requires db.Valid()
    modifies db
    ensures db.Valid() && JobsEvolve(old(db.jobs), db.jobs)
    ensures db.agentOrder == old(db.agentOrder) && db.jobOrder == old(db.jobOrder) && db.reviews == old(db.reviews)
    ensures id !in old(db.jobs) ==> r == Err(JobNotFound)
    ensures id in old(db.jobs) && old(db.jobs)[id].status != Delivered ==> r == Err(WrongStatus(old(db.jobs)[id].status))
    ensures r.Err? ==> db.agents == old(db.agents) && db.jobs == old(db.jobs) && db.log == old(db.log)
    ensures id in old(db.jobs) && old(db.jobs)[id].status == Delivered ==>
      var j := old(db.jobs)[id];
      var done := j.(status := Completed, completedAt := Some(now));
      && j.provider in old(db.agents)
      && db.agents == CompletedAgents(old(db.agents), j, now)
      && db.log == CompletedLog(old(db.log), old(db.agents), id, j)
      && db.jobs == old(db.jobs)[id := done]
      && r.Ok? && r.value.job == done && r.value.payout == Payout(j.amount) && r.value.fee == TidePoolFee(j.amount)
      && (r.value.referrer.Some? <==> ReferralDue(old(db.agents), j.provider))
  {
    if id !in db.jobs {
      return Err(JobNotFound);
    }
    var job := db.jobs[id];
    if job.status != Delivered {
      return Err(WrongStatus(job.status));
    }
    RouteCompletionKeepsBooks(db.agents, db.agentOrder, db.jobs, db.jobOrder, db.log, db.reviews, id, now);
    MoveEvolves(db.jobs, id, job.(status := Completed, completedAt := Some(now)));
    var referrerName := RecordCompletion(db, id, job, now);
    r := Ok(CompletionResponse(job.(status := Completed, completedAt := Some(now)), job.amount - TidePoolFee(job.amount),
                               TidePoolFee(job.amount), referrerName));
  }

  // ---------------------------------------------------------------- properties

  /**
   * The referral bonus is paid at most once: after a completion that paid it the provider's
   * flag is set and it has a completed job, so the next completion pays no referral bonus.
   * The provider always ends with one more completed job.
   */
  lemma ReferralOnce(agents: map<AgentId, Agent>, job: Job, now: Time)
    requires job.provider in agents
    ensures var after := CompletedAgents(agents, job, now);
      && after[job.provider].jobsCompleted == agents[job.provider].jobsCompleted + 1
      && (ReferralDue(agents, job.provider) ==> after[job.provider].referralBonusPaid && !ReferralDue(after, job.provider))
  {
  }

  /**
   * What a completion does to balances: the provider gains the payout, plus the bonus when it
   * was due; its referrer gains the bonus; nobody else is touched.
   */
  lemma CompletionBalances(agents: map<AgentId, Agent>, job: Job, now: Time, a: AgentId)
    requires job.provider in agents && a in agents
    ensures var after := CompletedAgents(agents, job, now);
      var due := ReferralDue(agents, job.provider);
      var referrer := agents[job.provider].referredBy;
      after[a].balance == agents[a].balance
        + (if a == job.provider then Payout(job.amount) else 0)
        + (if due && a == job.provider then REFERRAL_BONUS else 0)
        + (if due && Some(a) == referrer then REFERRAL_BONUS else 0)
  {
  }

  /**
   * The rows a completion adds: two referral rows when due, the payment, and the fee row
   * exactly when the floored fee is positive; for a price of 100 that is a fee of 5, for 10 none.
   */
  lemma {:induction false} CompletionRows(log: seq<Tx>, agents: map<AgentId, Agent>, id: JobId, job: Job)
    requires job.provider in agents
    ensures var rows := CompletedLog(log, agents, id, job);
      && |rows| == |log| + (if ReferralDue(agents, job.provider) then 2 else 0) + 1 + (if TidePoolFee(job.amount) > 0 then 1 else 0)
      && rows[..|log|] == log
      && (TidePoolFee(job.amount) > 0 <==> rows[|rows| - 1] == FeeTransfer(TidePoolFee(job.amount), id))
    ensures job.amount == 100 ==> TidePoolFee(job.amount) == 5 && Payout(job.amount) == 95
    ensures job.amount == 10 ==> TidePoolFee(job.amount) == 0 && Payout(job.amount) == 10
  {
    FeeExamples();
    var l1 := ReferralLog(log, agents, job.provider);
    assert l1[..|log|] == log;
  }
}
