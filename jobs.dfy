/**
 * The job service of the service revision (src/services/jobs.ts): creating a job locks its
 * amount in escrow, accepting and delivering move it along, completing pays the provider the
 * amount less the Tide Pool fee (plus the activity-mining bonus for the first ten completions),
 * and cancelling refunds the requester.
 *
 * The new job id (`uuid()`) and the clock are parameters; the webhook calls are returned as
 * the notices `notifyJobStatusChange` would fire.
 */
module JobService {
  import opened Wrappers
  import opened Economy
  import opened Ledger
  import opened Sequences
  import opened Webhooks
  import AgentService

  datatype JobError =
    | SelfHire              // 'Cannot hire yourself'
    | RequesterNotFound
    | InsufficientBalance
    | ProviderNotFound
    | JobNotFound
    | CannotAccept          // not 'requested'
    | CannotDeliver         // not 'accepted'
    | CannotComplete        // not 'delivered'
    | CannotCancel          // 'Can only cancel before acceptance'

  /** The row `createJob` inserts. */
  function NewJob(serviceId: Option<string>, requester: AgentId, provider: AgentId, amount: int, description: Option<string>, now: Time): Job {
    Job(OrNull(serviceId), requester, provider, amount, None, OrNull(description), None, Requested, now, None)
  }

  /** Which check of `createJob` fails first, if any: self-hire, requester, balance, provider, in that order. */
  function CreateCheck(agents: map<AgentId, Agent>, requester: AgentId, provider: AgentId, amount: int): (e: Option<JobError>)
    ensures e.None? <==> requester != provider && requester in agents && agents[requester].balance >= amount && provider in agents
    ensures requester == provider ==> e == Some(SelfHire)
  {
    if requester == provider then Some(SelfHire)
    else if requester !in agents then Some(RequesterNotFound)
    else if agents[requester].balance < amount then Some(InsufficientBalance)
    else if provider !in agents then Some(ProviderNotFound)
    else None
  }

  /**
   * `createJob`. A failed check changes nothing. Otherwise the requester is debited the amount
   * (the guarded update cannot refuse, the balance having just been checked), one `escrow_lock`
   * row of −amount is logged, the job is inserted as requested, the requester's requested-jobs
   * counter goes up by one, and the provider is notified.
   */
  method CreateJob(
    db: Db, id: JobId, serviceId: Option<string>, requester: AgentId, provider: AgentId,
    amount: int, description: Option<string>, now: Time)
    returns (r: Result<Job, JobError>, notices: seq<Notice>)
    requires db.Valid() && id !in db.jobs
    requires amount > 0
    modifies db
    ensures db.Valid() && JobsEvolve(old(db.jobs), db.jobs)
    ensures db.agentOrder == old(db.agentOrder) && db.reviews == old(db.reviews)
    ensures CreateCheck(old(db.agents), requester, provider, amount).Some? ==>
      && r == Err(CreateCheck(old(db.agents), requester, provider, amount).value) && notices == []
      && db.agents == old(db.agents) && db.jobs == old(db.jobs) && db.jobOrder == old(db.jobOrder) && db.log == old(db.log)
    ensures CreateCheck(old(db.agents), requester, provider, amount).None? ==>
      && r == Ok(NewJob(serviceId, requester, provider, amount, description, now))
      && db.agents == old(db.agents)[requester :=
           AgentService.Counted(AgentService.WithDelta(old(db.agents)[requester], -amount), AgentService.RequestedJobs)]
      && db.log == old(db.log) + [Entry(requester, EscrowLock, -amount)]
      && db.jobs == old(db.jobs)[id := r.value] && db.jobOrder == old(db.jobOrder) + [id]
      && notices == NotifyJobStatusChange(id, r.value, JobRequested)
  {
    var check := CreateCheck(db.agents, requester, provider, amount);
    if check.Some? {
      return Err(check.value), [];
    }
    var job := NewJob(serviceId, requester, provider, amount, description, now);
    OpenEscrow(db.agents, db.agentOrder, db.jobs, db.jobOrder, db.log, db.reviews, id, job,
      AgentService.Counted(AgentService.WithDelta(db.agents[requester], -amount), AgentService.RequestedJobs),
      Entry(requester, EscrowLock, -amount));
    InsertEvolves(db.jobs, id, job);
    LockEscrow(db, id, job);
    r := Ok(job);
    notices := NotifyJobStatusChange(id, job, JobRequested);
  }

  /**
   * The writes of `createJob` once its checks pass: the requester is debited the amount (the
   * guarded update cannot refuse, the balance being enough), one `escrow_lock` row of −amount is
   * logged, the job is inserted, and the requester's requested-jobs counter goes up by one.
   */
  method LockEscrow(db: Db, id: JobId, job: Job)
    requires job.requester in db.agents && db.agents[job.requester].balance >= job.amount
    modifies db
    ensures db.agents == old(db.agents)[job.requester :=
      AgentService.Counted(AgentService.WithDelta(old(db.agents)[job.requester], -job.amount), AgentService.RequestedJobs)]
    ensures db.log == old(db.log) + [Entry(job.requester, EscrowLock, -job.amount)]
    ensures db.jobs == old(db.jobs)[id := job] && db.jobOrder == old(db.jobOrder) + [id]
    ensures db.agentOrder == old(db.agentOrder) && db.reviews == old(db.reviews)
  {
    var applied := AgentService.UpdateAgentBalance(db, job.requester, -job.amount);
    assert applied;
    db.log := db.log + [Entry(job.requester, EscrowLock, -job.amount)];
    db.jobs, db.jobOrder := db.jobs[id := job], db.jobOrder + [id];
    AgentService.IncrementJobCount(db, job.requester, AgentService.RequestedJobs);
  }

  /** `acceptJob`: only a requested job can be accepted; no balance changes. */
  method AcceptJob(db: Db, id: JobId) returns (r: Result<Job, JobError>, notices: seq<Notice>)
    requires db.Valid()
    modifies db
    ensures db.Valid() && JobsEvolve(old(db.jobs), db.jobs)
    ensures db.agents == old(db.agents) && db.agentOrder == old(db.agentOrder) && db.jobOrder == old(db.jobOrder)
    ensures db.log == old(db.log) && db.reviews == old(db.reviews)
    ensures id !in old(db.jobs) ==> r == Err(JobNotFound) && db.jobs == old(db.jobs) && notices == []
    ensures id in old(db.jobs) && old(db.jobs)[id].status != Requested ==> r == Err(CannotAccept) && db.jobs == old(db.jobs) && notices == []
    ensures id in old(db.jobs) && old(db.jobs)[id].status == Requested ==>
      && r == Ok(old(db.jobs)[id].(status := Accepted))
      && db.jobs == old(db.jobs)[id := r.value]
      && notices == NotifyJobStatusChange(id, r.value, JobAccepted)
  {
    if id !in db.jobs {
      return Err(JobNotFound), [];
    }
    if db.jobs[id].status != Requested {
      return Err(CannotAccept), [];
    }
    var job := db.jobs[id].(status := Accepted);
    MoveInEscrow(db.agents, db.agentOrder, db.jobs, db.jobOrder, db.log, db.reviews, id, job);
    MoveEvolves(db.jobs, id, job);
    SetJob(db, id, job);
    r := Ok(job);
    notices := NotifyJobStatusChange(id, job, JobAccepted);
  }

  /** `deliverJob`: only an accepted job can be delivered; the deliverable is stored (an empty one as none). */
  method DeliverJob(db: Db, id: JobId, deliverable: Option<string>) returns (r: Result<Job, JobError>, notices: seq<Notice>)
    requires db.Valid()
    modifies db
    ensures db.Valid() && JobsEvolve(old(db.jobs), db.jobs)
    ensures db.agents == old(db.agents) && db.agentOrder == old(db.agentOrder) && db.jobOrder == old(db.jobOrder)
    ensures db.log == old(db.log) && db.reviews == old(db.reviews)
    ensures id !in old(db.jobs) ==> r == Err(JobNotFound) && db.jobs == old(db.jobs) && notices == []
    ensures id in old(db.jobs) && old(db.jobs)[id].status != Accepted ==> r == Err(CannotDeliver) && db.jobs == old(db.jobs) && notices == []
    ensures id in old(db.jobs) && old(db.jobs)[id].status == Accepted ==>
      && r == Ok(old(db.jobs)[id].(status := Delivered, deliverable := OrNull(deliverable)))
      && db.jobs == old(db.jobs)[id := r.value]
      && notices == NotifyJobStatusChange(id, r.value, JobDelivered)
  {
    if id !in db.jobs {
      return Err(JobNotFound), [];
    }
    if db.jobs[id].status != Accepted {
      return Err(CannotDeliver), [];
    }
    var job := db.jobs[id].(status := Delivered, deliverable := OrNull(deliverable));
    MoveInEscrow(db.agents, db.agentOrder, db.jobs, db.jobOrder, db.log, db.reviews, id, job);
    MoveEvolves(db.jobs, id, job);
    SetJob(db, id, job);
    r := Ok(job);
    notices := NotifyJobStatusChange(id, job, JobDelivered);
  }

  /** What `completeJob` returns besides the job: the mining bonus paid to each party, if any, and the economy counters. */
  datatype Completion = Completion(job: Job, miningBonus: Option<int>, totalCompletedJobs: int, activityMiningRemaining: int)

  /**
   * What `completeJob` reports, given the number of jobs completed before this one: the bonus
   * each party got (only while that number is below ten), the new total, and how many more
   * completions still earn the bonus.
   */
  function Outcome(done: Job, count: int): (c: Completion)
    ensures c.miningBonus.Some? <==> count < ACTIVITY_MINING_THRESHOLD
    ensures c.miningBonus.Some? ==> c.miningBonus.value == ACTIVITY_MINING_BONUS
    ensures c.totalCompletedJobs == count + 1
    ensures c.activityMiningRemaining >= 0
    ensures c.miningBonus.Some? ==> c.totalCompletedJobs + c.activityMiningRemaining == ACTIVITY_MINING_THRESHOLD
    ensures c.miningBonus.None? ==> c.activityMiningRemaining == 0
  {
    Completion(done, if count < ACTIVITY_MINING_THRESHOLD then Some(ACTIVITY_MINING_BONUS) else None,
               count + 1, MiningRemaining(count))
  }

  /** The agents after the provider is paid `payout` and credited a completed job. */
  function PaidProvider(agents: map<AgentId, Agent>, provider: AgentId, payout: int): map<AgentId, Agent>
    requires provider in agents
  {
    agents[provider := AgentService.Counted(AgentService.WithDelta(agents[provider], payout), AgentService.CompletedJobs)]
  }

  /** The agents after both parties are paid the mining bonus. */
  function Mined(agents: map<AgentId, Agent>, requester: AgentId, provider: AgentId): map<AgentId, Agent>
    requires requester in agents && provider in agents
  {
    var a1 := agents[requester := AgentService.WithDelta(agents[requester], ACTIVITY_MINING_BONUS)];
    a1[provider := AgentService.WithDelta(a1[provider], ACTIVITY_MINING_BONUS)]
  }

  /**
   * The settlement writes of `completeJob`: the provider's balance goes up by the payout and its
   * completed-jobs counter by one, then a `payment` row and a `platform_fee` row to the Tide Pool
   * are logged (the fee row even when the fee is zero).
   */
  method PayProvider(db: Db, job: Job)
    requires job.provider in db.agents && db.agents[job.provider].balance + Payout(job.amount) >= 0
    modifies db
    ensures db.agents == PaidProvider(old(db.agents), job.provider, Payout(job.amount))
    ensures db.log == old(db.log) + [Entry(job.provider, Payment, Payout(job.amount))] + [Entry(TIDE_POOL, PlatformFee, TidePoolFee(job.amount))]
    ensures db.agentOrder == old(db.agentOrder) && db.jobs == old(db.jobs) && db.jobOrder == old(db.jobOrder)
    ensures db.reviews == old(db.reviews)
  {
    var fee := TidePoolFee(job.amount);
    var payout := Payout(job.amount);
    var applied := AgentService.UpdateAgentBalance(db, job.provider, payout);
    AgentService.IncrementJobCount(db, job.provider, AgentService.CompletedJobs);
    db.log := db.log + [Entry(job.provider, Payment, payout)];
    db.log := db.log + [Entry(TIDE_POOL, PlatformFee, fee)];
  }

  /** The mining writes of `completeJob`: requester and provider each get the bonus, with one row each. */
  method PayMining(db: Db, requester: AgentId, provider: AgentId)
    requires requester in db.agents && provider in db.agents
    requires db.agents[requester].balance >= 0 && db.agents[provider].balance >= 0
    modifies db
    ensures db.agents == Mined(old(db.agents), requester, provider)
    ensures db.log == old(db.log) + [Entry(requester, ActivityMiningBonus, ACTIVITY_MINING_BONUS)] + [Entry(provider, ActivityMiningBonus, ACTIVITY_MINING_BONUS)]
    ensures db.agentOrder == old(db.agentOrder) && db.jobs == old(db.jobs) && db.jobOrder == old(db.jobOrder)
    ensures db.reviews == old(db.reviews)
  {
    var _ := AgentService.UpdateAgentBalance(db, requester, ACTIVITY_MINING_BONUS);
    var _ := AgentService.UpdateAgentBalance(db, provider, ACTIVITY_MINING_BONUS);
    db.log := db.log + [Entry(requester, ActivityMiningBonus, ACTIVITY_MINING_BONUS)];
    db.log := db.log + [Entry(provider, ActivityMiningBonus, ACTIVITY_MINING_BONUS)];
  }

  /** The agents after a completion: the provider paid and credited, then the mining bonus while `count` is below ten. */
  function CompletionAgents(agents: map<AgentId, Agent>, job: Job, count: int): (after: map<AgentId, Agent>)
    requires job.requester in agents && job.provider in agents
    ensures after.Keys == agents.Keys
  {
    var paid := PaidProvider(agents, job.provider, Payout(job.amount));
    if count < ACTIVITY_MINING_THRESHOLD then Mined(paid, job.requester, job.provider) else paid
  }

  /** The log after a completion: payment and fee rows, then the two mining rows while `count` is below ten. */
  function CompletionLog(log: seq<Tx>, job: Job, count: int): seq<Tx> {
    var settled := log + [Entry(job.provider, Payment, Payout(job.amount))] + [Entry(TIDE_POOL, PlatformFee, TidePoolFee(job.amount))];
    if count < ACTIVITY_MINING_THRESHOLD
    then settled + [Entry(job.requester, ActivityMiningBonus, ACTIVITY_MINING_BONUS)] + [Entry(job.provider, ActivityMiningBonus, ACTIVITY_MINING_BONUS)]
    else settled
  }

  /**
   * A completion keeps the books: escrow leaves for the payout and the fee, and the mining
   * bonus, paid only while fewer than ten jobs are completed, stays within its cap.
   */
  lemma {:induction false} CompletionKeepsBooks(
    agents: map<AgentId, Agent>, agentOrder: seq<AgentId>, jobs: map<JobId, Job>, jobOrder: seq<JobId>,
    log: seq<Tx>, reviews: seq<Review>, id: JobId, now: Time)
    requires Consistent(agents, agentOrder, jobs, jobOrder, log, reviews)
    requires id in jobs && jobs[id].status == Delivered
    ensures var job := jobs[id];
      && job.requester in agents && job.provider in agents && job.requester != job.provider
      && agents[job.requester].balance >= 0 && agents[job.provider].balance >= 0 && Payout(job.amount) >= 0
    ensures var job := jobs[id];
      var count := CompletedCount(jobOrder, jobs);
      Consistent(CompletionAgents(agents, job, count), agentOrder, jobs[id := job.(status := Completed, completedAt := Some(now))],
                 jobOrder, CompletionLog(log, job, count), reviews)
  {
    var job := jobs[id];
    var done := job.(status := Completed, completedAt := Some(now));
    var pay := Entry(job.provider, Payment, Payout(job.amount));
    var feeRow := Entry(TIDE_POOL, PlatformFee, TidePoolFee(job.amount));
    FeeSplit(job.amount);
    BalanceNonNegative(agents, log, job.provider);
    BalanceNonNegative(agents, log, job.requester);
    var credited := AgentService.Counted(AgentService.WithDelta(agents[job.provider], Payout(job.amount)), AgentService.CompletedJobs);
    SettleWithFee(agents, agentOrder, jobs, jobOrder, log, reviews, id, done, credited, pay, feeRow);
    if CompletedCount(jobOrder, jobs) < ACTIVITY_MINING_THRESHOLD {
      var paid := agents[job.provider := credited];
      var a1 := paid[job.requester := AgentService.WithDelta(paid[job.requester], ACTIVITY_MINING_BONUS)];
      PayMiningBonus(paid, agentOrder, jobs[id := done], jobOrder, log + [pay] + [feeRow], reviews,
        job.requester, AgentService.WithDelta(paid[job.requester], ACTIVITY_MINING_BONUS),
        job.provider, AgentService.WithDelta(a1[job.provider], ACTIVITY_MINING_BONUS));
    }
  }

  /**
   * The writes of `completeJob` once the job is known to be delivered: the settlement, then the
   * completed count (read before this job is marked), the mining bonus while that count is below
   * ten, and the status change. Returns the count.
   */
  method RecordCompletion(db: Db, id: JobId, job: Job, now: Time) returns (count: int)
    requires job.requester in db.agents && job.provider in db.agents
    requires db.agents[job.requester].balance >= 0 && db.agents[job.provider].balance >= 0
    requires Payout(job.amount) >= 0
    modifies db
    ensures count == CompletedCount(old(db.jobOrder), old(db.jobs))
    ensures db.agents == CompletionAgents(old(db.agents), job, count)
    ensures db.log == CompletionLog(old(db.log), job, count)
    ensures db.jobs == old(db.jobs)[id := job.(status := Completed, completedAt := Some(now))]
    ensures db.agentOrder == old(db.agentOrder) && db.jobOrder == old(db.jobOrder) && db.reviews == old(db.reviews)
  {
    PayProvider(db, job);
    count := CompletedCount(db.jobOrder, db.jobs);
    if count < ACTIVITY_MINING_THRESHOLD {
      PayMining(db, job.requester, job.provider);
    }
    db.jobs := db.jobs[id := job.(status := Completed, completedAt := Some(now))];
  }

  /**
   * `completeJob`. Only a delivered job can be completed. The provider is paid the amount less
   * the fee and credited a completed job; a `payment` row and a `platform_fee` row to the Tide
   * Pool are logged. The completed count is read before this job is marked: while it is below
   * ten, requester and provider each get the mining bonus with a row each. Then the job is
   * completed and the provider notified.
   */
  method CompleteJob(db: Db, id: JobId, now: Time) returns (r: Result<Completion, JobError>, notices: seq<Notice>)
    requires db.Valid()
    modifies db
    ensures db.Valid() && JobsEvolve(old(db.jobs), db.jobs)
    ensures db.agentOrder == old(db.agentOrder) && db.jobOrder == old(db.jobOrder) && db.reviews == old(db.reviews)
    ensures id !in old(db.jobs) ==> r == Err(JobNotFound)
    ensures id in old(db.jobs) && old(db.jobs)[id].status != Delivered ==> r == Err(CannotComplete)
    ensures r.Err? ==> db.agents == old(db.agents) && db.jobs == old(db.jobs) && db.log == old(db.log) && notices == []
    ensures id in old(db.jobs) && old(db.jobs)[id].status == Delivered ==>
      var j := old(db.jobs)[id];
      var count := CompletedCount(old(db.jobOrder), old(db.jobs));
      var done := j.(status := Completed, completedAt := Some(now));
      && j.requester in old(db.agents) && j.provider in old(db.agents)
      && db.agents == CompletionAgents(old(db.agents), j, count)
      && db.log == CompletionLog(old(db.log), j, count)
      && db.jobs == old(db.jobs)[id := done]
      && r == Ok(Outcome(done, count))
      && notices == NotifyJobStatusChange(id, done, JobCompleted)
  {
    if id !in db.jobs {
      return Err(JobNotFound), [];
    }
    if db.jobs[id].status != Delivered {
      return Err(CannotComplete), [];
    }
    var job := db.jobs[id];
    var done := job.(status := Completed, completedAt := Some(now));
    CompletionKeepsBooks(db.agents, db.agentOrder, db.jobs, db.jobOrder, db.log, db.reviews, id, now);
    MoveEvolves(db.jobs, id, done);
    var count := RecordCompletion(db, id, job, now);
    r := Ok(Outcome(done, count));
    notices := NotifyJobStatusChange(id, done, JobCompleted);
  }

  /**
   * `completeJob` on a delivered job as written (src/services/jobs.ts:144-157): the provider is
   * paid and credited, the `payment` row is logged, and then the `platform_fee` row is inserted
   * for the agent id 'tide-pool'. The foreign key refuses that row unless an agents row has that
   * id; no transaction wraps the statements, so the earlier writes stay and the job stays
   * delivered. Past the fee row, the completion goes on as `CompleteJob` describes.
   */
  function CompleteAsWritten(agents: map<AgentId, Agent>, jobs: map<JobId, Job>, jobOrder: seq<JobId>, log: seq<Tx>, id: JobId, now: Time): (a: Attempt)
    requires id in jobs && jobs[id].status == Delivered
    requires jobs[id].requester in agents && jobs[id].provider in agents
    ensures a.finished <==> TIDE_POOL in agents
    ensures a.agents.Keys == agents.Keys
  {
    var job := jobs[id];
    var paid := PaidProvider(agents, job.provider, Payout(job.amount));
    var pay := Entry(job.provider, Payment, Payout(job.amount));
    var feeRow := Entry(TIDE_POOL, PlatformFee, TidePoolFee(job.amount));
    if !RowAdmitted(paid, jobs, feeRow) then Attempt(false, paid, jobs, log + [pay])
    else
      var count := CompletedCount(jobOrder, jobs);
      Attempt(true, CompletionAgents(agents, job, count), jobs[id := job.(status := Completed, completedAt := Some(now))],
              CompletionLog(log, job, count))
  }

  /**
   * As written, no delivered job can be completed in a consistent state, where no agent has the
   * id 'tide-pool': the first try pays the provider, leaves the job delivered and escrow short by
   * the payout, and a second try pays the provider again.
   */
  lemma CompleteAsWrittenPaysTwice(
    agents: map<AgentId, Agent>, agentOrder: seq<AgentId>, jobs: map<JobId, Job>, jobOrder: seq<JobId>,
    log: seq<Tx>, reviews: seq<Review>, id: JobId, now: Time)
    requires Consistent(agents, agentOrder, jobs, jobOrder, log, reviews)
    requires id in jobs && jobs[id].status == Delivered
    ensures jobs[id].requester in agents && jobs[id].provider in agents
    ensures var first := CompleteAsWritten(agents, jobs, jobOrder, log, id, now);
      var p := jobs[id].provider;
      && !first.finished && first.jobs == jobs
      && first.agents[p].balance == agents[p].balance + Payout(jobs[id].amount)
      && EscrowGap(jobOrder, first.jobs, first.log) == Payout(jobs[id].amount) > 0
    ensures var first := CompleteAsWritten(agents, jobs, jobOrder, log, id, now);
      var second := CompleteAsWritten(first.agents, first.jobs, jobOrder, first.log, id, now);
      var p := jobs[id].provider;
      && !second.finished && second.jobs == jobs
      && second.agents[p].balance == agents[p].balance + 2 * Payout(jobs[id].amount)
  {
    var job := jobs[id];
    var pay := Entry(job.provider, Payment, Payout(job.amount));
    assert job.requester in agents && job.provider in agents && job.amount > 0;
    assert TIDE_POOL !in agents;
    FeeSplit(job.amount);
    assert Payout(job.amount) > 0;
    LogAppend(log, pay);
  }

  /** The writes of `cancelJob`: the requester gets the amount back, with one `escrow_release` row, and the job is cancelled. */
  method Refund(db: Db, id: JobId, job: Job)
    requires job.requester in db.agents && db.agents[job.requester].balance + job.amount >= 0
    modifies db
    ensures db.agents == old(db.agents)[job.requester := AgentService.WithDelta(old(db.agents)[job.requester], job.amount)]
    ensures db.log == old(db.log) + [Entry(job.requester, EscrowRelease, job.amount)]
    ensures db.jobs == old(db.jobs)[id := job.(status := Cancelled)]
    ensures db.agentOrder == old(db.agentOrder) && db.jobOrder == old(db.jobOrder) && db.reviews == old(db.reviews)
  {
    var _ := AgentService.UpdateAgentBalance(db, job.requester, job.amount);
    db.log := db.log + [Entry(job.requester, EscrowRelease, job.amount)];
    db.jobs := db.jobs[id := job.(status := Cancelled)];
  }

  /**
   * `cancelJob`: only a requested job can be cancelled; the requester gets the whole amount back
   * with one `escrow_release` row, the job is cancelled and the provider notified.
   */
  method CancelJob(db: Db, id: JobId) returns (r: Result<Job, JobError>, notices: seq<Notice>)
    requires db.Valid()
    modifies db
    ensures db.Valid() && JobsEvolve(old(db.jobs), db.jobs)
    ensures db.agentOrder == old(db.agentOrder) && db.jobOrder == old(db.jobOrder) && db.reviews == old(db.reviews)
    ensures id !in old(db.jobs) ==> r == Err(JobNotFound)
    ensures id in old(db.jobs) && old(db.jobs)[id].status != Requested ==> r == Err(CannotCancel)
    ensures r.Err? ==> db.agents == old(db.agents) && db.jobs == old(db.jobs) && db.log == old(db.log) && notices == []
    ensures id in old(db.jobs) && old(db.jobs)[id].status == Requested ==>
      var j := old(db.jobs)[id];
      && j.requester in old(db.agents)
      && r == Ok(j.(status := Cancelled))
      && db.agents == old(db.agents)[j.requester := AgentService.WithDelta(old(db.agents)[j.requester], j.amount)]
      && db.log == old(db.log) + [Entry(j.requester, EscrowRelease, j.amount)]
      && db.jobs == old(db.jobs)[id := r.value]
      && notices == NotifyJobStatusChange(id, r.value, JobCancelled)
  {
    if id !in db.jobs {
      return Err(JobNotFound), [];
    }
    if db.jobs[id].status != Requested {
      return Err(CannotCancel), [];
    }
    var job := db.jobs[id];
    var cancelled := job.(status := Cancelled);
    BalanceNonNegative(db.agents, db.log, job.requester);
    ReleaseEscrow(db.agents, db.agentOrder, db.jobs, db.jobOrder, db.log, db.reviews, id, cancelled,
      AgentService.WithDelta(db.agents[job.requester], job.amount), Entry(job.requester, EscrowRelease, job.amount));
    MoveEvolves(db.jobs, id, cancelled);
    Refund(db, id, job);
    r := Ok(cancelled);
    notices := NotifyJobStatusChange(id, cancelled, JobCancelled);
  }

  /** The status names stored in the `status` column. */
  function StatusName(s: JobStatus): string {
    match s
    case Requested => "requested"
    case Accepted => "accepted"
    case Delivered => "delivered"
    case Completed => "completed"
    case Cancelled => "cancelled"
    case Disputed => "disputed"
  }

  /** The filters of `listJobs`; an absent or empty one does not filter. */
  datatype JobFilter = JobFilter(requester: Option<AgentId>, provider: Option<AgentId>, status: Option<string>)

  predicate Matches(f: JobFilter, j: Job) {
    && (Truthy(f.requester) ==> j.requester == f.requester.value)
    && (Truthy(f.provider) ==> j.provider == f.provider.value)
    && (Truthy(f.status) ==> StatusName(j.status) == f.status.value)
  }

  /** The WHERE clause of `listJobs`, on a job id. */
  function Listed(jobs: map<JobId, Job>, f: JobFilter): JobId -> bool {
    id => id in jobs && Matches(f, jobs[id])
  }

  /**
   * `listJobs`: the ids of the jobs that pass every given filter, newest first (jobs are listed
   * in the reverse of their insertion order, standing for `ORDER BY created_at DESC`).
   */
  function ListJobs(jobOrder: seq<JobId>, jobs: map<JobId, Job>, f: JobFilter): (ids: seq<JobId>)
    ensures forall i :: 0 <= i < |ids| ==> ids[i] in jobOrder && ids[i] in jobs && Matches(f, jobs[ids[i]])
    ensures forall id :: id in jobOrder && id in jobs && Matches(f, jobs[id]) ==> id in ids
    ensures |ids| <= |jobOrder|
  {
    var ids := KeptNewestFirst(jobOrder, Listed(jobs, f));
    assert forall i :: 0 <= i < |ids| ==> ids[i] in ids;
    ids
  }

  /** With no filters every job is listed, the newest first. */
  lemma ListAll(jobOrder: seq<JobId>, jobs: map<JobId, Job>)
    requires forall id :: id in jobOrder ==> id in jobs
    ensures ListJobs(jobOrder, jobs, JobFilter(None, None, None)) == Reversed(jobOrder)
  {
    KeptAll(jobOrder, Listed(jobs, JobFilter(None, None, None)));
  }

  /** Each job is listed at most once when the insertion order names each job once. */
  lemma ListedOnce(jobOrder: seq<JobId>, jobs: map<JobId, Job>, f: JobFilter)
    requires Distinct(jobOrder)
    ensures Distinct(ListJobs(jobOrder, jobs, f))
  {
    KeptOnce(jobOrder, Listed(jobs, f));
  }

  /** The listing runs newest first: of two listed jobs, the later in the list was inserted earlier. */
  lemma ListedNewestFirst(jobOrder: seq<JobId>, jobs: map<JobId, Job>, f: JobFilter)
    ensures forall i, j :: 0 <= i < j < |ListJobs(jobOrder, jobs, f)| ==>
      Before(jobOrder, ListJobs(jobOrder, jobs, f)[j], ListJobs(jobOrder, jobs, f)[i])
  {
    KeptInReverseOrder(jobOrder, Listed(jobs, f));
  }

  /**
   * Cancelling a job undoes creating it, for the requester: its balance is back where it started
   * and the only trace left on the agent is the requested-jobs counter; the `escrow_lock` and
   * `escrow_release` rows cancel out in every agent's credited total.
   */
  lemma CancelUndoesCreate(agents: map<AgentId, Agent>, log: seq<Tx>, requester: AgentId, amount: int)
    requires requester in agents
    ensures var locked := agents[requester :=
              AgentService.Counted(AgentService.WithDelta(agents[requester], -amount), AgentService.RequestedJobs)];
      var refunded := locked[requester := AgentService.WithDelta(locked[requester], amount)];
      refunded == agents[requester := AgentService.Counted(agents[requester], AgentService.RequestedJobs)]
    ensures forall a :: Credited(log + [Entry(requester, EscrowLock, -amount)] + [Entry(requester, EscrowRelease, amount)], a) == Credited(log, a)
  {
  }
}
