/**
 * Notification routing (src/services/webhooks.ts): which party of a job hears about each
 * status change, with which payload, and whether a notification goes out at all. The HTTP
 * POST itself is fire-and-forget I/O and is not modelled: a `Delivery` is the request that
 * would be sent.
 */
module Webhooks {
  import opened Wrappers
  import opened Ledger
  import opened Sequences

  datatype Event =
    | JobRequested | JobAccepted | JobDelivered | JobCompleted | JobCancelled | JobDisputed
    | ReviewReceived

  /** The party id the payload carries besides the job data, under its own key. */
  datatype Counterparty = NoParty | RequesterId(requester: AgentId) | ProviderId(provider: AgentId)

  /** The `data` of a webhook payload: the job fields and, for single-recipient events, the other party. */
  datatype Payload = Payload(
    jobId: JobId,
    amount: int,
    status: JobStatus,
    description: Option<string>,
    deliverable: Option<string>,
    party: Counterparty)

  /** One call of `fireWebhook`: the agent notified, the event and its data. */
  datatype Notice = Notice(recipient: AgentId, event: Event, data: Payload)

  /** A request actually sent: the target URL, the event and the payload with its timestamp. */
  datatype Delivery = Delivery(url: string, event: Event, timestamp: Time, data: Payload)

  function JobData(id: JobId, job: Job, party: Counterparty): Payload {
    Payload(id, job.amount, job.status, job.description, job.deliverable, party)
  }

  /** `notifyJobStatusChange`: the `fireWebhook` calls made for a job event, in order. */
  function NotifyJobStatusChange(id: JobId, job: Job, event: Event): (ns: seq<Notice>)
    ensures |ns| <= 2
    ensures forall i :: 0 <= i < |ns| ==>
      && ns[i].event == event && ns[i].data.jobId == id
      && (ns[i].recipient == job.requester || ns[i].recipient == job.provider)
  {
    match event
    case JobRequested => [Notice(job.provider, event, JobData(id, job, RequesterId(job.requester)))]
    case JobAccepted => [Notice(job.requester, event, JobData(id, job, ProviderId(job.provider)))]
    case JobDelivered => [Notice(job.requester, event, JobData(id, job, ProviderId(job.provider)))]
    case JobCompleted => [Notice(job.provider, event, JobData(id, job, RequesterId(job.requester)))]
    case JobCancelled => [Notice(job.provider, event, JobData(id, job, RequesterId(job.requester)))]
    case JobDisputed => [Notice(job.requester, event, JobData(id, job, NoParty)), Notice(job.provider, event, JobData(id, job, NoParty))]
    case ReviewReceived => []
  }

  /**
   * The routing table: requests, completions and cancellations go to the provider; acceptances
   * and deliveries to the requester; a dispute to the requester and then the provider; a review
   * to nobody. Every notice carries the job's own data and goes to a party of the job, and a
   * single recipient is told who the other party is.
   */
  lemma Routing(id: JobId, job: Job, event: Event)
    ensures var ns := NotifyJobStatusChange(id, job, event);
      && (event in {JobRequested, JobCompleted, JobCancelled} ==> |ns| == 1 && ns[0].recipient == job.provider && ns[0].data.party == RequesterId(job.requester))
      && (event in {JobAccepted, JobDelivered} ==> |ns| == 1 && ns[0].recipient == job.requester && ns[0].data.party == ProviderId(job.provider))
      && (event == JobDisputed ==> |ns| == 2 && ns[0].recipient == job.requester && ns[1].recipient == job.provider)
      && (event == ReviewReceived <==> ns == [])
      && forall i :: 0 <= i < |ns| ==>
           && ns[i].event == event
           && (ns[i].recipient == job.requester || ns[i].recipient == job.provider)
           && ns[i].data.jobId == id && ns[i].data.amount == job.amount && ns[i].data.status == job.status
           && ns[i].data.description == job.description && ns[i].data.deliverable == job.deliverable
  {
  }

  /** `getAgentWebhook`: the stored URL, or nothing when the agent is unknown or its URL is unset or empty. */
  function GetAgentWebhook(agents: map<AgentId, Agent>, id: AgentId): (url: Option<string>)
    ensures url.Some? <==> id in agents && Truthy(agents[id].webhookUrl)
    ensures url.Some? ==> url.value != "" && url == agents[id].webhookUrl
  {
    if id in agents then OrNull(agents[id].webhookUrl) else None
  }

  /** Delivery `d` is what firing notice `n` sends. */
  predicate Sends(agents: map<AgentId, Agent>, n: Notice, d: Delivery) {
    n.event == d.event && n.data == d.data && GetAgentWebhook(agents, n.recipient) == Some(d.url)
  }

  /** The notices whose recipient has a URL, in the order they were fired: the ones that send anything. */
  function Reached(agents: map<AgentId, Agent>, notices: seq<Notice>): (rs: seq<Notice>)
    ensures |rs| <= |notices|
    ensures forall n :: n in rs <==> n in notices && GetAgentWebhook(agents, n.recipient).Some?
  {
    if notices == [] then []
    else
      var rest := Reached(agents, notices[1..]);
      assert forall n :: n in notices <==> n == notices[0] || n in notices[1..];
      if GetAgentWebhook(agents, notices[0].recipient).Some? then [notices[0]] + rest else rest
  }

  /** `Reached` keeps the notices in the order in which they were fired. */
  lemma ReachedInOrder(agents: map<AgentId, Agent>, notices: seq<Notice>)
    ensures forall i, j :: 0 <= i < j < |Reached(agents, notices)| ==>
      Before(notices, Reached(agents, notices)[i], Reached(agents, notices)[j])
  {
    forall i, j | 0 <= i < j < |Reached(agents, notices)|
      ensures Before(notices, Reached(agents, notices)[i], Reached(agents, notices)[j])
    {
      ReachedPairInOrder(agents, notices, i, j);
    }
  }

  lemma {:induction false} ReachedPairInOrder(agents: map<AgentId, Agent>, notices: seq<Notice>, i: nat, j: nat)
    requires i < j < |Reached(agents, notices)|
    ensures Before(notices, Reached(agents, notices)[i], Reached(agents, notices)[j])
  {
    var rs := Reached(agents, notices);
    assert notices != [];
    var rest := Reached(agents, notices[1..]);
    if GetAgentWebhook(agents, notices[0].recipient).Some? {
      assert rs == [notices[0]] + rest;
      if i == 0 {
        assert rs[j] == rest[j - 1] && rest[j - 1] in rest;
        BeforeCons(notices, notices[0], rest[j - 1]);
      } else {
        ReachedPairInOrder(agents, notices[1..], i - 1, j - 1);
        BeforeCons(notices, rest[i - 1], rest[j - 1]);
      }
    } else {
      assert rs == rest;
      ReachedPairInOrder(agents, notices[1..], i, j);
      BeforeCons(notices, rest[i], rest[j]);
    }
  }

  /** `fireWebhook`, for each notice in turn: sent to the recipient's URL, or skipped when it has none. */
  function Fire(agents: map<AgentId, Agent>, notices: seq<Notice>, now: Time): (ds: seq<Delivery>)
    ensures |ds| == |Reached(agents, notices)|
    ensures forall k :: 0 <= k < |ds| ==> Sends(agents, Reached(agents, notices)[k], ds[k]) && ds[k].timestamp == now
  {
    if notices == [] then []
    else
      var n := notices[0];
      var rest := Fire(agents, notices[1..], now);
      match GetAgentWebhook(agents, n.recipient)
      case None => rest
      case Some(url) => [Delivery(url, n.event, now, n.data)] + rest
  }

  /**
   * Every delivery answers a notice whose recipient has a URL, and every such notice is answered:
   * one delivery per reachable notice, in the order fired, to a non-empty URL.
   */
  lemma FireSoundAndComplete(agents: map<AgentId, Agent>, notices: seq<Notice>, now: Time)
    ensures var ds := Fire(agents, notices, now);
      && (forall d :: d in ds ==> d.url != "" && d.timestamp == now)
      && (forall d :: d in ds ==> exists i :: 0 <= i < |notices| && Sends(agents, notices[i], d))
      && (forall i :: 0 <= i < |notices| && GetAgentWebhook(agents, notices[i].recipient).Some? ==>
            exists d :: d in ds && Sends(agents, notices[i], d))
  {
    var ds := Fire(agents, notices, now);
    var rs := Reached(agents, notices);
    forall d | d in ds
      ensures d.url != "" && d.timestamp == now
      ensures exists i :: 0 <= i < |notices| && Sends(agents, notices[i], d)
    {
      var k :| 0 <= k < |ds| && ds[k] == d;
      assert rs[k] in rs;
      var i :| 0 <= i < |notices| && notices[i] == rs[k];
      assert Sends(agents, notices[i], d);
    }
    forall i | 0 <= i < |notices| && GetAgentWebhook(agents, notices[i].recipient).Some?
      ensures exists d :: d in ds && Sends(agents, notices[i], d)
    {
      assert notices[i] in rs;
      var k :| 0 <= k < |rs| && rs[k] == notices[i];
      assert ds[k] in ds && Sends(agents, notices[i], ds[k]);
    }
  }

  /** An agent without a webhook URL is never sent anything. */
  lemma NoUrlNoDelivery(agents: map<AgentId, Agent>, id: AgentId, event: Event, data: Payload, now: Time)
    requires id !in agents || !Truthy(agents[id].webhookUrl)
    ensures Fire(agents, [Notice(id, event, data)], now) == []
  {
  }

  /** `setAgentWebhook`: stores the URL (or clears it) on an existing agent; an unknown id changes nothing. */
  method SetAgentWebhook(db: Db, id: AgentId, url: Option<string>)
    requires db.Valid()
    modifies db
    ensures db.Valid()
    ensures id in old(db.agents) ==> db.agents == old(db.agents)[id := old(db.agents)[id].(webhookUrl := url)]
    ensures id !in old(db.agents) ==> db.agents == old(db.agents)
    ensures db.agentOrder == old(db.agentOrder) && db.jobs == old(db.jobs) && db.jobOrder == old(db.jobOrder)
    ensures db.log == old(db.log) && db.reviews == old(db.reviews)
  {
    if id in db.agents {
      var b := db.agents[id].(webhookUrl := url);
      var agents' := db.agents[id := b];
      ProfileChange(db.agents, db.agentOrder, db.jobs, db.jobOrder, db.log, db.reviews, id, b);
      db.agents := agents';
    }
  }

  /** Setting a URL and reading it back gives the URL when it is non-empty, and nothing otherwise. */
  lemma SetThenGet(agents: map<AgentId, Agent>, id: AgentId, url: Option<string>)
    requires id in agents
    ensures GetAgentWebhook(agents[id := agents[id].(webhookUrl := url)], id) == OrNull(url)
  {
  }
}
