/**
 * The review handler of the route revision (projects/agent-economy/src/api/reviews.ts): POST /reviews
 * checks the body, derives the reviewee as the other participant of the job, refuses a second
 * review by the same reviewer, and in one transaction stores the review and sets the reviewee's
 * reputation to the mean of all its ratings.
 *
 * The review id and timestamp (`uuidv4()`, `new Date()`) are not modelled; the GET handlers only
 * read rows and are not part of this model.
 */
module ReviewRoutes {
  import opened Wrappers
  import opened Ledger
  import AgentService

  /** The refusals of POST /reviews, in the order the handler checks them. */
  datatype RouteError =
    | MissingFields
    | InvalidRating
    | JobNotFound
    | NotCompleted
    | NotParticipant
    | AlreadyReviewed

  /** The HTTP status each refusal is answered with. */
  function HttpStatus(e: RouteError): (code: int)
    ensures code == 404 <==> e == JobNotFound
    ensures code == 403 <==> e == NotParticipant
    ensures code == 409 <==> e == AlreadyReviewed
    ensures code == 400 <==> e in {MissingFields, InvalidRating, NotCompleted}
  {
    match e
    case JobNotFound => 404
    case NotParticipant => 403
    case AlreadyReviewed => 409
    case _ => 400
  }

  /** The JSON body; a JSON number rating is a real, absent fields are `None`. */
  datatype ReviewRequest = ReviewRequest(
    jobId: Option<string>,
    reviewerId: Option<string>,
    rating: Option<real>,
    comment: Option<string>)

  /** `Number.isInteger` on a finite number. */
  predicate IsInteger(x: real) {
    x.Floor as real == x
  }

  /** `rating` as a truthy JavaScript value: present and not 0. */
  predicate RatingGiven(q: ReviewRequest) {
    q.rating.Some? && q.rating.value != 0.0
  }

  /** The party being reviewed: the provider when the requester reviews, otherwise the requester. */
  function Reviewee(job: Job, reviewer: AgentId): AgentId {
    if reviewer == job.requester then job.provider else job.requester
  }

  /** A participant of a job with two distinct parties reviews the other one, never itself. */
  lemma RevieweeIsOther(job: Job, reviewer: AgentId)
    requires reviewer == job.requester || reviewer == job.provider
    requires job.requester != job.provider
    ensures Reviewee(job, reviewer) != reviewer
    ensures {reviewer, Reviewee(job, reviewer)} == {job.requester, job.provider}
  {
  }

  /** The row the transaction inserts; an empty comment is stored as NULL. */
  function Posted(q: ReviewRequest, job: Job): Review
    requires q.jobId.Some? && q.reviewerId.Some? && q.rating.Some?
  {
    Review(q.jobId.value, q.reviewerId.value, Reviewee(job, q.reviewerId.value), q.rating.value, OrNull(q.comment))
  }

  /**
   * The checks of the handler, in order: required fields (400), an integer rating in 1..5 (400),
   * the job (404), its status (400), the reviewer's participation (403), an earlier review by the
   * same reviewer on the job (409).
   */
  function RouteCheck(jobs: map<JobId, Job>, reviews: seq<Review>, q: ReviewRequest): (e: Option<RouteError>)
    ensures (!Truthy(q.jobId) || !Truthy(q.reviewerId) || !RatingGiven(q)) <==> e == Some(MissingFields)
    ensures e.None? <==>
      && Truthy(q.jobId) && Truthy(q.reviewerId) && RatingGiven(q)
      && IsInteger(q.rating.value) && 1.0 <= q.rating.value <= 5.0
      && q.jobId.value in jobs && jobs[q.jobId.value].status == Completed
      && (q.reviewerId.value == jobs[q.jobId.value].requester || q.reviewerId.value == jobs[q.jobId.value].provider)
      && forall i :: 0 <= i < |reviews| ==> reviews[i].job != q.jobId.value || reviews[i].reviewer != q.reviewerId.value
    ensures e == Some(AlreadyReviewed) ==>
      exists i :: 0 <= i < |reviews| && reviews[i].job == q.jobId.value && reviews[i].reviewer == q.reviewerId.value
  {
    if !Truthy(q.jobId) || !Truthy(q.reviewerId) || !RatingGiven(q) then Some(MissingFields)
    else if q.rating.value < 1.0 || q.rating.value > 5.0 || !IsInteger(q.rating.value) then Some(InvalidRating)
    else if q.jobId.value !in jobs then Some(JobNotFound)
    else
      var job := jobs[q.jobId.value];
      if job.status != Completed then Some(NotCompleted)
      else if q.reviewerId.value != job.requester && q.reviewerId.value != job.provider then Some(NotParticipant)
      else if !FirstBy(reviews, Posted(q, job)) then Some(AlreadyReviewed)
      else None
  }

  /** The transaction: insert the review, then write the reviewee's new score; nothing else changes. */
  method StoreReview(db: Db, r: Review, score: real)
    requires r.reviewee in db.agents
    modifies db
    ensures db.reviews == old(db.reviews) + [r]
    ensures db.agents == old(db.agents)[r.reviewee := AgentService.Rescored(old(db.agents)[r.reviewee], score)]
    ensures db.agentOrder == old(db.agentOrder) && db.jobs == old(db.jobs)
    ensures db.jobOrder == old(db.jobOrder) && db.log == old(db.log)
  {
    db.reviews := db.reviews + [r];
    db.agents := db.agents[r.reviewee := AgentService.Rescored(db.agents[r.reviewee], score)];
  }

  /**
   * POST /reviews: a refused request changes nothing; an accepted one stores an admitted review of
   * the other participant and sets that agent's reputation to the mean of all its ratings, this
   * one included, which lies between 1 and 5. The answer is the stored row.
   */
  method PostReview(db: Db, q: ReviewRequest) returns (r: Result<Review, RouteError>)
    requires db.Valid()
    modifies db
    ensures db.Valid()
    ensures r.Err? <==> RouteCheck(old(db.jobs), old(db.reviews), q).Some?
    ensures r.Err? ==>
      r.error == RouteCheck(old(db.jobs), old(db.reviews), q).value &&
      db.agents == old(db.agents) && db.reviews == old(db.reviews)
    ensures r.Ok? ==>
      && q.jobId.Some? && q.reviewerId.Some? && q.rating.Some? && q.jobId.value in old(db.jobs)
      && r.value == Posted(q, old(db.jobs)[q.jobId.value])
      && Admitted(old(db.jobs), r.value)
      && db.reviews == old(db.reviews) + [r.value]
      && r.value.reviewee in old(db.agents)
      && db.agents == old(db.agents)[r.value.reviewee :=
           AgentService.Rescored(old(db.agents)[r.value.reviewee], AgentService.AverageRating(db.reviews, r.value.reviewee))]
      && 1.0 <= db.agents[r.value.reviewee].reputation <= 5.0
    ensures db.agentOrder == old(db.agentOrder) && db.jobs == old(db.jobs)
    ensures db.jobOrder == old(db.jobOrder) && db.log == old(db.log)
  {
    var e := RouteCheck(db.jobs, db.reviews, q);
    if e.Some? {
      return Err(e.value);
    }
    var job := db.jobs[q.jobId.value];
    var stored := Posted(q, job);
    assert job.requester in db.agents && job.provider in db.agents && job.requester != job.provider;
    RevieweeIsOther(job, q.reviewerId.value);
    AdmitReview(db.agents, db.agentOrder, db.jobs, db.jobOrder, db.log, db.reviews, stored);
    var reviews' := db.reviews + [stored];
    var score := AgentService.AverageRating(reviews', stored.reviewee);
    AgentService.RatingsAppend(db.reviews, stored, stored.reviewee);
    AgentService.AverageRatingBounds(db.jobs, reviews', stored.reviewee);
    var rescored := AgentService.Rescored(db.agents[stored.reviewee], score);
    ProfileChange(db.agents, db.agentOrder, db.jobs, db.jobOrder, db.log, reviews', stored.reviewee, rescored);
    StoreReview(db, stored, score);
    r := Ok(stored);
  }
}
