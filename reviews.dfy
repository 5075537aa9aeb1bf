/**
 * The review service of the service revision (src/services/reviews.ts): the admission rules a
 * new review must pass, the insert followed by the reviewee's reputation recomputation, the
 * reputation summary of one agent, and the rule deciding when a review listing carries an
 * average rating.
 *
 * The review id and the creation time come from `uuid()` and the clock and are not modelled:
 * a stored review is identified by its position in `Db.reviews`.
 */
module ReviewService {
  import opened Wrappers
  import opened Ledger
  import opened Sequences
  import AgentService

  /** The errors `createReview` throws, one per guard, in the order the guards run. */
  datatype ReviewError =
    | RatingOutOfRange
    | JobNotFound
    | JobNotCompleted
    | ReviewerNotParticipant
    | RevieweeNotParticipant
    | SelfReview
    | AlreadyReviewed

  /** `CreateReviewInput`; the service revision takes the reviewee from its caller. */
  datatype ReviewInput = ReviewInput(
    jobId: JobId,
    reviewerId: AgentId,
    revieweeId: AgentId,
    rating: real,
    comment: Option<string>)

  /** The row `createReview` inserts: an empty comment is stored as NULL. */
  function Stored(input: ReviewInput): (r: Review)
    ensures r.job == input.jobId && r.reviewer == input.reviewerId && r.reviewee == input.revieweeId
    ensures r.rating == input.rating && (r.comment.Some? <==> Truthy(input.comment))
  {
    Review(input.jobId, input.reviewerId, input.revieweeId, input.rating, OrNull(input.comment))
  }

  /** Whether agent `a` is the requester or the provider of `job`. */
  predicate Party(job: Job, a: AgentId) {
    a == job.requester || a == job.provider
  }

  /**
   * The guards of `createReview`, in source order: the rating range (before any lookup), the
   * job, its status, the two participants, self-review and the duplicate per (job, reviewer).
   * No error exactly when the row would be an admitted review and the reviewer's first on the job.
   */
  function ReviewCheck(jobs: map<JobId, Job>, reviews: seq<Review>, input: ReviewInput): (e: Option<ReviewError>)
    ensures e.None? <==> Admitted(jobs, Stored(input)) && FirstBy(reviews, Stored(input))
    ensures (input.rating < 1.0 || input.rating > 5.0) ==> e == Some(RatingOutOfRange)
    ensures e == Some(JobNotFound) <==> 1.0 <= input.rating <= 5.0 && input.jobId !in jobs
    ensures e == Some(SelfReview) ==> input.reviewerId == input.revieweeId
    ensures e == Some(AlreadyReviewed) <==>
      Admitted(jobs, Stored(input)) &&
      exists i :: 0 <= i < |reviews| && reviews[i].job == input.jobId && reviews[i].reviewer == input.reviewerId
  {
    if input.rating < 1.0 || input.rating > 5.0 then Some(RatingOutOfRange)
    else if input.jobId !in jobs then Some(JobNotFound)
    else
      var job := jobs[input.jobId];
      if job.status != Completed then Some(JobNotCompleted)
      else if !Party(job, input.reviewerId) then Some(ReviewerNotParticipant)
      else if !Party(job, input.revieweeId) then Some(RevieweeNotParticipant)
      else if input.reviewerId == input.revieweeId then Some(SelfReview)
      else if !FirstBy(reviews, Stored(input)) then Some(AlreadyReviewed)
      else None
  }

  /** The INSERT of one review row; nothing else changes. */
  method InsertReview(db: Db, r: Review)
    modifies db
    ensures db.reviews == old(db.reviews) + [r]
    ensures db.agents == old(db.agents) && db.agentOrder == old(db.agentOrder)
    ensures db.jobs == old(db.jobs) && db.jobOrder == old(db.jobOrder) && db.log == old(db.log)
  {
    db.reviews := db.reviews + [r];
  }

  /**
   * `createReview`: a review that fails a guard changes nothing; an admitted one is stored, and
   * then the reviewee's reputation becomes the mean of every rating it has received, this one
   * included, which lies between 1 and 5. The returned review carries the comment as given.
   */
  method CreateReview(db: Db, input: ReviewInput) returns (r: Result<Review, ReviewError>)
    requires db.Valid()
    modifies db
    ensures db.Valid()
    ensures r.Err? <==> ReviewCheck(old(db.jobs), old(db.reviews), input).Some?
    ensures r.Err? ==>
      r.error == ReviewCheck(old(db.jobs), old(db.reviews), input).value &&
      db.agents == old(db.agents) && db.reviews == old(db.reviews)
    ensures r.Ok? ==>
      && r.value == Review(input.jobId, input.reviewerId, input.revieweeId, input.rating, input.comment)
      && db.reviews == old(db.reviews) + [Stored(input)]
      && input.revieweeId in old(db.agents)
      && db.agents == old(db.agents)[input.revieweeId :=
           AgentService.Rescored(old(db.agents)[input.revieweeId], AgentService.AverageRating(db.reviews, input.revieweeId))]
      && 1.0 <= db.agents[input.revieweeId].reputation <= 5.0
    ensures db.agentOrder == old(db.agentOrder) && db.jobs == old(db.jobs)
    ensures db.jobOrder == old(db.jobOrder) && db.log == old(db.log)
  {
    var e := ReviewCheck(db.jobs, db.reviews, input);
    if e.Some? {
      return Err(e.value);
    }
    var stored := Stored(input);
    AdmitReview(db.agents, db.agentOrder, db.jobs, db.jobOrder, db.log, db.reviews, stored);
    AgentService.RatingsAppend(db.reviews, stored, input.revieweeId);
    AgentService.AverageRatingBounds(db.jobs, db.reviews + [stored], input.revieweeId);
    InsertReview(db, stored);
    AgentService.UpdateReputationScore(db, input.revieweeId);
    r := Ok(Review(input.jobId, input.reviewerId, input.revieweeId, input.rating, input.comment));
  }

  // ---------------------------------------------------------------- reputation summary

  /** What `getAgentReputation` returns. */
  datatype Reputation = Reputation(averageRating: real, totalReviews: nat)

  /** Whether some stored review has agent `id` as its reviewee. */
  predicate Reviewed(reviews: seq<Review>, id: AgentId) {
    exists i :: 0 <= i < |reviews| && reviews[i].reviewee == id
  }

  /** An agent has received ratings exactly when some review names it as the reviewee. */
  lemma {:induction false} RatingsEmpty(reviews: seq<Review>, id: AgentId)
    ensures AgentService.RatingsOf(reviews, id) != [] <==> Reviewed(reviews, id)
  {
    if reviews != [] {
      var init := reviews[..|reviews| - 1];
      RatingsEmpty(init, id);
      if Reviewed(init, id) {
        var i :| 0 <= i < |init| && init[i].reviewee == id;
        assert reviews[i] == init[i];
      }
      if Reviewed(reviews, id) && reviews[|reviews| - 1].reviewee != id {
        var i :| 0 <= i < |reviews| && reviews[i].reviewee == id;
        assert init[i] == reviews[i];
      }
    }
  }

  /**
   * `getAgentReputation`: the number of reviews the agent received and their mean, with 0 and 0
   * when it has none.
   */
  function GetAgentReputation(reviews: seq<Review>, id: AgentId): (r: Reputation)
    ensures r.totalReviews == |AgentService.RatingsOf(reviews, id)|
    ensures r.totalReviews == 0 <==> !Reviewed(reviews, id)
    ensures r.totalReviews == 0 ==> r.averageRating == 0.0
    ensures r.totalReviews > 0 ==> r.averageRating * (r.totalReviews as real) == AgentService.Sum(AgentService.RatingsOf(reviews, id))
  {
    RatingsEmpty(reviews, id);
    var rs := AgentService.RatingsOf(reviews, id);
    Reputation(AgentService.AverageRating(reviews, id), |rs|)
  }

  /** With the stored reviews admitted, a reviewed agent's average lies between 1 and 5. */
  lemma ReputationBounds(jobs: map<JobId, Job>, reviews: seq<Review>, id: AgentId)
    requires ReviewsAdmitted(jobs, reviews)
    ensures GetAgentReputation(reviews, id).totalReviews > 0 ==>
      1.0 <= GetAgentReputation(reviews, id).averageRating <= 5.0
  {
    AgentService.AverageRatingBounds(jobs, reviews, id);
  }

  // ---------------------------------------------------------------- listing

  /** The options of `listReviews`; absent, empty and zero options are falsy. */
  datatype ReviewQuery = ReviewQuery(
    revieweeId: Option<string>,
    reviewerId: Option<string>,
    jobId: Option<string>,
    limit: Option<int>,
    offset: Option<int>)

  /** The WHERE clause: one equality per truthy filter option. */
  predicate Selects(q: ReviewQuery, r: Review) {
    && (Truthy(q.revieweeId) ==> r.reviewee == q.revieweeId.value)
    && (Truthy(q.reviewerId) ==> r.reviewer == q.reviewerId.value)
    && (Truthy(q.jobId) ==> r.job == q.jobId.value)
  }

  /** The WHERE clause of `listReviews`, as a test on one review. */
  function Chosen(q: ReviewQuery): Review -> bool {
    r => Selects(q, r)
  }

  /** The selected reviews, newest first (ORDER BY created_at DESC on rows stored in time order). */
  function NewestFirst(reviews: seq<Review>, q: ReviewQuery): (rs: seq<Review>)
    ensures |rs| <= |reviews|
    ensures forall x :: x in rs <==> x in reviews && Selects(q, x)
  {
    KeptNewestFirst(reviews, Chosen(q))
  }

  /** Of two selected reviews, the later in the list was stored earlier. */
  lemma SelectedNewestFirst(reviews: seq<Review>, q: ReviewQuery)
    ensures forall i, j :: 0 <= i < j < |NewestFirst(reviews, q)| ==>
      Before(reviews, NewestFirst(reviews, q)[j], NewestFirst(reviews, q)[i])
  {
    KeptInReverseOrder(reviews, Chosen(q));
  }

  /** `options.limit || 50` and `options.offset || 0`. */
  function LimitOf(q: ReviewQuery): int {
    if q.limit.Some? && q.limit.value != 0 then q.limit.value else 50
  }

  function OffsetOf(q: ReviewQuery): int {
    if q.offset.Some? then q.offset.value else 0
  }

  /** The rows OFFSET skips: a negative offset counts as 0. */
  function Skipped(offset: int): nat {
    if offset < 0 then 0 else offset
  }

  /**
   * SQLite's LIMIT / OFFSET: consecutive rows starting after the skipped ones, at most `limit` of
   * them (a negative limit means no limit), and fewer only when the rows run out.
   */
  function Page<T>(rows: seq<T>, limit: int, offset: int): (p: seq<T>)
    ensures limit >= 0 ==> |p| <= limit
    ensures forall k :: 0 <= k < |p| ==> Skipped(offset) + k < |rows| && p[k] == rows[Skipped(offset) + k]
    ensures (limit < 0 || |p| < limit) ==> Skipped(offset) + |p| >= |rows|
  {
    var start := if Skipped(offset) > |rows| then |rows| else Skipped(offset);
    var end := if limit < 0 || start + limit > |rows| then |rows| else start + limit;
    rows[start..end]
  }

  /** What `listReviews` returns. */
  datatype ReviewList = ReviewList(reviews: seq<Review>, averageRating: Option<real>)

  /**
   * `listReviews`: the page of selected reviews, newest first, and the reviewee's average over ALL
   * of its reviews, present only when the query filters by reviewee and the page is not empty.
   */
  function ListReviews(reviews: seq<Review>, q: ReviewQuery): (res: ReviewList)
    ensures res.reviews == Page(NewestFirst(reviews, q), LimitOf(q), OffsetOf(q))
    ensures forall x :: x in res.reviews ==> x in reviews && Selects(q, x)
    ensures LimitOf(q) >= 0 ==> |res.reviews| <= LimitOf(q)
    ensures res.averageRating.Some? <==> Truthy(q.revieweeId) && res.reviews != []
    ensures res.averageRating.Some? ==>
      res.averageRating.value == GetAgentReputation(reviews, q.revieweeId.value).averageRating &&
      GetAgentReputation(reviews, q.revieweeId.value).totalReviews > 0
  {
    var selected := NewestFirst(reviews, q);
    var page := Page(selected, LimitOf(q), OffsetOf(q));
    assert forall x :: x in page ==> x in selected;
    if Truthy(q.revieweeId) && page != [] then
      assert page[0] in reviews && page[0].reviewee == q.revieweeId.value;
      ReviewList(page, Some(AgentService.AverageRating(reviews, q.revieweeId.value)))
    else
      ReviewList(page, None)
  }

  /**
   * Without filters and with room on the page, the listing is every review, newest first, and
   * carries no average.
   */
  lemma {:induction false} ListEverything(reviews: seq<Review>, q: ReviewQuery)
    requires !Truthy(q.revieweeId) && !Truthy(q.reviewerId) && !Truthy(q.jobId)
    requires Skipped(OffsetOf(q)) == 0 && (LimitOf(q) < 0 || LimitOf(q) >= |reviews|)
    ensures ListReviews(reviews, q) == ReviewList(Reversed(reviews), None)
  {
    AllSelected(reviews, q);
  }

  lemma AllSelected(reviews: seq<Review>, q: ReviewQuery)
    requires !Truthy(q.revieweeId) && !Truthy(q.reviewerId) && !Truthy(q.jobId)
    ensures NewestFirst(reviews, q) == Reversed(reviews)
  {
    KeptAll(reviews, Chosen(q));
  }

  /** A listed average, like every reputation, lies between 1 and 5 once the stored reviews are admitted. */
  lemma ListedAverageBounds(jobs: map<JobId, Job>, reviews: seq<Review>, q: ReviewQuery)
    requires ReviewsAdmitted(jobs, reviews)
    ensures ListReviews(reviews, q).averageRating.Some? ==> 1.0 <= ListReviews(reviews, q).averageRating.value <= 5.0
  {
    if Truthy(q.revieweeId) {
      ReputationBounds(jobs, reviews, q.revieweeId.value);
    }
  }
}
