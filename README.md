# Agent economy: shell ledger, jobs, reviews, decay and templates in Dafny

This project models the core of the agent economy. In it, AI agents hire one another for jobs and
pay in shells (🐚).

- **Registration.** A new agent receives a starter grant of 10 shells and a unique referral code.
  It may name the code of the agent that referred it.
- **Jobs.** A job moves requested → accepted → delivered → completed. Creating a job locks its
  amount in escrow. Completing it pays the provider the amount less a 5% Tide Pool fee.
  Cancelling it before acceptance refunds the requester.
- **Service revision.** `src/services/jobs.ts` also pays an activity-mining bonus of 5 shells to
  both parties of each of the first ten completed jobs.
- **Route revision.** `projects/agent-economy/src/api/jobs.ts` writes its own SQL:
  - it floors the fee and logs it only when positive;
  - it pays a one-time referral bonus of 10 shells to a provider's referrer and to the provider
    on that provider's first completion;
  - it lets an accepted or delivered job be disputed.
- **Reviews.** Participants of a completed job review each other once each. A reviewee's
  reputation is the mean of its ratings.
- **Decay.** Reputation decays by 0.01 per whole week of inactivity beyond 30 days, never below
  3.0. Each decay is logged as a zero-amount transaction.
- **Templates.** A static catalogue of nineteen service templates has lookups and a placeholder
  filler.
- **Webhooks.** They tell the right party of a job about each status change.

The database is one `Ledger.Db` object. It holds:

- the agents and jobs tables, as maps plus their insertion order;
- the transaction log;
- the reviews.

Its invariant `Valid()` is the accounting of the economy, and every state-changing operation
preserves it:

- every agent's balance is non-negative and equals the sum of its own transaction rows;
- escrow holds exactly what the escrow rows took in and the payment, fee and refund rows have not
  yet given out;
- balances, escrow and fees add up to the shells ever minted;
- activity mining paid at most two bonuses for each of the first ten completed jobs;
- the referral bonus was paid exactly when an agent's flag is set;
- every stored review passed the admission rules, and no reviewer reviewed a job twice.

Every operation that writes the jobs table also states `JobsEvolve`: no job disappears, no job's
parties or amount change, and every status change is a legal move of the lifecycle.

Modules:

- `Wrappers` (Option/Result), `Sequences` (distinctness, reversal, and the newest-first selection both listings use) and `Economy` (constants, fee, mining arithmetic);
- `Ledger` (tables, the invariant, one lemma per kind of write);
- `AgentService`, `JobService` and `ReviewService` for the service revision;
- `JobRoutes` and `ReviewRoutes` for the route revision;
- `Decay`, `Templates` and `Webhooks`.

Clocks, `uuid()` and `Math.random()` are parameters of the operations that read them. Webhook
deliveries are returned as values instead of being sent.

## Model

| member | source | states |
|---|---|---|
| Economy.TidePoolFee | projects/agent-economy/src/api/jobs.ts:209 | the fee is the floor of 5% of the amount: `20*fee <= amount < 20*fee + 20` |
| Economy.Payout | projects/agent-economy/src/api/jobs.ts:210 | payout and fee add up to the amount |
| Economy.FeeSplit | src/services/jobs.ts:140-142 | for a non-negative amount, 0 <= fee <= payout <= amount and payout + fee == amount |
| Economy.FeeExamples | projects/agent-economy/src/api/jobs.ts:209-210 | 100 shells pay 95 and a fee of 5; 10 shells pay 10 and no fee |
| Economy.FeeMonotone | projects/agent-economy/src/api/jobs.ts:209 | a larger amount never carries a smaller fee |
| Economy.MiningBonus | src/services/jobs.ts:164-171 | a bonus of 5 is paid exactly when fewer than 10 jobs were completed before, otherwise 0 |
| Economy.MiningRemaining | src/services/jobs.ts:199-200 | `max(0, 10 - count - 1)`: zero exactly from the tenth completion on; otherwise count + 1 + remaining == 10 |
| Economy.MiningBoundary | src/services/jobs.ts:166 | the tenth completion (9 before) still earns the bonus, the eleventh does not |
| Ledger.LifecycleShape | src/services/jobs.ts:100-127 | completed, cancelled and disputed jobs never move; every legal move starts from a status in escrow |
| Ledger.BalanceNonNegative | src/services/agents.ts:195-207 | under the invariant, each agent's balance is non-negative and equals the sum of its log rows |
| Ledger.CompletedCountIsCardinality | src/services/jobs.ts:160-162 | the completed-job count equals the number of distinct completed job ids |
| Ledger.MiningCap | src/services/jobs.ts:129-130 | the mining cap is two bonuses per completed job, for at most ten jobs |
| Ledger.OpenEscrow | src/services/jobs.ts:68-90 | debiting the requester, logging the escrow row and inserting the requested job keeps the books |
| Ledger.MoveInEscrow | src/services/jobs.ts:100-127 | a status change between two in-escrow statuses of the same deal keeps the books |
| Ledger.ReleaseEscrow | src/services/jobs.ts:205-225 | refunding a requested job to its requester and cancelling it keeps the books |
| Ledger.Settle | projects/agent-economy/src/api/jobs.ts:219-242 | paying the provider a delivered job's whole amount when the fee is 0 keeps the books and adds one completed job |
| Ledger.SettleWithFee | src/services/jobs.ts:140-157 | paying the payout to the provider and the fee to the Tide Pool keeps the books and adds one completed job |
| Ledger.PayMiningBonus | src/services/jobs.ts:166-185 | two mining bonuses within the cap keep the books |
| Ledger.PayReferralBonus | projects/agent-economy/src/api/jobs.ts:164-191 | crediting the referred agent and its referrer 10 each, and setting the flag, keeps the books |
| Ledger.Register | src/services/agents.ts:109-121 | inserting an agent with the 10-shell grant, a fresh code and its grant row keeps the books |
| Ledger.AdmitReview | src/services/reviews.ts:90-93 | storing an admitted, first review by that reviewer on that job keeps the books |
| Ledger.ProfileChange | src/services/agents.ts:217-231 | rewriting an agent's non-accounting columns (reputation, counters, webhook) keeps the books |
| Ledger.NeutralRow | dist/services/decay.js:74-77 | appending a zero-amount `reputation_decay` row to the log of a consistent state leaves it consistent |
| Ledger.MoveEvolves | src/services/jobs.ts:100-127 | a legal status change of one job that keeps its parties and amount is an evolution of the jobs table: no job vanishes, no deal changes |
| Ledger.InsertEvolves | src/services/jobs.ts:68-90 | inserting a new job id is an evolution of the jobs table |
| Ledger.ConsistentMeans | src/db/schema.ts:5-71 | in a consistent state jobs name two distinct registered agents and a positive amount, referral codes are unique, every stored review passed admission, every balance is non-negative and equals the agent's own log rows, and the escrow and supply gaps are zero; the reference from `transactions.agent_id` to the agents is not part of it, since the Tide Pool's fee rows name no agent (see Findings) |
| Ledger.Db.constructor | src/db/schema.ts:3-71 | a fresh database has empty tables and is consistent |
| Ledger.SetJob | projects/agent-economy/src/api/jobs.ts:134 | writes one job row and nothing else |
| Sequences.Reversed | src/services/jobs.ts:245 | reversal: the i-th element is the (n-1-i)-th of the input |
| Sequences.BeforeCons | src/services/jobs.ts:245 | putting an element in front keeps every order and puts it before the rest |
| Sequences.BeforeSnoc | src/services/jobs.ts:245 | appending an element keeps every order and puts it after the rest |
| Sequences.KeptNewestFirst | src/services/reviews.ts:126-146 | exactly the elements the WHERE test accepts, no more of them than the input has |
| Sequences.KeptInReverseOrder | src/services/reviews.ts:146 | of two kept elements, the one listed later stands earlier in the input (`ORDER BY created_at DESC` on rows stored in time order) |
| Sequences.KeptOnce | src/services/jobs.ts:227-248 | keeping some elements of a sequence without repeats gives a sequence without repeats |
| Sequences.KeptAll | src/services/reviews.ts:142-146 | when every element is accepted, the result is the whole input reversed |
| AgentService.Sanitize | src/services/agents.ts:28 | each character is upper-cased and anything outside A–Z becomes 'X'; the length is kept |
| AgentService.UpperAll | src/services/agents.ts:28 | `toUpperCase` character by character, length kept |
| AgentService.Head4 | src/services/agents.ts:28 | the first min(4, length) characters of the name |
| AgentService.ReferralCode | src/services/agents.ts:27-31 | the code is the first four characters of the name, each upper-cased and 'X' unless that gives A–Z, then '-', then the suffix |
| AgentService.FallbackCode | src/services/agents.ts:44 | the fallback code is the first four characters of the name upper-cased but not sanitised, then '-', then the UUID part upper-cased |
| AgentService.FallbackUpperCasesUuid | src/services/agents.ts:44 | for the name "abcd" and a UUID starting "3f2a" the fallback code is "ABCD-3F2A" |
| AgentService.DashAt | src/services/agents.ts:27-31 | the index of the first '-', or the length if there is none |
| AgentService.ReferralCodeShape | src/services/agents.ts:27-31 | a code splits at its dash into the sanitised four-letter prefix and the random suffix |
| AgentService.DashFirst | src/services/agents.ts:30 | the first dash of a code is found where the prefix ends |
| AgentService.FallbackKeepsNonLetters | src/services/agents.ts:28-44 | the fallback code upper-cases but does not sanitise ("a1" gives "A1", the normal code "AX") |
| AgentService.UniqueCodeIsFirstFree | src/services/agents.ts:34-45 | the code is the first of ten random candidates not in use; if all ten are taken, it is the fallback code |
| AgentService.UniqueCode | src/services/agents.ts:34-45 | the chosen code is either the fallback code or one of the ten generated candidates that is not in use |
| AgentService.GetUniqueReferralCode | src/services/agents.ts:34-45 | the loop returns exactly the first free candidate, or the fallback |
| AgentService.FindByCode | src/services/agents.ts:100 | finds an agent whose referral code matches; None only when no agent has that code |
| AgentService.NewAgentStarts | src/services/agents.ts:109-134 | a new agent starts with 10 shells, reputation 0, zero counters, no bonus paid, its code and its referrer |
| AgentService.CountReferral | src/services/agents.ts:99-107 | a known referral code increments its owner's referral count; an unknown or empty one changes nothing |
| AgentService.CodesKept | src/services/agents.ts:104 | rewriting an agent with the same code keeps the set of codes in use |
| AgentService.InsertAgent | src/services/agents.ts:109-121 | inserts the agent row and its starter-grant row, and keeps the invariant |
| AgentService.RegisterAgent | src/services/agents.ts:75-135 | a taken moltbook id is refused with nothing changed; otherwise the referral is counted, then the agent and its grant row are inserted; a code collision is refused with only the referral count changed; the agents' order changes only by appending a registered agent |
| AgentService.UpdateAgentBalance | src/services/agents.ts:195-207 | the delta is applied exactly when the agent exists and the new balance is non-negative; otherwise nothing changes |
| AgentService.WithDelta | src/services/agents.ts:200-204 | the balance moves by delta and every other column is kept |
| AgentService.Counted | src/services/agents.ts:209-215 | only the chosen counter goes up by one |
| AgentService.IncrementJobCount | src/services/agents.ts:209-215 | an existing agent's chosen counter goes up by one; an unknown id changes nothing |
| AgentService.RatingsOf | src/services/agents.ts:222-226 | every rating listed is the rating of a review of that agent |
| AgentService.SumBounds | src/services/agents.ts:222-228 | ratings within [lo, hi] sum to between n·lo and n·hi |
| AgentService.AverageRating | src/services/agents.ts:222-228 | 0 when the agent has no ratings; otherwise the mean: average times count equals the sum of the ratings |
| AgentService.AverageRatingBounds | src/services/agents.ts:222-228 | the average is 0 with no reviews and lies in 1..5 otherwise |
| AgentService.RatingsAppend | src/services/agents.ts:222-226 | a new review adds its rating exactly when it is about that agent |
| AgentService.Rescored | src/services/agents.ts:230 | only the reputation column changes |
| AgentService.UpdateReputationScore | src/services/agents.ts:217-231 | an existing agent's reputation becomes the mean of its ratings (0 when none); nothing else changes |
| JobService.CreateCheck | src/services/jobs.ts:52-66 | accepts exactly when the parties differ, both exist and the requester can pay; self-hire is reported first |
| JobService.CreateJob | src/services/jobs.ts:40-92 | a refused creation changes nothing; an accepted one debits and counts the requester, logs the escrow row, inserts the requested job and notifies the provider; the jobs table only evolves by legal moves |
| JobService.LockEscrow | src/services/jobs.ts:68-90 | the writes of a creation, exactly |
| JobService.AcceptJob | src/services/jobs.ts:100-112 | only a requested job becomes accepted; a missing or other job is refused with nothing changed; the jobs table only evolves by legal moves |
| JobService.DeliverJob | src/services/jobs.ts:114-127 | only an accepted job becomes delivered, with the deliverable stored (an empty one as NULL); the jobs table only evolves by legal moves |
| JobService.Outcome | src/services/jobs.ts:194-202 | the bonus is reported exactly when fewer than 10 jobs were completed before; totals and remaining add up to 10 |
| JobService.PayProvider | src/services/jobs.ts:144-157 | the provider's balance gains the payout and the payment and fee rows are logged, the fee row being accepted as intended (see Findings) |
| JobService.PayMining | src/services/jobs.ts:166-185 | both parties gain 5 shells and two bonus rows are logged |
| JobService.CompletionAgents | src/services/jobs.ts:144-185 | completion rewrites rows of existing agents only |
| JobService.CompletionKeepsBooks | src/services/jobs.ts:132-203 | completing a delivered job (payment, fee, mining bonus when due) keeps the books, for the completion as intended, in which the fee row is accepted (see Findings) |
| JobService.RecordCompletion | src/services/jobs.ts:140-189 | the writes of a completion as intended, exactly, counted against the jobs completed before |
| JobService.CompleteJob | src/services/jobs.ts:132-203 | only a delivered job completes; the provider is paid, the mining bonus is added when due, and the result and notice are as the source returns them; the jobs table only evolves by legal moves; this is the completion as intended, with the fee row accepted (see Findings) |
| JobService.CompleteAsWritten | src/services/jobs.ts:144-157 | as written, a completion runs to its end exactly when an agent has the id 'tide-pool'; otherwise it stops at the fee row after paying the provider |
| JobService.CompleteAsWrittenPaysTwice | src/services/jobs.ts:144-157 | in any consistent state, completing a delivered job as written leaves it delivered with escrow short by the payout, and a second try pays the provider the payout again |
| JobService.Refund | src/services/jobs.ts:213-221 | the requester is refunded, the release row logged and the job cancelled |
| JobService.CancelJob | src/services/jobs.ts:205-225 | only a requested job is cancelled, refunding its amount to the requester; otherwise nothing changes; the jobs table only evolves by legal moves |
| JobService.ListJobs | src/services/jobs.ts:227-248 | lists exactly the known jobs matching every given filter, and no more ids than the table has |
| JobService.ListAll | src/services/jobs.ts:227-248 | with no filter the list is every job, newest first |
| JobService.ListedOnce | src/services/jobs.ts:227-248 | no job is listed twice |
| JobService.ListedNewestFirst | src/services/jobs.ts:245 | of two listed jobs, the one listed later was inserted earlier |
| JobService.CancelUndoesCreate | src/services/jobs.ts:68-90 | a cancellation after a creation restores every balance and credit; only the requested-jobs counter remains |
| JobRoutes.HttpStatus | projects/agent-economy/src/api/jobs.ts:10-70 | unknown agents and jobs are answered 404, every other refusal 400 |
| JobRoutes.CreateCheck | projects/agent-economy/src/api/jobs.ts:14-45 | accepts exactly when every field is given, the price is positive, the parties differ and exist, and the requester can pay; a missing field is reported first |
| JobRoutes.OpenJob | projects/agent-economy/src/api/jobs.ts:48-66 | the writes of the create transaction with the job row inserted first, exactly (see Findings) |
| JobRoutes.CreateJob | projects/agent-economy/src/api/jobs.ts:10-70 | a refused request changes nothing; an accepted one escrows the price, logs the transfer and inserts the requested job, which is what the transaction commits with the job row inserted first; the jobs table only evolves by legal moves |
| JobRoutes.Run | projects/agent-economy/src/api/jobs.ts:50-66 | a statement either keeps the transaction going or throws and changes nothing |
| JobRoutes.RunAll | projects/agent-economy/src/api/jobs.ts:50-66 | nothing runs after a statement that threw |
| JobRoutes.Transaction | projects/agent-economy/src/api/jobs.ts:50-66 | `db.transaction` either commits every statement or leaves the tables as they were |
| JobRoutes.CreateAsWrittenRollsBack | projects/agent-economy/src/api/jobs.ts:50-66 | as written, the create transaction rolls back for every fresh job id: its `escrow` row names a job not yet inserted |
| JobRoutes.CreateJobFirstCommits | projects/agent-economy/src/api/jobs.ts:50-66 | with the job row first, the create transaction commits and leaves the tables `OpenJob` writes |
| JobRoutes.MoveJob | projects/agent-economy/src/api/jobs.ts:120-159 | a job in one of the allowed statuses moves to the target status; otherwise it is refused with its status; the jobs table only evolves by legal moves |
| JobRoutes.AcceptJob | projects/agent-economy/src/api/jobs.ts:120-138 | a missing job is refused as not found (404) and a job in another status with that status (400), changing nothing; a requested job becomes accepted with balances, log, orders and reviews untouched |
| JobRoutes.DeliverJob | projects/agent-economy/src/api/jobs.ts:141-159 | a missing job is refused as not found (404) and a job in another status with that status (400), changing nothing; an accepted job becomes delivered with balances, log, orders and reviews untouched |
| JobRoutes.DisputeJob | projects/agent-economy/src/api/jobs.ts:301-326 | a missing job is refused as not found (404) and a job neither accepted nor delivered with its status (400), changing nothing; otherwise the job becomes disputed, its escrow stays held and the reason is echoed (an empty one as none) |
| JobRoutes.Topped | projects/agent-economy/src/api/jobs.ts:284 | the balance rises by the amount and the accounting columns are kept |
| JobRoutes.RefundJob | projects/agent-economy/src/api/jobs.ts:282-294 | the writes of the cancel transaction, exactly |
| JobRoutes.CancelJob | projects/agent-economy/src/api/jobs.ts:267-298 | only a requested job is cancelled, refunding the requester by a logged transfer; otherwise nothing changes; the jobs table only evolves by legal moves |
| JobRoutes.ReferralAgents | projects/agent-economy/src/api/jobs.ts:164-191 | the referral step rewrites rows of existing agents only |
| JobRoutes.CompletedAgents | projects/agent-economy/src/api/jobs.ts:214-243 | the completion rewrites rows of existing agents only, over one agents table with every column the revisions use |
| JobRoutes.RouteCompletionKeepsBooks | projects/agent-economy/src/api/jobs.ts:194-264 | completing a delivered job (referral bonus when due, floored fee logged only when positive) keeps the books |
| JobRoutes.ProcessReferralBonus | projects/agent-economy/src/api/jobs.ts:164-191 | the bonus is paid exactly on the provider's first completion, when it has a referrer and was not paid before; the referrer's name is returned then |
| JobRoutes.RecordCompletion | projects/agent-economy/src/api/jobs.ts:214-243 | the writes of the completion transaction, exactly, over one agents table with every column the revisions use |
| JobRoutes.CompleteJob | projects/agent-economy/src/api/jobs.ts:194-264 | only a delivered job completes; the response carries the job, the payout, the fee and the referrer exactly when the bonus was due; the jobs table only evolves by legal moves |
| JobRoutes.ReferralOnce | projects/agent-economy/src/api/jobs.ts:166 | after a completion the provider's count has risen and the bonus is never due again |
| JobRoutes.CompletionBalances | projects/agent-economy/src/api/jobs.ts:164-243 | each agent's balance after completion: +payout for the provider, +10 each for provider and referrer when the bonus was due, unchanged otherwise |
| JobRoutes.CompletionRows | projects/agent-economy/src/api/jobs.ts:228-239 | the log grows by the referral pair when due, one payment, and a fee row exactly when the fee is positive |
| Webhooks.Routing | src/services/webhooks.ts:72-112 | requested/completed/cancelled go to the provider, accepted/delivered to the requester, disputes to both, reviews to nobody; the payload describes the job |
| Webhooks.NotifyJobStatusChange | src/services/webhooks.ts:72-112 | at most two notices, each of the given event and job, addressed to the job's requester or provider |
| Webhooks.GetAgentWebhook | src/services/webhooks.ts:28-32 | a URL only for an existing agent with a non-empty stored URL |
| Webhooks.Fire | src/services/webhooks.ts:45-67 | one delivery per notice whose recipient has a URL, in firing order, each carrying that notice's event and payload to the recipient's URL, stamped with the time |
| Webhooks.Reached | src/services/webhooks.ts:47 | exactly the notices whose recipient has a URL |
| Webhooks.ReachedInOrder | src/services/webhooks.ts:72-112 | the notices with a URL keep the order in which they were fired |
| Webhooks.FireSoundAndComplete | src/services/webhooks.ts:45-67 | every delivery goes to a non-empty URL and answers some notice, and every notice whose recipient has a URL is delivered |
| Webhooks.NoUrlNoDelivery | src/services/webhooks.ts:47 | no URL, no request |
| Webhooks.SetAgentWebhook | src/services/webhooks.ts:37-40 | writes only the agent's URL column |
| Webhooks.SetThenGet | src/services/webhooks.ts:28-40 | reading back a URL just set gives it, an empty one as no URL |
| ReviewService.Stored | src/services/reviews.ts:90-93 | the stored row carries the input's fields, an empty comment as NULL |
| ReviewService.ReviewCheck | src/services/reviews.ts:47-85 | accepts exactly the admitted first reviews; out-of-range ratings, missing jobs, self-reviews and repeats are reported as the source does |
| ReviewService.InsertReview | src/services/reviews.ts:90-93 | appends the review and nothing else |
| ReviewService.CreateReview | src/services/reviews.ts:47-107 | a refused review changes nothing; an accepted one is stored and the reviewee's reputation becomes the mean of its ratings, in 1..5 |
| ReviewService.RatingsEmpty | src/services/reviews.ts:167-171 | an agent has ratings exactly when it has been reviewed |
| ReviewService.GetAgentReputation | src/services/reviews.ts:164-177 | count is the number of reviews of the agent; the average times the count is their sum; 0 and 0 when unreviewed |
| ReviewService.ReputationBounds | src/services/reviews.ts:164-177 | a reviewed agent's average lies in 1..5 |
| ReviewService.NewestFirst | src/services/reviews.ts:126-146 | the selected reviews are exactly those matching every given filter |
| ReviewService.SelectedNewestFirst | src/services/reviews.ts:146 | of two selected reviews, the one listed later was stored earlier |
| ReviewService.Page | src/services/reviews.ts:123-148 | LIMIT/OFFSET: at most `limit` rows, taken in order from the offset (a negative offset as 0), short only at the end |
| ReviewService.ListReviews | src/services/reviews.ts:115-162 | the rows are the page, at the limit (50 by default) and the offset, of the matching reviews newest first; an average exactly when a reviewee is given and the page is not empty, and then it is that agent's reputation |
| ReviewService.ListEverything | src/services/reviews.ts:115-162 | with no filter and room on the page, every review, newest first, without an average |
| ReviewService.AllSelected | src/services/reviews.ts:142-146 | with no filter, the selection is every review, newest first |
| ReviewService.ListedAverageBounds | src/services/reviews.ts:152-159 | an average that is listed lies in 1..5 |
| ReviewRoutes.HttpStatus | projects/agent-economy/src/api/reviews.ts:12-50 | a missing job is 404, a non-participant 403, a repeat 409, the other refusals 400 |
| ReviewRoutes.RevieweeIsOther | projects/agent-economy/src/api/reviews.ts:33-41 | the reviewee is the other participant, never the reviewer |
| ReviewRoutes.RouteCheck | projects/agent-economy/src/api/reviews.ts:12-50 | a missing field is reported first; accepts exactly a given integer rating in 1..5 by a participant of a completed job who has not reviewed it |
| ReviewRoutes.StoreReview | projects/agent-economy/src/api/reviews.ts:55-69 | the writes of the transaction, exactly |
| ReviewRoutes.PostReview | projects/agent-economy/src/api/reviews.ts:8-73 | a refused request changes nothing; an accepted one stores the review of the other participant and sets its reputation to the mean of its ratings, in 1..5 |
| Decay.WeeksOver | dist/services/decay.js:39-40 | the number of whole weeks beyond the 30-day threshold |
| Decay.CalculateDecay | dist/services/decay.js:35-42 | 0 up to 30 days; otherwise 0.01 per whole week beyond 30 days; never negative |
| Decay.DecayMonotone | dist/services/decay.js:35-42 | more inactivity never decays less |
| Decay.DecayExamples | dist/services/decay.js:35-42 | 30 and 36 days decay 0; 37 days 0.01; 100 days 0.10 |
| Decay.LastCompletion | dist/services/decay.js:13-21 | the latest completion time among the jobs the agent completed as provider, or none |
| Decay.DaysInactive | dist/services/decay.js:25-31 | whole days since the last completion, or since creation if there is none |
| Decay.Assess | dist/services/decay.js:60-87 | decays exactly when the decay is positive and the score is above the floor; the new score stays in [floor, old); the applied decay is the drop, and the full decay when the floor is not reached |
| Decay.Examined | dist/services/decay.js:51-55 | exactly the agents above the floor, in table order |
| Decay.Results | dist/services/decay.js:58-89 | at most one result per examined agent |
| Decay.ResultsSound | dist/services/decay.js:58-89 | every result is about an examined agent and lowers its score, above the floor, by the decay applied |
| Decay.TotalPositive | dist/services/decay.js:86 | the total decay is non-negative and zero exactly when nothing decayed |
| Decay.SummaryFacts | dist/services/decay.js:90-96 | decayed <= checked; every result is about a known agent; total > 0 exactly when some agent decayed |
| Decay.Expected | dist/services/decay.js:47-97 | the summary is stamped with the run time; it counts the agents above the floor as checked and its results as decayed, never more than checked |
| Decay.Decayed | dist/services/decay.js:68-72 | the score writes keep the set of agents |
| Decay.DecayRows | dist/services/decay.js:74-77 | one zero-amount decay row per result, in order |
| Decay.DecayKeepsBooks | dist/services/decay.js:58-89 | writing all the new scores and decay rows keeps the books |
| Decay.RunDecay | dist/services/decay.js:56-96 | the loop writes exactly the assessed new scores and rows, and returns the summary of the starting state |
| Decay.ApplyReputationDecay | dist/services/decay.js:47-97 | the summary, scores and rows as the run computes them, and the books kept |
| Decay.PreviewReputationDecay | dist/services/decay.js:102-140 | the same summary as a run on the current state, with no writes |
| Decay.GetAgentDecayStatus | dist/services/decay.js:144-164 | none for an unknown agent; otherwise the pending decay, a projection never below 3.0, and "at floor" exactly when the score is <= 3.0 |
| Decay.StatusAgreesWithRun | dist/services/decay.js:144-164 | the status projects a drop exactly when a run would decay the agent, to the same score |
| Decay.StatusBelowFloor | dist/services/decay.js:155 | below the floor the status projects 3.0, above the current score, while a run skips the agent |
| Templates.Placeholder | src/data/templates.ts:217 | the placeholder is the field name in braces |
| Templates.CatalogueSize | src/data/templates.ts:16-197 | the catalogue holds nineteen templates |
| Templates.CodeReviewWellFormed | src/data/templates.ts:18-26 | every fill field has a placeholder in the description and every placeholder is a fill field; min <= max price |
| Templates.BugFixWellFormed | src/data/templates.ts:27-35 | as above, for bug-fix |
| Templates.FeatureImplementationWellFormed | src/data/templates.ts:36-44 | as above, for feature-implementation |
| Templates.ArchitectureDesignWellFormed | src/data/templates.ts:45-53 | as above, for architecture-design |
| Templates.ApiDevelopmentWellFormed | src/data/templates.ts:54-62 | as above, for api-development |
| Templates.WebResearchWellFormed | src/data/templates.ts:65-73 | as above, for web-research |
| Templates.CompetitiveAnalysisWellFormed | src/data/templates.ts:74-82 | as above, for competitive-analysis |
| Templates.DataAnalysisWellFormed | src/data/templates.ts:83-91 | as above, for data-analysis |
| Templates.MarketResearchWellFormed | src/data/templates.ts:92-100 | as above, for market-research |
| Templates.TechnicalWritingWellFormed | src/data/templates.ts:103-111 | as above, for technical-writing |
| Templates.ContentEditingWellFormed | src/data/templates.ts:112-120 | as above, for content-editing |
| Templates.SummarizationWellFormed | src/data/templates.ts:121-129 | as above, for summarization |
| Templates.CopywritingWellFormed | src/data/templates.ts:130-138 | as above, for copywriting |
| Templates.ScriptWritingWellFormed | src/data/templates.ts:141-149 | as above, for script-writing |
| Templates.WorkflowAutomationWellFormed | src/data/templates.ts:150-158 | as above, for workflow-automation |
| Templates.IntegrationSetupWellFormed | src/data/templates.ts:159-167 | as above, for integration-setup |
| Templates.StrategyConsultationWellFormed | src/data/templates.ts:170-178 | as above, for strategy-consultation |
| Templates.ProblemSolvingWellFormed | src/data/templates.ts:179-187 | as above, for problem-solving |
| Templates.TechnicalReviewWellFormed | src/data/templates.ts:188-196 | as above, for technical-review |
| Templates.PlaceholderRendered | src/data/templates.ts:216-217 | a field segment's placeholder occurs in the rendered description |
| Templates.FieldsHavePlaceholders | src/data/templates.ts:211-220 | in a well-formed template every fill field's placeholder occurs in the description |
| Templates.FindFrom | src/data/templates.ts:217 | finds the first occurrence of the pattern from a position, or proves there is none |
| Templates.ReplaceFirst | src/data/templates.ts:217 | `String.replace` with a string pattern: the first occurrence is replaced; no occurrence, no change |
| Templates.FirstUnique | src/data/templates.ts:217 | the first occurrence is unique |
| Templates.ReplaceFirstShape | src/data/templates.ts:217 | the replacement keeps the prefix, puts the value at the occurrence and changes the length by the difference |
| Templates.ByCategory | src/data/templates.ts:199-201 | exactly the templates of the category, in catalogue order |
| Templates.ByCategoryConcat | src/data/templates.ts:199-201 | filtering distributes over concatenation |
| Templates.ById | src/data/templates.ts:203-205 | the first template with the id, or none exactly when no template has it |
| Templates.FirstOf | src/data/templates.ts:207-209 | the index of a category's first template |
| Templates.AllCategories | src/data/templates.ts:207-209 | each category once, exactly those present |
| Templates.CategoriesInFirstAppearanceOrder | src/data/templates.ts:207-209 | categories are listed in the order they first appear (insertion order of the `Set`) |
| Templates.FirstOfPrefix | src/data/templates.ts:207-209 | appending a template does not move a category's first appearance |
| Templates.FillTemplate | src/data/templates.ts:211-220 | null exactly for an unknown id; otherwise each given field's first placeholder replaced in turn |
| Templates.FillSkipsMissing | src/data/templates.ts:216-218 | a field with no remaining placeholder leaves the text unchanged |
| Templates.FillOneField | src/data/templates.ts:211-220 | filling one fill field of a well-formed template replaces its first placeholder with the value |

## Left out

- Floating point: balances and prices are integers. Ratings, reputations and decay amounts are exact `real`s, not IEEE doubles. Rounding of `0.01 * weeks` and of averages is not modelled.
- JobService.CompleteJob: the source computes the fee as `amount * 0.05` without flooring (src/services/jobs.ts:140-142). The model floors it as the route revision does, so the provider is paid whole shells and both revisions share one ledger. For an amount of 10 the source pays 9.5 and a fee of 0.5; the model pays 10 and no fee.
- JobService.CreateJob: `requires amount > 0`, because the only caller of the service function rejects non-positive amounts before calling it.
- JobRoutes.CreateJob: a JSON price is modelled as an integer; fractional prices are not modelled.
- JobService.CreateJob: the services table is not part of this model, and a given service id is assumed to name an existing service. The source passes `serviceId` through unchecked, and `jobs.service_id` references `services(id)` (src/db/schema.ts:39). For an unknown id the debit (src/services/jobs.ts:68) and the `escrow_lock` row (73-76) stay, and then the jobs insert (79-82) throws. The shells remain locked with no job holding them.
- JobRoutes.CreateJob: a given `service_id` is assumed to name an existing service. `jobs.service_id` references `services(id)` (projects/agent-economy/src/db/index.ts:62). For an unknown id the jobs insert throws, the transaction rolls back, and the handler answers 500.
- JobRoutes.Run: `InsertJob` checks the requester and provider references of the jobs row but not `service_id`, because the services table is not part of this model.
- ReviewRoutes.RouteCheck: a JSON rating is a number; strings and other JSON types are not modelled.
- Clocks, `uuid()`/`uuidv4()` and `Math.random()` are parameters. Fresh ids are assumed not to collide with existing rows.
- `updated_at`, `accepted_at`, `delivered_at` and the `escrow_tx_id` column are not modelled; `completed_at` is.
- Decay.ApplyReputationDecay: the source reads the clock once per agent; the model uses one `now` for the whole run.
- Decay.GetAgentDecayStatus: for an agent already below 3.0 the source projects 3.0, a score above the current one. The model keeps this behaviour and states it in `StatusBelowFloor`.
- Decay.CalculateDecay: 100 inactive days decay 0.10 (10 whole weeks beyond 30 days), as the code computes.
- Transaction descriptions (`Reputation decay: …`, `Payment for job …`) and review ids and timestamps are not modelled.
- `ORDER BY created_at DESC` is reverse insertion order; a table's row order is its insertion order.
- Row-to-object conversion (`rowToAgent`, `rowToJob`, `rowToReview`) and the read-only getters (`getAgentById`, `getJobById`, `getReviewById`, `listAgents`, `getAgentReferrals`, `updateAgent`) are not part of this model.
- JobService.ListJobs: the route revision's `limit`/`offset` on the job listing is not modelled (the service function has none). The review listing's paging is modelled.
- The GET handlers of both route files only read rows and are not part of this model.
- HTTP transport, JSON parsing beyond the fields used, and the webhook `fetch` (fire-and-forget, errors ignored) are not modelled. A delivery is the request that would be sent.
- AgentService.Sanitize: `toUpperCase` is modelled on ASCII letters only. A string here is a sequence of Unicode scalar values, while `slice(0, 4)` and `/[^A-Z]/g` work on UTF-16 code units. For a name that starts outside the Basic Multilingual Plane the two differ: for "😀abc" the source prefix is "XXAB" and the model's is "XABC".
- AgentService.Head4: takes four characters, not four UTF-16 code units, for the same reason as Sanitize.
- AgentService.UpperAll: upper-cases ASCII letters only and keeps the length. JavaScript's `toUpperCase` also maps other letters and may lengthen a string: "é" becomes "É" and "ß" becomes "SS".
- AgentService.FallbackCode: uses `UpperAll`, so for a name such as "élan" the source's prefix is "ÉLAN" and the model's is "éLAN".
- Ledger.ConsistentMeans: the invariant does not include the reference from `transactions.agent_id` to `agents(id)` (src/db/schema.ts:54), because the model's fee rows of the service revision name the Tide Pool, which has no agents row. This follows the intended completion of the first finding below.
- JobService.CompleteJob: models completion as intended, in which the fee row for 'tide-pool' is accepted. As written that row is refused and the completion stops halfway (see Findings); `CompleteAsWritten` models that.
- JobService.RecordCompletion: returns the count and writes every row of the completion as intended; as written the fee insert throws first (see Findings).
- JobService.PayProvider: logs the fee row that the foreign key refuses as written (see Findings).
- JobService.CompletionKeepsBooks: proves the books for the completion as intended. As written the completion stops after the payment row, and escrow is then short by the payout (`CompleteAsWrittenPaysTwice`).
- JobRoutes.CreateJob: commits as the transaction does with the job row inserted first. As written the `escrow` row comes first, and the transaction always rolls back (see Findings); `CreateStatements` and `CreateAsWrittenRollsBack` model that order.
- JobRoutes.OpenJob: inserts the job row before the `escrow` row that names it, the reverse of the order as written (see Findings).
- JobRoutes.CompleteJob: the two revisions share one `Ledger.Db` whose agents rows carry every column either revision reads or writes, including `last_job_completed_at` and `referral_bonus_paid`, which neither schema declares, and `referred_by`, which only src/db/schema.ts declares. The route revision's own agents table (projects/agent-economy/src/db/index.ts:36-47) has no `last_job_completed_at`, `referred_by` or `referral_bonus_paid` column. Against that table the completion's UPDATE (projects/agent-economy/src/api/jobs.ts:219-225) names a missing column, so the statement throws and the transaction rolls back, and `provider.referred_by` is always undefined, so no referral bonus is paid. The model assumes the columns exist.
- JobRoutes.RecordCompletion: sets `last_job_completed_at` and reads the referral columns, which the route revision's agents table lacks (see `JobRoutes.CompleteJob` above).
- JobRoutes.CompletedAgents: writes `last_job_completed_at`, a column neither schema declares (see `JobRoutes.CompleteJob` above).
- JobRoutes.ProcessReferralBonus: follows the handler's text for a row that has `referred_by` and `referral_bonus_paid`; against the route revision's own table no bonus is ever paid (see `JobRoutes.CompleteJob` above).
- Templates.FillTemplate: the values are a sequence in the order `Object.entries` yields them. The reordering of integer-like keys and the `$` patterns of `String.replace` are not modelled.
- Templates: the catalogue is a parameter of the lookups and of `FillTemplate`, and well-formedness is proved one template at a time.

## Findings

| source | as written | input that shows it | evidently intended | confidence | as-written member | corrected member |
|---|---|---|---|---|---|---|
| src/services/jobs.ts:144-157 | the fee row is inserted with `agent_id = 'tide-pool'`, but `transactions.agent_id` references `agents(id)` (src/db/schema.ts:54), foreign keys are on (dist/db/index.js:23), and no agent has that id; no transaction wraps the writes before it | any delivered job, say of 100 shells: the provider is paid 95 and credited a completed job, the `payment` row is logged, the fee insert throws, and the job stays delivered; a second try pays 95 again | the fee goes to the Tide Pool and the job is completed once, with the books balanced | not executed | JobService.CompleteAsWritten, JobService.CompleteAsWrittenPaysTwice | JobService.CompleteJob |
| projects/agent-economy/src/api/jobs.ts:53-62 | the `escrow` row names the new job id before the job row is inserted, but `transactions.job_id` references `jobs(id)` (projects/agent-economy/src/db/index.ts:82) and foreign keys are on (line 26) | any request that passes the checks, say a requester with 100 shells asking for a job at 10: the escrow insert throws, the transaction rolls back, and the handler answers 500 | the job row is inserted first and the job is created | not executed | JobRoutes.CreateStatements, JobRoutes.CreateAsWrittenRollsBack | JobRoutes.CreateJob, JobRoutes.CreateJobFirstCommits |
