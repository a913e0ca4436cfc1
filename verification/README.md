# Zumble-Zay, modelled and proved in Dafny

Zumble-Zay keeps a ranked worklist of GitHub items for each user. Short-lived agent runtimes fetch the
items, enrich them, rank them with a model and hold conversations about them; a web tier stores what they
send back and shows it. This project models the parts of the program whose correctness depends on more
than one function at a time, and proves what they promise.

* **The orchestrator** (`Jobs`, `Registry`, `Protocol`, `Invariant`, `Runs`, `Hops`, `Dedupe`,
  `Finalisation`, `Sums`, `Liveness`, `Stopping`, `Pipelines`, `Tickets`, `Outcomes`, `Orchestrator`). A bounded queue,
  N dispatch workers, one goroutine per awaited job, a race between the runtime's callback and the
  launcher's watch, pipeline chaining, single-use tickets and a draining `Stop`. `Protocol` is a transition
  system: each mutex-held section, channel operation and goroutine hand-over is one event; the launcher's
  answers, the drawn ids and the clock are part of the event, so a run is a sequence of events and every
  theorem is about every run. `Orchestrator` is the object itself, with the program's fields; each method is
  one such section, proved to change the state as the same `Registry` function that the transition system
  uses. `Hops` and `Sums` are support: the effect of each event read off as tables, and finite sums.
* **The retry transport** (`Backoff`, `HttpRetry`). The `RoundTrip` loop with its two budgets, over an
  arbitrary script of outcomes, and the 64-bit shift of the backoff with its wrap-around.
* **File paging and the timeline** (`Utf8`, `FileWindow`, `Timeline`). Paging UTF-8 text (sections 3 and 4 of
  RFC 3629) by byte offsets, and the fold that decides whose court the ball is in.
* **The worklist** (`Items`, `Score`, `Sorting`, `MemoryStore`, `Handlers`, `Evolution`, `Resolve`). The
  store, the handlers that write it as serialised transitions, what any run of them keeps, the scoring over
  the reals, the comparator, and the read path.
* **The injection contract** (`Contract`). The encoder and decoder of a runtime's parameters, and the
  ticket-based delivery that has to decode to the same parameters.

## Where the code does something its comments do not say

* `Dedupe.ActiveMissesIndexWhenShadowed`: the in-flight keys are joined with "/". With an owner id such as
  "v/github-converse/x" a per-item key of owner "v" reads as a pipeline key of the other owner. The index is
  still exact as a set of keys, but "a pipeline key of u is in flight" and `Active(u)` then differ. Owner ids
  without a slash are never affected (`Dedupe.SlashFreeIsNotShadowed`, `Jobs.KeyInjective`).
* `HttpRetry.RetryAfterOverflows`: a Retry-After of 9223372037 seconds or more overflows the int64 product; up to
  18446744103 seconds the wait is shorter than the cap the comment promises, mostly none at all.
  `HttpRetry.RetryAfterHonoured` says exactly when the cap works. The comment also speaks of a 429 only; the header
  of any retried response is honoured.
* `Backoff.GuardIsExact`: the guard after the shift is meant to make the delay the smaller of the exponential and the
  cap. For the default schedules it does at every attempt; for a base and cap passed to `WrapN` it does exactly when
  no zero bit of the base's odd part has less than the cap below it, and `Backoff.GuardCanMiss` is a pair that fails.
* `Items.PendingTurnCanBeUnread`: the comment of `HasUnreadReply` says that a thread whose last turn is the
  user's is not unread; the code only looks at the last agent reply.
* `Evolution.ResearchRevives`: the research write-back restores the hidden time but not the completion time, so
  a closed item is back on the list afterwards.
* `Scoring.RankNeverFalls`: the time-dependent axes are said to decay between writes; with fixed signals the
  rank never falls. The confidence gate and deviation clamp described beside `AxisProposal` are not in the
  code: a proposal is taken as it is, bounded to [0,1].
* `inflight` is described as keyed by owner and type; the code adds the item id of per-item jobs.

## Model

| member | source | states |
|---|---|---|
| Jobs.KeyInjective | internal/orchestrator/orchestrator.go:475-478 | slash-free owners make the slash-joined key injective, whatever slashes item ids hold |
| Jobs.PipelineKeyClash | internal/orchestrator/orchestrator.go:475-478 | two different jobs share a pipeline key only when the one owner's name shadows the other's |
| Jobs.ShadowItem | internal/orchestrator/orchestrator.go:475-478 | and for every such name an item id exists that makes the keys equal |
| Jobs.KeysWritten | internal/orchestrator/orchestrator.go:475-478 | the key is owner, slash, the type's name, and slash and item when there is one |
| Jobs.NamesWritten | internal/orchestrator/orchestrator.go:31-58 | the names of the five job types, as they stand in keys and metadata |
| Registry.ActiveKeysAdd | internal/orchestrator/orchestrator.go:498-501 | accepting a job adds exactly its key to the keys of the active jobs, keeping one job per key |
| Registry.ActiveKeysRemove | internal/orchestrator/orchestrator.go:616-628 | ending a job removes exactly its key |
| OrchestratorObject.Orchestrator.constructor | internal/orchestrator/orchestrator.go:281-291 | a new orchestrator is empty and open |
| OrchestratorObject.Orchestrator.Enqueue | internal/orchestrator/orchestrator.go:470-508 | the object's records, index and queue change as the enqueue section says, with its verdict |
| OrchestratorObject.Orchestrator.EnsureBackfill | internal/orchestrator/orchestrator.go:302-307 | an empty owner is refused without effect; otherwise an ingest job is enqueued |
| OrchestratorObject.Orchestrator.Begin | internal/orchestrator/orchestrator.go:517-533 | a taken job becomes running and its key is the one enqueue used |
| OrchestratorObject.Orchestrator.SetHandle | internal/orchestrator/orchestrator.go:669-675 | only the job's handle changes |
| OrchestratorObject.Orchestrator.Finalize | internal/orchestrator/orchestrator.go:609-629 | the record takes handle, state and error, and the given key leaves the index |
| OrchestratorObject.Orchestrator.Finish | internal/orchestrator/orchestrator.go:609-655 | and after a success of an ingest job a github-enrich job, of an enrich job an llm-rank job, of the same user is enqueued when nobody holds its key and the queue is open: pending and queued, or failed as "queue full"; after a failure or a job of another type no record is added |
| OrchestratorObject.Orchestrator.RegisterCompletion | internal/orchestrator/orchestrator.go:680-686 | a fresh empty channel is stored under the job |
| OrchestratorObject.Orchestrator.DeregisterCompletion | internal/orchestrator/orchestrator.go:688-692 | the job's channel is removed and nothing else |
| OrchestratorObject.Orchestrator.CompleteJob | internal/orchestrator/orchestrator.go:700-735 | the first value sent to a registered job stays; later ones, and ones for other jobs, change nothing |
| OrchestratorObject.Orchestrator.CloseQueue | internal/orchestrator/orchestrator.go:844-854 | the queue is closed; only the first call reports it did so |
| OrchestratorObject.Orchestrator.Active | internal/orchestrator/orchestrator.go:829-841 | the scan answers whether the owner has a pending or running pipeline job |
| OrchestratorObject.Orchestrator.IssueTicket | internal/orchestrator/orchestrator.go:370-387 | expired tickets are dropped and the new one stored for five minutes |
| OrchestratorObject.Orchestrator.RedeemTicket | internal/orchestrator/orchestrator.go:395-423 | the ticket is consumed whatever the answer; a live one yields the claims of its job, or the minting error |
| Invariant.StepKeeps | internal/orchestrator/orchestrator.go:470-655 | every event keeps the whole-system invariant: records, queue, index, channels, workers, Stop and tickets agree with the program counters |
| Runs.Reachable | internal/orchestrator/orchestrator.go:273-297 | so every reachable state satisfies it |
| Dedupe.IndexIsExact | internal/orchestrator/orchestrator.go:485-508 | in every reachable state the index holds exactly the keys of the active jobs, no work is active twice, and the queue holds distinct pending jobs within its depth |
| Dedupe.DedupeIsExact | internal/orchestrator/orchestrator.go:485-487 | a request is a duplicate if and only if its own owner, type and item are active, owners being slash-free |
| Dedupe.VerdictsMean | internal/orchestrator/orchestrator.go:480-508 | in every reachable state each verdict if and only if its condition: empty arguments, closed, the key held, the queue at its depth; a refusal without a record changes nothing, otherwise one record is added and all others kept, and accepted the new job alone holds the key |
| Dedupe.ActiveMatchesIndex | internal/orchestrator/orchestrator.go:829-841 | Active(u) if and only if one of u's three pipeline keys is in flight, for every owner that is not shadowed |
| Dedupe.ActiveMissesIndexWhenShadowed | internal/orchestrator/orchestrator.go:475-508 | for every shadowed owner there is a run in which the two differ |
| Dedupe.SlashFreeIsNotShadowed | internal/orchestrator/orchestrator.go:475-478 | an owner without a slash is never shadowed |
| Finalisation.PassedOnce | internal/orchestrator/orchestrator.go:606-609 | in any run a job is started, handed a credential and finalised exactly once if it has got that far, else never |
| Finalisation.TerminalForever | internal/orchestrator/orchestrator.go:609-629 | a terminal record never changes again |
| Finalisation.KeyHeld | internal/orchestrator/orchestrator.go:628-628 | until a job's own finalisation its key stays taken, whatever late callbacks and losing watches of other jobs do |
| Finalisation.OriginHolds | internal/orchestrator/orchestrator.go:577-603 | the history of the run explains every channel, program counter and record |
| Finalisation.FinalisedOnce | internal/orchestrator/orchestrator.go:546-629 | a finalised job carries the credential or dispatch error, the launch result, the first callback value accepted while armed, or the watch's value; a refused job never started |
| Finalisation.RunningShowsHandle | internal/orchestrator/orchestrator.go:667-675 | in any run the record of an async job shows where it was dispatched from setHandle up to its finish section |
| Finalisation.OneTicketPerJob | internal/orchestrator/orchestrator.go:546-550 | at most one credential, so at most one ticket, is ever issued for a job |
| Outcomes.CallbackWins | internal/orchestrator/orchestrator.go:577-603 | in any run with an armed job no callback has reached yet, any callback value can be looked up, sent, received and recorded, even when the watch has returned, and a second callback in between changes nothing |
| Outcomes.CallbackElsewhere | internal/orchestrator/orchestrator.go:700-735 | CompleteJob for a job without a completion channel leaves the state as it was |
| Outcomes.CallAndSend | internal/orchestrator/orchestrator.go:711-722 | a lookup and its send leave the first value in the channel and change nothing else |
| Outcomes.WatchWins | internal/orchestrator/orchestrator.go:585-603 | a watch still out can return any value and have it recorded, whatever callback waits |
| Outcomes.ReturnedWatchWins | internal/orchestrator/orchestrator.go:590-603 | and so can a watch that has returned, a waiting callback notwithstanding |
| Outcomes.RequestAdds | internal/orchestrator/orchestrator.go:470-508 | any request is possible at any time: with empty arguments it changes nothing; to an open orchestrator where its key is free it adds exactly the requested job, pending at the tail of the queue, or failed as "queue full" |
| Outcomes.HeadCanStart | internal/orchestrator/orchestrator.go:510-533 | an idle worker can take the head of the queue, which becomes running |
| Outcomes.AwaitedHoldNoWorker | internal/orchestrator/orchestrator.go:553-603 | however many jobs are awaited, the head of the queue can be taken while fewer jobs are between their take and their hand-over than there are workers |
| Outcomes.CredentialCanBeHad | internal/orchestrator/orchestrator.go:352-387 | a push launcher's job goes on with its token, a pull launcher's with any ticket not drawn before, for its user and type, good for five minutes |
| Outcomes.CredentialCanFail | internal/orchestrator/orchestrator.go:546-550 | a credential error fails the job with that error and no handle |
| Outcomes.DispatchCanArm | internal/orchestrator/orchestrator.go:562-584 | a succeeding dispatch leaves the job armed: its handle on record, its channel empty, its watch out |
| Outcomes.DispatchCanFail | internal/orchestrator/orchestrator.go:569-573 | a failing one fails the job with its error and the handle it returned |
| Outcomes.LaunchCanReturn | internal/orchestrator/orchestrator.go:597-603 | a blocking launch can return anything and the job is finalised with it |
| Liveness.StepWorks | internal/orchestrator/orchestrator.go:510-655 | every event of the orchestrator's own strictly lowers a natural-number measure |
| Liveness.RunsAreBounded | internal/orchestrator/orchestrator.go:510-655 | so every run without requests, callbacks or Stop calls is finite, within that measure |
| Stopping.Progress | internal/orchestrator/orchestrator.go:510-603 | while a job is live, or Stop waits, some step of the orchestrator's own is possible |
| Stopping.QuiescentMeansDone | internal/orchestrator/orchestrator.go:844-857 | when no such step is left all jobs are terminal, nothing is queued, in flight or registered, and a Stop has returned |
| Stopping.StopDrains | internal/orchestrator/orchestrator.go:843-857 | the same holds in any run in which the Stop that closed the queue has returned, and every worker has gone |
| Stopping.ClosedOnlyDrains | internal/orchestrator/orchestrator.go:494-508 | after the close nothing is ever sent on the queue: no record is added and the queue only loses its head |
| Stopping.RunsEndDrained | internal/orchestrator/orchestrator.go:843-857 | however the goroutines interleave they end drained within the measure |
| Stopping.RunToEnd | internal/orchestrator/orchestrator.go:843-857 | and such a complete run exists from every state that satisfies the invariant |
| Stopping.QueuedAtCloseIsRun | internal/orchestrator/orchestrator.go:510-515 | every id queued at the close is started and finalised before Stop returns, not dropped |
| Outcomes.StopCanReturn | internal/orchestrator/orchestrator.go:843-857 | from every reachable open state Stop can be called, and the orchestrator's own steps alone bring it to return, drained |
| Pipelines.StageBound | internal/orchestrator/orchestrator.go:647-654 | a stage never has more records than its predecessor has handed over |
| Pipelines.IngestBound | internal/orchestrator/orchestrator.go:302-307 | a user never has more ingest records than EnsureBackfill calls |
| Pipelines.PipelineIsConserved | internal/orchestrator/orchestrator.go:789-799 | the whole chain of bounds from rank records to EnsureBackfill calls, per user and run, and at most three records a call |
| Pipelines.StageIsHandedOver | internal/orchestrator/orchestrator.go:647-654 | a job about to hand over leaves the user's next stage active, refused on record as queue full, or the orchestrator closed |
| Outcomes.SuccessOwesStage | internal/orchestrator/orchestrator.go:643-654 | the finish section owes a next stage if and only if the outcome is a success and the job an ingest or enrich job |
| Outcomes.SuccessIsHandedOver | internal/orchestrator/orchestrator.go:647-654 | in any run a succeeded ingest (enrich) job that owes nothing any more has had its own hand-over step, which left the user's enrich (rank) work active, refused on record as queue full, or the orchestrator closed |
| Tickets.RedeemedIsPushed | internal/orchestrator/orchestrator.go:168-189 | a redeemed token carries exactly the claims a push dispatch of that tracked job carries, with the signals-read and metadata-write scopes and the provider "github" for ingest, enrich and converse and none for rank and research; the three error answers mean what they say |
| Tickets.RedeemsOnce | internal/orchestrator/orchestrator.go:389-404 | in any run a ticket redeems successfully at most once |
| Tickets.TicketStands | internal/orchestrator/orchestrator.go:346-350 | an issued ticket stays through any run that does not redeem it, so its first redemption within its five minutes succeeds |
| Outcomes.TicketCanBeRedeemed | internal/orchestrator/orchestrator.go:370-423 | in any run a ticket can be issued to a job that asks for its credential and presented at any later time: up to five minutes on it yields its job's claims, later nothing, and either way it is spent |
| Tickets.PurgeIsInvisible | internal/orchestrator/orchestrator.go:377-383 | in any run with a monotone clock the ticket table is the fold of the run's issues and redemptions, and their answers are those of a table that is never purged |
| Backoff.GuardIsMin | internal/httpretry/httpretry.go:229-233 | for base m times a power of two, m*max below 2^63 is enough for the wrapping shift plus guard to be the true minimum at every attempt |
| Backoff.GuardIsMinAt | internal/httpretry/httpretry.go:229-233 | at one attempt it is the true minimum if and only if the shift does not overflow, or wraps to something not positive or not below the cap |
| Backoff.GuardIsExact | internal/httpretry/httpretry.go:229-233 | at every attempt it is the true minimum if and only if no zero bit of the base's odd part has, shifted to the top of the word, less than the cap below it |
| Backoff.DefaultsAreExact | internal/httpretry/httpretry.go:33-49 | so both default schedules are exact for every attempt |
| Backoff.GuardCanMiss | internal/httpretry/httpretry.go:68-70 | a pair WrapN accepts for which it is not |
| Backoff.JitterBounds | internal/httpretry/httpretry.go:234-235 | the jittered delay lies between the floor of half the capped delay and all of it, and is 0 for a cap of -1 |
| HttpRetry.JitterSpreads | internal/httpretry/httpretry.go:234-235 | and every delay from half to twice the half of it can be drawn |
| HttpRetry.WaitBeforeRetry | internal/httpretry/httpretry.go:206-225 | the wait is the capped header or the backoff, and only a positive wait can be cancelled |
| HttpRetry.RetryAfterHonoured | internal/httpretry/httpretry.go:249-253 | a header of so many seconds is waited out up to the cap if and only if the nanoseconds fit 63 bits or their residue is a long positive wait again |
| HttpRetry.RetryAfterOverflows | internal/httpretry/httpretry.go:249-253 | every header from 9223372037 to 18446744103 seconds waits less than the cap, and up to 18446744073 is repeated at once |
| HttpRetry.RoundTrip | internal/httpretry/httpretry.go:117-173 | the loop stops at the first send that is not retryable, exhausts its class, cannot be rewound or whose wait is cancelled, returning that send's outcome, and has waited the sum of the delays; it only asks for attempts from one on |
| HttpRetry.SendsBounded | internal/httpretry/httpretry.go:118-128 | neither budget consumes the other, and the sends are at most their sum less one |
| HttpRetry.FirstDecisiveOutcome | internal/httpretry/httpretry.go:134-160 | without cancellation or rewind failure the result is the first outcome not retryable or whose class has then occurred max(budget, 1) times |
| HttpRetry.AtMostOnce | internal/httpretry/httpretry.go:265-293 | a request whose method is not GET, HEAD or OPTIONS is processed at most once over the whole loop, by every exit, when a DNS or dialling error and a 429, 502 or 503 mean that it was not processed; every send but the last ended in one of those |
| HttpRetry.RetryLaw | internal/httpretry/httpretry.go:265-293 | an outcome is sent again if and only if it was never processed, or it is a 504 or another failure but a cancellation and the method is GET, HEAD or OPTIONS |
| HttpRetry.RetriesWhatItMay | internal/httpretry/httpretry.go:134-173 | an outcome that may be sent again is the result only when the budget of its own class, counted by the statuses 429, 502 and 503, is used up, the body does not rewind or the wait is cancelled; every earlier outcome may be sent again |
| HttpRetry.DelayMeaning | internal/httpretry/httpretry.go:206-263 | each wait is the header's date or seconds up to 30 s, or lies between half and all of the capped exponential of its own class and count |
| HttpRetry.DefaultSends | internal/httpretry/httpretry.go:33-54 | with the default schedule a request is sent at most ten times, three for transient failures and eight for an unavailable server |
| HttpRetry.TotalWaitBounded | internal/httpretry/httpretry.go:206-225 | the total wait is at most the retries allowed times the larger of the caps and 30 seconds |
| Utf8.CutValid | internal/github/github.go:631-654 | cutting valid text gives valid parts exactly at character boundaries |
| Utf8.ValidMeaning | internal/github/github.go:640-654 | the text taken as valid is exactly what encoding a sequence of scalar values gives, by the ranges of section 3 of RFC 3629 |
| FileWindows.FileWindow | internal/github/github.go:637-655 | the window runs from the first boundary at or after the clamped offset to the last one within the limit; it is valid, bounded and not empty while text remains |
| FileWindows.WindowUnique | internal/github/github.go:637-655 | which determines it |
| FileWindows.WindowStart | internal/github/github.go:638-646 | a window starts at the offset or at most three bytes on, an offset outside the text being taken as its nearer end |
| FileWindows.WindowSize | internal/github/github.go:631-655 | a window holds at most 32768 bytes, and at least 32765 unless it ends the text |
| FileWindows.PagesReassemble | internal/github/github.go:631-662 | following the reported offsets from any boundary gives back exactly the rest of the file |
| FileWindows.PagesAreGood | internal/github/github.go:648-655 | each page is valid, bounded and not empty, so there are no more pages than bytes |
| FileWindows.PagesEnd | internal/github/github.go:661-663 | following the offsets comes to an end |
| FileWindows.WholeFile | internal/github/github.go:631-637 | from offset 0 the pages are the file |
| Timeline.ItemActivity | internal/github/github.go:291-371 | the loop computes the summary given by the running maxima |
| Timeline.LastVoiceMeaning | internal/github/github.go:311-330 | the last voice is the latest comment or review of a named person |
| Timeline.MyLastMeaning | internal/github/github.go:314-334 | the user's last activity is the latest of theirs |
| Timeline.LastAskMeaning | internal/github/github.go:340-344 | the last ask is the latest review request to the user |
| Timeline.CourtMeaning | internal/github/github.go:349-370 | awaiting-me is the latest request when later than all of the user's voices and than a decisive last review; otherwise awaiting-others is the last voice when it is the user's or decisive |
| Timeline.CourtOnFields | internal/github/github.go:311-370 | on the events' own fields: the last named comment (at createdAt) or review (at submittedAt, or createdAt without one) makes others awaited since its time when it is the user's or its state is "approved" or "changes_requested" and no later request is unanswered; with any other last word others are not awaited; the user is awaited exactly since the latest unanswered request, later than such a last word |
| Timeline.CourtInSilence | internal/github/github.go:349-370 | when nobody has spoken others are not awaited, and the user is since the latest request |
| Timeline.CountsOnFields | internal/github/github.go:311-348 | the counts are of the people named on comments and reviews, the reviewers other than the user, and the cross-references |
| Timeline.OrderIrrelevant | internal/github/github.go:303-346 | with distinct times the order of the events does not matter |
| Items.UnreadMeaning | internal/worklist/conversation.go:15-28 | unread means an agent reply newer than the receipt that no agent reply follows |
| Items.PendingTurnCanBeUnread | internal/worklist/conversation.go:18-28 | also when the user's own turn is the last one |
| Items.CheckUnread | internal/worklist/conversation.go:20-28 | the backward search decides it |
| Scoring.RelevanceScore | internal/worklist/score.go:127-152 | the strongest reason, bumped for corroborating ones |
| Scoring.UrgencyScore | internal/worklist/score.go:154-183 | the strongest of ask, review request and deadline |
| Scoring.ImpactScore | internal/worklist/score.go:216-240 | the strongest of labels, tier and references |
| Scoring.ComputeScore | internal/worklist/score.go:31-101 | the axes after proposal and research, their blend, the band and the kept origin |
| Scoring.ScoreInUnit | internal/worklist/score.go:118-127 | every axis and the rank lie in [0,1] for all signals, proposals and research |
| Scoring.ScoreWritten | internal/worklist/score.go:31-101 | each axis comes from its own baseline, proposal and multiplier; the rank is 0.35 relevance, 0.30 urgency, 0.20 impact and 0.15 engagement, and the bands start at 0.66 and 0.33 |
| Scoring.RelevanceWritten | internal/worklist/score.go:127-152 | the weight of the first reason present in the order of the table, with 0.05 for each further reason |
| Scoring.UrgencyWritten | internal/worklist/score.go:154-197 | the largest of the ramps of ask, review request and deadline, with their literal constants |
| Scoring.EngagementWritten | internal/worklist/score.go:201-214 | four weighted counts, each saturating at its own half-way point |
| Scoring.ImpactWritten | internal/worklist/score.go:218-240 | the largest of the labels, a third per tier up to 1, and the saturating references |
| Scoring.LabelWritten | internal/worklist/score.go:243-258 | a label's weight from the words its lower-case form contains, the first match winning |
| Scoring.BestReasonMeaning | internal/worklist/score.go:127-145 | the relevance base is the largest weight among the reasons, 0 for none |
| Scoring.BestLabelMeaning | internal/worklist/score.go:216-225 | the label impact is the largest among the labels, 0 for none |
| Scoring.RankNeverFalls | internal/worklist/score.go:28-30 | with fixed signals rank and priority never fall as time passes |
| Scoring.StubChangesNothing | internal/worklist/rank.go:30-55 | the stub ranker's proposal leaves the axes and the rank as they are |
| Scoring.ResearchIsBounded | internal/worklist/score.go:55-71 | neutral research is the identity, any research gives at most min(1, twice the rank without it) |
| Sorting.StrictTotalOrder | internal/worklist/sort.go:81-106 | for every key and direction the comparator is a strict total order on items with different ids |
| Sorting.BeforeWritten | internal/worklist/sort.go:86-106 | an item comes first if and only if it alone has an unread reply; level there, when it is higher by the key, lower when ascending; level again, when updated later on GitHub; and at last by the smaller id |
| Sorting.CmpStringMeaning | internal/worklist/sort.go:60-71 | ids compare by their first differing character, a prefix first |
| Sorting.ArrangedMeaning | internal/worklist/sort.go:86-106 | sorting permutes the items and leaves them in order |
| Sorting.ArrangedStable | internal/worklist/sort.go:86-86 | and keeps ties in the order they came |
| Sorting.SortedIsUnique | internal/worklist/sort.go:73-75 | with different ids only one sorted arrangement exists, whichever algorithm computes it |
| Sorting.ArrangedIsCanonical | internal/worklist/sort.go:73-75 | so the result does not depend on the order the items came in |
| Sorting.Sort | internal/worklist/sort.go:81-106 | an unknown key is refused and leaves the items; otherwise they are arranged in place |
| Sorting.ShortlistKeepsTheBest | internal/api/ingest.go:181-187 | without a limit, or with no more items, the list comes as stored; a limited one has exactly that many items and each comes before every item left out |
| Sorting.ShortlistByRank | internal/api/ingest.go:181-187 | on the fields: an item left out has no unread reply a kept one lacks and, level there, no higher rank |
| Handlers.WorklistHandlers.constructor | internal/api/ingest.go:30-38 | the automated reviewers are the configured names, an empty one dropped |
| WorklistStore.MemoryStore.List | internal/worklist/memory.go:26-33 | a fresh array holding the owner's items, none for an unknown owner |
| WorklistStore.MemoryStore.All | internal/worklist/memory.go:42-54 | a fresh array for every owner, holding that owner's items |
| WorklistStore.MemoryStore.Upsert | internal/worklist/memory.go:58-77 | the index-and-array loop, writing over stored items in place, equals writing the batch one by one over the owner's list, and touches no other owner's array |
| WorklistStore.ListBeforeWrites | internal/worklist/memory.go:25-33 | a list handed out before any number of upserts still reads as it did after them |
| WorklistStore.ListThenOverwrite | internal/worklist/memory.go:25-33 | overwriting a list writes nothing to the store |
| WorklistStore.UpsertOverrides | internal/worklist/memory.go:66-74 | which is map override: for each id the last item of the batch wins, re-scoped; other ids keep theirs |
| WorklistStore.UpsertKeepsPositions | internal/worklist/memory.go:66-74 | stored ids keep their positions and new ones follow in first-appearance order |
| WorklistStore.UpsertKeepsWell | internal/worklist/memory.go:56-58 | ids stay unique, every stored item carries its owner, other owners' lists are untouched |
| Handlers.WorklistHandlers.FindItem | internal/api/thread.go:299-309 | the search finds the item stored under the id |
| Handlers.WorklistHandlers.Ingest | internal/api/ingest.go:61-149 | an empty batch is refused; otherwise each posted item is merged with the one stored before, in place, the batch is stored, and the store stays well kept |
| Handlers.WorklistHandlers.MergeInPlace | internal/api/ingest.go:74-143 | the five lookup maps over the listed items and the loop over the posted ones compute the merged batch |
| Handlers.WorklistHandlers.Decorate | internal/api/ingest.go:98-143 | the loop body computes the merged item from the stored one |
| Handlers.WorklistHandlers.Post | internal/api/thread.go:86-137 | the statuses in the program's order; the assistant is started only when the store already holds the user's turn, and whatever it answers the turn stays |
| Handlers.WorklistHandlers.Append | internal/api/thread.go:256-295 | the agent's reply is appended to the stored thread |
| Handlers.WorklistHandlers.MarkRead | internal/api/thread.go:186-212 | only the read receipt changes |
| Handlers.WorklistHandlers.SetResearch | internal/api/research.go:32-75 | the adjustment is stored and the item scored anew |
| Handlers.WorklistHandlers.Hide | internal/webui/webui.go:150-174 | the item is hidden now; an unknown one is ignored |
| Handlers.WorklistHandlers.List | internal/api/ingest.go:157-189 | one item by id, the best-ranked shortlist sorted in the list's own copy, or everything; the store is unchanged |
| Handlers.RecallStep | internal/api/ingest.go:79-95 | with different ids each loop step adds one entry to a lookup map and shadows nothing |
| Handlers.TrimMeaning | internal/api/thread.go:109-113 | trimming takes the white space off both ends and nothing else |
| Evolution.StepAt | internal/api/ingest.go:104-145 | every action acts item by item on the named owner's items, as described, and on nobody else's |
| Evolution.NextChanges | internal/api/thread.go:127-129 | exactly which actions change thread, receipt, hidden time, research and proposal, and to what |
| Evolution.NewItemsAreClean | internal/api/ingest.go:99-137 | an item enters only by ingest, with the acting owner, agent provenance and no conversation, receipt, hidden time or research |
| Evolution.StoredAfterIngest | internal/api/ingest.go:97-145 | the item stored after an ingest, field by field, for stored and new ids: the last posted one's completion time and signals, with the thread, receipt, research and a missing proposal carried over, and the hidden time unless updated since |
| Evolution.PostedOnView | internal/worklist/resolve.go:49-57 | so a posted item with a completion time is on its owner's list at no read, and one without, though it was closed before, exactly when its stored hidden time is 0 |
| Evolution.StoredAfterEdit | internal/api/thread.go:127-129 | the item stored after each single-item action, field by field |
| Evolution.UnreadCue | internal/worklist/conversation.go:15-28 | a reply shows as unread unless the receipt is already later, a user's turn leaves the cue, reading clears all but later replies |
| Evolution.ReadAfterWrite | internal/api/ingest.go:103-129 | what ingest and the research write-back store is already scored from the carried signals: the read path's rescore at that instant changes nothing |
| Evolution.CompletionAfterEdit | internal/api/research.go:62-69 | a research write-back clears the completion time; the other single-item actions keep it |
| Evolution.ResearchRevives | internal/worklist/resolve.go:49-57 | after a research write-back the item is on its owner's list at any read if and only if it is not hidden, closed or not |
| Evolution.RunsStayWell | internal/worklist/memory.go:56-77 | every run keeps ids unique and items with their owner |
| Evolution.NothingIsLost | internal/api/ingest.go:103-137 | over any run no item is removed, its thread only grows at the end, and a proposal or research is never lost |
| Evolution.ReadReceiptStands | internal/api/thread.go:206-207 | over any run without a MarkRead of the item its receipt stands |
| Evolution.HiddenStaysHidden | internal/worklist/resolve.go:67-72 | a hidden item stays hidden over any run that neither hides it again nor ingests a later update |
| Evolution.CompletedStaysOff | internal/worklist/resolve.go:49-57 | a completed item is on its owner's list at no read after any run that neither posts it anew nor writes its research |
| Evolution.OthersUntouched | internal/api/ingest.go:45-46 | the list of an owner no action names is unchanged by any run |
| Evolution.IngestTwiceIsOnce | internal/api/ingest.go:97-145 | posting the same batch again at the same clock reading is a no-op |
| Resolving.Resolve | internal/worklist/resolve.go:25-62 | the in-place rescore, filter and sort of the store's copy compute the view, and the store is unchanged |
| Resolving.KeepVisible | internal/worklist/resolve.go:52-58 | the compaction over the same array keeps exactly the visible items in order |
| Resolving.Rescore | internal/worklist/resolve.go:37-48 | the rescoring loop over the same array rescores the agent items and leaves the user's |
| Resolving.ViewMeaning | internal/worklist/resolve.go:37-62 | a ready view shows exactly the items neither hidden nor completed, each as often as stored, agent ones rescored, in the requested order |
| Evolution.OnView | internal/worklist/resolve.go:49-57 | an id is on its owner's list if and only if its stored item has hidden and completion time 0, and shows as its rescore |
| Resolving.ViewWritten | internal/worklist/resolve.go:25-36 | an empty list asks for a backfill, whatever the key; otherwise an unknown key is refused and any other answered |
| Resolving.RescoredWritten | internal/worklist/resolve.go:37-48 | a user's item is shown as stored; an agent's takes the score of now and keeps its write, hide and completion times |
| Resolving.RescoredKeeps | internal/worklist/resolve.go:37-48 | rescoring keeps everything but the judgment, and whether the item is shown |
| Resolving.ViewIsCanonical | internal/worklist/resolve.go:25-62 | the view does not depend on the order of storage |
| Resolving.ReadsOnlyRaise | internal/worklist/resolve.go:18-24 | between two reads of an unchanged item its rank and priority never fall |
| Contract.ParseUndoesFormat | internal/agent/contract.go:88-98 | parsing undoes formatting exactly for numbers of 64 bits |
| Contract.DispatchTimeRoundTrip | internal/agent/contract.go:84-103 | the dispatch time comes back cut to the millisecond, exactly when its Unix milliseconds fit 64 bits |
| Contract.DispatchWritten | internal/agent/contract.go:84-89 | the value is the number of whole milliseconds since 1970 |
| Contract.DigitsWritten | internal/agent/contract.go:64-66 | numbers are written in decimal digits, the last one last, after a minus sign when negative |
| Contract.ParseRefuses | internal/agent/contract.go:95-99 | what is not an optional sign and then digits only is refused |
| Contract.MalformedVariables | internal/agent/contract.go:91-125 | a malformed limit is an error whatever else is set; a malformed dispatch time reads as unset |
| Contract.Env | internal/agent/contract.go:50-78 | which variables are emitted and what each says; the secrets never |
| Contract.DecodeInvertsEncode | internal/agent/contract.go:9-12 | decoding inverts encoding on the serialised fields, with the limit floored at 0 and the model token from outside, and fails exactly when a required field is empty |
| Contract.TaskMetadata | internal/kagent/launcher.go:159-174 | which keys the task metadata carries and what each says |
| Contract.PullEqualsPush | internal/agenta2a/server.go:180-218 | a pull runtime with a redeemed token reads the parameters a push runtime with that token reads; a failed redemption fails |
| Contract.MetadataFirst | internal/agenta2a/server.go:180-218 | task metadata wins over the environment, and with a token at hand no ticket is redeemed |

## Left out

- HTTP, JSON, OAuth, sessions, templates, Markdown, the GitHub client's requests, the LLM prompts and the Kubernetes, kagent, OpenSandbox and in-process launchers: a launcher is an arbitrary answer to Dispatch, Await or Launch.
- Minting: a token is its claims, and whether the minter succeeds is an input. `MintJobToken` creates no job and is not modelled.
- Job timestamps, metrics and logging. Deadlines are the always-possible return of Await or Launch.
- Ids are numbers, drawn fresh: a collision of random ids is not modelled. A completion channel is named by its job, which registers once.
- Go's scheduler: any enabled event may come next; no fairness is assumed, and none is needed for the results on finite runs.
- Tickets.PurgeIsInvisible: the clock is taken monotone. An issue reads it before its lock section and a redemption after, so lock order and clock order agree for the pairs that matter.
- HttpRetry.RoundTrip: caps are -1 or more. At -2 or less the program's random generator is asked for an empty range and panics. The header text is an already parsed number or date; the base transport, draining and body cloning are outcomes of the script.
- FileWindows.FileWindow: gives the bounds and the text of the window; the marker lines printed around a partial window are not modelled. The caller only passes valid UTF-8.
- Timeline: one page of events, already decoded; times are counted from the zero time.
- Scores are reals: rounding and not-a-number values are not modelled. Contributions, rationale texts and the signal fields no score reads are left out. Labels are lowered as far as their patterns, which are ASCII, can tell.
- Sorting.Sort: the library's sorting algorithm is not part of the repository; its result is specified as the stable arrangement, which for different ids is the only sorted one.
- WorklistStore.MemoryStore.Upsert: an append always moves to a longer array; spare capacity behind the stored items, which no list can see, is not modelled. Slices nested in items, which the program's copies share, are values here. `Seed`, a test helper, is left out.
- Handlers.WorklistHandlers.Post: handlers run one after the other; the program's read and write are two store calls, so interleaved handlers can lose a turn. `Get` and `Resume` write nothing, and the batch review posts the same kind of turn for many items; they are left out. The four handler types share one class here.
- Handlers.WorklistHandlers.Ingest: the store is taken to hold unique ids per owner, which the empty store has and every handler keeps; the posted items are an array of their own, as a decoded request is.
- Resolving.Resolve: the store of the model cannot fail to load.
- Contract.DecodeInvertsEncode: the HTTP client, ranker, converser, researcher and completion flag do not travel and are left out.
- The vault, session map, launcher registry, configuration, authentication and the control client: their members stand alone and carry no property across calls.
