# InquiryIQ, modelled and proved

InquiryIQ turns signed guest messages into debounced turns, runs each turn through a bounded
worker pool and a gated model pipeline, and ends it with one posted note or one human escalation.
This project models the Go code that makes those promises and proves them. Models, the booking
platform, stores, clocks and operators are oracles: nothing is assumed about what they answer.

| file | what it models |
|---|---|
| `Domain.dfy`, `Sums.dfy`, `Trace.dfy` | entities; counting over sequences; the effects of a run |
| `Webhook.dfy`, `Debouncer.dfy`, `Pool.dfy`, `Wiring.dfy` | the delivery path as classes, and the debouncer and the pool as protocols |
| `Pipeline.dfy` | the whole delivery protocol as one state machine over all interleavings |
| `Orchestrator.dfy`, `Guarantees.dfy` | the run as a specification and as the methods of a class; what every run guarantees |
| `Causes.dfy` | why a run ends as it does, with every condition stated without the functions that compute it |
| `Agent.dfy`, `Gates.dfy`, `Commitment.dfy`, `Normalize.dfy`, `PromptSafety.dfy` | the agent loop, the gates and the text functions a run uses |
| `Memory.dfy`, `ThreadMerge.dfy`, `EntityMerge.dfy`, `Stores.dfy` | the conversation record and its stores |
| `Budget.dfy`, `Server.dfy` | the spend watcher and its toggle; many runs interleaved over one toggle and one memory |

How the parts fit: an imperative member is proved equal to a specification function, and the
lemmas about that function carry the guarantees. Protocols are step relations; a run of a protocol
is any list of possible steps, and every theorem about runs quantifies over all of them. In
`Server`, a run's answers are fixed when it starts and an effect may happen only while the shared
toggle and memory agree with them, so every real interleaving is one of the executions.

Where the code and its comments disagree, the model follows the code:

- The X1 qualifier branch returns before GATE 1, so neither the risk flag nor the classifier's
  confidence floor is checked there (`Guarantees.PostsIff`).
- A critic that cannot be reached reports tags that do not block, so its failure never stops a
  note (`Guarantees.CriticBlocksIff`).
- A kill-switched turn may still ask the summarizer while its turn is written to memory
  (`Guarantees.KillSwitchedTurn`).
- "Every turn terminates in a note or an escalation" fails for a failed fetch and for a host who
  has already replied: those end with no effect (`Wiring.HandlingMatchesOutcome`).
- A sender that has passed the pool's done check may enqueue after every worker has gone
  (`Pool.ALateJobCanBeStranded`). A job is lost exactly when it is accepted after the last worker
  has left (`Pool.HandledIffSentAlive`), so never when it was accepted before the close
  (`Pool.ShutdownHandlesEverythingEarly`).
- A timer stopped too late flushes a newer buffer early (`Debouncer.StaleTimerCanFlushEarly`),
  never late; it is early exactly when that timer is due before the buffer
  (`Debouncer.FlushIsNeverLate`).
- The closing-tag scrub is undone when the label itself contains the replacement marker, and only
  then (`PromptSafety.WrapFencesIff`).
- Opening the file store is said to fail only when the directory or file cannot be opened. It also
  fails when a logged line does not fit the scanner's 4 MiB buffer, and an update writes such a line
  without complaint (`Stores.ReplayEqualsLive`, `Stores.FiveLongMessagesBlockReopening`).
- The budget is said to heal itself at midnight. The tally does start afresh, but the toggle it
  tripped stays off until an operator flips it (`Server.BudgetGovernsToggle`).
- A turn ended by an injection or by a failed classifier, qualifier or generator is not remembered
  (`Guarantees.ForgottenIff`).
- The guest index keeps a stale key when a record's guest changes (`Stores.UpdateKeepsIndexIff`).
- A claim is unambiguous only while no conversation key continues another with '|'
  (`Stores.ClaimsCollideIff`).

## Model

| member | source | states |
|---|---|---|
| Pipeline.EveryMessageIsInOnePlace | cmd/server/main.go:380-429 | In every interleaving of webhooks, timers, flush goroutines, workers, host replies and the shutdown, each accepted guest message occurs exactly once among handlers, live buffers, turns handed to the pool and discarded messages, and a message never accepted occurs nowhere; claims match acceptances, live buffers remember exactly their ids, no push is ever refused as a duplicate, and the pool is sound (`Pool.Sound`) |
| Pipeline.StepMoves | internal/transport/http/handler.go:100-129 | Every step moves each message or leaves it; only a fresh claim brings one in |
| Pipeline.QuietMeansEndedOrStranded | cmd/server/main.go:376-403 | Once nothing moves any more, every accepted message is in exactly one of: discarded for a named cause, refused with a backpressure escalation, handled by a worker, or left in the queue; with an empty queue it has come to exactly one end |
| Pipeline.ShutdownAccountsForAll | cmd/server/main.go:245-252 | Over every run that shuts down completely: each accepted message is in exactly one of discarded, refused, handled and stranded, and a turn is stranded if and only if the pool accepted it after its last worker had left |
| Pipeline.PoolRunsAlone | cmd/server/main.go:380-403 | Seen from the pool, every run of the pipeline is a run of the pool protocol, so what holds of all pool runs holds inside it |
| Pipeline.NeverInTwoTurns | internal/infrastructure/debouncer/timed.go:128-144 | A message is never in two turns, nor twice in one |
| Pipeline.PushIsAccepted | internal/infrastructure/debouncer/timed.go:58-83 | A debouncer that is running never refuses the push of a freshly claimed message, so a claim is never silently lost |
| Pipeline.TurnsAreFromGuests | internal/transport/http/handler.go:107-111 | Every turn that reaches the pool, in any interleaving, holds guest messages only |
| Pipeline.RefusedIffAccepted | internal/infrastructure/store/memstore/idempotency.go:28-37 | When no conversation key holds '|', a claim is refused exactly when this message of this conversation was accepted before |
| Webhook.Handler.Dispatch | internal/transport/http/handler.go:100-129 | A host message only drops the buffer, a blank guest message is escalated and not claimed, any other guest message is claimed and pushed exactly when its claim is fresh; the whole new state of claims, debouncer and escalations |
| Normalize.TrimsToNothingIff | internal/transport/http/handler.go:112-116 | The blank-body test holds exactly for bodies of white space only |
| Stores.Idempotency.SeenOrClaim | internal/infrastructure/store/memstore/idempotency.go:28-37 | Reports whether the claim string was present and otherwise records it as inflight |
| Stores.Idempotency.Complete | internal/infrastructure/store/memstore/idempotency.go:41-46 | Marks the claim complete, present or not |
| Stores.ClaimsCollideIff | internal/infrastructure/store/memstore/idempotency.go:28-37 | Two different conversations can share a claim string if and only if one key continues the other with '|' |
| Debouncer.Timed.Push | internal/infrastructure/debouncer/timed.go:58-83 | A push is ignored when stopped or already in the buffer; otherwise it extends the buffer, stops the old timer where still possible, and arms a new one due at the end of the window, cut at the ceiling |
| Debouncer.Timed.WindowClamped | internal/infrastructure/debouncer/timed.go:85-95 | The wait ends at the earlier of window and ceiling, never in the past |
| Debouncer.Timed.CancelIfHostReplied | internal/infrastructure/debouncer/timed.go:99-113 | A host message drops the buffer and stops its timer where still possible; a guest message changes nothing |
| Debouncer.Timed.Stop | internal/infrastructure/debouncer/timed.go:116-126 | Drops every buffer and stops exactly the live buffers' timers that have not expired, whatever the iteration order |
| Debouncer.Timed.Fire | internal/infrastructure/debouncer/timed.go:128-144 | The buffer leaves the map whole and becomes the turn, with the last message's id; without a buffer nothing happens |
| Debouncer.EveryBufferMeetsItsDeadline | internal/infrastructure/debouncer/timed.go:73-95 | After any run on a clock that lets due timers fire, whatever stale timers exist and for every configuration, each live buffer is non-empty, free of repeats and has a pending timer due at the end of its quiet window or at the ceiling, which the clock has not passed |
| Debouncer.FlushIsNeverLate | internal/infrastructure/debouncer/timed.go:128-144 | A flush happens at the very instant the firing timer was due, stale or not, and no later than the buffer's due instant, at most maxWait after the first message; it is on time if and only if that timer is due with the buffer, which the buffer's own timer always is, and any is when no stale one is around |
| Debouncer.PushRetiresTimer | internal/infrastructure/debouncer/timed.go:78-82 | An accepted push calls the buffer's old timer off, unless it has expired already |
| Debouncer.PromptRunsKeepOwnTimers | internal/infrastructure/debouncer/timed.go:58-144 | In every run in which no expired timer is overtaken, every timer still out there is its live buffer's own: pushes, host replies and the stop have called off all others |
| Debouncer.PromptFlushesAreExact | internal/infrastructure/debouncer/timed.go:73-144 | In such a run on a punctual clock every firing flushes a buffer, exactly at the instant it was promised for: the quiet window after its last message, cut at the ceiling after its first |
| Debouncer.FlushedTurnEndsWithLastPush | internal/infrastructure/debouncer/timed.go:137-142 | A flushed turn holds the conversation's latest accepted pushes and carries the id of the last one |
| Debouncer.StaleTimerCanFlushEarly | internal/infrastructure/debouncer/timed.go:78-82 | A concrete run: a timer stopped too late flushes a newer message before its quiet window ends |
| Debouncer.OrderIsKept | internal/infrastructure/debouncer/timed.go:58-144 | In every run, per conversation: the segments taken out by flush, host reply or stop, in the order taken, followed by the live buffer, are exactly the accepted pushes; each segment is non-empty with distinct ids |
| Debouncer.StepOnBuffer | internal/infrastructure/debouncer/timed.go:58-144 | Every step pushes at the end of a buffer, takes all of it, or leaves it as it is |
| Pool.Queue.constructor | internal/application/dispatch/pool.go:70-84 | Non-positive sizes fall back to 8 workers and 64 places, so both are positive |
| Pool.Queue.TrySend | internal/application/dispatch/pool.go:106-122 | The send never blocks: it is refused exactly when the queue is full |
| Pool.Queue.Enqueue | internal/application/dispatch/pool.go:99-123 | Run without interruption, a job is accepted exactly when the pool is open and has room |
| Pool.Queue.DrainRemaining | internal/application/dispatch/pool.go:158-167 | Everything queued is handled, in order, and the queue is empty |
| Pool.EnqueueIsCheckAndSend | internal/application/dispatch/pool.go:99-123 | The two protocol steps of a sender, run without interruption, are what the enqueue operation does |
| Pool.EveryRunIsSound | internal/application/dispatch/pool.go:86-173 | In every interleaving of senders, close and workers: each arrived turn is in exactly one place (with its sender, queued, running, finished); jobs leave in send order from a queue never over capacity; nobody sends twice; late jobs come only from senders caught by the close; workers exit only after the close and then only late jobs are queued |
| Pool.StepMoves | internal/application/dispatch/pool.go:99-173 | No protocol step loses or doubles a turn |
| Pool.AcceptedIsSomewhereOnce | internal/application/dispatch/pool.go:99-173 | Accepted jobs are the disjoint union of queued, running and handled |
| Pool.HandledIffSentAlive | internal/application/dispatch/pool.go:99-167 | Over every run that ends with all workers gone: an accepted job has been handled, once, if and only if it was accepted before the last worker left; any later one still waits |
| Pool.TakenWhileAlive | internal/application/dispatch/pool.go:128-167 | Once all workers are gone, the jobs taken are exactly those accepted while one was there |
| Pool.ShutdownHandlesEverythingEarly | internal/application/dispatch/pool.go:128-167 | When all workers have exited, an accepted job was handled exactly once unless it still waits, and what waits was sent after the close by a sender already past the done check |
| Pool.ALateJobCanBeStranded | internal/application/dispatch/pool.go:99-123 | A concrete run: a sender past its check enqueues after the last worker has gone and the job is never handled |
| Wiring.Enqueuer.Flush | cmd/server/main.go:380-403 | A flushed turn either joins the queue or leaves one backpressure_drop escalation, never both |
| Wiring.HostAlreadyReplied | cmd/server/main.go:437-449 | True exactly when some fetched host message is newer than the turn's last message |
| Wiring.ResolveListing | cmd/server/main.go:451-456 | Never empty: the first reservation's own listing or the default |
| Wiring.FlushedPromisesNameTheListing | cmd/server/main.go:409-456 | A run is started for the handed turn with the fetched conversation and a non-empty listing, and a promise it posts on the generator path is backed by a platform call for that very listing |
| Wiring.Flusher.Handle | cmd/server/main.go:409-429 | A failed fetch or a host reply ends the turn without any effect; otherwise the orchestrator runs once with the fetched conversation |
| Wiring.HandlingMatchesOutcome | cmd/server/main.go:409-429 | The label a handling ends with says what was emitted: one delivered note and no escalation, one escalation and no note, or nothing at all |
| Wiring.EveryMessageIsAnsweredFor | cmd/server/main.go:380-429 | The delivery protocol with the orchestrator at its end: in every interleaving and for every answer from outside, each accepted message is in exactly one place and every finished turn emitted exactly what its outcome names |
| Wiring.Shutdown | cmd/server/main.go:245-252 | The debouncer is stopped before the pool is closed, and everything queued then is handled |
| Orchestrator.UseCase.Process | internal/application/processinquiry/usecase.go:156-212 | The imperative run emits exactly the effects of the specification `RunLog` and writes exactly its memory update, whatever the oracles answer |
| Orchestrator.UseCase.ProcessWithPrior | internal/application/processinquiry/usecase.go:176-188 | Commitment handoff before any model call, then classification stored raw and used corrected |
| Orchestrator.UseCase.ProcessClassified | internal/application/processinquiry/usecase.go:189-212 | The X1 branch is taken before GATE 1 and skips it; every other code passes GATE 1 |
| Orchestrator.UseCase.QualifyAndSend | internal/application/processinquiry/usecase.go:222-280 | The qualifier path from its own toggle read to post or escalation |
| Orchestrator.UseCase.GenerateAndSend | internal/application/processinquiry/usecase.go:730-757 | Generator effects, the error exit, and the stored reply |
| Orchestrator.UseCase.GateTwo | internal/application/processinquiry/usecase.go:282-308 | Validation and critic issues feed the final decision |
| Orchestrator.UseCase.ReviewReply | internal/application/processinquiry/usecase.go:573-608 | Only blocking critic tags count; its own failure tags do not |
| Orchestrator.UseCase.SendOrEscalate | internal/application/processinquiry/usecase.go:255-308 | One last toggle read, then one post attempt or one escalation; a refused post is escalated |
| Orchestrator.UseCase.CloseTurn | internal/application/processinquiry/usecase.go:806-816 | Writes the turn to memory on the record held then, asking the summarizer only on overflow, and completes the claim |
| Orchestrator.UseCase.DetectInjection | internal/application/processinquiry/usecase.go:658-673 | The first injection hit over the turn's messages |
| Causes.InjectionIff | internal/application/processinquiry/usecase.go:658-673 | The scan finds something exactly when some row matches some non-empty message of the turn, and names the earliest matching row of the earliest matching message |
| Causes.InjectedTurnIsHandedOver | internal/application/processinquiry/usecase.go:658-673 | An injected turn is escalated with the pattern's name, reaches no model and is not remembered |
| Causes.AnsweredTurnIsClean | internal/application/processinquiry/usecase.go:156-308 | No row of the injection table matches any message of a turn that is answered |
| PromptSafety.FirstRowIff | internal/application/promptsafety/detect.go:72-83 | The hit is the first row that matches a non-empty text |
| Guarantees.ExactlyOneOutcome | internal/application/processinquiry/usecase.go:156-308 | Every run ends with one escalation and no delivered note, or one delivered note and no escalation; it tries to post at most once and completes its claim exactly once, last |
| Guarantees.PostsIff | internal/application/processinquiry/usecase.go:156-308 | A note is posted if and only if one of the two send paths has all its conditions: no injection, toggle on at every read, no commitment candidate, and on the generator path low-risk primary, no risk flag, both confidence floors, no validation issue, no restricted hit, no critic blocker; on the X1 path unsaturated prior entities and a sendable qualifier reply (no risk-flag or classifier floor there) |
| Causes.PostsExactlyWhen | internal/application/processinquiry/usecase.go:156-308 | The same with every condition spelled out: no matching row, no offer to take over, codes by rank, lengths, hedging, backed promises, the critic's blocking tags, confidences, restricted content and each toggle read |
| Causes.PostedAnswerIsFinal | internal/application/generatereply/usecase.go:64-88 | A generated reply that is posted was the model's own final answer, given within maxTurns calls, the last of which asked for no tool |
| Causes.HandoverNamesItsCause | internal/application/processinquiry/usecase.go:156-280 | Each failure outside the gates is the reason of the escalation exactly when it is what ended the run, the three known entities of a saturated qualifier included |
| Causes.EndingCarriesClassification | internal/application/processinquiry/usecase.go:156-308 | Every ending past the classifier carries the corrected classification, every other one none |
| Causes.LogSaysWhatHappened | internal/application/processinquiry/usecase.go:255-308 | Every note goes to the conversation's own raw id with the reply's body; every escalation repeats the decision or the refused note; a turn is remembered once, as sent exactly when its note was accepted, or not at all when forgotten |
| Causes.ReplyIsStoredBeforeTheGate | internal/application/processinquiry/usecase.go:250-262 | A reply that reaches the final gate was stored under the turn's last post before the gate's toggle read, and its classification was stored raw |
| Causes.BodyIsForTurn | internal/application/processinquiry/usecase.go:344-359 | What a run reads and stores on its way is its own turn's memory, classification and reply |
| Causes.RunSpendIsBounded | internal/application/processinquiry/usecase.go:156-308 | At most maxTurns + 4 model calls in a run, whatever the models answer |
| Guarantees.PostedTurnNeedsNoHuman | internal/domain/classification.go:65-107 | No note is ever posted for a turn whose raw primary or secondary code is Y2, Y5, R1 or R2, on either path |
| Guarantees.CriticBlocksIff | internal/application/processinquiry/usecase.go:560-609 | The critic blocks exactly when it fails the reply with a blocking tag, so a critic error does not block |
| Causes.CriticIssuesName | internal/application/processinquiry/usecase.go:560-609 | The critic's issues are led by the rejection and are exactly its hedging, off_topic and critic_uncertain tags |
| Guarantees.PostedPromisesAreGrounded | internal/application/processinquiry/usecase.go:282-308 | On the generator path a posted sell_certainty means a CheckAvailability call really returned in this run, for this turn's listing if it has one, and a posted hold promise means the same for CreateReservation |
| Guarantees.KillSwitchedTurn | internal/application/processinquiry/usecase.go:641-650 | With the toggle off a clean turn is escalated for it and remembered, makes no classifier, qualifier, generator or critic call and no post, and asks for a memory summary exactly when a summarizer is wired and the thread overflows |
| Guarantees.ForgottenIff | internal/application/processinquiry/usecase.go:658-757 | A turn leaves no trace in memory exactly when an injection was found or the classifier, the qualifier or the generator failed on it |
| Guarantees.RunIsDisciplined | internal/application/processinquiry/usecase.go:156-308 | A toggle read as off is a run's last decision before handing over, and a post directly follows a toggle read as on |
| Guarantees.RunLogIsGuarded | internal/application/processinquiry/usecase.go:156-308 | In every run nothing costly or visible follows a toggle read as off or precedes the first toggle read, and a turn is remembered as sent only after its note was accepted |
| Gates.PriorityExposesEscalation | internal/domain/classification.go:65-107 | The corrected primary needs a human exactly when either raw code does; correction keeps the codes, puts the higher priority first and is idempotent |
| Gates.RankOrder | internal/domain/classification.go:76-83 | The documented order of the codes, unknown ones last |
| Gates.SetsFollowRank | internal/domain/classification.go:65-83 | The codes that need a human are a prefix of that order and the low-risk ones the stretch up to X1 |
| Gates.DecideIff | internal/application/decide/decide.go:16-36 | GATE 2 opens exactly for replies that meet every condition, and never when GATE 1 would be shut |
| Gates.DenialIsTruthful | internal/application/decide/decide.go:16-36 | A denial names a check that really fails and carries its evidence; it names the toggle exactly when the toggle is off |
| Gates.GateOneReasons | internal/application/decide/pregenerate.go:12-29 | GATE 1 gives the reason of the first check that fails, each exactly under its condition |
| Gates.GateTwoReasons | internal/application/decide/decide.go:16-36 | GATE 2 puts the abort before GATE 1 and confidence, validation and restricted content after it, each reason exactly under its condition |
| Gates.QualifierReasons | internal/application/decide/validate_qualifier.go:43-60 | The qualifier gate's reasons, each exactly under its condition, in order |
| Gates.DecideQualifierIff | internal/application/decide/validate_qualifier.go:43-60 | The qualifier gate opens exactly for short, unhedged, unrestricted, confident replies with the toggle on |
| Gates.CleanReplyIff | internal/application/decide/validate.go:33-74 | A reply raises no issue exactly when it is sane and every promise in it is backed by a successful tool call |
| Gates.IssuesNameFailures | internal/application/decide/validate.go:33-74 | A tag is raised exactly when its check fails, and an aborted reply draws the abort alone |
| Gates.ValidateReply | internal/application/decide/validate.go:33-65 | Appending issue by issue gives one tag per failed check, in check order |
| Gates.ValidateQualifier | internal/application/decide/validate_qualifier.go:21-37 | No issue exactly for unaborted, unhedged replies of 30 to 280 characters |
| Commitment.LatestCommitmentCandidate | internal/application/processinquiry/usecase.go:392-428 | The newest-to-oldest loop with its fallback variable finds the newest decisive offer, or the newest offer when none is decisive, with its match |
| Commitment.ScanStandsDownIff | internal/application/processinquiry/usecase.go:392-428 | No candidate exactly when nothing was offered, or the newest decisive offer has its hold and the guest does not ask to finalize |
| Commitment.CandidateIs | internal/application/processinquiry/usecase.go:392-428 | The offer handed over is the newest that is held or made by the bot, unless held and the guest does not ask to finalize; or, when there is none, the newest accepted one; every condition spelled out |
| Commitment.HoldRecordedIff | internal/application/processinquiry/usecase.go:430-465 | A hold is recorded exactly when a reply under the post id, without its bot prefix or with one added, has a hold_reservation call without error |
| Commitment.HoldByBodyAliasIff | internal/application/processinquiry/usecase.go:467-491 | A post without bot prefix counts as held exactly when a bot post with the same normal form has a recorded hold |
| Commitment.OffersIff | internal/application/processinquiry/usecase.go:399-407 | An accepted offer is a non-blank host message with an offer phrase, answered briefly, affirmatively and without deferring |
| Causes.ScanReads | internal/application/processinquiry/usecase.go:344-369 | The scan reads the last message of the turn against the remembered thread followed by the webhook's, each id once, without the turn's own |
| Causes.AcceptedOfferIff | internal/application/processinquiry/usecase.go:367-428 | An offer goes to a human exactly when the scan must take one over |
| Causes.HandoffShowsItsEvidence | internal/application/processinquiry/usecase.go:367-385 | The escalation's detail names the offer that occurs in the host message taken over and the guest's answer |
| Causes.UnheldOfferIsHandedOver | internal/application/processinquiry/usecase.go:367-385 | A turn whose thread holds an accepted offer and none that any recorded hold backs goes to a human before any model is asked |
| Commitment.DetectIff | internal/application/commitment/detect.go:116-191 | An offer counts as accepted exactly when the host text holds an offer phrase and the guest answers briefly, affirmatively and without deferring, with the offer found as evidence; finalization is asked exactly when a brief, undeferred guest text holds a finalization phrase |
| Commitment.FirstMatchIff | internal/application/commitment/detect.go:195-202 | The table search yields the earliest entry that occurs, and nothing exactly when none does |
| Commitment.DetectSeesNormalForms | internal/application/commitment/detect.go:116-153 | Detection cannot tell apart bodies that differ only in case and spacing |
| Domain.BytesCountAscii | internal/application/commitment/detect.go:116-120 | The length limit counts bytes: one for each ASCII character, two to four for any other |
| Normalize.NormalizeText | internal/application/commitment/detect.go:207-223 | The one-pass collapser computes exactly the lower, split and join form |
| Normalize.NormalFormIsWellSpaced | internal/application/processinquiry/usecase.go:493-498 | A normal form has no leading, trailing or double space |
| Normalize.NormalFormIsIdempotent | internal/application/processinquiry/usecase.go:493-498 | Normalising twice is normalising once |
| Agent.Generate | internal/application/generatereply/usecase.go:55-145 | The nested loops compute the specified run, budget exhaustion and reflection included |
| Agent.GenerationIsGrounded | internal/application/generatereply/usecase.go:64-88 | For every script of answers: each transcript sent answers its tool calls once and in order, used_tools audits exactly the calls made, in order, whatever the model supplied, and a success in it is backed by a platform call of this run for the expected listing |
| Agent.GenerationIsBounded | internal/application/generatereply/usecase.go:64-145 | At most maxTurns + 1 model calls |
| Agent.GenerationEndsProperly | internal/application/generatereply/usecase.go:64-154 | A run goes on while the model asks for tools and ends with its own parsed answer, with an error, or, on an exhausted budget, always with a reply marked max_turns |
| Agent.ReflectOnFailure | internal/application/generatereply/usecase.go:105-145 | The reflection's reply is marked max_turns and carries the tool log, whatever comes back |
| Agent.ModelSawTheResults | internal/application/generatereply/usecase.go:77-84 | The results in used_tools are exactly the results the model was shown, in order |
| Agent.ToolRunAudits | internal/application/generatereply/tooldispatch.go:50-186 | An audit record keeps the tool's name and arguments and claims success only when the platform answered that very request for the expected listing, with hold status inquiry or reserved |
| Agent.RequestIff | internal/application/generatereply/tooldispatch.go:86-186 | A tool call makes exactly the request its parsed arguments stand for, dates, guests, hold status and listing included, and none when they stand for none |
| Agent.ResultIff | internal/application/generatereply/tooldispatch.go:86-195 | It succeeds exactly when that request was answered, with the answer as its result; otherwise the error is shown to the model |
| PromptSafety.Wrap | internal/application/promptsafety/detect.go:93-107 | The builder writes open tag, scrubbed text and close tag, one per line |
| PromptSafety.WrapFencesIff | internal/application/promptsafety/detect.go:93-118 | For a label without newline: the closing tag occurs exactly once, at the very end, for every text, if and only if the label does not contain the replacement marker (so in particular for labels without '[') |
| PromptSafety.CleanTextRoundTrips | internal/application/promptsafety/detect.go:93-118 | Text without a closing tag comes back unchanged when the output is cut at the first closing tag |
| PromptSafety.NeutralizedIsClean | internal/application/promptsafety/detect.go:113-118 | Replacement creates no new closing tag, not even across segment borders |
| PromptSafety.ScrubbingMarksEachTag | internal/application/promptsafety/detect.go:113-118 | The first closing tag becomes the marker, what stands before it is kept and the rest is scrubbed likewise |
| PromptSafety.FenceNamesLabel | internal/application/promptsafety/detect.go:93-107 | An empty label is fenced as untrusted, any other by its own name |
| PromptSafety.MarkerLabelEscapes | internal/application/promptsafety/detect.go:113-118 | With the marker inside the label there is a text whose replacement rebuilds the closing tag |
| Memory.MemoryRecord.AppendMessage | internal/domain/memory.go:30-39 | Appends unless the non-empty id is already in the thread |
| Memory.MemoryRecord.ApplyUpdate | internal/application/processinquiry/usecase.go:827-866 | The mutator's whole effect on a record: identity, thread, entities, times, fold |
| Memory.SentReplyIsLast | internal/application/processinquiry/usecase.go:842-851 | A reply that was sent is the last entry of the closed thread, with its id, body and time, also after a fold |
| Memory.ExtendedIDs | internal/application/processinquiry/usecase.go:842-851 | The thread before folding knows the old ids, the turn's, and the bot's own when the turn was sent |
| Memory.FreshMessagesAreAppended | internal/application/processinquiry/usecase.go:842-844 | Messages not remembered yet are appended all, in order |
| Memory.FieldsFollowHistory | internal/application/processinquiry/usecase.go:835-866 | Over any history of closed turns every other field is that of the newest turn that sets it |
| Memory.MemoryRecord.FoldOverflow | internal/application/processinquiry/usecase.go:872-908 | The fold drops the same prefix whether the summarizer is absent, fails or answers |
| Memory.FoldKeepsExactly | internal/application/processinquiry/usecase.go:872-908 | A fold keeps exactly the newest keep entries, and there is one exactly when both limits are positive and exceeded |
| Memory.CloseStaysFaithful | internal/application/processinquiry/usecase.go:827-908 | One closed turn keeps the thread a bounded, duplicate-free suffix of everything ever appended; a successful fold names the entry just before it |
| Memory.HistoryStaysFaithful | internal/application/processinquiry/usecase.go:827-908 | The same over any sequence of closed turns, whose entities are the merge of the classified ones |
| Memory.ThreadIgnoresSummarizer | internal/application/processinquiry/usecase.go:872-908 | The summarizer never decides what is remembered verbatim |
| Memory.ClosedMembers | internal/application/processinquiry/usecase.go:827-866 | Every entry of a closed record is an old one, a message of the turn, or the posted reply |
| ThreadMerge.MergeThread | internal/application/processinquiry/usecase.go:519-547 | The loops with their seen set compute the filter over memory then webhook |
| ThreadMerge.FilteredIsSubsequence | internal/application/processinquiry/usecase.go:519-547 | The merge keeps memory order, then webhook order |
| ThreadMerge.FilteredKeepsEachOnce | internal/application/processinquiry/usecase.go:519-547 | No non-empty id twice and none of the current turn, every other id kept, all unnamed entries kept |
| ThreadMerge.FilteredKeepsFirst | internal/application/processinquiry/usecase.go:519-547 | Of several entries with one id the earliest is kept, the remembered one before the webhook's |
| ThreadMerge.RemergeIsNoOpIff | internal/application/processinquiry/usecase.go:519-547 | Re-merging the webhook changes nothing exactly when all its entries have ids |
| EntityMerge.MergeAdditionalLoop | internal/domain/memory.go:68-91 | The loop with its position index computes the observation-by-observation merge |
| EntityMerge.MergeIsAssociative | internal/domain/memory.go:68-91 | Merging b then c is merging their concatenation |
| EntityMerge.MergeDigests | internal/domain/memory.go:68-91 | The bag holds exactly the non-empty keys seen, once each, in first-seen order, each with its last value |
| EntityMerge.HistoryKeepsNewest | internal/domain/memory.go:45-66 | Over any history each typed field is its newest non-nil value and the bag digests every observation |
| Stores.ConversationMemory.Update | internal/infrastructure/store/memstore/conversation_memory.go:42-54 | Replaces one record by the mutated one and adds its key to its guest's list once |
| Stores.ConversationMemory.ListByGuest | internal/infrastructure/store/memstore/conversation_memory.go:58-71 | The guest's records, newest first, cut at the limit |
| Stores.ListingIsTopOfGuest | internal/infrastructure/store/memstore/conversation_memory.go:58-71 | A listing is ordered, as long as asked where possible, and nothing left out is newer |
| Stores.UnlimitedListing | internal/infrastructure/store/memstore/conversation_memory.go:58-71 | Without a positive limit the listing holds every row, newest first |
| Stores.RowsAt | internal/infrastructure/store/memstore/conversation_memory.go:58-64 | The rows are the records of the keys, in their order |
| Stores.SortMemoryByRecent | internal/infrastructure/store/memstore/conversation_memory.go:93-103 | The in-place swaps leave the array stably sorted, newest first |
| Stores.SortIsOrdered | internal/infrastructure/store/memstore/conversation_memory.go:93-103 | The sorted form is newest first |
| Stores.SortIsPermutation | internal/infrastructure/store/memstore/conversation_memory.go:93-103 | and holds the same records |
| Stores.SortIsStable | internal/infrastructure/store/memstore/conversation_memory.go:93-103 | and records of one instant keep their order |
| Stores.UpdateKeepsIndexIff | internal/infrastructure/store/filestore/conversation_memory.go:118-128 | An update keeps the guest index exact if and only if it does not move the conversation away from a guest it belongs to |
| Stores.IndexGrowsAtTheEnd | internal/infrastructure/store/filestore/conversation_memory.go:118-128 | Indexing only ever appends to the one guest's list |
| Stores.StableGuestsKeepIndexExact | internal/infrastructure/store/filestore/conversation_memory.go:90-128 | Over any history that never moves a conversation, every guest's list is exact and without repeats |
| Stores.ReopenedIndexAgrees | internal/infrastructure/store/filestore/conversation_memory.go:170-175 | and the index of the reopened log lists the same conversations for every guest |
| Stores.FileMemory.Open | internal/infrastructure/store/filestore/conversation_memory.go:35-54 | Opening a log fails exactly when it cannot be hydrated, and otherwise holds the records it replays to with an exact guest index |
| Stores.FileMemory.Update | internal/infrastructure/store/filestore/conversation_memory.go:90-98 | The record, the index and one appended line, whatever its length |
| Stores.Hydrate | internal/infrastructure/store/filestore/conversation_memory.go:147-177 | The scan loop computes the replay, later lines winning and unreadable lines skipped, or fails when a line does not fit the scanner's 4 MiB buffer |
| Stores.ReplayEqualsLive | internal/infrastructure/store/filestore/conversation_memory.go:90-177 | For any sequence of updates whose records keep their key and read back from their line: reopening the log succeeds if and only if every line written is short enough to scan, and then rebuilds exactly the live map |
| Stores.LongThreadBlocksReopening | internal/infrastructure/store/filestore/conversation_memory.go:130-169 | In any history, one stored thread whose bodies reach the scan limit makes the log impossible to open again |
| Stores.FiveLongMessagesBlockReopening | internal/infrastructure/store/filestore/conversation_memory.go:130-169 | A concrete history: one turn of five messages within the webhook's size limit does it |
| Stores.ClosingKeepsKey | internal/application/processinquiry/usecase.go:827-832 | The orchestrator's own mutator is one of those |
| Server.KillSwitchHolds | internal/application/processinquiry/usecase.go:169-308 | In every execution of any number of workers: once the toggle is off and nobody re-enables it, the notes still posted number at most the runs past their final toggle read, hence at most the workers, and no run started later makes a classifier, qualifier, generator or critic call or posts |
| Server.EmittingDisarms | internal/application/processinquiry/usecase.go:255-308 | With the toggle off, a worker loses its one post by making it and never gains one |
| Server.MemoryNeverInventsReplies | internal/application/processinquiry/usecase.go:827-866 | In every reachable state, whatever memory the process started with, each host message in a stored thread was there from before or carries the body and time of a note the platform has accepted for that conversation since, and the auto-send time is the one from before or that of such a note |
| Server.BudgetGovernsToggle | internal/infrastructure/budget/watcher.go:125-180 | In every execution the trips, applied or under way, number exactly the one-day runs of charges that reached the cap, and without an operator's flip the toggle is off exactly when a trip was applied |
| Budget.Watcher.Record | internal/infrastructure/budget/watcher.go:100-144 | The new bucket and the toggle after one reported call |
| Budget.CostIsPriced | internal/infrastructure/budget/watcher.go:117-123 | A thousand prompt or completion tokens cost their own price per thousand, cost adds up over tokens, and a model without a price is charged as the unknown one |
| Budget.ReportsCountCharges | internal/infrastructure/budget/watcher.go:100-115 | Over all reported calls the books are those of the calls that did not fail and cost something |
| Budget.AccountsAreExact | internal/infrastructure/budget/watcher.go:100-144 | Over every sequence of charges: spent is the exact total since the day last changed, tripped says whether that total has reached a positive cap, and the watcher tripped exactly once per one-day run that reached it |
| Budget.DaysCutTheHistory | internal/infrastructure/budget/watcher.go:125-136 | The one-day runs are the history itself, cut exactly where the day changes |
| Budget.Source.SetAutoResponse | internal/infrastructure/togglesource/source.go:62-70 | Returns the value before and leaves the value asked for |
| Budget.Source.Current | internal/infrastructure/togglesource/source.go:51-55 | Reads the toggle as it is |

## Left out

- HTTP, signatures, DTO mapping, MongoDB and Redis stores, the event bus, metrics, traces and logs: plumbing around the modelled code.
- Prompt texts, message rendering and the JSON schema: transcripts keep only who spoke, the tool requests and the tool results.
- Regular expressions and JSON parsing are arbitrary functions of the text, and case mapping an arbitrary per-character map; the normal-form laws need it idempotent and fixing the space.
- Confidences and money are exact reals; floating-point rounding and NaN are not modelled.
- Text is a sequence of Unicode scalars; invalid UTF-8 and byte lengths are modelled only where the detector measures bytes.
- Error detail texts inside tool records: the detail of a rejected call is abbreviated, the code and whether it failed are kept.
- The classifier's own retry, the critic's and the summarizer's internals: each is one model call with one answer.
- Classification fields that no modelled decision reads (next action, reasoning), guest names and reservations other than the listing id.
- Guest profile and cross-conversation context read before classification: they feed prompts only.
- Conversion tracking, the escalation ring, retry and backoff, the evaluation suite and the tester interface.
- Crashes, failed file writes, claim expiry and the admin reset: claims and records are never forgotten.
- Panics in handlers, and the shutdown deadline: a worker always finishes the turn it runs.
- Liveness: nothing says that an enabled step is eventually taken.
- The debouncer's buffers and the stores' records are values inside their maps, so aliasing of a buffer pointer, or of the record handed to a mutator, is not captured; the mutator itself works on an object (`Memory.MemoryRecord`).
- The reply store read by the commitment scan is a snapshot for the length of one run.
- Debouncer.EveryBufferMeetsItsDeadline: assumes a clock that lets due timers take the lock before time moves on; a real scheduler adds its own delay to every deadline.
- Pool.Queue: its methods run without interruption; interleavings of senders and workers are the protocol in the same module.
- Boot-time auto replay: fixtures run straight through the orchestrator, outside the worker bound and the webhook's role check, so the bounds of `Server` and the guest-only turns do not cover them.
- Wiring.Shutdown: one worker draining alone; the drain by many workers is `Pool.ShutdownHandlesEverythingEarly`.
