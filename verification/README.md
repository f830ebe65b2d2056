# Run lifecycle of the agent service: a verified model

The service sells answers. A user pays one credit per question; a worker runs a bounded agent loop of model
turns and concurrent tool calls, persists each step, and either delivers an answer or gives the credit back.
Workers crash and are retried, boot sweeps fail runs that may still be alive, accounts are merged at sign-in while
their runs are in flight, and browsers reconnect to event streams in the middle of a run. This project models
that lifecycle and proves what it keeps over every interleaving. The outside world (what the model answers, what
tools return, when the user cancels, the clock, fresh ids and tokens) is arbitrary input.

Costs are whole units of 1e-8 USD, which is exact because prices are whole cents per million tokens.

## How it is laid out

- **The agent loop.** `RunSteps`, `Rounds`, `Chat` and `Pricing` hold the data; `AgentLoop` is one execution as a
  state machine with a boundary at every await, so every reachable state is a crash point. `LoopInvariant` and
  `Resume` prove what a resume rebuilds. `AgentProcessor` is the job itself, a class whose methods each perform one
  action of the machine.
- **The request.** `Anthropic` and `AnthropicProvider` translate the history; `EndToEnd` composes the translation
  with crash and resume. `OpenAiCompat` accumulates a streamed turn.
- **Money and ownership.** `Tables` holds the tables and constraints, `Transactions` what each transaction does,
  `ServiceSystem` the state machine in which requests, workers, sweeps, webhooks and sign-ins interleave and act on
  rows they read earlier. `SchemaInvariant`, `LedgerInvariant`, `GrantInvariant`, `SendInvariant` and `Healing` prove
  what every history keeps; `Counterexamples` holds the histories in which the service breaks its own word.
  `Outcomes` says when each transaction commits and what differs then.
  `Database` is the same tables as mutable state with one method per SQL statement;
  `ChatController`, `BillingService`, `Finalization` and `AuthService` run the statements with rollback and are
  proved equal to the transactions.
- **Events.** `RunEvents` replays a log; `Sse` is worker and handler interleaved; `SseController` is the handler's
  response with its `closed` flag.
- **Memory.** `Memory` is any number of overlapping summarize jobs; `SummarizeProcessor` has the loops.
- **Usage.** `Metering` and `UsageController`: rounding, group sums, statistics.
- **Sessions.** `Sessions`: refresh tokens over whole traces.

## What the statements assume

- Nothing about tool-call ids. A crash is *misled* when a repeated id in the open turn hides a missing result; where
  that matters the statements say so, with its exact consequence. Distinct ids exclude it
  (`Resume.DistinctIdsNeverMislead`).
- The resume statements are about a log written by one earlier execution. Truncation shortens the in-memory list
  but not `runs.steps`, so a later resume can meet repeated indices; `Resume.IndicesAfterResume` says exactly when.
- A failed attempt has no tool call still running when the retry starts.
- Each transaction is atomic, and a single statement outside one is a transaction of its own. Row locks below that
  level are not modelled.
- Messages of a thread become visible in the order of `created_at`.
- A published message reaches every attached subscriber, in order. Refreshes of one session come one at a time; the
  token hash is injective and tokens are fresh; clocks of service and database agree and do not run backwards.

## Where the code and its own comments disagree

- A truncated log is said to resume cleanly. With a repeated call id the truncation keeps a round that lacks a result,
  and the provider rejects the rebuilt history: `EndToEnd.FirstRequestValidIff` is exact, `Resume.CrashCanMislead` a
  schedule.
- `finalizeFailed` is documented with "a failed run never delivered a final answer". The success transaction guards
  only the status update, not the message: `Counterexamples.FailedRunCanHaveAnswer` is a history that ends with a
  failed, refunded run that has an answer, and `SendInvariant.CompletionInStep` says exactly when it happens.
- It is also documented to "always refund". When the account the worker read was folded into another, the refund
  violates a foreign key, the transaction rolls back and the run stays running, so its thread stays blocked:
  `LedgerInvariant.FailSettlesIff` is exact, `LedgerInvariant.StaleWorkerNeverFails` says it lasts,
  `Counterexamples.FailCanBeRefused` is a history. The same error ends a boot sweep early and leaves the rest of its
  list unsettled: `Finalization.SweepRefunds`.
- Sign-in promises to heal a duplicate account. It rolls back, and fails again at every later attempt, when the two
  balances together do not fit the `int` column: `SchemaInvariant.LoginTotal` is exact,
  `Counterexamples.SignInCanFail` a history.
- "No live event slips through the gap" holds while the stream stays open (`Sse.NoGap`). A published terminal event can
  end the stream before the replay is sent, and the handler's own status read can end it with events still queued;
  both lose persisted steps. `Sse.LiveEndIsComplete` and `Sse.StatusEndMisses` say exactly which,
  `Sse.LiveEndCanMissAStep` and `Sse.StatusEndCanMissAStep` are schedules.

## Model

| member | source | states |
|---|---|---|
| RunSteps.SortIsCanonical | src/agent/agent.processor.ts:110-112 | with distinct step indices the sorted log is the same for every order in which concurrent tools appended |
| RunSteps.SortRestores | src/agent/agent.processor.ts:110-112 | sorting any arrangement of strictly numbered steps gives them back in order |
| RunSteps.SortIsStable | src/agent/agent.processor.ts:110-112 | steps of one index keep the order in which they were appended |
| Chat.ReplayAt | src/agent/agent.processor.ts:118-128 | each replayed message says what its step says: the text and calls of the turn, or the content of the result under its call id |
| Rounds.DropDecision | src/agent/agent.processor.ts:394-413 | for any ids, a round in progress after complete rounds is kept iff each of its calls shares its id with some persisted result |
| Rounds.DropOpenRound | src/agent/agent.processor.ts:394-413 | for any ids: a full round is kept, an open one goes, and an open one is kept iff repeated ids make every call look answered |
| Rounds.DropPartialRound | src/agent/agent.processor.ts:394-413 | with distinct ids the round is kept iff every result is there, and then the log is complete rounds; otherwise exactly the open round goes |
| Rounds.DropCompleteRounds | src/agent/agent.processor.ts:394-413 | a log that ends in a complete round loses nothing |
| Rounds.RepeatedIdHidesMissingResult | src/agent/agent.processor.ts:405-412 | a concrete round with a repeated id and a missing result that the truncation keeps |
| Rounds.ValidRoundsAreNumbered | src/agent/agent.processor.ts:151-217 | complete rounds are numbered 0 to n-1 without gaps |
| Rounds.CountRounds | src/agent/agent.processor.ts:138 | the llm steps of complete rounds are as many as the rounds, which is what a resume takes for its iteration |
| LoopInvariant.ApplyKeeps | src/agent/agent.processor.ts:146-278 | every await of the loop, in any order of the tools and with any call ids, keeps log, step list, conversation, counters and cost in agreement with the rounds so far |
| LoopInvariant.RunKeeps | src/agent/agent.processor.ts:110-278 | the agreement holds after every schedule of an execution, also one that resumed |
| AgentLoop.ToolStepCarries | src/agent/agent.processor.ts:232-246 | a saved step is the output of its tool field by field; only a content over 12,000 characters is cut to its beginning |
| AgentLoop.LoggedCarries | src/agent/agent.processor.ts:179-248 | over any schedule each logged tool step carries the output of its own saving, and each logged turn the answer, usage and price of its own turn |
| Resume.CrashAnywhere | src/agent/agent.processor.ts:110-128 | stopped anywhere, sort and truncation leave complete rounds iff no repeated id hides a missing result; they are then numbered 0..n-1; always a prefix of what was persisted, short of it by at most one open round, and counting all turns but at most one |
| Resume.DistinctIdsNeverMislead | src/agent/agent.processor.ts:405-412 | with distinct call ids in the open turn no crash is of the hiding kind |
| Resume.CrashCanMislead | src/agent/agent.processor.ts:405-412 | a schedule of five steps whose crash is of the hiding kind |
| Resume.ReplayEqualsLive | src/agent/agent.processor.ts:118-138 | at every loop head the rebuilt cost and iteration are the live ones and the conversation differs at most in the order of results inside a round |
| Resume.ExecutionBound | src/agent/agent.processor.ts:138-188 | on any log whatever an execution asks for no more turns than the truncated log is short of 12 and writes no more usage rows than turns |
| Resume.OneRetryCostsOneTurn | src/agent/agent.processor.ts:138-188 | a first attempt and its one retry together ask for at most 13 turns and write at most 13 usage rows, wherever the crash falls and whatever the call ids |
| Resume.IndicesAfterResume | src/agent/agent.processor.ts:117-151 | after crash, resume and further work the logged indices are distinct iff the resume dropped nothing or wrote nothing |
| AgentProcessor.AgentRun.constructor | src/agent/agent.processor.ts:110-144 | loading, sorting, truncating and replaying reach the start state of the machine |
| AgentProcessor.AgentRun.DropIncompleteTrailingRound | src/agent/agent.processor.ts:394-413 | the backwards scan and in-place splice compute the truncation the round lemmas are about |
| AgentProcessor.AgentRun.Overlay | src/agent/agent.processor.ts:118-138 | the replay loop appends exactly the messages of the kept steps and restores iteration and cost |
| AgentProcessor.AgentRun.Turn | src/agent/agent.processor.ts:151-212 | one turn asks with the conversation so far, on the twelfth with the demand for a final answer; log, steps, conversation, usage rows and cost grow by exactly that answer |
| AgentProcessor.AgentRun.SaveStep | src/agent/agent.processor.ts:216-248 | the tool of the call is run and the step logged carries its output, under the index of the call |
| AgentProcessor.AgentRun.AdvanceTool | src/agent/agent.processor.ts:216-275 | one await of one tool call moves that call one stage and no other, and every step carries the output of its own call |
| AgentProcessor.AgentRun.AwaitTool | src/agent/agent.processor.ts:216-275 | one call is run to its end with its own output, and no other moves |
| AgentProcessor.AgentRun.AwaitAll | src/agent/agent.processor.ts:215-276 | under any scheduler all calls of the round end reported, each with its own output, through steps of the machine only |
| AgentProcessor.AgentRun.Loop | src/agent/agent.processor.ts:146-278 | the loop terminates for every world, in a state the machine can reach: cancelled, or with the text of the last turn, or empty after 12 iterations |
| AgentProcessor.Process | src/agent/agent.processor.ts:110-278 | an attempt on any log adds at most the missing turns; with 12 kept turns it asks nothing, writes nothing and yields the empty answer |
| AgentProcessor.SkippedRun | src/agent/agent.processor.ts:138-146 | with the iterations used up, leaving the loop is all that can happen |
| Anthropic.ValidIffSettled | src/llm/anthropic.provider.ts:65-101 | the translated request answers every call in the very next message, and nothing else, iff the history does so turn by turn |
| Anthropic.RequestShape | src/llm/anthropic.provider.ts:61-64 | an assistant message with calls is followed by one user message with exactly those results; result messages are never adjacent |
| Anthropic.RoundTrip | src/llm/anthropic.provider.ts:65-101 | flattening the request gives the history back, for every history |
| Anthropic.MeaningKeeps | src/llm/anthropic.provider.ts:67-98 | what the round trip gives back has role, text, calls and call id of the message, and an empty argument text as `{}` |
| AnthropicProvider.BreakpointIsHarmless | src/llm/anthropic.provider.ts:103-122 | the cache breakpoint keeps meaning and validity, is the only one among the messages, and sits on the last block of the newest |
| AnthropicProvider.ParsableIs | src/llm/anthropic.provider.ts:87-94 | the request can be built iff the arguments of every call of every assistant turn parse |
| AnthropicProvider.RequestBuilder.Append | src/llm/anthropic.provider.ts:67-98 | one iteration of the loop, or failure exactly when a call's arguments do not parse |
| AnthropicProvider.RequestBuilder.ToAnthropicMessages | src/llm/anthropic.provider.ts:65-101 | the loop succeeds iff all arguments parse, and then has built the translation |
| AnthropicProvider.RequestBuilder.WithCacheBreakpoint | src/llm/anthropic.provider.ts:104-122 | marks the newest message in place and nothing else |
| AnthropicProvider.BuildRequest | src/llm/anthropic.provider.ts:65-122 | the finished request is valid iff the history is settled, loses nothing, and carries one breakpoint |
| EndToEnd.PlainIsSettled | src/agent/agent.processor.ts:79-95 | a thread history of questions and answers owes nothing |
| EndToEnd.RoundsStaySettled | src/agent/agent.processor.ts:203-276 | complete rounds keep a conversation settled in whatever order results were reported |
| EndToEnd.EveryRequestIsValid | src/agent/agent.processor.ts:151-168 | every request sent from a loop head, after any schedule, translates to a valid one and back |
| EndToEnd.ValidAfterAnyCrash | src/agent/agent.processor.ts:110-168 | the same for a second execution that resumed after the first crashed anywhere but in the hiding state, tools racing |
| EndToEnd.FirstRequestValidIff | src/agent/agent.processor.ts:110-168 | the first request of a resume is one the provider accepts iff the crash was not in the hiding state |
| OpenAiCompat.Normalize | src/llm/openai-compat.provider.ts:73-82 | input plus cache-read tokens are the larger of prompt and cached tokens; a missing usage counts zero |
| OpenAiCompat.StreamTurn | src/llm/openai-compat.provider.ts:53-84 | for every interleaving the text is the concatenation of the emitted deltas and each call is joined from its own fragments, in order of first appearance |
| OpenAiCompat.FoldCall | src/llm/openai-compat.provider.ts:63-69 | what accumulates under an index is the in-order concatenation of that index's names and arguments, with its last id |
| OpenAiCompat.StreamInTwo | src/llm/openai-compat.provider.ts:57-71 | of a stream in two parts texts and fragments follow each other, and the usage of the later part counts if it has one |
| OpenAiCompat.FragmentsInTwo | src/llm/openai-compat.provider.ts:63-69 | of fragments in two parts names and arguments follow each other, the later id counts, and each index keeps its order |
| OpenAiCompat.OrderOfFirstAppearance | src/llm/openai-compat.provider.ts:54-76 | a call precedes another iff its first fragment does |
| OpenAiCompat.InterleavingIsIrrelevant | src/llm/openai-compat.provider.ts:63-76 | streams with the same fragments per index and the same first appearances give the same calls |
| OpenAiCompat.StreamingEqualsBatch | src/llm/openai-compat.provider.ts:54-76 | a batch of calls cut into pieces under any indices and interleaved in any way that starts them in order comes back, less the calls without id or name |
| OpenAiCompat.UsableIs | src/llm/openai-compat.provider.ts:76 | exactly the calls with an id and a name are kept |
| SchemaInvariant.SchemaHolds | db/migrations/20260722000001_initial_schema.sql:5-128 | in every reachable state the constraints of the modelled tables hold, rows of a thread belong to its owner, one run per thread runs, and stale copies name an owner who is current or gone |
| SchemaInvariant.UpsertFree | src/auth/auth.service.ts:80-110 | after the merge no other row has the email or the identity, so the upsert meets no unique violation |
| SchemaInvariant.LoginTotal | src/auth/auth.service.ts:67-111 | a sign-in commits iff no merge is needed or the two balances together fit the column |
| LedgerInvariant.LedgerConservation | src/billing/billing.service.ts:80-123 | in every reachable state each balance is the sum of that user's ledger rows and is not negative |
| LedgerInvariant.OneChargeOneRefund | src/agent/agent.processor.ts:353-374 | a run ever created has one -1 row and at most one +1 row of the same user; while it exists the refund is there iff it failed |
| LedgerInvariant.FinalStays | src/agent/agent.processor.ts:294-300 | no action takes a run out of done or failed |
| LedgerInvariant.FailSettlesIff | src/agent/agent.processor.ts:359-374 | in every reachable state a worker fails and refunds its running run iff the owner it read still exists with room on the balance |
| LedgerInvariant.StaleWorkerNeverFails | src/agent/agent.processor.ts:359-374 | a worker whose owner was folded away never does, whatever happens later |
| Outcomes.PurchaseOutcome | src/billing/billing.service.ts:80-96 | a purchase commits iff its event is new, the account exists and the balance has room; then one balance and one ledger row differ by the amount, and nothing else |
| Outcomes.RedeemOutcome | src/billing/billing.service.ts:106-123 | a redemption commits iff the account has not redeemed the code and has room, with the same effect |
| Outcomes.GrantOutcome | src/admin/admin.controller.ts:71-83 | an adjustment commits iff the balance stays in its range, with the same effect |
| Outcomes.FailOutcome | src/agent/agent.processor.ts:359-374 | a failure commits iff the run is running and its owner exists with room; then one credit comes back and one run is failed |
| Outcomes.CompleteOutcome | src/agent/agent.processor.ts:280-301 | an answer is added iff its thread exists; only its own run can change status, and no money moves |
| Outcomes.MeterOutcome | src/usage/usage.service.ts:24-50 | a usage row is added iff owner, thread and run exist, and is of that run |
| GrantInvariant.PurchasesOncePerEvent | src/billing/billing.service.ts:80-96 | purchase rows are as many as recorded events, and over any history an event granted exactly once if recorded and never otherwise |
| GrantInvariant.CouponsMatchRedemptions | src/billing/billing.service.ts:106-123 | a code is redeemed for a user iff the user holds a coupon row, and holds no more of them than original accounts were folded in |
| SendInvariant.SendsStayInStep | src/agent/chat.controller.ts:114-156 | with any number of sends on stale checks, one run per thread runs, questions are as many as runs, and done runs no more than answers |
| SendInvariant.CompletionInStep | src/agent/agent.processor.ts:281-301 | a completion adds its answer whatever the status is; answers and done runs stay in step iff the run was running |
| Counterexamples.FailedRunCanHaveAnswer | src/agent/agent.processor.ts:281-301 | a history whose failed and refunded run has an answer |
| Counterexamples.FailCanBeRefused | src/agent/agent.processor.ts:353-374 | a history in which a worker holds a running run that it cannot fail, its owner having signed in meanwhile |
| Counterexamples.SignInCanFail | src/auth/auth.service.ts:67-111 | a history of two sign-ins and two purchases of one size after which the sign-in that should fold the accounts is rolled back |
| Healing.AccountsAre | src/auth/auth.service.ts:68-75 | the accounts behind a claim are the one found by identity and the one found by email, and no others |
| Healing.LoginLosesNothing | src/auth/auth.service.ts:119-159 | every thread, run, usage row, upload, ledger row, key and redeemed code of the accounts ends with the survivor, with their credits added; everything else stays |
| Healing.LoginLeavesOneAccount | src/auth/auth.service.ts:84-110 | afterwards one row has the email and it alone has the identity |
| Healing.LoginKeepsProfile | src/auth/auth.service.ts:84-110 | the account with the email survives, else the one with the identity, else a new one; it is an admin iff the claim makes it one or it was one; name and picture are the claim's where it has them, else those kept |
| Healing.LoginIsIdempotent | src/auth/auth.service.ts:67-111 | a second sign-in with the same claim changes nothing |
| Healing.SignInHeals | src/auth/auth.service.ts:36-159 | in every reachable state a sign-in heals as above and keeps the profile, or its balances do not fit and nothing changes |
| Database.Database.AddCredits | db/migrations/20260722000001_initial_schema.sql:12 | the balance changes by the delta, or the check fails and it stays |
| Database.Database.InsertRun | db/migrations/20260722203812_one_running_run_per_thread.sql:5-6 | a unique violation iff the thread has a running run; otherwise the row goes in under its foreign keys |
| Database.Database.CloseRun | src/agent/agent.processor.ts:360-364 | only a running run changes status, and the caller learns whether it did |
| Database.DeletionTakesOnlyTheirs | db/migrations/20260722000001_initial_schema.sql:17-128 | the cascades of a deleted user take exactly the rows of that user, and every other row stays as often as it was |
| Database.RestOwnersOk | db/migrations/20260722000001_initial_schema.sql:17-128 | after such a deletion no reference dangles and the rows of a thread still belong to its owner |
| Database.RemovedThreadIsGone | db/migrations/20260722000001_initial_schema.sql:39-110 | the cascades of a deleted thread take exactly its runs, messages, usage rows and uploads; other threads keep theirs, messages in order |
| Database.Database.DeleteFromUsers | db/migrations/20260722000001_initial_schema.sql:17-128 | the statement deletes with those cascades, so both hold of it |
| ChatController.AssertThread | src/agent/chat.controller.ts:185-195 | lets a request pass iff the caller owns the thread, and reports a thread of somebody else as missing |
| ChatController.CheckIdle | src/agent/chat.controller.ts:114-121 | lets a send pass iff no run of the thread is running at that moment |
| ChatController.SendMessage | src/agent/chat.controller.ts:126-156 | a send is accepted iff there is a credit, the thread exists and no run of it is running; then one credit, the question, the run and its charge have gone in; the reply says exactly which other case it was |
| ChatController.DeleteOwnThread | src/agent/chat.controller.ts:92-100 | only the owner deletes; the rows of the thread go with it and no others |
| BillingService.HandleWebhook | src/billing/billing.service.ts:80-96 | the statements grant exactly once per event, and report failure iff the account is missing or full |
| BillingService.RedeemCode | src/billing/billing.service.ts:106-123 | the statements grant iff the code is new to the account and fits; a repeated code is reported as such and changes nothing |
| BillingService.GrantCredits | src/admin/admin.controller.ts:71-83 | the statements perform the adjustment, refused as a whole when the balance would leave its range |
| Finalization.Succeed | src/agent/agent.processor.ts:280-301 | the answer goes in iff the thread exists, and closes its own run only if that is running |
| Finalization.FailRun | src/agent/agent.processor.ts:359-374 | the statements fail the run and refund its owner in one step, or leave everything as it was, with the exact condition |
| Finalization.Sweep | src/agent/agent.processor.ts:40-48 | the sweep loop refunds in list order, stops at the first error and says whether it got to the end |
| Finalization.SweepCompletes | src/agent/agent.processor.ts:40-48 | it gets to the end iff no listed running run has lost its owner or meets a full balance, and then every listed run is settled |
| Finalization.SweepRefunds | src/agent/agent.processor.ts:40-48 | on any list, however stale: exactly the entries before the first such blocked one are settled, each running run once, and nothing else changes; the blocked run stays running |
| AuthService.CascadeIsEmpty | src/auth/auth.service.ts:114-118 | deleting a user who owns no thread, run, usage row, upload or ledger row removes only the user, its keys and its codes |
| AuthService.MoveUniqueRows | src/auth/auth.service.ts:137-151 | the conflict-safe moves and the later cascade keep the winner's key per provider, else the loser's, and every redeemed code |
| AuthService.MergeUsers | src/auth/auth.service.ts:119-159 | statement by statement the merge gives every row of the loser to the winner, and fails iff the balances do not fit |
| AuthService.LoginWithIdToken | src/auth/auth.service.ts:67-111 | the whole sign-in performs the login transaction, keeps the uniqueness constraints, and returns the surviving account with its profile kept |
| RunEvents.MapStepsToEvents | src/agent/run-events.ts:69-111 | with distinct indices every step has its place in the result: a turn its text, if any, then its usage; a tool its start, its end, then its artifact iff it made one; and there is nothing else |
| RunEvents.PushEvents | src/agent/run-events.ts:73-108 | one step pushes its own events, in that order, and nothing else |
| RunEvents.ReplayPlaces | src/agent/run-events.ts:70-111 | the same of the replay of any log with distinct indices |
| RunEvents.ReplaySize | src/agent/run-events.ts:70-111 | the replay has one event or two for a turn and two or three for a tool, and no more |
| RunEvents.ReplayIsCanonical | src/agent/run-events.ts:72 | with distinct indices the replay does not depend on the order of the log |
| RunEvents.ReplayInGroups | src/agent/run-events.ts:70-111 | the replay falls into one group per step in increasing order, each exactly the step's own events |
| Sse.NoGap | src/agent/sse.controller.ts:61-90 | after the replay on an open stream every persisted step was sent, is queued for this subscriber, or is not yet published |
| Sse.OneTerminal | src/agent/sse.controller.ts:55-79 | at most one terminal event is written and nothing follows it; a stream open after its status read has one ahead or queued |
| Sse.LiveEndIsComplete | src/agent/sse.controller.ts:55-90 | with one worker, a stream ended by a published terminal event has delivered a persisted step iff its replay was sent before, or the step was announced after the callback was attached |
| Sse.LiveEndCanMissAStep | src/agent/sse.controller.ts:55-90 | a schedule whose terminal event ends the stream before the replay, so that a persisted step is never written |
| Sse.StatusEndMisses | src/agent/sse.controller.ts:86-131 | with one worker, a stream ended by the status read has missed a persisted step iff the step was not in the replay and its announcement is still queued |
| Sse.QueuedButReplayed | src/agent/sse.controller.ts:86-131 | a schedule whose step is still queued and yet written, by the replay |
| Sse.StatusEndCanMissAStep | src/agent/sse.controller.ts:92-131 | a schedule in which that happens |
| SseController.EventStream.Greeting | src/agent/sse.controller.ts:82-85 | an open stream writes run_started, a closed one nothing; the greeting step |
| SseController.EventStream.OnMessage | src/agent/sse.controller.ts:74-79 | an open stream writes the message and closes iff it is terminal; the delivery step |
| SseController.EventStream.Replay | src/agent/sse.controller.ts:81-90 | an open stream writes the events of every step, each in its place, a closed one nothing; the replay step |
| SseController.EventStream.Finish | src/agent/sse.controller.ts:92-131 | a final status ends an open stream with its one terminal event, a running one leaves it open |
| Memory.EstimateTokens | src/memory/memory.service.ts:5-6 | the least number of tokens of four characters that covers the text |
| Memory.OldestBlockIs | src/memory/summarize.processor.ts:50-58 | the block is the shortest prefix of the candidates that reaches 30000 tokens, or all of them |
| Memory.OldestBlockUnique | src/memory/summarize.processor.ts:50-58 | that condition leaves no choice |
| Memory.TalkIs | src/memory/summarize.processor.ts:40-42 | the conversation read is exactly the user and assistant messages, in order |
| Memory.UnarchivedIs | src/memory/summarize.processor.ts:40-42 | less exactly the archived ones, in order |
| Memory.SumsConcat | src/memory/summarize.processor.ts:45-57 | characters and tokens of a stretch are those of its parts, message by message |
| Memory.BlockOfTwo | src/memory/summarize.processor.ts:51-59 | the block has two messages iff there are 17 and the first alone does not fill it |
| Memory.Holds | src/memory/summarize.processor.ts:35-93 | with any number of overlapping jobs the archived ids are a prefix of the conversation and every one is covered by a stored block |
| Memory.ArchivedIsPrefix | src/memory/summarize.processor.ts:35-59 | archived user and assistant messages are a prefix that leaves out the latest 15, and the unarchived ones are the rest |
| Memory.RangeReturnsTheBlock | src/memory/memory.service.ts:53-61 | the range query of a summary returns exactly the block it was written from, in order |
| Memory.ArchivedIsRetrievable | src/memory/summarize.processor.ts:77-93 | every archived message is returned by some summary's range query |
| SummarizeProcessor.ThreadMemory.CollectBlock | src/memory/summarize.processor.ts:50-58 | the loop computes the oldest block |
| SummarizeProcessor.ThreadMemory.Read | src/memory/summarize.processor.ts:35-59 | a job comes back iff the unarchived conversation has 239,997 characters and 17 messages, the first under 30,000 tokens; its block is the oldest messages up to the latest 15, as far as it takes to reach 30,000 tokens |
| SummarizeProcessor.ThreadMemory.Store | src/memory/summarize.processor.ts:73-93 | an empty summary stores nothing; otherwise one summary with the ends of the block goes in and exactly the block is archived |
| SummarizeProcessor.LineIs | src/memory/memory.service.ts:64 | a line is the role and at most 1,500 characters of the message |
| SummarizeProcessor.Excerpt | src/memory/memory.service.ts:62-67 | the excerpt is the longest prefix of lines within 16000 characters, and at least ten messages or all |
| SummarizeProcessor.OriginalExcerpt | src/memory/memory.service.ts:51-67 | after any history the excerpt of a hit comes from exactly the summarized messages |
| Metering.Stored | db/migrations/20260722000001_initial_schema.sql:107 | the stored micro-dollars are within half a micro-dollar of the exact cost |
| Metering.RoundingDrift | src/usage/usage.service.ts:31-46 | the sum of n stored costs is within n/2 micro-dollars of the exact sum |
| Metering.DriftIsMet | src/usage/usage.service.ts:31-46 | for every n there are n events that drift by exactly n/2 micro-dollars |
| Metering.CostIsLinear | src/usage/usage.service.ts:11-22 | pricing a sum of token counts is the sum of the prices |
| Metering.OneTokenEach | src/usage/usage.service.ts:14-21 | one token of each kind costs its own price, which with linearity fixes every cost |
| Metering.WhatIfAgreesWithSpend | src/usage/usage.controller.ts:136-146 | pricing the token mix of a user's only model gives the recorded spend up to n/2 micro-dollars |
| Metering.SavedIsDifference | src/usage/usage.controller.ts:94-101 | what caching saved is the price of the same tokens without a cache less the price with it |
| Metering.GroupSaved | src/usage/usage.controller.ts:94-101 | computed from a group's sums it is the sum over the group's events |
| UsageController.UsageService.Record | src/usage/usage.service.ts:11-50 | returns the exact price of the four token counts, nothing for an unknown model, and stores it rounded; history stays priced as written |
| UsageController.UsageService.ThreadCost | src/usage/usage.service.ts:52-58 | the thread's stored costs added up |
| UsageController.FoldRolls | src/usage/usage.controller.ts:70-103 | whatever order the groups come in, each thread's record holds the figures of its own groups |
| UsageController.SortSorts | src/usage/usage.controller.ts:112-114 | dearest thread first, every thread once |
| UsageController.SortIsStable | src/usage/usage.controller.ts:112-114 | threads of one cost keep their order |
| UsageController.ModelsAre | src/usage/usage.controller.ts:87 | a thread lists the models of its groups, each once |
| UsageController.Stats | src/usage/usage.controller.ts:21-154 | per-thread and total figures, distinct runs and savings equal those of the events added directly; the what-if rows price the total token counts on every model |
| Sessions.AcceptsExactly | src/auth/auth.service.ts:202-228 | after any history a token is accepted iff it is the newest, or the one before it for under 30 seconds, of a session used within 7 days; any other presentation ends that session and only that |
| Sessions.OldTokensNeverWelcome | src/auth/auth.service.ts:209-224 | a token two rotations old is never accepted again |
| Sessions.WrongTokenEndsSession | src/auth/auth.service.ts:226-228 | after one wrong token no token of the session is ever accepted again |
| Sessions.NeverLoggedOut | src/auth/auth.service.ts:186-229 | a client that presents its newest cookie within 7 days, with tabs at most 30 seconds late, keeps its session |
| Sessions.EveryRefreshSucceeds | src/auth/auth.service.ts:209-224 | each of its refreshes is accepted, with a new cookie exactly for the newest one |
| Sessions.CookieRoundTrip | src/auth/auth.service.ts:178-192 | a cookie gives back its session and token, and signs out its session even without a token |
| Sessions.PresentedWithDot | src/auth/auth.service.ts:189-193 | a cookie with a dot is read as the uuid before its first dot and the token after it, or not at all |
| Sessions.PresentedWithoutDot | src/auth/auth.service.ts:189-193 | a value without dots is read only if it is a uuid and one more character, and then as a token of its own |
| Sessions.SignedOutIs | src/auth/auth.service.ts:231-234 | a sign-out names a session iff the value is its uuid, alone or followed by a dot |
| Sessions.SessionStore.CreateSession | src/auth/auth.service.ts:170-179 | a new session row with the hash of the token and 7 days, and a cookie that leads back to it |
| Sessions.SessionStore.RotateRow | src/auth/auth.service.ts:195-228 | the branches perform the refresh the trace statements are about |
| Sessions.SessionStore.RotateSession | src/auth/auth.service.ts:186-229 | a cookie that parses is refreshed that way, and any other changes nothing |
| Sessions.SessionStore.RevokeSession | src/auth/auth.service.ts:231-235 | sign-out removes the session named before the first dot of the cookie, with or without a token |

## Left out

- LLM, search, embedding, Stripe, Firebase and browser calls, tools, PDF rendering, uploaded files: foreign; their results are arbitrary inputs.
- JSON parsing (a predicate on the argument text), encryption, HMAC, JWT and random bytes (an injective hash and fresh tokens).
- Postgres locking below the transaction, BullMQ scheduling, and what Redis does beyond an in-order queue per subscriber.
- Retries after a failed attempt whose other tool calls are still running in the background.
- A process that dies between committing a final status and publishing the terminal event; the stream statements speak of a terminal event that is still owed.
- Titles, timestamps and model columns of threads, the text of a run's error, and the queue entry that a send adds.
- `usage_events.run_id` set to NULL by a deleted run: runs go only with their thread, and its usage rows go too.
- The vector search, its top three hits and the distance cutoff: the range statements hold for every summary.
- Messages that become visible out of `created_at` order.
- The per-run chart, cache hit rate, thread titles and the sort of the what-if rows on the statistics page.
- Refreshes of one session that overlap between reading and writing its row.
- JavaScript string lengths in UTF-16 code units: characters stand for code units.
- The OpenAI message format and its cache marks: short case distinctions.
- Guards, validation, throttling, cookies, health, configuration, key probing and the model picker.
- Resume.CrashAnywhere: for a log written by one earlier execution, since truncation does not shorten the stored log.
- AgentProcessor.AgentRun.Turn: does not model the system prompt, the tool list or streamed text deltas.
- SchemaInvariant.SchemaHolds: does not model the tables of artifacts, summaries and chunks here, the value checks on text columns, nor `NOT NULL`.
- Sse.LiveEndIsComplete: for one worker that numbers its steps apart and publishes a step before it commits the final status.
- Sse.StatusEndMisses: for such a worker, too.
- Resume.IndicesAfterResume: for a first crash that is not misled by a repeated call id.
- UsageController.Stats: does not model the per-run chart, the hit rate, the titles and the order of the what-if rows; runs are counted right for events whose run has one thread and one model, as `record` writes them.
- Memory.RangeReturnsTheBlock: created_at strictly increasing within the thread.
