# Ascentia core: chat turns, streaming and their stores

A Dafny model of the agent engine in `pkg/agent_core` and of the stateful parts of `internal/` that
it runs on. Every operation that works step by step in Go is a method with loops or a class with
updated fields, proved against a specification function; the theorems are about those functions and
about whole runs.

One module per component:

| module | file | what it models |
|---|---|---|
| `Text` | `Text.dfy` | white space, zero-width and visible characters, `strings.TrimSpace`, UTF-8 length |
| `Transcript`, `Grammar` | `Transcript.dfy` | messages; the form of a conversation |
| `Pruning` | `Pruning.dfy` | shortening of tool results |
| `Compaction` | `Compaction.dfy` | token estimate, whole-block dropping, the threshold compactor |
| `Loop` | `Loop.dfy` | the plain tool loop |
| `Streaming` | `Streaming.dfy` | the streamed tool loop, its hooks, and what the client sees |
| `History` | `History.dfy` | runs described by what happened in each turn: a reference for the loops, their events and what the client receives |
| `Engine` | `Engine.dfy` | prompt preparation and the streamed run on top of it |
| `Session` | `Session.dfy` | the in-memory session store and its scoped keys |
| `Service` | `Service.dfy` | chat turns over the shared store: a state machine for interleavings, and the sequential method |
| `Turns` | `Turns.dfy` | what a turn does, in the configured numbers: its prompt, run, writes, messages and session |
| `Thinking` | `Thinking.dfy` | the incremental demultiplexer for `<thinking>` blocks, on bytes |
| `ToolStream` | `ToolStream.dfy` | accumulation and emission of streamed tool calls |
| `RateLimit` | `RateLimit.dfy` | the sliding-window limiter over array-backed slices |
| `Planner` | `Planner.dfy` | the todo store over arrays, and the choice of the focused task |
| `SideQuery` | `SideQuery.dfy` | the memory recall of a turn |

The model, the streamer, the tools (with any state `T` of their own), the prompt assembler and the
token estimator are oracles: arbitrary functions of what they are given. The only thing asked of
them is that the model replies as the assistant or without a role, and, for the statements about
prompts, that the assembler yields system messages.

## The form of a conversation

A block is a user message, an assistant message without calls, or an assistant message with calls
followed by exactly its results in order. A stored conversation has the form "orphan tool results,
then blocks" (`Grammar.Form`). `Grammar.FormMeansPaired` shows that this grammar is the same as the
reading by positions: every assistant message is followed at once by its results, one per call, in
order, and every tool result outside a leading run belongs to such a message. Trimming by messages,
dropping by blocks, splitting off the newest message, and appending a turn's rounds all keep it, and
`Service.ReachableOK` puts them together for every interleaving of turns.

## How answers are pinned

Each loop is proved against a specification function, and each such function against a description
that does not use it. A run of either loop is exactly what a history of turns says
(`History.OutcomeIsHistory`): the messages sent, the reply, every tool call with the tool state before
and after it, and where the run has to stop. `Turns` puts this together for the service: the
configured limits, the prompt, what is appended, what the client receives, and whose session is
touched.

## Where the code differs from what one would expect

- The estimator's comment speaks of runes (heuristic.go:11); the code divides byte lengths. The
  model uses bytes; `Compaction.BytesAgreeWithRunes` says exactly when both give the same, and
  `Compaction.RunesCostLess` gives a message for which they do not.
- Compaction is described as dropping whole tool rounds (heuristic.go:28). `consumeBlockFromFront`
  leaves out empty call identifiers, so a round is dropped whole exactly when none of its calls has
  an empty identifier (`Compaction.DropTakesWholeBlock`; `Compaction.EmptyIDSplitsRound` is a round
  that is split). Without that, prompts and sessions still have the conversation form, because
  left-over results become orphans.
- The notice is added after the budget test, so the result can be over budget and even cost more than
  before: `Compaction.CompactBudget` gives the exact conditions and the bound on the excess, and
  `Compaction.NoticeBreaksBudget` a case of both.
- The minimal tail is compared before a drop, so the last drop may go below it. The tail is kept
  exactly when some boundary before it reaches the budget or lies at its start
  (`Compaction.CompactTail`), and under every budget exactly when it starts at a boundary
  (`Compaction.TailAlwaysKept`). `Compaction.BlockBreaksTail` is a case in which it is not kept.
- A pruned result is longer than the limit exactly when the ellipsis is (`Pruning.PruneBound`;
  `Pruning.EllipsisOverLimit` is a case).
- With clocks that lag by d, the limiter's window is a minute less d, and no longer one holds unless
  the budget is one (`RateLimit.WindowExactly`).
- A turn's append and read are two critical sections. `Service.TailIsNewest` says which message a
  turn works on for everything that can happen between them: its own exactly when nobody has written
  to the session since, or the last to do so opened a turn with the same text. Otherwise it works on
  another turn's message, or, when the last write finished a turn, on that turn's answer.
- Session keys are documented to keep users and agents apart (scoped_session.go:5-6), but only the
  session part is checked for the separator. `Session.KeyShared` gives the exact condition under
  which an accepted scope shares its key with another accepted one, `Session.KeySharedInService` the
  one for scopes that connections to one service can have, and `Session.CollidingPair` two that do.
- The check of session identifiers also means to keep line breaks out, but it looks at the trimmed
  identifier while the raw one is used (`Session.LineBreakKept`, `Session.LineBreakAccepted`).
- A gap in the indices of streamed tool calls can lose calls (`ToolStream.GapLosesCall`;
  `ToolStream.NothingLost` is the exact condition).
- A task in progress behind an earlier task with its identifier can never be finished, so taking the
  focus and marking it done does not end (`Planner.DrainTerminates` is the exact condition,
  `Planner.NamesakeBlocks` a case).
- With a limit above the number of recent rows read, the recall is not a top selection of the tenant
  (`SideQuery.TopOfTenantExactly`). With a limit above 42 the match query, which asks for eight rows
  more, falls back to ten rows, so keyword hits can be missed as well (`SideQuery.HitsInTheCode`). The
  engine's call uses a limit of 5 and 12 recent rows and is correct.

## Model

| member | source | states |
|---|---|---|
| Grammar.FormMeansPaired | pkg/agent_core/loop/react.go:45-67 | The grammar holds if and only if each assistant call is answered once, in order, right after it, and no tool result outside a leading run lacks its call |
| Grammar.SuffixKeepsForm | internal/session/store.go:80-92 | Dropping any number of oldest messages, even inside a tool round, leaves a conversation of the same form |
| Grammar.SplitTail | internal/runtime/service.go:86-91 | Splitting the newest message off a conversation that ends settled never cuts a tool round |
| Grammar.FormAppend | internal/runtime/service.go:192-194 | Appending complete blocks to a conversation keeps its form |
| Pruning.PruneIdempotent | pkg/agent_core/compaction/truncate.go:16-44 | A result that was pruned once is never changed again |
| Pruning.PruneShape | pkg/agent_core/compaction/truncate.go:16-44 | Role, calls and call identifier survive; short results are untouched; a long one becomes a prefix and the ellipsis of exactly the limit's length, or the ellipsis alone |
| Pruning.PruneBound | pkg/agent_core/compaction/truncate.go:20-43 | The rune count is at most the larger of limit and ellipsis, and exceeds the limit exactly when a long result meets a longer ellipsis |
| Pruning.EllipsisOverLimit | pkg/agent_core/compaction/truncate.go:34-37 | A result that pruning makes longer, and longer than the limit |
| Compaction.EstimateMsgTokens | pkg/agent_core/compaction/heuristic.go:20-26 | The loop computes four plus a third of the content bytes plus eight and two thirds-of-bytes per call |
| Compaction.RoughTokenEstimator | pkg/agent_core/compaction/heuristic.go:12-18 | The loop sums the estimates of all messages |
| Text.WidthIsLeast | pkg/agent_core/compaction/heuristic.go:21-23 | A character takes the least number of UTF-8 bytes that can carry it |
| Compaction.EstimateMeans | pkg/agent_core/compaction/heuristic.go:20-26 | A message costs four and a third of its bytes, each further call eight and the thirds of its name and arguments |
| Compaction.TokensConcat | pkg/agent_core/compaction/heuristic.go:12-26 | The estimate is additive over concatenation and at least four per message |
| Compaction.BytesAgreeWithRunes | pkg/agent_core/compaction/heuristic.go:11-26 | The code never estimates less than its comment's count in runes, and the same if and only if no text has enough multi-byte characters to cost another token |
| Compaction.RunesCostLess | pkg/agent_core/compaction/heuristic.go:11-26 | A message of one three-byte character costs more than its comment's count in runes |
| Compaction.ConsumeBlockFromFront | pkg/agent_core/compaction/heuristic.go:117-151 | The loop removes the first message and, if it has calls, the longest run of results that carry one of its non-empty identifiers |
| Compaction.MatchingResultsIsLongest | pkg/agent_core/compaction/heuristic.go:135-144 | All counted results match an identifier and the next message does not |
| Compaction.BlockSizeMeans | pkg/agent_core/compaction/heuristic.go:117-151 | A drop takes the first message and, for one with calls, the longest run of results that carry a non-empty identifier of those calls; in every other case one message |
| Compaction.DropTakesWholeBlock | pkg/agent_core/compaction/heuristic.go:117-151 | One drop takes exactly the first complete block if and only if none of its calls has an empty identifier |
| Compaction.EmptyIDSplitsRound | pkg/agent_core/compaction/heuristic.go:129-144 | Of a round whose only call has an empty identifier a drop takes the assistant message and leaves the result behind |
| Compaction.DropOldest | pkg/agent_core/compaction/heuristic.go:84-92 | The drop loop returns the number of dropped messages and the middle without them |
| Compaction.MaybeCompact | pkg/agent_core/compaction/heuristic.go:55-107 | The method meets the specification of compaction in all five exits |
| Compaction.DroppedIsLeast | pkg/agent_core/compaction/heuristic.go:84-92 | The drop is the shortest run of whole drops after which the estimate is within budget or the tail limit forbids more |
| Compaction.CutIsLeast | pkg/agent_core/compaction/heuristic.go:84-92 | A cut has a last drop, before which the estimate was over budget with more than the tail kept |
| Compaction.CompactOutcome | pkg/agent_core/compaction/heuristic.go:55-107 | When applied, the output is prefix, notice, rest of the middle and last message for the least sufficient cut; otherwise the input is returned unchanged |
| Compaction.CompactExactly | pkg/agent_core/compaction/heuristic.go:40-107 | With a budget of 48000 and a tail of 8 unless configured: when compaction cuts, at which end of a drop, what the list then holds, and the reason reported in every exit |
| Compaction.CutIsFirstEnough | pkg/agent_core/compaction/heuristic.go:84-92 | There is exactly one first boundary at which the rest is within budget or the tail forbids more, and the cut is there |
| Compaction.CompactBudget | pkg/agent_core/compaction/heuristic.go:84-106 | The returned list is within budget if and only if what remains from the first sufficient boundary on leaves room for its notice; it exceeds the budget by at most the notice when more than the tail is kept, and is cheaper than the input exactly when the dropped messages cost more than the notice |
| Compaction.TailKept | pkg/agent_core/compaction/heuristic.go:82-92 | At least the minimal tail is kept if and only if some boundary before the tail reaches the budget or lies exactly at its start |
| Compaction.TailAlwaysKept | pkg/agent_core/compaction/heuristic.go:82-92 | The tail is kept under every budget if and only if it starts at a boundary |
| Compaction.BlocksKeepTail | pkg/agent_core/compaction/heuristic.go:82-151 | Among complete blocks with identifiers it is kept under every budget if and only if it starts with a block |
| Compaction.CompactTail | pkg/agent_core/compaction/heuristic.go:84-92 | When compaction applies, at least the minimal tail is kept exactly under that condition on the input, and otherwise it is missed by less than the last dropped block |
| Compaction.NoticeBreaksBudget | pkg/agent_core/compaction/heuristic.go:97-106 | A compaction that ends over budget and above the estimate it started from |
| Compaction.BlockBreaksTail | pkg/agent_core/compaction/heuristic.go:84-92 | A compaction that keeps nothing of a minimal tail of one |
| Compaction.CompactApplies | pkg/agent_core/compaction/heuristic.go:62-95 | Compaction applies if and only if the given and the own estimate are over budget and the middle is longer than the tail to keep |
| Compaction.NoticeCounts | pkg/agent_core/compaction/heuristic.go:97-100 | Notices for different numbers of dropped messages differ, so the notice tells the exact number |
| Compaction.NoticeReads | pkg/agent_core/compaction/heuristic.go:97-100 | The notice is a system message with the number of dropped messages in decimal between two fixed texts |
| Compaction.DecimalReads | pkg/agent_core/compaction/heuristic.go:99 | The number reads as itself, in digits and without a leading zero |
| Compaction.LeadingSystemIsLongest | pkg/agent_core/compaction/heuristic.go:71-76 | The prefix is the longest run of leading system messages |
| Compaction.CompactKeepsForm | pkg/agent_core/compaction/heuristic.go:55-107 | Compaction keeps "system messages, then a conversation", whatever the identifiers are |
| Compaction.CompactKeepsBlocks | pkg/agent_core/compaction/heuristic.go:28-107 | With identifiers on all calls, compaction of complete blocks leaves complete blocks: no result without its call |
| Compaction.CompactKeepsLast | pkg/agent_core/compaction/heuristic.go:80-105 | The newest message always survives |
| Loop.Run | pkg/agent_core/loop/react.go:23-78 | The loop yields the specified transcript, text, error and tool state, and calls model and tools in the specified order |
| Loop.ExecuteBatch | pkg/agent_core/loop/react.go:50-67 | The inner loop appends one pruned result per call, threads the tool state and reports whether a tool failed |
| Loop.BatchAnswers | pkg/agent_core/loop/react.go:51-67 | The results answer the calls one by one in order, and each is a fixed point of the pruner |
| Loop.FailRunCounts | pkg/agent_core/loop/react.go:68-75 | The failure counter is at least k exactly when the last k batches all failed |
| Loop.OutcomeMeaning | pkg/agent_core/loop/react.go:33-78 | Circuit open exactly when some turn reached closes a full streak of failed batches; turn limit exactly when every turn calls tools and no streak occurs; success and model error exactly when such a turn is reached; the text is that of the answer |
| Loop.ModelBudget | pkg/agent_core/loop/react.go:33-37 | The model is called once per turn and never more often than the turn limit |
| Loop.SuccessDelta | pkg/agent_core/engine.go:203-208 | A successful run keeps its input as prefix and adds complete tool rounds and one call-free assistant message, whose trimmed content is the text |
| Loop.SuccessPruned | pkg/agent_core/loop/react_stream.go:105-108 | Every message a successful run adds is a fixed point of the run's pruner |
| Loop.ErrorKeepsRounds | pkg/agent_core/loop/react.go:38-40 | On every error the input is still a prefix, followed by complete tool rounds only |
| Loop.SentIsRounds | pkg/agent_core/loop/react.go:34-37 | Every list sent to the model is the input followed by complete tool rounds |
| History.BatchIsExecution | pkg/agent_core/loop/react.go:50-67 | The calls of a batch run in order, each on the tool state the one before left; each result is the pruned text or error of its reply under the call's identifier; the batch has failed if and only if some call has, whichever |
| History.ExecutionIsUnique | pkg/agent_core/loop/react.go:51-67 | Steps, results and last state of a batch are determined by its calls and the first state |
| History.RunHasHistory | pkg/agent_core/loop/react.go:23-78 | Every run is a chain of turns that ends at the first reply without calls, model error or full streak of failed batches, or at the turn limit, with 32 turns and 3 failures by default, and its outcome is that of the last turn |
| History.HistoryIsUnique | pkg/agent_core/loop/react.go:23-78 | No run has two such histories or two outcomes |
| History.OutcomeIsHistory | pkg/agent_core/loop/react.go:23-78 | An outcome is that of the run if and only if some history leads to it |
| History.HistoryMeaning | pkg/agent_core/loop/react.go:33-78 | Each error is reported exactly when the history's turns say so, the breaker at the first streak |
| History.PlainRunCalls | pkg/agent_core/loop/react.go:33-53 | The plain loop asks the model and runs the tools exactly as its history says |
| Streaming.RunStreamed | pkg/agent_core/loop/react_stream.go:25-123 | The streamed loop ends with the transcript, text, error and tool state of the plain loop on the same replies, whatever is streamed; its events are the specified ones |
| Streaming.ToolTurn | pkg/agent_core/loop/react_stream.go:82-112 | A batch runs between its two hooks, which fire together and only when some call has a name |
| Streaming.CompleteStreamTurn | pkg/agent_core/loop/react_stream.go:45-73 | Deltas are forwarded as they come; a reply that showed nothing visible is followed by its whole content |
| Streaming.SameCalls | pkg/agent_core/loop/react_stream.go:43-122 | Apart from the hooks, the streamed loop calls model and tools with the same arguments in the same order as the plain loop |
| History.ShownIsTexts | pkg/agent_core/loop/react_stream.go:45-73 | The delta hook gets the deltas unchanged, and the whole content after them if and only if none shows anything and the content is not blank |
| History.EventsAreScript | pkg/agent_core/loop/react_stream.go:43-112 | For every choice of hooks, the events of a run are, turn by turn, the request, the texts, the end of the segment, and the tool runs between the hooks with the non-empty names in order |
| History.DeliverScript | internal/runtime/service.go:148-172 | The client receives, turn by turn, the texts that show something unchanged, the end of the segment, and the status before and after the tools |
| History.StreamedRunHasHistory | pkg/agent_core/loop/react_stream.go:25-123 | The streamed run has a history that determines outcome, events and client messages, and asks the model once per turn |
| Streaming.HookProtocol | pkg/agent_core/loop/react_stream.go:45-112 | The hook trace is always (delta* complete (before after)?)*, cut only by a model error and then among the deltas |
| Streaming.VisibilityAgrees | internal/runtime/service.go:217-231 | The service's filter is the exact opposite of the loop's test, and both say whether anything visible is in the text |
| Text.TrimMeans | internal/runtime/service.go:178-181 | Trimming takes off white space at both ends, all of it and nothing else |
| Text.BlankMeans | pkg/agent_core/loop/react_stream.go:69 | A text trims to nothing exactly when it is white space throughout |
| Text.WhiteSpaceIs | internal/runtime/service.go:221-228 | The white-space and zero-width characters, one by one |
| Streaming.ShownOnce | pkg/agent_core/loop/react_stream.go:45-73 | The visible text of a round reaches the delta hook exactly once if and only if the deltas spell it out or show nothing |
| Streaming.ShowDeltas | internal/runtime/service.go:149-154 | The filter loses nothing visible and keeps the order |
| Streaming.ScreenIsContents | internal/runtime/service.go:148-172 | Over any number of completed rounds the client shows, segment by segment, the visible text of the replies: nothing lost, repeated or moved |
| Streaming.RunOnScreen | internal/runtime/service.go:148-175 | Over a whole run, however it ends, the client shows one closed segment per reply and, after a model error, the visible deltas of the failed one |
| Streaming.ShowIsDelivery | internal/runtime/service.go:148-172 | The screen is what the messages sent by the service add up to |
| Engine.PrepareLoop | pkg/agent_core/engine.go:136-150 | The loop assembles system messages, pruned history and user message, and compacts them with the caller's estimate |
| Engine.RunStreamedToolLoop | pkg/agent_core/engine.go:221-236 | The run starts from the prepared prompt and reports its length, or fails without a model call |
| Engine.FormIgnoresContent | pkg/agent_core/engine.go:138-140 | Pruning the history cannot disturb its form |
| Engine.PreparedForm | pkg/agent_core/engine.go:136-150 | A conversation with a settled newest message becomes a prompt of the right form that still ends in that message, pruned and compacted or not |
| Engine.EveryPromptWellFormed | pkg/agent_core/loop/react_stream.go:56-109 | At every model call of a turn the list sent is system messages, orphan results, then complete blocks only, and extends the prepared prompt |
| Engine.PreparedVerbatim | pkg/agent_core/engine.go:136-150 | When the history is already pruned and within budget, the model sees it word for word |
| Session.Store.constructor | internal/session/store.go:31-37 | A new store is empty and keeps 60 messages |
| Session.Store.Get | internal/session/store.go:39-52 | Returns the session, or nothing for an unknown one |
| Session.Store.Append | internal/session/store.go:54-65 | The session holds the newest messages of the old ones and the new ones; other sessions are unchanged |
| Session.Store.Replace | internal/session/store.go:67-78 | The session holds the newest of the given messages; other sessions are unchanged |
| Session.Store.TrimLocked | internal/session/store.go:80-92 | Drops oldest first down to the limit, and nothing when there is none |
| Session.LastNMeans | internal/session/store.go:80-92 | What is kept is a suffix, of full length or of exactly the limit |
| Session.StoreRefinesLog | internal/session/store.go:39-92 | After any run of operations on any keys, a session is exactly the newest messages of all that was written to it since its last replacement |
| Session.KeyInjective | internal/runtime/scoped_session.go:7-9 | Scopes whose agent and session parts lack the separator share a key only if they are equal |
| Session.KeyIsJoined | internal/runtime/scoped_session.go:7-9 | The key is the three parts joined by the unit separator |
| Session.ValidSessionHasNoSeparator | internal/gateway/ws/limits.go:22-36 | The check of the trimmed session identifier keeps the separator out of the identifier as it is used |
| Session.LineBreakKept | internal/gateway/ws/limits.go:22-36 | An accepted session identifier contains a line break if and only if trimming takes one off |
| Session.LineBreakAccepted | internal/gateway/ws/server.go:227-248 | An accepted session identifier that begins with a line break |
| Session.TrimParts | internal/gateway/ws/limits.go:23 | Trimming takes off white space only, and nothing else is lost |
| Session.PlainKeyIsOwn | internal/runtime/scoped_session.go:7-9 | A scope without separators shares its key with no other scope whose session lacks it |
| Session.KeyShared | pkg/agent_core/identity/scope.go:29-43 | An accepted scope shares its key with another accepted scope if and only if its user and agent, joined by the separator, can be cut at another separator into parts that are not empty and within the length limit |
| Session.OverrideMeans | internal/runtime/service.go:70-76 | A connection's identifier counts exactly when it is not blank, and without the white space at its ends |
| Session.SuppliedMeans | internal/runtime/service.go:70-76 | The identifiers a turn can have are exactly the service's own and those without white space at their ends |
| Session.KeySharedInService | internal/runtime/service.go:70-80 | Among the scopes that connections to one service can have, a key is shared if and only if another separator cuts the user and agent into identifiers that are valid and can be supplied |
| Session.CollidingPair | internal/runtime/scoped_session.go:7-9 | Two different accepted scopes with one key, which connections to any service can have |
| Session.HarmlessSeparator | pkg/agent_core/identity/scope.go:29-43 | A separator only at the end of the agent lets no two accepted scopes share a key |
| Session.HistoriesNeverMix | internal/runtime/scoped_session.go:5-9 | With all session identifiers checked, a scope reads exactly the newest of what was written to it if its user and agent lack the separator, whatever the writers' are; or if no agent, its own or a writer's, has one |
| Service.AppendKeepsSession | internal/session/store.go:54-92 | Appending complete, settled, pruned blocks to a session in order leaves it in order, whatever is trimmed |
| Service.AddedShape | internal/runtime/service.go:173-194 | Whatever a turn adds is complete tool rounds and one answer, all already pruned |
| Turns.AddedIsWhatRan | internal/runtime/service.go:173-194 | After a run without error the prompt followed by what is added is the run's transcript, and something is added; every other turn adds nothing |
| Turns.WriteMeans | internal/runtime/service.go:82-194 | An action writes a message list if and only if it opens a turn with that message or ends a run without error whose transcript is the prompt followed by exactly that list |
| Turns.WritesAre | internal/session/store.go:54-65 | The log of a run consists of exactly what its actions write, each in the state it finds |
| Turns.Lifecycle | internal/runtime/service.go:69-214 | A turn opens, reads and closes once, and no other turn changes its state |
| Turns.LoadReadsAll | internal/runtime/service.go:86-91 | History and tail of a turn are together the whole session it reads |
| Turns.FailedAssembly | pkg/agent_core/engine.go:223-226 | A turn whose prompt cannot be assembled reports that error and does nothing else |
| Turns.PreparedMeans | pkg/agent_core/engine.go:136-150 | The prompt is system messages, history with each tool result pruned and the turn's message; it is cut if and only if the configured compactor's conditions on both estimates and the tail hold |
| Turns.TurnHasHistory | pkg/agent_core/engine.go:221-236 | The run of a turn has a history with the service's own limits, pruner and prompt, which determines outcome, events and the number of model calls |
| Turns.TurnLimits | internal/runtime/service.go:61-66 | In the service's numbers: at most N model calls, the turn limit exactly after N tool turns without K failed batches in a row, the breaker exactly at the first such streak |
| Turns.ClientHears | internal/runtime/service.go:148-190 | What the client receives, message by message; the last notice exactly when a successful run added no assistant message with more than white space |
| Turns.TurnsShareSession | internal/runtime/service.go:70-80 | Turns whose resolved users and agents lack the separator share a session if and only if their resolved scopes are equal |
| Turns.OtherScopesUntouched | internal/runtime/service.go:80-194 | A turn leaves the session of every other scope alone |
| Service.StepKeepsOK | internal/runtime/service.go:82-194 | Each critical section of a turn keeps all sessions and all open turns in order |
| Service.LoadSplits | internal/runtime/service.go:86-91 | A stored session is not empty and splits into a conversation and a settled newest message |
| Service.ReachableOK | internal/runtime/service.go:69-194 | In every reachable state of every interleaving of successful and failing turns every session has the conversation form, ends settled, is pruned and within bounds |
| Service.ReachablePrompts | pkg/agent_core/loop/react_stream.go:56-109 | In every reachable state the next run sends only well-formed prompts that extend the prepared one |
| Service.ReachableVerbatim | pkg/agent_core/engine.go:138-141 | In every reachable state pruning the history again changes nothing |
| Service.SessionIsLog | internal/session/store.go:54-92 | A reachable session is the newest part of the log of opened user messages and complete turn deltas written to its key, in order, and nothing else |
| Service.SessionsNeverMix | internal/runtime/scoped_session.go:5-9 | In every reachable state a scope's session holds exactly the newest of what turns of that scope wrote, if its user and agent lack the separator, whatever the other scopes are, or if no agent has one |
| Service.TailIsNewest | internal/runtime/service.go:82-91 | For everything that happens between a turn's append and its read: its tail is its own message if and only if nobody wrote to the session since or the last writer opened a turn with the same text; it is always the last message of the last write, and an assistant message exactly when that finished a turn |
| Service.OwnTail | internal/runtime/service.go:82-91 | A turn to whose session nobody else writes meanwhile works on its own message |
| Service.OvertakenTail | internal/runtime/service.go:82-91 | A turn whose session another turn opened last works on that turn's message, whatever else happened before |
| Service.AnswerAsTail | internal/runtime/service.go:86-113 | A turn whose session another turn finished last works on that turn's answer |
| Service.ChatService.ChatStream | internal/runtime/service.go:69-214 | A turn runs on the session of the key of its resolved scope and leaves all others as they were; that session then ends with the user message and what the run added; a bad scope touches nothing; error and client messages are those of the run |
| Service.ChatService.RunTurn | internal/runtime/service.go:82-194 | On that session the method is the three steps of the state machine in a row |
| Service.UninterruptedSession | internal/runtime/service.go:82-194 | Those steps change one session only, by the user message and what the turn added |
| Service.UninterruptedSteps | internal/runtime/service.go:82-91 | Reading back right after appending never finds the session empty |
| Service.InputIsPrefix | internal/runtime/service.go:177 | The prepared prompt is a prefix of every run's transcript, so cutting it off is within bounds |
| Service.FindAssistantText | internal/runtime/service.go:178-186 | The scan finds visible text exactly when the final text or an assistant message of the delta has some |
| Service.ClientSeesReplies | internal/runtime/service.go:148-194 | After everything a turn sends the client shows exactly the visible text of its replies, whatever the run's end |
| Service.StreamChatOnScreen | internal/llm/client.go:338-396 | With the streaming client this needs nothing of the deltas: it holds for whatever lines the model sends at each call |
| Thinking.PartialSuffix | pkg/agent_core/thinking/split.go:107-116 | The loop returns the length of the longest proper prefix of the tag that ends the text |
| Thinking.IndexIsFirst | pkg/agent_core/thinking/split.go:51 | The position found is an occurrence of the tag and no earlier one exists; none is found only if there is none |
| Thinking.TagsAre | pkg/agent_core/thinking/split.go:7-10 | Text ends at the opening tag and thinking at the closing one |
| Thinking.ParserState.ProcessChunk | pkg/agent_core/thinking/split.go:43-88 | State and handler calls of a chunk are those of consuming the carry and the chunk |
| Thinking.ParserState.Flush | pkg/agent_core/thinking/split.go:91-105 | The carry goes to the open side, nothing is emitted for an empty one, and the carry is cleared |
| Thinking.ConsumeSound | pkg/agent_core/thinking/split.go:43-88 | For every continuation, what a chunk emits followed by the split of carry and continuation is the split of the input |
| Thinking.ConsumeSegments | pkg/agent_core/thinking/split.go:47-88 | The input of a chunk is segments without their tag, joined by tags, and then the carry; each segment that is not empty is handed over in one call to its side, and the last side stays open |
| Thinking.FeedEmitsBytes | pkg/agent_core/thinking/split.go:58-85 | No handler is called with nothing |
| Thinking.ChunkInvariance | pkg/agent_core/thinking/split.go:43-116 | For every input and every way to cut it, all output, in order and by side, is that of the one-shot recursive splitter |
| Thinking.Prompt | pkg/agent_core/thinking/split.go:47-87 | An output is a prefix of the final output of every continuation if and only if it is a prefix of what was emitted |
| Thinking.WorstContinuation | pkg/agent_core/thinking/split.go:52-61 | For every state there is a continuation after which not one carried byte is output, so emitting it early would be wrong |
| Thinking.FeedState | pkg/agent_core/thinking/split.go:43-116 | The state depends on the whole input only: the open side, and as carry the longest suffix after the last tag that can still become a tag |
| Thinking.ConsumeTwice | pkg/agent_core/thinking/split.go:47-48 | Two chunks leave the state that their concatenation leaves |
| Thinking.TagsDoNotOverlap | pkg/agent_core/thinking/split.go:7-10 | The first byte of a tag does not come again in it |
| Thinking.SplitRender | pkg/agent_core/thinking/split.go:43-88 | Splitting undoes printing alternating segments that lack the tag that leaves their side |
| Thinking.RoundTrip | pkg/agent_core/thinking/split.go:43-116 | Printing segments and demultiplexing under any chunking gives every byte back on its side, and the segments themselves when none is empty |
| ToolStream.StreamChat | internal/llm/client.go:276-397 | Text deltas, message, tool uses or read error are those of the lines up to the end mark |
| ToolStream.StreamMeans | internal/llm/client.go:285-341 | Texts and entries are those of the first choices of the chunks before the first end mark or read error, in order, and that error is the one reported |
| ToolStream.AbsorbEntries | internal/llm/client.go:343-359 | The loop merges the entries of a chunk into the accumulators |
| ToolStream.Emit | internal/llm/client.go:366-389 | The emission loop yields the named calls among the first indices, and the uses of exactly those calls |
| ToolStream.ExtractToolUsesFromAssistant | internal/llm/client.go:400-422 | Yields the same uses as the stream does for the same message |
| ToolStream.UsesAlign | internal/llm/client.go:366-422 | When all calls are named the uses line up with them one for one, in order |
| ToolStream.UsesMean | internal/llm/client.go:404-420 | Uses are read off exactly the named calls, in order |
| ToolStream.DecodeMeans | internal/llm/client.go:408-413 | The input is the decoded arguments, and nothing for blank or malformed ones |
| ToolStream.EmittedAreNamed | internal/llm/client.go:368-372 | Every emitted call has a name |
| ToolStream.AccumIsAssembled | internal/llm/client.go:343-359 | What is accumulated for an index is the last identifier, the last name and all argument pieces of that index only |
| ToolStream.InterleavingIrrelevant | internal/llm/client.go:343-389 | Streams with the same entries per index emit the same calls, however the indices alternate |
| ToolStream.EmissionOrder | internal/llm/client.go:366-389 | Each named index below the bound is emitted once, in increasing order, with what was accumulated for it |
| ToolStream.CallFields | internal/llm/client.go:366-387 | Each emitted call carries the last identifier, the last name and all argument pieces of its index, joined in order |
| ToolStream.NothingLost | internal/llm/client.go:368-372 | Every named call is emitted if and only if all named indices lie below the number of indices seen |
| ToolStream.ContiguousStream | internal/llm/client.go:343-389 | A stream whose indices are exactly 0 to n - 1 yields, in index order, the calls its entries describe |
| ToolStream.GapLosesCall | internal/llm/client.go:368-372 | A single call with index 1 is lost |
| ToolStream.StreamChatIsFaithful | internal/llm/client.go:338-341 | The deltas always spell out the content, so the once-only delivery theorem applies to this streamer |
| RateLimit.KeepAfter | internal/gateway/ws/ratelimit.go:51-57 | The in-place filter keeps exactly the entries later than the cutoff, in order, in the same buffer |
| RateLimit.AfterMeans | internal/gateway/ws/ratelimit.go:53-57 | Exactly the times later than the cutoff are kept, in their order |
| RateLimit.AllowOne | internal/gateway/ws/ratelimit.go:46-64 | Accepts when fewer than the budget are kept, and then adds the current time |
| RateLimit.MessageRateLimiter.Allow | internal/gateway/ws/ratelimit.go:41-65 | The whole new log and the answer; other addresses are unchanged although slices are written in place |
| RateLimit.KeptCounts | internal/gateway/ws/ratelimit.go:51-63 | On windows of a minute less the skew, the kept times count like all accepted ones |
| RateLimit.RateBound | internal/gateway/ws/ratelimit.go:45-64 | If no accepted time is more than d earlier than one accepted before it, every half-open window of a minute minus d holds at most the budget of accepted messages |
| RateLimit.OneApart | internal/gateway/ws/ratelimit.go:45-64 | With a budget of one, accepted messages are a minute apart whatever the skew |
| RateLimit.WindowExactly | internal/gateway/ws/ratelimit.go:45-64 | The bound holds on all windows of a length if and only if that is at most a minute less the skew, or at most a minute for a budget of one |
| RateLimit.ExactWithoutSkew | internal/gateway/ws/ratelimit.go:45-64 | Without skew a message is accepted if and only if fewer than the budget were accepted in the last minute |
| Planner.MemoryStore.ReplaceTasks | pkg/agent_core/planner/store.go:25-31 | The session holds a copy of the list; other sessions are unchanged |
| Planner.MemoryStore.List | pkg/agent_core/planner/store.go:33-40 | Returns a fresh copy that later changes do not reach |
| Planner.MemoryStore.MarkDone | pkg/agent_core/planner/store.go:42-57 | The first task with the identifier becomes done in place, nothing else changes; found exactly when it exists |
| Planner.FocusTask | pkg/agent_core/planner/focus.go:9-45 | A task in progress of least order is chosen, and none exactly when none is in progress |
| Planner.DrainTerminates | pkg/agent_core/planner/focus.go:16-45 | Repeating "take the focused task, mark it done" can end if and only if no task in progress has an earlier namesake |
| Planner.NamesakeBlocks | pkg/agent_core/planner/store.go:49-55 | A finished task with a namesake in progress behind it: marking the focus changes nothing and nothing drains the plan |
| Planner.EveryRunFinishes | pkg/agent_core/planner/focus.go:16-45 | Then, however ties are resolved, every run of such rounds is no longer than the number of tasks in progress and can be continued to one that finishes the plan |
| Planner.DrainRounds | pkg/agent_core/planner/focus.go:16-45 | It takes exactly as many rounds as tasks were in progress and visits them in non-decreasing order |
| Planner.DrainResult | pkg/agent_core/planner/store.go:42-57 | Afterwards exactly the tasks that were in progress are done and all others are as before |
| Planner.DistinctIsReachable | pkg/agent_core/planner/store.go:49-55 | Distinct identifiers are enough for draining to end |
| SideQuery.SelectForTurn | internal/adapter/memory/sidequery.go:24-66 | The result is a top selection of keyword hits and recent rows: no identifier twice, newest first, full up to the limit, nothing newer left out; query errors are passed on; with a limit within the recent rows it is a top selection of the whole tenant |
| SideQuery.Collect | internal/adapter/memory/sidequery.go:44-55 | Keying by identifier on one snapshot unites the rows without loss |
| SideQuery.NewestOf | internal/adapter/memory/sidequery.go:57-66 | Sorting and cutting the map's rows yields a top selection of them |
| SideQuery.PrefixIsTop | internal/adapter/memory/sidequery.go:61-66 | A prefix of rows sorted newest first is a top selection |
| SideQuery.LimitsInTheCode | internal/adapter/memory/sidequery.go:28-40 | The limits of the result and of both queries in plain numbers |
| SideQuery.TopOfTenant | internal/integration/pg/memory_store.go:103-116 | With a limit within the recent rows read, no row of the whole tenant that is newer than a returned one is left out |
| SideQuery.WidenPool | internal/adapter/memory/sidequery.go:49-66 | Candidates that hold the newest n rows of a pool select the same as candidates and pool together, for every limit within n |
| SideQuery.TopOfHitsExactly | internal/adapter/memory/sidequery.go:39-66 | For every table and all hits no newer keyword hit or recent row is left out, read or not, if and only if the limit is within the hits read or within the recent rows read |
| SideQuery.HitsInTheCode | internal/integration/pg/memory_store.go:271-273 | In the code's numbers that condition is a limit of at most 42, above which the match query falls back to ten rows, or a limit within the recent rows |
| SideQuery.TopOfTenantExactly | internal/adapter/memory/sidequery.go:28-66 | This holds for every table and all hits if and only if the limit is at most the number of recent rows read |

## Left out

- HTTP, server-sent events, WebSocket, NATS, Redis and SQL: input and output over libraries. Streams start from decoded chunks, the recall from the answers of its two queries.
- The Redis path of the session store and its time to live: the pipeline is not one atomic step and reads skip corrupt entries.
- JSON: the decoding of tool arguments is an arbitrary function that may fail.
- Mutexes: a critical section is one step of the state machine, and the limiter's calls are taken in lock order with arbitrary clock values.
- Slice aliasing in the session store: sessions are values there. In the limiter and the todo store the arrays are modelled.
- Invalid UTF-8: message contents are sequences of Unicode scalar values. The demultiplexer works on bytes.
- Integer overflow: token estimates, counts and times are unbounded.
- A nil limiter, which allows everything, a side query without a store, which returns nothing, and nil arguments of the demultiplexer, which do nothing.
- A streamer that behaves differently when no delta hook is set.
- Prompt texts (core rules, persona, recall and todo fragments) and status texts: system messages are an arbitrary list, and status messages and compaction reasons are datatypes.
- The reasons for which a turn cannot be prepared (profile, recall, assembler, catalog, registry) are one error value that the environment chooses.
- Memory extraction after a turn, the usage ledger and other goroutines: they do not touch session state.
- `Engine.Run` and the single-completion `RunStream`: the first is the plain loop on the same preparation.
- Conversion between transcript types: taken as the identity.
- Service.ReachableOK: models that reply with a role other than the assistant's are not covered, because the streaming client always sets that role.
- Session.KeyInjective: nothing is said of scopes with separators in agent or session; Session.KeyShared gives the exact condition for accepted scopes.
- SideQuery.SelectForTurn: rows with equal creation time may come in any order, as Go's sort is not stable; sorting is an insertion sort.
- Planner.MemoryStore.MarkDone: its two errors, an unknown session and an unknown task, are one result.
- Planner.FocusTask: the text of the fragment is not modelled, only the choice; tasks of equal order may be chosen in any way.
- Planner.DrainRounds: draining works on one session's list; that other sessions and returned lists stay unchanged is what Planner.MemoryStore.MarkDone and Planner.MemoryStore.List ensure.
- Client addresses (`clientIP`), origin and token checks, configuration.
