/** Runs of the tool loop, described by what happened in them: each turn with the messages sent, the
    reply, every tool call with its states and reply, and the transcript after it. The limits are
    plain numbers here. */
module History {
  import opened Text
  import opened Transcript
  import opened Pruning
  import opened Loop
  import opened Streaming

  // ---- one batch of tool calls ----

  datatype ToolStep<T> = ToolStep(before: T, after: T, reply: ToolReply)

  /** What a tool message holds: the result, or the error in its tags. */
  function ReplyText(r: ToolReply): string {
    match r
    case ToolResult(text) => text
    case ToolError(msg) => "<tool_use_error>" + msg + "</tool_use_error>"
  }

  /** The state after the first k steps. */
  function StateAfter<T>(t: T, steps: seq<ToolStep<T>>, k: nat): T
    requires k <= |steps|
  {
    if k == 0 then t else steps[k - 1].after
  }

  ghost predicate StepExecuted<T>(exec: Exec<T>, call: ToolCall, t: T, step: ToolStep<T>) {
    step.before == t && (step.after, step.reply) == exec(t, call.name, call.arguments)
  }

  /** Call k runs on the state that the one before left, and its result is the pruned text of the
      reply under the call's identifier. */
  ghost predicate CallExecuted<T>(exec: Exec<T>, p: Pruner, calls: seq<ToolCall>, t: T,
                                  steps: seq<ToolStep<T>>, results: seq<Message>, k: nat)
    requires k < |calls| == |steps| == |results|
  {
    && StepExecuted(exec, calls[k], StateAfter(t, steps, k), steps[k])
    && results[k] == Prune(p, Message(Tool, ReplyText(steps[k].reply), [], calls[k].id))
  }

  /** All calls run in order from state t to t'. */
  ghost predicate Executed<T>(exec: Exec<T>, p: Pruner, calls: seq<ToolCall>, t: T,
                              steps: seq<ToolStep<T>>, t': T, results: seq<Message>) {
    && |calls| == |steps| == |results|
    && (forall k: nat | k < |calls| :: CallExecuted(exec, p, calls, t, steps, results, k))
    && t' == StateAfter(t, steps, |steps|)
  }

  predicate SomeFailed<T>(steps: seq<ToolStep<T>>) {
    exists k :: 0 <= k < |steps| && steps[k].reply.ToolError?
  }

  lemma SomeFailedSnoc<T>(steps: seq<ToolStep<T>>, step: ToolStep<T>)
    ensures SomeFailed(steps + [step]) <==> SomeFailed(steps) || step.reply.ToolError?
  {
    var all := steps + [step];
    assert all[|steps|] == step;
    if k :| 0 <= k < |steps| && steps[k].reply.ToolError? {
      assert all[k] == steps[k];
    }
  }

  lemma ExecutedSnoc<T>(exec: Exec<T>, p: Pruner, calls: seq<ToolCall>, t: T, steps: seq<ToolStep<T>>, t': T,
                        results: seq<Message>, call: ToolCall, step: ToolStep<T>)
    requires Executed(exec, p, calls, t, steps, t', results) && StepExecuted(exec, call, t', step)
    ensures Executed(exec, p, calls + [call], t, steps + [step], step.after,
                     results + [Prune(p, Message(Tool, ReplyText(step.reply), [], call.id))])
  {
    hide Prune, ReplyText, StepExecuted;
    var calls', steps' := calls + [call], steps + [step];
    var results' := results + [Prune(p, Message(Tool, ReplyText(step.reply), [], call.id))];
    forall k: nat | k < |calls'| ensures CallExecuted(exec, p, calls', t, steps', results', k) {
      assert k < |calls| ==> CallExecuted(exec, p, calls, t, steps, results, k);
    }
  }

  /** A batch is such an execution, and it has failed if and only if some call of it has, whichever. */
  lemma {:induction false} BatchIsExecution<T>(exec: Exec<T>, p: Pruner, calls: seq<ToolCall>, t: T)
    returns (steps: seq<ToolStep<T>>)
    ensures var b := RunBatch(exec, p, calls, t);
            Executed(exec, p, calls, t, steps, b.tools, b.results) && (b.failed <==> SomeFailed(steps))
  {
    hide Prune, ErrorText, ReplyText, SomeFailed, Executed;
    if calls == [] {
      steps := [];
      NothingExecuted(exec, p, t);
    } else {
      var init, c := calls[..|calls| - 1], calls[|calls| - 1];
      var before := BatchIsExecution(exec, p, init, t);
      var b := RunBatch(exec, p, init, t);
      var (after, reply) := exec(b.tools, c.name, c.arguments);
      var step := ToolStep(b.tools, after, reply);
      steps := before + [step];
      ExecutedSnoc(exec, p, init, t, before, b.tools, b.results, c, step);
      SomeFailedSnoc(before, step);
      TextIsReplyText(reply);
      assert init + [c] == calls;
    }
  }

  lemma NothingExecuted<T>(exec: Exec<T>, p: Pruner, t: T)
    ensures Executed(exec, p, [], t, [], t, []) && !SomeFailed<T>([])
  {
  }

  lemma TextIsReplyText(r: ToolReply)
    ensures ToolText(r) == ReplyText(r)
  {
  }

  /** An execution has no choice: the steps, the results and the last state are determined. */
  lemma ExecutionIsUnique<T>(exec: Exec<T>, p: Pruner, calls: seq<ToolCall>, t: T,
                             a: seq<ToolStep<T>>, ta: T, ra: seq<Message>, b: seq<ToolStep<T>>, tb: T, rb: seq<Message>)
    requires Executed(exec, p, calls, t, a, ta, ra) && Executed(exec, p, calls, t, b, tb, rb)
    ensures a == b && ta == tb && ra == rb
  {
    hide Prune, ReplyText;
    forall k: nat | k < |calls| ensures a[k] == b[k] && ra[k] == rb[k] {
      SameStep(exec, p, calls, t, a, ta, ra, b, tb, rb, k);
    }
  }

  lemma {:induction false} SameStep<T>(exec: Exec<T>, p: Pruner, calls: seq<ToolCall>, t: T,
                                      a: seq<ToolStep<T>>, ta: T, ra: seq<Message>,
                                      b: seq<ToolStep<T>>, tb: T, rb: seq<Message>, k: nat)
    requires Executed(exec, p, calls, t, a, ta, ra) && Executed(exec, p, calls, t, b, tb, rb) && k < |calls|
    ensures a[k] == b[k] && ra[k] == rb[k]
  {
    hide Prune, ReplyText;
    if k > 0 {
      SameStep(exec, p, calls, t, a, ta, ra, b, tb, rb, k - 1);
    }
    assert CallExecuted(exec, p, calls, t, a, ra, k);
    assert CallExecuted(exec, p, calls, t, b, rb, k);
  }

  // ---- one turn ----

  datatype Round<T> = Round(sent: seq<Message>, before: T, reply: ModelReply, steps: seq<ToolStep<T>>,
                          out: seq<Message>, after: T)

  /** The model got what was sent; an error changes nothing; a reply is added, as the assistant's if
      it has no role, and then the results of its calls. */
  ghost predicate Happened<T>(model: Model, exec: Exec<T>, p: Pruner, i: nat, u: Round<T>) {
    && u.reply == model(i, u.sent)
    && match u.reply
       case ModelError(_) => u.out == u.sent && u.after == u.before && u.steps == []
       case Reply(m) =>
         var n := |u.sent|;
         && |u.out| > n && u.out[..n] == u.sent
         && u.out[n] == Message(if m.role == Other("") then Assistant else m.role, m.content, m.toolCalls, m.toolCallID)
         && Executed(exec, p, m.toolCalls, u.before, u.steps, u.after, u.out[n + 1..])
  }

  predicate AsksTools<T>(u: Round<T>) {
    u.reply.Reply? && u.reply.assistant.toolCalls != []
  }

  predicate FailedBatch<T>(u: Round<T>) {
    AsksTools(u) && SomeFailed(u.steps)
  }

  lemma TurnHappens<T>(s: Setup<T>, i: nat) returns (u: Round<T>)
    ensures Happened(s.model, s.exec, s.opt.pruner, i, u)
    ensures u.sent == s.At(i).out && u.before == s.At(i).tools && u.out == s.At(i + 1).out && u.after == s.At(i + 1).tools
    ensures u.reply == s.ReplyAt(i) && (FailedBatch(u) <==> s.Failed(i))
  {
    hide RunBatch, Prune, Executed, SomeFailed;
    var p, q := s.At(i), s.At(i + 1);
    match s.ReplyAt(i)
    case ModelError(e) =>
      u := Round(p.out, p.tools, s.ReplyAt(i), [], q.out, q.tools);
    case Reply(m) =>
      var steps := BatchIsExecution(s.exec, s.opt.pruner, m.toolCalls, p.tools);
      u := Round(p.out, p.tools, s.ReplyAt(i), steps, q.out, q.tools);
      assert q.out[|p.out| + 1..] == RunBatch(s.exec, s.opt.pruner, m.toolCalls, p.tools).results;
  }

  /** A turn has no choice either. */
  lemma TurnIsUnique<T>(model: Model, exec: Exec<T>, p: Pruner, i: nat, a: Round<T>, b: Round<T>)
    requires Happened(model, exec, p, i, a) && Happened(model, exec, p, i, b)
    requires a.sent == b.sent && a.before == b.before
    ensures a == b
  {
    hide Executed;
    if a.reply.Reply? {
      var n := |a.sent|;
      ExecutionIsUnique(exec, p, a.reply.assistant.toolCalls, a.before,
                        a.steps, a.after, a.out[n + 1..], b.steps, b.after, b.out[n + 1..]);
      assert a.out == a.out[..n] + [a.out[n]] + a.out[n + 1..];
      assert b.out == b.out[..n] + [b.out[n]] + b.out[n + 1..];
    }
  }

  // ---- whole runs ----

  /** Turn i closes k failed batches in a row. */
  predicate ClosesStreak<T>(h: seq<Round<T>>, k: nat, i: nat) {
    i < |h| && k <= i + 1 && forall j | i - k < j <= i :: FailedBatch(h[j])
  }

  /** Turn i happened, on what the one before left. */
  ghost predicate Link<T>(model: Model, exec: Exec<T>, p: Pruner, input: seq<Message>, tools: T, h: seq<Round<T>>, i: nat)
    requires i < |h|
  {
    && Happened(model, exec, p, i, h[i])
    && h[i].sent == (if i == 0 then input else h[i - 1].out)
    && h[i].before == (if i == 0 then tools else h[i - 1].after)
  }

  ghost predicate Chained<T>(model: Model, exec: Exec<T>, p: Pruner, input: seq<Message>, tools: T, h: seq<Round<T>>) {
    forall i: nat | i < |h| :: Link(model, exec, p, input, tools, h, i)
  }

  /** All turns but the last asked for tools and closed no streak of k failed batches. */
  predicate GoesOnBefore<T>(h: seq<Round<T>>, k: nat) {
    forall i | 0 <= i < |h| - 1 :: AsksTools(h[i]) && !ClosesStreak(h, k, i)
  }

  /** How a run of at most n turns ends after its last turn. */
  predicate EndsLike<T(==)>(h: seq<Round<T>>, n: nat, k: nat, o: Outcome<T>)
    requires h != []
  {
    var u := h[|h| - 1];
    && o.out == u.out && o.tools == u.after
    && match u.reply
       case ModelError(e) => o.err == ModelFailed(e) && o.text == ""
       case Reply(m) =>
         if m.toolCalls == [] then o.err == NoError && o.text == TrimSpace(m.content)
         else
           && o.text == ""
           && if ClosesStreak(h, k, |h| - 1) then o.err == CircuitOpen else |h| == n && o.err == MaxTurnsExceeded
  }

  ghost predicate IsHistory<T>(model: Model, exec: Exec<T>, p: Pruner, n: nat, k: nat, input: seq<Message>, tools: T,
                               h: seq<Round<T>>, o: Outcome<T>) {
    0 < |h| <= n && Chained(model, exec, p, input, tools, h) && GoesOnBefore(h, k) && EndsLike(h, n, k, o)
  }

  /** A limit as configured, or its default. */
  function LimitOr(configured: int, default: nat): nat {
    if configured > 0 then configured else default
  }

  lemma {:induction false} TurnsHappen<T>(s: Setup<T>, n: nat) returns (h: seq<Round<T>>)
    ensures |h| == n && Chained(s.model, s.exec, s.opt.pruner, s.input, s.tools0, h)
    ensures forall i | 0 <= i < n :: h[i].reply == s.ReplyAt(i) && (FailedBatch(h[i]) <==> s.Failed(i))
    ensures n > 0 ==> h[n - 1].out == s.At(n).out && h[n - 1].after == s.At(n).tools
    ensures forall i | 0 <= i < n :: h[i].sent == s.At(i).out
  {
    hide Happened, FailedBatch, Setup.At, Setup.Failed;
    s.Begin();
    h := [];
    if n > 0 {
      var before := TurnsHappen(s, n - 1);
      var u := TurnHappens(s, n - 1);
      h := before + [u];
      forall i: nat | i < n ensures Link(s.model, s.exec, s.opt.pruner, s.input, s.tools0, h, i) {
        assert i < n - 1 ==> Link(s.model, s.exec, s.opt.pruner, s.input, s.tools0, before, i);
      }
    }
  }

  lemma StreaksAgree<T>(s: Setup<T>, h: seq<Round<T>>, i: nat)
    requires i < |h| && forall j | 0 <= j < |h| :: FailedBatch(h[j]) <==> s.Failed(j)
    ensures ClosesStreak(h, s.opt.Breaker(), i) <==> s.Streak(i)
  {
    hide FailedBatch, Setup.Failed;
    var k := s.opt.Breaker();
    if s.Streak(i) {
      forall j | i - k < j <= i ensures FailedBatch(h[j]) {
        assert s.Failed(j);
      }
    }
    if ClosesStreak(h, k, i) {
      forall j: nat | i - k < j <= i ensures s.Failed(j) {
        assert FailedBatch(h[j]);
      }
    }
  }

  /** Every run has a history with the configured limits, 32 turns and 3 failed batches by default. */
  lemma RunHasHistory<T>(s: Setup<T>) returns (h: seq<Round<T>>)
    ensures IsHistory(s.model, s.exec, s.opt.pruner, LimitOr(s.opt.maxTurns, 32), LimitOr(s.opt.maxFailures, 3),
                      s.input, s.tools0, h, s.RunOutcome())
    ensures |h| == s.TurnCount() && forall i | 0 <= i < |h| :: h[i].sent == s.At(i).out && h[i].reply == s.ReplyAt(i)
  {
    hide RunBatch, Prune, Happened, AsksTools, FailedBatch, ClosesStreak, EndsLike, Chained, Setup.At, Setup.StopFrom,
      Setup.Failed, Setup.Streak, TrimSpace, Setup.Ends;
    h := TurnsHappen(s, s.TurnCount());
    forall i: nat | i < |h| ensures ClosesStreak(h, s.opt.Breaker(), i) <==> s.Streak(i) {
      StreaksAgree(s, h, i);
    }
    forall i | 0 <= i < |h| - 1 ensures AsksTools(h[i]) && !ClosesStreak(h, s.opt.Breaker(), i) {
      assert s.GoesOn(i);
      AsksLike(s, h[i], i);
    }
    EndsAsSpecified(s, h);
  }

  lemma AsksLike<T>(s: Setup<T>, u: Round<T>, i: nat)
    requires u.reply == s.ReplyAt(i)
    ensures AsksTools(u) <==> s.Calls(i)
  {
  }

  lemma EndsAsSpecified<T>(s: Setup<T>, h: seq<Round<T>>)
    requires |h| == s.TurnCount() && h[|h| - 1].reply == s.ReplyAt(|h| - 1)
    requires h[|h| - 1].out == s.At(|h|).out && h[|h| - 1].after == s.At(|h|).tools
    requires ClosesStreak(h, s.opt.Breaker(), |h| - 1) <==> s.Streak(|h| - 1)
    ensures EndsLike(h, s.opt.Turns(), s.opt.Breaker(), s.RunOutcome())
  {
    hide RunBatch, TrimSpace, ClosesStreak, Setup.At, Setup.StopFrom, Setup.Streak;
    var stop := s.StopFrom(0);
    if stop == s.opt.Turns() {
      assert s.GoesOn(stop - 1);
    } else {
      ErrorKeepsPoint(s, stop);
    }
  }

  lemma ErrorKeepsPoint<T>(s: Setup<T>, i: nat)
    ensures s.Errs(i) ==> s.At(i + 1) == s.At(i)
  {
    hide RunBatch;
  }

  lemma {:induction false} HistoriesAgree<T>(model: Model, exec: Exec<T>, p: Pruner, input: seq<Message>, tools: T,
                                            a: seq<Round<T>>, b: seq<Round<T>>, i: nat)
    requires Chained(model, exec, p, input, tools, a) && Chained(model, exec, p, input, tools, b)
    requires i < |a| && i < |b|
    ensures a[i] == b[i]
  {
    hide Happened;
    if i > 0 {
      HistoriesAgree(model, exec, p, input, tools, a, b, i - 1);
    }
    assert Link(model, exec, p, input, tools, a, i);
    assert Link(model, exec, p, input, tools, b, i);
    TurnIsUnique(model, exec, p, i, a[i], b[i]);
  }

  /** ... and only one: a run cannot have stopped elsewhere or ended otherwise. */
  lemma HistoryIsUnique<T>(model: Model, exec: Exec<T>, p: Pruner, n: nat, k: nat, input: seq<Message>, tools: T,
                           a: seq<Round<T>>, oa: Outcome<T>, b: seq<Round<T>>, ob: Outcome<T>)
    requires IsHistory(model, exec, p, n, k, input, tools, a, oa) && IsHistory(model, exec, p, n, k, input, tools, b, ob)
    ensures a == b && oa == ob
  {
    hide Happened, FailedBatch, TrimSpace, Chained;
    forall i: nat | i < |a| && i < |b| ensures a[i] == b[i] {
      HistoriesAgree(model, exec, p, input, tools, a, b, i);
    }
    if |a| < |b| {
      NotLonger(a, b, n, k, oa);
    } else if |b| < |a| {
      NotLonger(b, a, n, k, ob);
    }
  }

  /** A run that ended does not go on. */
  lemma NotLonger<T>(a: seq<Round<T>>, b: seq<Round<T>>, n: nat, k: nat, oa: Outcome<T>)
    requires a != [] && |a| < |b| <= n && (forall j: nat | j < |a| :: a[j] == b[j]) && EndsLike(a, n, k, oa)
    ensures !GoesOnBefore(b, k)
  {
    hide FailedBatch, TrimSpace;
    var i := |a| - 1;
    assert a[i] == b[i];
    assert ClosesStreak(a, k, i) <==> ClosesStreak(b, k, i);
  }

  /** So an outcome is that of the run if and only if some history leads to it. */
  lemma OutcomeIsHistory<T>(s: Setup<T>, o: Outcome<T>)
    ensures o == s.RunOutcome() <==>
            exists h :: IsHistory(s.model, s.exec, s.opt.pruner, LimitOr(s.opt.maxTurns, 32), LimitOr(s.opt.maxFailures, 3),
                                  s.input, s.tools0, h, o)
  {
    hide IsHistory, Setup.RunOutcome;
    var n, k := LimitOr(s.opt.maxTurns, 32), LimitOr(s.opt.maxFailures, 3);
    var h := RunHasHistory(s);
    forall h' | IsHistory(s.model, s.exec, s.opt.pruner, n, k, s.input, s.tools0, h', o) ensures o == s.RunOutcome() {
      HistoryIsUnique(s.model, s.exec, s.opt.pruner, n, k, s.input, s.tools0, h, s.RunOutcome(), h', o);
    }
  }

  /** The turn limit is reported exactly when n turns called tools without k failed batches in a row,
      the breaker exactly when the last turn closes the first such streak, the model's error exactly
      when the last reply is one, and success exactly when it asks for no tools. */
  lemma HistoryMeaning<T>(model: Model, exec: Exec<T>, p: Pruner, n: nat, k: nat, input: seq<Message>, tools: T,
                          h: seq<Round<T>>, o: Outcome<T>)
    requires IsHistory(model, exec, p, n, k, input, tools, h, o) && k > 0
    ensures o.err == MaxTurnsExceeded <==> |h| == n && forall i | 0 <= i < n :: AsksTools(h[i]) && !ClosesStreak(h, k, i)
    ensures o.err == CircuitOpen <==> ClosesStreak(h, k, |h| - 1)
    ensures forall i | 0 <= i < |h| - 1 :: !ClosesStreak(h, k, i)
    ensures o.err.ModelFailed? <==> h[|h| - 1].reply.ModelError?
    ensures o.err == NoError <==> h[|h| - 1].reply.Reply? && !AsksTools(h[|h| - 1])
  {
    hide Happened, SomeFailed, TrimSpace;
    if ClosesStreak(h, k, |h| - 1) {
      assert FailedBatch(h[|h| - 1]);
    }
  }

  // ---- what a run does towards its surroundings ----

  /** The names that are not empty, in order. */
  function NamesOf(calls: seq<ToolCall>): seq<string> {
    if calls == [] then [] else (if calls[0].name != "" then [calls[0].name] else []) + NamesOf(calls[1..])
  }

  lemma {:induction false} NamesOfSnoc(calls: seq<ToolCall>, c: ToolCall)
    ensures NamesOf(calls + [c]) == NamesOf(calls) + if c.name != "" then [c.name] else []
  {
    if calls == [] {
      assert [] + [c] == [c] && [c][1..] == [];
    } else {
      NamesOfSnoc(calls[1..], c);
      assert (calls + [c])[1..] == calls[1..] + [c];
    }
  }

  lemma {:induction false} ToolNamesAreNames(calls: seq<ToolCall>)
    ensures ToolNames(calls) == NamesOf(calls)
  {
    if calls != [] {
      ToolNamesAreNames(calls[..|calls| - 1]);
      NamesOfSnoc(calls[..|calls| - 1], calls[|calls| - 1]);
      assert calls == calls[..|calls| - 1] + [calls[|calls| - 1]];
    }
  }

  /** The runs of all calls, in order. */
  function RunsOf(calls: seq<ToolCall>): seq<Event> {
    seq(|calls|, k requires 0 <= k < |calls| => Ran(calls[k].name, calls[k].arguments))
  }

  lemma {:induction false} ExecutionsAreAllRuns(calls: seq<ToolCall>)
    ensures Executions(calls) == RunsOf(calls)
  {
    if calls != [] {
      ExecutionsAreAllRuns(calls[..|calls| - 1]);
    }
  }

  function DeltasOf(texts: seq<string>): seq<Event> {
    seq(|texts|, k requires 0 <= k < |texts| => Delta(texts[k]))
  }

  lemma {:induction false} DeltaEventsAreDeltas(texts: seq<string>)
    ensures DeltaEvents(texts) == DeltasOf(texts)
  {
    if texts != [] {
      DeltaEventsAreDeltas(texts[..|texts| - 1]);
    }
  }

  /** The deltas as streamed, and the whole content when no delta shows anything and the content has
      a character that is not white space. */
  function TextsOf(resp: StreamedReply): seq<string> {
    if resp.reply.Reply? && (forall d | d in resp.deltas :: Visible(d) == "") &&
       exists i :: 0 <= i < |resp.reply.assistant.content| && !IsSpace(resp.reply.assistant.content[i])
    then resp.deltas + [resp.reply.assistant.content]
    else resp.deltas
  }

  lemma ShownIsTexts(resp: StreamedReply)
    ensures Shown(resp) == TextsOf(resp)
  {
    hide DeltaHasVisibleText, Visible, TrimSpace, IsSpace;
    forall d ensures DeltaHasVisibleText(d) <==> Visible(d) != "" {
      VisibilityAgrees(d);
    }
    if resp.reply.Reply? {
      BlankMeans(resp.reply.assistant.content);
    }
    assert resp.deltas + [] == resp.deltas;
  }

  /** What the hooks and calls of one round are, for any choice of hooks. */
  function RoundOf(hooks: Hooks, sent: seq<Message>, resp: StreamedReply): seq<Event> {
    [Asked(sent)] + (if hooks.onDelta then DeltasOf(TextsOf(resp)) else []) +
    match resp.reply
    case ModelError(_) => []
    case Reply(m) =>
      var names := NamesOf(m.toolCalls);
      (if hooks.onComplete then [Completed] else []) + (
        (if hooks.onBefore && names != [] then [Before(names)] else []) + RunsOf(m.toolCalls) +
        (if hooks.onAfter && names != [] then [After(names)] else []))
  }

  function Script<T>(hooks: Hooks, streamer: Streamer, h: seq<Round<T>>): seq<Event> {
    if h == [] then []
    else
      var u := h[|h| - 1];
      Script(hooks, streamer, h[..|h| - 1]) + RoundOf(hooks, u.sent, streamer(|h| - 1, u.sent))
  }

  lemma RoundIsScripted<T>(s: StreamSetup<T>, i: nat)
    ensures s.RoundEvents(i) == RoundOf(s.hooks, s.Plain().At(i).out, s.StreamedAt(i))
  {
    hide Shown, TextsOf, DeltaEvents, DeltasOf, ToolNames, NamesOf, Executions, RunsOf, Setup.At;
    var resp := s.StreamedAt(i);
    ShownIsTexts(resp);
    DeltaEventsAreDeltas(Shown(resp));
    if resp.reply.Reply? {
      ToolNamesAreNames(resp.reply.assistant.toolCalls);
      ExecutionsAreAllRuns(resp.reply.assistant.toolCalls);
    }
  }

  /** The events of a run are those of its turns, one round after the other. */
  lemma {:induction false} EventsAreScript<T>(s: StreamSetup<T>, h: seq<Round<T>>)
    requires forall i | 0 <= i < |h| :: h[i].sent == s.Plain().At(i).out
    ensures s.Events(|h|) == Script(s.hooks, s.streamer, h)
  {
    hide StreamSetup.RoundEvents, RoundOf, Setup.At, StreamSetup.Plain;
    s.EventsStart();
    if h != [] {
      EventsAreScript(s, h[..|h| - 1]);
      s.EventsAdvance(|h| - 1);
      RoundIsScripted(s, |h| - 1);
    }
  }

  function CallsMade<T>(h: seq<Round<T>>): seq<Event> {
    if h == [] then []
    else
      var u := h[|h| - 1];
      CallsMade(h[..|h| - 1]) + [Asked(u.sent)] + if u.reply.Reply? then RunsOf(u.reply.assistant.toolCalls) else []
  }

  /** The plain loop asks the model and runs the tools as its turns say. */
  lemma {:induction false} LogIsCalls<T>(s: Setup<T>, h: seq<Round<T>>)
    requires forall i | 0 <= i < |h| :: h[i].sent == s.At(i).out && h[i].reply == s.ReplyAt(i)
    ensures s.Log(|h|) == CallsMade(h)
  {
    hide Executions, RunsOf, Setup.At, Setup.Log;
    s.Begin();
    if h != [] {
      var i := |h| - 1;
      LogIsCalls(s, h[..i]);
      s.Advance(i);
      if h[i].reply.Reply? {
        ExecutionsAreAllRuns(h[i].reply.assistant.toolCalls);
      }
    }
  }

  // ---- what the client receives ----

  /** The texts that show something, unchanged and in order. */
  function Streamed(texts: seq<string>): seq<ClientMsg> {
    if texts == [] then []
    else (if Visible(texts[0]) != "" then [AssistantStream(texts[0], false)] else []) + Streamed(texts[1..])
  }

  /** The messages of one round: the texts, the end of the segment, and the status before and after
      the tools if any has a name. */
  function ClientRound(resp: StreamedReply): seq<ClientMsg> {
    Streamed(TextsOf(resp)) +
    match resp.reply
    case ModelError(_) => []
    case Reply(m) =>
      var names := NamesOf(m.toolCalls);
      [AssistantStream("", true)] + if names == [] then [] else [ToolsRunning(names), ToolsDone(names)]
  }

  function ClientScript<T>(streamer: Streamer, h: seq<Round<T>>): seq<ClientMsg> {
    if h == [] then []
    else ClientScript(streamer, h[..|h| - 1]) + ClientRound(streamer(|h| - 1, h[|h| - 1].sent))
  }

  lemma {:induction false} DeliverConcat(a: seq<Event>, b: seq<Event>)
    ensures DeliverAll(a + b) == DeliverAll(a) + DeliverAll(b)
  {
    hide Deliver;
    if b == [] {
      assert a + b == a;
    } else {
      DeliverConcat(a, b[..|b| - 1]);
      assert (a + b)[..|a + b| - 1] == a + b[..|b| - 1];
    }
  }

  lemma DeliverOne(e: Event)
    ensures DeliverAll([e]) == Deliver(e)
  {
    assert [e][..0] == [];
  }

  lemma {:induction false} DeliverTexts(texts: seq<string>)
    ensures DeliverAll(DeltasOf(texts)) == Streamed(texts)
  {
    hide Visible;
    if texts != [] {
      DeliverTexts(texts[1..]);
      assert DeltasOf(texts) == [Delta(texts[0])] + DeltasOf(texts[1..]);
      DeliverConcat([Delta(texts[0])], DeltasOf(texts[1..]));
      DeliverOne(Delta(texts[0]));
      VisibilityAgrees(texts[0]);
    }
  }

  lemma {:induction false} DeliverRuns(calls: seq<ToolCall>)
    ensures DeliverAll(RunsOf(calls)) == []
  {
    if calls != [] {
      DeliverRuns(calls[..|calls| - 1]);
      assert RunsOf(calls)[..|calls| - 1] == RunsOf(calls[..|calls| - 1]);
    }
  }

  lemma DeliverTools(calls: seq<ToolCall>)
    ensures var names := NamesOf(calls);
            DeliverAll((if names != [] then [Before(names)] else []) + RunsOf(calls) + (if names != [] then [After(names)] else []))
            == if names == [] then [] else [ToolsRunning(names), ToolsDone(names)]
  {
    hide NamesOf, RunsOf, DeliverAll;
    var names := NamesOf(calls);
    DeliverRuns(calls);
    if names == [] {
      assert [] + RunsOf(calls) + [] == RunsOf(calls);
    } else {
      DeliverOne(Before(names));
      DeliverOne(After(names));
      DeliverConcat([Before(names)], RunsOf(calls));
      DeliverConcat([Before(names)] + RunsOf(calls), [After(names)]);
    }
  }

  lemma DeliverRound(sent: seq<Message>, resp: StreamedReply)
    ensures DeliverAll(RoundOf(ALL_HOOKS, sent, resp)) == ClientRound(resp)
  {
    hide DeltasOf, TextsOf, NamesOf, RunsOf, DeliverAll, Streamed;
    var asked, deltas := [Asked(sent)], DeltasOf(TextsOf(resp));
    DeliverOne(asked[0]);
    DeliverTexts(TextsOf(resp));
    DeliverConcat(asked, deltas);
    match resp.reply
    case ModelError(_) =>
      assert asked + deltas + [] == asked + deltas;
    case Reply(m) =>
      var names := NamesOf(m.toolCalls);
      var tools := (if names != [] then [Before(names)] else []) + RunsOf(m.toolCalls) + (if names != [] then [After(names)] else []);
      DeliverTools(m.toolCalls);
      DeliverOne(Completed);
      DeliverConcat([Completed], tools);
      DeliverConcat(asked + deltas, [Completed] + tools);
  }

  lemma {:induction false} DeliverScript<T>(streamer: Streamer, h: seq<Round<T>>)
    ensures DeliverAll(Script(ALL_HOOKS, streamer, h)) == ClientScript(streamer, h)
  {
    hide RoundOf, ClientRound, Deliver;
    if h != [] {
      var u := h[|h| - 1];
      DeliverScript(streamer, h[..|h| - 1]);
      DeliverRound(u.sent, streamer(|h| - 1, u.sent));
      DeliverConcat(Script(ALL_HOOKS, streamer, h[..|h| - 1]), RoundOf(ALL_HOOKS, u.sent, streamer(|h| - 1, u.sent)));
    }
  }

  lemma ModelCallsSnoc(log: seq<Event>, e: Event)
    ensures ModelCalls(log + [e]) == ModelCalls(log) + if e.Asked? then 1 else 0
  {
    assert (log + [e])[..|log|] == log;
  }

  lemma CoreSnoc(log: seq<Event>, e: Event)
    ensures Core(log + [e]) == if e.Asked? || e.Ran? then Core(log) + [e] else Core(log)
  {
    assert (log + [e])[..|log|] == log;
    assert Core(log) + [] == Core(log);
  }

  lemma {:induction false} HooksAskNothing(events: seq<Event>)
    ensures ModelCalls(Core(events)) == ModelCalls(events)
  {
    if events != [] {
      hide ModelCalls, Core;
      var init, e := events[..|events| - 1], events[|events| - 1];
      HooksAskNothing(init);
      assert init + [e] == events;
      ModelCallsSnoc(init, e);
      CoreSnoc(init, e);
      ModelCallsSnoc(Core(init), e);
    }
  }

  /** The calls of a plain run are those of its history. */
  lemma PlainRunCalls<T>(s: Setup<T>) returns (h: seq<Round<T>>)
    ensures IsHistory(s.model, s.exec, s.opt.pruner, LimitOr(s.opt.maxTurns, 32), LimitOr(s.opt.maxFailures, 3),
                      s.input, s.tools0, h, s.RunOutcome())
    ensures s.Log(s.TurnCount()) == CallsMade(h)
  {
    hide IsHistory, Setup.RunOutcome, Setup.TurnCount, Setup.At, Setup.Log;
    h := RunHasHistory(s);
    LogIsCalls(s, h);
  }

  /** Everything about a streamed run at once: its history, its events and what the client receives. */
  lemma StreamedRunHasHistory<T>(s: StreamSetup<T>) returns (h: seq<Round<T>>)
    ensures IsHistory((i: nat, sent: seq<Message>) => s.streamer(i, sent).reply, s.exec, s.opt.pruner,
                      LimitOr(s.opt.maxTurns, 32), LimitOr(s.opt.maxFailures, 3), s.input, s.tools0, h, s.Plain().RunOutcome())
    ensures var events := s.Events(s.Plain().TurnCount());
            && events == Script(s.hooks, s.streamer, h) && ModelCalls(events) == |h|
            && (s.hooks == ALL_HOOKS ==> DeliverAll(events) == ClientScript(s.streamer, h))
  {
    hide IsHistory, StreamSetup.Events, Setup.RunOutcome, Setup.TurnCount, Setup.At, Setup.Log, Script, ClientScript, DeliverAll,
      ModelCalls, Core;
    h := RunHasHistory(s.Plain());
    EventsAreScript(s, h);
    DeliverScript(s.streamer, h);
    SameCalls(s, |h|);
    OneCallPerTurn(s.Plain(), |h|);
    HooksAskNothing(s.Events(|h|));
  }
}
