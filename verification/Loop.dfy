/** The ReAct tool loop, plain (loop/react.go) and streamed (loop/react_stream.go).
    The model, the streamer and the tools are oracles: any functions of what they are given.
    T is whatever state the tools keep. */
module Loop {
  import opened Text
  import opened Transcript
  import opened Grammar
  import opened Pruning

  datatype ModelReply = Reply(assistant: Message) | ModelError(msg: string)
  datatype StreamedReply = StreamedReply(deltas: seq<string>, reply: ModelReply)
  datatype ToolReply = ToolResult(text: string) | ToolError(msg: string)
  datatype LoopError = NoError | ModelFailed(msg: string) | CircuitOpen | MaxTurnsExceeded

  /** The number of the call and the messages sent decide the reply. */
  type Model = (nat, seq<Message>) -> ModelReply
  type Streamer = (nat, seq<Message>) -> StreamedReply
  type Exec<!T> = (T, string, string) -> (T, ToolReply)

  datatype Options = Options(maxTurns: int, maxFailures: int, pruner: Pruner)
  {
    function Turns(): (n: nat)
      ensures n > 0
    {
      if maxTurns <= 0 then 32 else maxTurns
    }

    function Breaker(): (k: nat)
      ensures k > 0
    {
      if maxFailures <= 0 then 3 else maxFailures
    }
  }

  /** What the loop does towards its surroundings, in order. */
  datatype Event =
    | Asked(sent: seq<Message>)
    | Delta(text: string)
    | Completed
    | Before(names: seq<string>)
    | Ran(name: string, arguments: string)
    | After(names: seq<string>)

  datatype Outcome<T> = Outcome(out: seq<Message>, text: string, err: LoopError, tools: T)

  /** The transcript and the tool state. */
  datatype Point<T> = Point(out: seq<Message>, tools: T)

  datatype Batch<T> = Batch(results: seq<Message>, tools: T, failed: bool)

  function WithRole(m: Message): Message {
    if m.role == Other("") then m.(role := Assistant) else m
  }

  function ErrorText(msg: string): string {
    "<tool_use_error>" + msg + "</tool_use_error>"
  }

  function ToolText(r: ToolReply): string {
    match r
    case ToolResult(text) => text
    case ToolError(msg) => ErrorText(msg)
  }

  /** All calls run one after the other from tool state t. */
  function RunBatch<T>(exec: Exec<T>, p: Pruner, calls: seq<ToolCall>, t: T): Batch<T> {
    if calls == [] then Batch([], t, false)
    else
      var b := RunBatch(exec, p, calls[..|calls| - 1], t);
      var c := calls[|calls| - 1];
      var (t', r) := exec(b.tools, c.name, c.arguments);
      Batch(b.results + [Prune(p, ToolMessage(c.id, ToolText(r)))], t', b.failed || r.ToolError?)
  }

  function Executions(calls: seq<ToolCall>): seq<Event> {
    if calls == [] then []
    else Executions(calls[..|calls| - 1]) + [Ran(calls[|calls| - 1].name, calls[|calls| - 1].arguments)]
  }

  /** The results answer the calls in order, and each is already pruned. */
  lemma {:induction false} BatchAnswers<T>(exec: Exec<T>, p: Pruner, calls: seq<ToolCall>, t: T)
    ensures Answers(calls, RunBatch(exec, p, calls, t).results)
    ensures forall m | m in RunBatch(exec, p, calls, t).results :: Prune(p, m) == m
  {
    hide Prune, ErrorText;
    if calls != [] {
      var n := |calls| - 1;
      BatchAnswers(exec, p, calls[..n], t);
      var b := RunBatch(exec, p, calls[..n], t);
      var raw := ToolMessage(calls[n].id, ToolText(exec(b.tools, calls[n].name, calls[n].arguments).1));
      PruneIdempotent(p, raw);
      PruneShape(p, raw);
      var all := RunBatch(exec, p, calls, t).results;
      assert all == b.results + [Prune(p, raw)];
      forall j | 0 <= j < |calls| ensures all[j].role == Tool && all[j].toolCallID == calls[j].id {
        assert j < n ==> all[j] == b.results[j] && calls[..n][j] == calls[j];
      }
    }
  }

  // ---- the breaker's counter ----

  /** How many of the last turns before i have failed without a break. */
  function FailRun(failed: nat -> bool, i: nat): nat {
    if i == 0 || !failed(i - 1) then 0 else 1 + FailRun(failed, i - 1)
  }

  lemma {:induction false} FailRunCounts(failed: nat -> bool, i: nat, k: nat)
    ensures FailRun(failed, i) >= k <==> k <= i && forall j: nat | i - k <= j < i :: failed(j)
  {
    if k > 0 && i > 0 {
      FailRunCounts(failed, i - 1, k - 1);
    }
  }

  // ---- runs without regard to limits ----

  datatype Setup<!T> = Setup(model: Model, exec: Exec<T>, opt: Options, input: seq<Message>, tools0: T)
  {
    /** Where the run stands before turn i if no limit stops it. */
    function At(i: nat): Point<T> {
      if i == 0 then Point(input, tools0)
      else
        var p := At(i - 1);
        match model(i - 1, p.out)
        case ModelError(_) => p
        case Reply(m) =>
          var a := WithRole(m);
          var b := RunBatch(exec, opt.pruner, a.toolCalls, p.tools);
          Point(p.out + [a] + b.results, b.tools)
    }

    function ReplyAt(i: nat): ModelReply {
      model(i, At(i).out)
    }

    predicate Errs(i: nat) {
      ReplyAt(i).ModelError?
    }

    /** Turn i asks for tools. */
    predicate Calls(i: nat) {
      ReplyAt(i).Reply? && ReplyAt(i).assistant.toolCalls != []
    }

    /** Turn i answers without tools. */
    predicate Answers(i: nat) {
      ReplyAt(i).Reply? && ReplyAt(i).assistant.toolCalls == []
    }

    /** Turn i runs a batch in which a tool failed. */
    predicate Failed(i: nat) {
      Calls(i) && BatchAt(i).failed
    }

    /** The assistant message and the tool batch of turn i. */
    function AssistantAt(i: nat): Message
      requires !Errs(i)
    {
      WithRole(ReplyAt(i).assistant)
    }

    function BatchAt(i: nat): Batch<T>
      requires !Errs(i)
    {
      RunBatch(exec, opt.pruner, ReplyAt(i).assistant.toolCalls, At(i).tools)
    }

    /** Turn i closes as many consecutive failed batches as the breaker allows. */
    predicate Streak(i: nat) {
      i + 1 >= opt.Breaker() && forall j: nat | i - opt.Breaker() < j <= i :: Failed(j)
    }

    predicate GoesOn(i: nat) {
      Calls(i) && !Streak(i)
    }

    /** The run gets to turn i. */
    predicate Reaches(i: nat) {
      i <= opt.Turns() && forall j: nat | j < i :: GoesOn(j)
    }

    /** The first turn from i on that does not go on, or the turn limit. */
    function StopFrom(i: nat): (n: nat)
      requires i <= opt.Turns()
      ensures i <= n <= opt.Turns()
      ensures forall j | i <= j < n :: GoesOn(j)
      ensures n < opt.Turns() ==> !GoesOn(n)
      decreases opt.Turns() - i
    {
      if i == opt.Turns() || !GoesOn(i) then i else StopFrom(i + 1)
    }

    function Ends(n: nat): Outcome<T> {
      match ReplyAt(n)
      case ModelError(e) => Outcome(At(n).out, "", ModelFailed(e), At(n).tools)
      case Reply(m) =>
        if m.toolCalls == [] then Outcome(At(n + 1).out, TrimSpace(m.content), NoError, At(n + 1).tools)
        else Outcome(At(n + 1).out, "", CircuitOpen, At(n + 1).tools)
    }

    function RunOutcome(): Outcome<T> {
      var n := StopFrom(0);
      if n == opt.Turns() then Outcome(At(n).out, "", MaxTurnsExceeded, At(n).tools) else Ends(n)
    }

    function RoundLog(i: nat): seq<Event> {
      [Asked(At(i).out)] + if Errs(i) then [] else Executions(ReplyAt(i).assistant.toolCalls)
    }

    /** The calls of the first n turns. */
    function Log(n: nat): seq<Event> {
      if n == 0 then [] else Log(n - 1) + RoundLog(n - 1)
    }

    /** How many turns the run has. */
    function TurnCount(): nat {
      if StopFrom(0) == opt.Turns() then opt.Turns() else StopFrom(0) + 1
    }

    lemma StopIsUnique(n: nat)
      requires n <= opt.Turns()
      requires forall j | 0 <= j < n :: GoesOn(j)
      requires n < opt.Turns() ==> !GoesOn(n)
      ensures StopFrom(0) == n
    {
      hide Setup.GoesOn;
    }

    lemma Begin()
      ensures At(0) == Point(input, tools0) && Log(0) == []
    {
    }

    /** One turn: the assistant message, then its results. */
    lemma Advance(i: nat)
      ensures !Errs(i) ==> At(i + 1) == Point(At(i).out + [AssistantAt(i)] + BatchAt(i).results, BatchAt(i).tools)
      ensures !Errs(i) ==> Log(i + 1) == Log(i) + [Asked(At(i).out)] + Executions(AssistantAt(i).toolCalls)
      ensures Errs(i) ==> Log(i + 1) == Log(i) + [Asked(At(i).out)]
    {
      hide RunBatch, Executions;
    }

    lemma AdvanceToAnswer(i: nat)
      requires Answers(i)
      ensures At(i + 1) == Point(At(i).out + [AssistantAt(i)], At(i).tools)
      ensures Log(i + 1) == Log(i) + [Asked(At(i).out)]
    {
      Advance(i);
    }

    /** The counter reaches the limit exactly when the turn closes a streak. */
    lemma BreakerTrips(i: nat)
      ensures FailRun(Failed, i + 1) >= opt.Breaker() <==> Streak(i)
    {
      hide FailRun, RunBatch, Setup.At;
      FailRunCounts(Failed, i + 1, opt.Breaker());
    }
  }

  method Run<T>(s: Setup<T>) returns (o: Outcome<T>, log: seq<Event>)
    ensures o == s.RunOutcome()
    ensures log == s.Log(s.TurnCount())
  {
    hide RunBatch, TrimSpace, Executions, Setup.At, Setup.Log, Setup.StopFrom;
    var maxTurns, breaker := s.opt.Turns(), s.opt.Breaker();
    var out, tools, failures := s.input, s.tools0, 0;
    log := [];
    var turn := 0;
    s.Begin();
    while turn < maxTurns
      invariant turn <= maxTurns
      invariant s.At(turn) == Point(out, tools)
      invariant failures == FailRun(s.Failed, turn)
      invariant forall j | 0 <= j < turn :: s.GoesOn(j)
      invariant log == s.Log(turn)
    {
      var resp := s.model(turn, out);
      log := log + [Asked(out)];
      s.Advance(turn);
      if resp.ModelError? {
        s.StopIsUnique(turn);
        return Outcome(out, "", ModelFailed(resp.msg), tools), log;
      }
      var am := WithRole(resp.assistant);
      s.BreakerTrips(turn);
      out := out + [am];
      if |am.toolCalls| == 0 {
        s.AdvanceToAnswer(turn);
        s.StopIsUnique(turn);
        return Outcome(out, TrimSpace(am.content), NoError, tools), log;
      }
      var batchFailed, ran;
      out, tools, batchFailed, ran := ExecuteBatch(s.exec, s.opt.pruner, am.toolCalls, out, tools);
      log := log + ran;
      if batchFailed {
        failures := failures + 1;
        if failures >= breaker {
          s.StopIsUnique(turn);
          return Outcome(out, "", CircuitOpen, tools), log;
        }
      } else {
        failures := 0;
      }
      turn := turn + 1;
    }
    s.StopIsUnique(turn);
    o := Outcome(out, "", MaxTurnsExceeded, tools);
  }

  /** The loop over the calls of one assistant message. */
  method ExecuteBatch<T>(exec: Exec<T>, pruner: Pruner, calls: seq<ToolCall>, out0: seq<Message>, tools0: T)
    returns (out: seq<Message>, tools: T, batchFailed: bool, ran: seq<Event>)
    ensures out == out0 + RunBatch(exec, pruner, calls, tools0).results
    ensures tools == RunBatch(exec, pruner, calls, tools0).tools
    ensures batchFailed == RunBatch(exec, pruner, calls, tools0).failed
    ensures ran == Executions(calls)
  {
    hide Prune, ErrorText;
    out, tools, batchFailed, ran := out0, tools0, false, [];
    for i := 0 to |calls|
      invariant out == out0 + RunBatch(exec, pruner, calls[..i], tools0).results
      invariant tools == RunBatch(exec, pruner, calls[..i], tools0).tools
      invariant batchFailed == RunBatch(exec, pruner, calls[..i], tools0).failed
      invariant ran == Executions(calls[..i])
    {
      var tc := calls[i];
      assert calls[..i + 1][..i] == calls[..i];
      var (tools', result) := exec(tools, tc.name, tc.arguments);
      tools := tools';
      ran := ran + [Ran(tc.name, tc.arguments)];
      var text;
      match result {
        case ToolResult(t) =>
          text := t;
        case ToolError(msg) =>
          batchFailed := true;
          text := ErrorText(msg);
      }
      out := out + [Prune(pruner, ToolMessage(tc.id, text))];
    }
    assert calls[..|calls|] == calls;
  }

  // ---- what the outcome means ----

  /** How a run ends, said over its turns: the breaker opens exactly when some turn closes the
      allowed streak of failed batches before any answer, error or the turn limit; the limit is
      reported exactly when every turn called tools and no such streak occurred; otherwise the
      run ends at the first answer or model error. */
  lemma OutcomeMeaning<T>(s: Setup<T>)
    ensures var o, N := s.RunOutcome(), s.opt.Turns();
            && (o.err == CircuitOpen <==> exists i: nat :: i < N && s.Reaches(i) && s.Streak(i))
            && (o.err == MaxTurnsExceeded <==> forall j: nat | j < N :: s.Calls(j) && !s.Streak(j))
            && (o.err == NoError <==> exists i: nat :: i < N && s.Reaches(i) && s.Answers(i))
            && (o.err.ModelFailed? <==> exists i: nat :: i < N && s.Reaches(i) && s.Errs(i))
    ensures forall i: nat :: i < s.opt.Turns() && s.Reaches(i) && s.Answers(i) ==>
              s.RunOutcome().text == TrimSpace(s.ReplyAt(i).assistant.content)
    ensures s.TurnCount() <= s.opt.Turns()
  {
    hide RunBatch, TrimSpace, Setup.At, Setup.StopFrom;
    var N, n := s.opt.Turns(), s.StopFrom(0);
    assert s.Reaches(n);
    forall i: nat | i < N && s.Reaches(i) && !s.GoesOn(i)
      ensures i == n
    {
      s.StopIsUnique(i);
    }
    if n == N {
      forall j: nat | j < N ensures s.Calls(j) && !s.Streak(j) {
        assert s.GoesOn(j);
      }
    } else {
      assert !s.GoesOn(n);
    }
    forall i: nat | s.Streak(i) ensures s.Calls(i) {
      assert s.Failed(i);
    }
  }

  /** How often the model is called. */
  function ModelCalls(log: seq<Event>): nat {
    if log == [] then 0 else ModelCalls(log[..|log| - 1]) + if log[|log| - 1].Asked? then 1 else 0
  }

  lemma {:induction false} NoModelCalls(log: seq<Event>, ran: seq<Event>)
    requires forall e | e in ran :: !e.Asked?
    ensures ModelCalls(log + ran) == ModelCalls(log)
  {
    if ran == [] {
      assert log + ran == log;
    } else {
      NoModelCalls(log, ran[..|ran| - 1]);
      assert (log + ran)[..|log + ran| - 1] == log + ran[..|ran| - 1];
      assert ran[|ran| - 1] in ran;
    }
  }

  /** The model is called once per turn, so never more often than the turn limit allows. */
  lemma ModelBudget<T>(s: Setup<T>)
    ensures ModelCalls(s.Log(s.TurnCount())) == s.TurnCount() <= s.opt.Turns()
  {
    hide Setup.Log, Setup.StopFrom, Setup.At;
    OneCallPerTurn(s, s.TurnCount());
  }

  lemma CallCounts(log: seq<Event>, sent: seq<Message>)
    ensures ModelCalls(log + [Asked(sent)]) == ModelCalls(log) + 1
  {
    assert (log + [Asked(sent)])[..|log|] == log;
  }

  lemma {:induction false} OneCallPerTurn<T>(s: Setup<T>, n: nat)
    ensures ModelCalls(s.Log(n)) == n
  {
    hide Executions, ModelCalls, Setup.Log, Setup.At;
    s.Begin();
    if n == 0 {
      assert ModelCalls([]) == 0 by {
        NoCalls();
      }
    } else {
      OneCallPerTurn(s, n - 1);
      s.Advance(n - 1);
      var log, sent := s.Log(n - 1), s.At(n - 1).out;
      CallCounts(log, sent);
      if !s.Errs(n - 1) {
        var calls := s.AssistantAt(n - 1).toolCalls;
        ExecutionsOnlyRun(calls);
        NoModelCalls(log + [Asked(sent)], Executions(calls));
      }
    }
  }

  lemma NoCalls()
    ensures ModelCalls([]) == 0
  {
  }

  // ---- what a run adds to the transcript ----

  /** Assistant messages with calls and their results, nothing else. */
  predicate ToolRounds(d: seq<Message>) {
    d == [] || (d[0].role == Assistant && d[0].toolCalls != [] && StartsWithBlock(d) && ToolRounds(d[BlockLen(d[0])..]))
  }

  lemma {:induction false} ToolRoundsAreBlocks(d: seq<Message>)
    requires ToolRounds(d)
    ensures Blocks(d)
  {
    if d != [] {
      ToolRoundsAreBlocks(d[BlockLen(d[0])..]);
    }
  }

  lemma {:induction false} ToolRoundsSnoc(d: seq<Message>, a: Message, results: seq<Message>)
    requires ToolRounds(d)
    requires a.role == Assistant && a.toolCalls != [] && Grammar.Answers(a.toolCalls, results)
    ensures ToolRounds(d + [a] + results)
  {
    if d == [] {
      var r := d + [a] + results;
      assert r[1..BlockLen(a)] == results;
      assert r[BlockLen(a)..] == [];
    } else {
      var n := BlockLen(d[0]);
      ToolRoundsSnoc(d[n..], a, results);
      var r := d + [a] + results;
      assert r[..n] == d[..n];
      assert r[1..n] == r[..n][1..] == d[1..n];
      assert r[n..] == d[n..] + [a] + results;
    }
  }

  lemma NoToolRounds()
    ensures ToolRounds([])
  {
  }

  lemma ExtendRounds(input: seq<Message>, out: seq<Message>, a: Message, results: seq<Message>)
    requires input <= out && ToolRounds(out[|input|..])
    requires a.role == Assistant && a.toolCalls != [] && Grammar.Answers(a.toolCalls, results)
    ensures input <= out + [a] + results
    ensures ToolRounds((out + [a] + results)[|input|..])
  {
    hide ToolRounds;
    ToolRoundsSnoc(out[|input|..], a, results);
    assert (out + [a] + results)[|input|..] == out[|input|..] + [a] + results;
  }

  /** The model's replies carry no role or the assistant's. */
  ghost predicate RepliesAsAssistant(model: Model) {
    forall i: nat, sent: seq<Message> ::
      model(i, sent).Reply? ==> model(i, sent).assistant.role in {Assistant, Other("")}
  }

  /** While a run goes on, its transcript is the input followed by complete tool rounds. */
  lemma {:induction false} RoundsSoFar<T>(s: Setup<T>, n: nat)
    requires RepliesAsAssistant(s.model)
    requires forall j | 0 <= j < n :: s.Calls(j)
    ensures s.input <= s.At(n).out
    ensures ToolRounds(s.At(n).out[|s.input|..])
  {
    hide RunBatch, Prune, Executions, Setup.At, ToolRounds;
    s.Begin();
    if n == 0 {
      assert s.At(0).out[|s.input|..] == [];
      NoToolRounds();
    } else {
      RoundsSoFar(s, n - 1);
      assert s.Calls(n - 1);
      s.Advance(n - 1);
      var p, a, r := s.At(n - 1), s.AssistantAt(n - 1), s.BatchAt(n - 1).results;
      BatchAnswers(s.exec, s.opt.pruner, a.toolCalls, p.tools);
      ExtendRounds(s.input, p.out, a, r);
    }
  }

  /** ... and every message the run added is a fixed point of the pruner. */
  lemma {:induction false} PrunedSoFar<T>(s: Setup<T>, n: nat)
    requires RepliesAsAssistant(s.model)
    requires forall j | 0 <= j < n :: s.Calls(j)
    ensures forall k | |s.input| <= k < |s.At(n).out| :: Prune(s.opt.pruner, s.At(n).out[k]) == s.At(n).out[k]
  {
    hide RunBatch, Prune, Executions, Setup.At;
    s.Begin();
    if n > 0 {
      PrunedSoFar(s, n - 1);
      assert s.Calls(n - 1);
      s.Advance(n - 1);
      BatchAnswers(s.exec, s.opt.pruner, s.ReplyAt(n - 1).assistant.toolCalls, s.At(n - 1).tools);
      PruneShape(s.opt.pruner, s.AssistantAt(n - 1));
    }
  }

  lemma CalledBefore<T>(s: Setup<T>, n: nat)
    requires n <= s.StopFrom(0)
    ensures forall j | 0 <= j < n :: s.Calls(j)
  {
    forall j | 0 <= j < n ensures s.Calls(j) {
      assert s.GoesOn(j);
    }
  }

  /** Complete tool rounds, then one assistant message without calls. */
  predicate TurnDelta(d: seq<Message>) {
    d != [] && ToolRounds(d[..|d| - 1]) && d[|d| - 1].role == Assistant && d[|d| - 1].toolCalls == []
  }

  /** A successful run adds complete tool rounds and then one assistant message without calls,
      which is the answer. */
  lemma SuccessDelta<T>(s: Setup<T>)
    requires RepliesAsAssistant(s.model)
    requires s.RunOutcome().err == NoError
    ensures s.input <= s.RunOutcome().out
    ensures TurnDelta(s.RunOutcome().out[|s.input|..])
    ensures s.RunOutcome().text == TrimSpace(s.RunOutcome().out[|s.RunOutcome().out| - 1].content)
  {
    hide RunBatch, Prune, TrimSpace, ToolRounds, Executions, Setup.At, Setup.StopFrom, Setup.GoesOn;
    var n := s.StopFrom(0);
    CalledBefore(s, n);
    RoundsSoFar(s, n);
    SuccessEnds(s);
    var p, a := s.At(n), s.AssistantAt(n);
    var d := s.RunOutcome().out[|s.input|..];
    assert d == p.out[|s.input|..] + [a];
    assert d[..|d| - 1] == p.out[|s.input|..];
  }

  lemma SuccessEnds<T>(s: Setup<T>)
    requires s.RunOutcome().err == NoError
    ensures var n := s.StopFrom(0);
            && n < s.opt.Turns() && s.Answers(n) && s.RunOutcome().out == s.At(n).out + [s.AssistantAt(n)]
            && s.RunOutcome().text == TrimSpace(s.AssistantAt(n).content)
  {
    hide RunBatch, TrimSpace, Executions, Setup.At, Setup.StopFrom;
    var n := s.StopFrom(0);
    if s.ReplyAt(n).Reply? && s.Answers(n) {
      s.AdvanceToAnswer(n);
    }
  }

  /** Every message a successful run adds is a fixed point of the pruner. */
  lemma SuccessPruned<T>(s: Setup<T>)
    requires RepliesAsAssistant(s.model)
    requires s.RunOutcome().err == NoError
    ensures var out := s.RunOutcome().out;
            forall k | |s.input| <= k < |out| :: Prune(s.opt.pruner, out[k]) == out[k]
  {
    hide RunBatch, Prune, TrimSpace, Executions, Setup.At, Setup.StopFrom, Setup.GoesOn;
    var n := s.StopFrom(0);
    CalledBefore(s, n);
    PrunedSoFar(s, n);
    SuccessEnds(s);
    PruneShape(s.opt.pruner, s.AssistantAt(n));
  }

  /** On every error the input is still a prefix, followed by complete tool rounds. */
  lemma ErrorKeepsRounds<T>(s: Setup<T>)
    requires RepliesAsAssistant(s.model)
    requires s.RunOutcome().err != NoError
    ensures s.input <= s.RunOutcome().out
    ensures ToolRounds(s.RunOutcome().out[|s.input|..])
  {
    hide RunBatch, Prune, TrimSpace, ToolRounds, Executions;
    var n := s.StopFrom(0);
    CalledBefore(s, n);
    RoundsSoFar(s, if n < s.opt.Turns() && !s.Errs(n) then n + 1 else n);
  }

  /** The messages sent at each model call are the input and the complete rounds so far. */
  lemma {:induction false} SentIsRounds<T>(s: Setup<T>, n: nat, sent: seq<Message>)
    requires RepliesAsAssistant(s.model)
    requires n <= s.TurnCount() && Asked(sent) in s.Log(n)
    ensures s.input <= sent
    ensures ToolRounds(sent[|s.input|..])
  {
    hide RunBatch, Prune, TrimSpace, ToolRounds, Executions;
    if Asked(sent) in s.Log(n - 1) {
      SentIsRounds(s, n - 1, sent);
    } else {
      assert Asked(sent) in s.RoundLog(n - 1);
      ExecutionsAreRuns(s.ReplyAt(n - 1));
      CalledBefore(s, n - 1);
      RoundsSoFar(s, n - 1);
    }
  }

  lemma ExecutionsAreRuns(r: ModelReply)
    ensures r.Reply? ==> forall e | e in Executions(r.assistant.toolCalls) :: e.Ran?
  {
    if r.Reply? {
      ExecutionsOnlyRun(r.assistant.toolCalls);
    }
  }

  lemma {:induction false} ExecutionsOnlyRun(calls: seq<ToolCall>)
    ensures forall e | e in Executions(calls) :: e.Ran?
  {
    if calls != [] {
      ExecutionsOnlyRun(calls[..|calls| - 1]);
    }
  }
}
