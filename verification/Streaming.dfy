/** The streamed loop (loop/react_stream.go) and what the service shows of it
    (the hooks and assistantDeltaIsInvisible in runtime/service.go). */
module Streaming {
  import opened Text
  import opened Transcript
  import opened Pruning
  import opened Loop

  /** Which hooks are set. */
  datatype Hooks = Hooks(onDelta: bool, onComplete: bool, onBefore: bool, onAfter: bool)

  const ALL_HOOKS := Hooks(true, true, true, true)

  predicate DeltaHasVisibleText(s: string) {
    s != "" && ((!IsZeroWidth(s[0]) && !IsSpace(s[0])) || DeltaHasVisibleText(s[1..]))
  }

  predicate AssistantDeltaIsInvisible(s: string) {
    if s == "" then true
    else if IsZeroWidth(s[0]) then AssistantDeltaIsInvisible(s[1..])
    else if !IsSpace(s[0]) then false
    else AssistantDeltaIsInvisible(s[1..])
  }

  /** The loop's test and the service's test are exact opposites, and say whether anything is visible. */
  lemma {:induction false} VisibilityAgrees(s: string)
    ensures DeltaHasVisibleText(s) <==> !AssistantDeltaIsInvisible(s)
    ensures DeltaHasVisibleText(s) <==> Visible(s) != ""
  {
    if s != "" {
      VisibilityAgrees(s[1..]);
    }
  }

  function ToolNames(calls: seq<ToolCall>): seq<string> {
    if calls == [] then []
    else ToolNames(calls[..|calls| - 1]) + if calls[|calls| - 1].name != "" then [calls[|calls| - 1].name] else []
  }

  function DeltaEvents(texts: seq<string>): seq<Event> {
    if texts == [] then [] else DeltaEvents(texts[..|texts| - 1]) + [Delta(texts[|texts| - 1])]
  }

  predicate AnyVisible(texts: seq<string>) {
    exists d | d in texts :: DeltaHasVisibleText(d)
  }

  datatype StreamSetup<!T> = StreamSetup(
    streamer: Streamer, exec: Exec<T>, opt: Options, input: seq<Message>, tools0: T, hooks: Hooks)
  {
    /** The same run without streaming. */
    function Plain(): Setup<T> {
      Setup((i: nat, sent: seq<Message>) => streamer(i, sent).reply, exec, opt, input, tools0)
    }

    function StreamedAt(i: nat): StreamedReply {
      streamer(i, Plain().At(i).out)
    }

    function RoundEvents(i: nat): seq<Event> {
      [Asked(Plain().At(i).out)]
      + DeltaPart(hooks, StreamedAt(i))
      + match StreamedAt(i).reply
        case ModelError(_) => []
        case Reply(m) => CompletedPart(hooks) + ToolEvents(hooks, m.toolCalls)
    }

    function Events(n: nat): seq<Event> {
      if n == 0 then [] else Events(n - 1) + RoundEvents(n - 1)
    }

    lemma EventsStart()
      ensures Events(0) == []
    {
    }

    lemma EventsAdvance(i: nat)
      ensures Events(i + 1) == Events(i) + RoundEvents(i)
    {
    }
  }

  /** What goes to the delta hook for one reply: the deltas, and the final content when nothing
      visible was streamed and it is not blank. */
  function Shown(resp: StreamedReply): seq<string> {
    resp.deltas +
    match resp.reply
    case ModelError(_) => []
    case Reply(m) => if !AnyVisible(resp.deltas) && TrimSpace(m.content) != "" then [m.content] else []
  }

  function DeltaPart(hooks: Hooks, resp: StreamedReply): seq<Event> {
    if hooks.onDelta then DeltaEvents(Shown(resp)) else []
  }

  function CompletedPart(hooks: Hooks): seq<Event> {
    if hooks.onComplete then [Completed] else []
  }

  function ToolEvents(hooks: Hooks, calls: seq<ToolCall>): seq<Event> {
    var names := ToolNames(calls);
    (if hooks.onBefore && names != [] then [Before(names)] else [])
    + Executions(calls)
    + (if hooks.onAfter && names != [] then [After(names)] else [])
  }

  /** The streamed loop ends like the plain loop on the same replies. */
  method RunStreamed<T>(s: StreamSetup<T>) returns (o: Outcome<T>, log: seq<Event>)
    ensures o == s.Plain().RunOutcome()
    ensures log == s.Events(s.Plain().TurnCount())
  {
    hide RunBatch, TrimSpace, Executions, ToolNames, DeltaPart, ToolEvents, Setup.At, Setup.Log, Setup.StopFrom, StreamSetup.Events;
    ghost var p := s.Plain();
    var maxTurns, breaker := s.opt.Turns(), s.opt.Breaker();
    var out, tools, failures := s.input, s.tools0, 0;
    log := [];
    var turn := 0;
    p.Begin();
    assert s.Events(0) == [] by {
      s.EventsStart();
    }
    while turn < maxTurns
      invariant turn <= maxTurns
      invariant p.At(turn) == Point(out, tools)
      invariant failures == FailRun(p.Failed, turn)
      invariant forall j | 0 <= j < turn :: p.GoesOn(j)
      invariant log == s.Events(turn)
    {
      var resp := s.streamer(turn, out);
      p.Advance(turn);
      p.BreakerTrips(turn);
      s.EventsAdvance(turn);
      var events := CompleteStreamTurn(s.hooks, resp);
      log := log + [Asked(out)] + events;
      if resp.reply.ModelError? {
        p.StopIsUnique(turn);
        return Outcome(out, "", ModelFailed(resp.reply.msg), tools), log;
      }
      var am := WithRole(resp.reply.assistant);
      if s.hooks.onComplete {
        log := log + [Completed];
      }
      out := out + [am];
      if |am.toolCalls| == 0 {
        p.StopIsUnique(turn);
        p.AdvanceToAnswer(turn);
        NoToolEvents(s.hooks);
        return Outcome(out, TrimSpace(am.content), NoError, tools), log;
      }
      var batchFailed, ran;
      out, tools, batchFailed, ran := ToolTurn(s.hooks, s.exec, s.opt.pruner, am.toolCalls, out, tools);
      log := log + ran;
      if batchFailed {
        failures := failures + 1;
        if failures >= breaker {
          p.StopIsUnique(turn);
          return Outcome(out, "", CircuitOpen, tools), log;
        }
      } else {
        failures := 0;
      }
      turn := turn + 1;
    }
    p.StopIsUnique(turn);
    o := Outcome(out, "", MaxTurnsExceeded, tools);
  }

  lemma NoToolEvents(hooks: Hooks)
    ensures ToolEvents(hooks, []) == []
  {
  }

  /** One tool batch between its two hooks. */
  method ToolTurn<T>(hooks: Hooks, exec: Exec<T>, pruner: Pruner, calls: seq<ToolCall>, out0: seq<Message>, tools0: T)
    returns (out: seq<Message>, tools: T, batchFailed: bool, events: seq<Event>)
    ensures out == out0 + RunBatch(exec, pruner, calls, tools0).results
    ensures tools == RunBatch(exec, pruner, calls, tools0).tools
    ensures batchFailed == RunBatch(exec, pruner, calls, tools0).failed
    ensures events == ToolEvents(hooks, calls)
  {
    hide RunBatch, Executions, ToolNames;
    var toolNames := CollectNames(calls);
    events := [];
    if hooks.onBefore && |toolNames| > 0 {
      events := [Before(toolNames)];
    }
    var ran;
    out, tools, batchFailed, ran := ExecuteBatch(exec, pruner, calls, out0, tools0);
    events := events + ran;
    if hooks.onAfter && |toolNames| > 0 {
      events := events + [After(toolNames)];
    }
  }

  /** The deltas of one reply go to the hook as they come; a reply that showed nothing is followed
      by its whole content. */
  method CompleteStreamTurn(hooks: Hooks, resp: StreamedReply) returns (events: seq<Event>)
    ensures events == DeltaPart(hooks, resp)
  {
    hide TrimSpace;
    events := [];
    var gotVisibleDelta := false;
    for i := 0 to |resp.deltas|
      invariant events == if hooks.onDelta then DeltaEvents(resp.deltas[..i]) else []
      invariant gotVisibleDelta == (hooks.onDelta && AnyVisible(resp.deltas[..i]))
    {
      var d := resp.deltas[i];
      assert resp.deltas[..i + 1] == resp.deltas[..i] + [d];
      if hooks.onDelta {
        if DeltaHasVisibleText(d) {
          gotVisibleDelta := true;
        }
        events := events + [Delta(d)];
      }
    }
    assert resp.deltas[..|resp.deltas|] == resp.deltas;
    if resp.reply.Reply? && !gotVisibleDelta && TrimSpace(resp.reply.assistant.content) != "" {
      if hooks.onDelta {
        events := events + [Delta(resp.reply.assistant.content)];
      }
    }
    assert resp.deltas + [] == resp.deltas;
  }

  method CollectNames(calls: seq<ToolCall>) returns (names: seq<string>)
    ensures names == ToolNames(calls)
  {
    names := [];
    for i := 0 to |calls|
      invariant names == ToolNames(calls[..i])
    {
      assert calls[..i + 1][..i] == calls[..i];
      if calls[i].name != "" {
        names := names + [calls[i].name];
      }
    }
    assert calls[..|calls|] == calls;
  }

  // ---- refinement of the plain loop ----

  /** The calls to the model and to the tools, without the hooks. */
  function Core(events: seq<Event>): seq<Event> {
    if events == [] then []
    else Core(events[..|events| - 1]) +
         if events[|events| - 1].Asked? || events[|events| - 1].Ran? then [events[|events| - 1]] else []
  }

  lemma {:induction false} CoreConcat(a: seq<Event>, b: seq<Event>)
    ensures Core(a + b) == Core(a) + Core(b)
  {
    if b == [] {
      assert a + b == a;
    } else {
      CoreConcat(a, b[..|b| - 1]);
      assert (a + b)[..|a + b| - 1] == a + b[..|b| - 1];
    }
  }

  lemma {:induction false} CoreOfDeltas(texts: seq<string>)
    ensures Core(DeltaEvents(texts)) == []
  {
    if texts != [] {
      CoreOfDeltas(texts[..|texts| - 1]);
      CoreConcat(DeltaEvents(texts[..|texts| - 1]), [Delta(texts[|texts| - 1])]);
    }
  }

  lemma {:induction false} CoreOfExecutions(calls: seq<ToolCall>)
    ensures Core(Executions(calls)) == Executions(calls)
  {
    if calls != [] {
      CoreOfExecutions(calls[..|calls| - 1]);
    }
  }

  lemma CoreOfOne(e: Event)
    ensures Core([e]) == if e.Asked? || e.Ran? then [e] else []
  {
    assert [e][..0] == [];
  }

  lemma CoreNothing()
    ensures Core([]) == []
  {
  }

  lemma CoreOfToolEvents(hooks: Hooks, calls: seq<ToolCall>)
    ensures Core(ToolEvents(hooks, calls)) == Executions(calls)
  {
    hide ToolNames, Executions, Core;
    CoreNothing();
    var names := ToolNames(calls);
    var b := if hooks.onBefore && names != [] then [Before(names)] else [];
    var a := if hooks.onAfter && names != [] then [After(names)] else [];
    CoreOfOne(Before(names));
    CoreOfOne(After(names));
    CoreOfExecutions(calls);
    CoreConcat(b, Executions(calls));
    CoreConcat(b + Executions(calls), a);
  }

  lemma CoreOfRound<T>(s: StreamSetup<T>, i: nat)
    ensures Core(s.RoundEvents(i)) == s.Plain().RoundLog(i)
  {
    hide Core, DeltaPart, Setup.At, Executions, ToolEvents;
    var asked := [Asked(s.Plain().At(i).out)];
    var deltas := DeltaPart(s.hooks, s.StreamedAt(i));
    CoreOfOne(asked[0]);
    CoreOfDeltaPart(s.hooks, s.StreamedAt(i));
    CoreConcat(asked, deltas);
    if !s.Plain().Errs(i) {
      var done := CompletedPart(s.hooks);
      CoreOfDone(s.hooks);
      var calls := s.StreamedAt(i).reply.assistant.toolCalls;
      CoreOfToolEvents(s.hooks, calls);
      CoreConcat(done, ToolEvents(s.hooks, calls));
      CoreConcat(asked + deltas, done + ToolEvents(s.hooks, calls));
      assert s.RoundEvents(i) == asked + deltas + (done + ToolEvents(s.hooks, calls));
      assert s.Plain().RoundLog(i) == asked + Executions(calls);
    } else {
      assert s.RoundEvents(i) == asked + deltas;
      assert s.Plain().RoundLog(i) == asked;
    }
  }

  lemma CoreOfDeltaPart(hooks: Hooks, resp: StreamedReply)
    ensures Core(DeltaPart(hooks, resp)) == []
  {
    CoreOfDeltas(Shown(resp));
  }

  lemma CoreOfDone(hooks: Hooks)
    ensures Core(CompletedPart(hooks)) == []
  {
    CoreOfOne(Completed);
  }

  /** Whatever is streamed and whichever hooks are set, the model and the tools are called
      in the same order with the same arguments as in the plain loop. */
  lemma {:induction false} SameCalls<T>(s: StreamSetup<T>, n: nat)
    ensures Core(s.Events(n)) == s.Plain().Log(n)
  {
    hide StreamSetup.RoundEvents, Setup.RoundLog, Setup.At, StreamSetup.Plain;
    if n > 0 {
      SameCalls(s, n - 1);
      CoreOfRound(s, n - 1);
      CoreConcat(s.Events(n - 1), s.RoundEvents(n - 1));
    }
  }

  // ---- the protocol of the hooks ----

  /** Where a client is in (ask delta* complete (before run* after)?)*; nameless batches run without hooks. */
  datatype HookState = Resting | Speaking | Spoken | Working(names: seq<string>) | Broken

  function Next(q: HookState, e: Event): HookState {
    match e
    case Asked(_) => if q.Resting? || q.Spoken? then Speaking else Broken
    case Delta(_) => if q.Speaking? then Speaking else Broken
    case Completed => if q.Speaking? then Spoken else Broken
    case Before(names) => if q.Spoken? && names != [] then Working(names) else Broken
    case Ran(_, _) => if q.Spoken? || q.Working? then q else Broken
    case After(names) => if q == Working(names) then Resting else Broken
  }

  function Walk(q: HookState, events: seq<Event>): HookState {
    if events == [] then q else Next(Walk(q, events[..|events| - 1]), events[|events| - 1])
  }

  lemma {:induction false} WalkConcat(q: HookState, a: seq<Event>, b: seq<Event>)
    ensures Walk(q, a + b) == Walk(Walk(q, a), b)
  {
    if b == [] {
      assert a + b == a;
    } else {
      WalkConcat(q, a, b[..|b| - 1]);
      assert (a + b)[..|a + b| - 1] == a + b[..|b| - 1];
    }
  }

  lemma WalkOne(q: HookState, e: Event)
    ensures Walk(q, [e]) == Next(q, e)
  {
    assert [e][..0] == [];
  }

  lemma {:induction false} WalkDeltas(texts: seq<string>)
    ensures Walk(Speaking, DeltaEvents(texts)) == Speaking
  {
    if texts != [] {
      WalkDeltas(texts[..|texts| - 1]);
    }
  }

  lemma {:induction false} WalkExecutions(q: HookState, calls: seq<ToolCall>)
    requires q.Spoken? || q.Working?
    ensures Walk(q, Executions(calls)) == q
  {
    if calls != [] {
      WalkExecutions(q, calls[..|calls| - 1]);
    }
  }

  lemma WalkToolEvents(calls: seq<ToolCall>)
    ensures Walk(Spoken, ToolEvents(ALL_HOOKS, calls)) == if ToolNames(calls) == [] then Spoken else Resting
  {
    hide ToolNames, Executions, Walk;
    var names := ToolNames(calls);
    var runs := Executions(calls);
    if names == [] {
      WalkExecutions(Spoken, calls);
      assert ToolEvents(ALL_HOOKS, calls) == runs;
    } else {
      WalkOne(Spoken, Before(names));
      WalkExecutions(Working(names), calls);
      WalkOne(Working(names), After(names));
      WalkConcat(Spoken, [Before(names)], runs);
      WalkConcat(Spoken, [Before(names)] + runs, [After(names)]);
    }
  }

  lemma WalkRound<T>(s: StreamSetup<T>, i: nat, q: HookState)
    requires s.hooks == ALL_HOOKS && (q.Resting? || q.Spoken?)
    ensures var q' := Walk(q, s.RoundEvents(i));
            if s.Plain().Errs(i) then q' == Speaking else q'.Spoken? || q'.Resting?
  {
    hide Walk, DeltaEvents, Shown, Setup.At, ToolEvents;
    var asked := [Asked(s.Plain().At(i).out)];
    var deltas := DeltaEvents(Shown(s.StreamedAt(i)));
    WalkOne(q, asked[0]);
    WalkDeltas(Shown(s.StreamedAt(i)));
    WalkConcat(q, asked, deltas);
    if s.Plain().Errs(i) {
      assert s.RoundEvents(i) == asked + deltas;
    } else {
      var tools := ToolEvents(ALL_HOOKS, s.StreamedAt(i).reply.assistant.toolCalls);
      WalkOne(Speaking, Completed);
      WalkToolEvents(s.StreamedAt(i).reply.assistant.toolCalls);
      WalkConcat(Speaking, [Completed], tools);
      WalkConcat(q, asked + deltas, [Completed] + tools);
      assert s.RoundEvents(i) == asked + deltas + ([Completed] + tools);
    }
  }

  lemma {:induction false} WalkRounds<T>(s: StreamSetup<T>, n: nat)
    requires s.hooks == ALL_HOOKS
    requires forall j | 0 <= j < n :: !s.Plain().Errs(j)
    ensures Walk(Resting, s.Events(n)).Resting? || Walk(Resting, s.Events(n)).Spoken?
  {
    hide Walk, StreamSetup.RoundEvents, Setup.Errs;
    s.EventsStart();
    if n == 0 {
      assert Walk(Resting, []) == Resting by {
        WalkNothing(Resting);
      }
    } else {
      WalkRounds(s, n - 1);
      s.EventsAdvance(n - 1);
      WalkRound(s, n - 1, Walk(Resting, s.Events(n - 1)));
      WalkConcat(Resting, s.Events(n - 1), s.RoundEvents(n - 1));
    }
  }

  lemma WalkNothing(q: HookState)
    ensures Walk(q, []) == q
  {
  }

  /** With all hooks set, every run follows the protocol: it never breaks, a run cut by a model
      error stops among the deltas of its last round, and any other run stops after a completed
      round whose tool hooks are both fired or both absent. */
  lemma HookProtocol<T>(s: StreamSetup<T>)
    requires s.hooks == ALL_HOOKS
    ensures var q := Walk(Resting, s.Events(s.Plain().TurnCount()));
            if s.Plain().RunOutcome().err.ModelFailed? then q == Speaking else q.Spoken? || q.Resting?
  {
    hide Walk, StreamSetup.RoundEvents, StreamSetup.Events, StreamSetup.Plain, Setup.At, Setup.StopFrom, TrimSpace;
    var p := s.Plain();
    var n := p.StopFrom(0);
    CalledBefore(p, n);
    forall j | 0 <= j < n ensures !p.Errs(j) {
      assert p.Calls(j);
    }
    WalkRounds(s, n);
    if n < p.opt.Turns() {
      s.EventsAdvance(n);
      WalkRound(s, n, Walk(Resting, s.Events(n)));
      WalkConcat(Resting, s.Events(n), s.RoundEvents(n));
    }
  }

  // ---- what the client sees ----

  datatype ClientMsg =
    | AssistantStream(text: string, isFinal: bool)
    | ToolsRunning(names: seq<string>)
    | ToolsDone(names: seq<string>)
    | NoVisibleReply

  /** The service's hooks. */
  function Deliver(e: Event): seq<ClientMsg> {
    match e
    case Delta(text) => if AssistantDeltaIsInvisible(text) then [] else [AssistantStream(text, false)]
    case Completed => [AssistantStream("", true)]
    case Before(names) => if names == [] then [] else [ToolsRunning(names)]
    case After(names) => if names == [] then [] else [ToolsDone(names)]
    case _ => []
  }

  function DeliverAll(events: seq<Event>): seq<ClientMsg> {
    if events == [] then [] else DeliverAll(events[..|events| - 1]) + Deliver(events[|events| - 1])
  }

  /** What the client has shown: the visible text of each closed segment, and of the open one. */
  datatype Screen = Screen(closed: seq<string>, open: string)

  function Receive(c: Screen, m: ClientMsg): Screen {
    match m
    case AssistantStream(text, isFinal) =>
      var open := c.open + Visible(text);
      if isFinal then Screen(c.closed + [open], "") else Screen(c.closed, open)
    case _ => c
  }

  function ReceiveAll(c: Screen, ms: seq<ClientMsg>): Screen {
    if ms == [] then c else Receive(ReceiveAll(c, ms[..|ms| - 1]), ms[|ms| - 1])
  }

  /** The client's screen after a run's events. */
  function Show(c: Screen, events: seq<Event>): Screen {
    if events == [] then c
    else ReceiveAll(Show(c, events[..|events| - 1]), Deliver(events[|events| - 1]))
  }

  lemma {:induction false} ReceiveConcat(c: Screen, a: seq<ClientMsg>, b: seq<ClientMsg>)
    ensures ReceiveAll(c, a + b) == ReceiveAll(ReceiveAll(c, a), b)
  {
    if b == [] {
      assert a + b == a;
    } else {
      ReceiveConcat(c, a, b[..|b| - 1]);
      assert (a + b)[..|a + b| - 1] == a + b[..|b| - 1];
    }
  }

  /** Delivering first and receiving then is the same as showing event by event. */
  lemma {:induction false} ShowIsDelivery(c: Screen, events: seq<Event>)
    ensures Show(c, events) == ReceiveAll(c, DeliverAll(events))
  {
    if events != [] {
      ShowIsDelivery(c, events[..|events| - 1]);
      ReceiveConcat(c, DeliverAll(events[..|events| - 1]), Deliver(events[|events| - 1]));
    }
  }

  lemma {:induction false} ShowConcat(c: Screen, a: seq<Event>, b: seq<Event>)
    ensures Show(c, a + b) == Show(Show(c, a), b)
  {
    hide ReceiveAll, Deliver;
    if b == [] {
      assert a + b == a;
    } else {
      ShowConcat(c, a, b[..|b| - 1]);
      assert (a + b)[..|a + b| - 1] == a + b[..|b| - 1];
    }
  }

  lemma ShowOne(c: Screen, e: Event)
    ensures Show(c, [e]) == ReceiveAll(c, Deliver(e))
  {
    assert [e][..0] == [];
    assert Show(c, []) == c;
  }

  lemma ReceiveOne(c: Screen, m: ClientMsg)
    ensures ReceiveAll(c, [m]) == Receive(c, m)
  {
    assert [m][..0] == [];
  }

  /** Events other than deltas and completions change nothing on the screen. */
  lemma ShowQuiet(c: Screen, e: Event)
    requires !e.Delta? && !e.Completed?
    ensures Show(c, [e]) == c
  {
    hide ReceiveAll;
    ShowOne(c, e);
    ReceiveNothing(c);
    if Deliver(e) != [] {
      ReceiveOne(c, Deliver(e)[0]);
    }
  }

  lemma ReceiveNothing(c: Screen)
    ensures ReceiveAll(c, []) == c
  {
  }

  lemma {:induction false} ShowExecutions(c: Screen, calls: seq<ToolCall>)
    ensures Show(c, Executions(calls)) == c
  {
    hide Show, ReceiveAll;
    ShowNothing(c);
    if calls != [] {
      ShowExecutions(c, calls[..|calls| - 1]);
      var e := Ran(calls[|calls| - 1].name, calls[|calls| - 1].arguments);
      ShowQuiet(c, e);
      ShowConcat(c, Executions(calls[..|calls| - 1]), [e]);
    }
  }

  lemma ShowNothing(c: Screen)
    ensures Show(c, []) == c
  {
  }

  lemma ShowToolEvents(c: Screen, calls: seq<ToolCall>)
    ensures Show(c, ToolEvents(ALL_HOOKS, calls)) == c
  {
    hide Show, ToolNames, Executions;
    var names, runs := ToolNames(calls), Executions(calls);
    ShowExecutions(c, calls);
    if names == [] {
      assert ToolEvents(ALL_HOOKS, calls) == runs;
    } else {
      ShowQuiet(c, Before(names));
      ShowQuiet(c, After(names));
      ShowConcat(c, [Before(names)], runs);
      ShowConcat(c, [Before(names)] + runs, [After(names)]);
    }
  }

  /** Filtering loses nothing visible: the open segment grows by the visible text of all deltas. */
  lemma {:induction false} ShowDeltas(c: Screen, texts: seq<string>)
    ensures Show(c, DeltaEvents(texts)) == Screen(c.closed, c.open + Visible(Concat(texts)))
  {
    hide Show, ReceiveAll, Visible, Concat, DeltaHasVisibleText, AssistantDeltaIsInvisible;
    ShowNothing(c);
    VisibleNothing();
    ConcatNothing<char>();
    if texts == [] {
      assert c.open + "" == c.open;
    } else {
      var init, last := texts[..|texts| - 1], texts[|texts| - 1];
      ShowDeltas(c, init);
      assert texts == init + [last];
      ConcatSnoc(init, last);
      VisibleConcat(Concat(init), last);
      VisibilityAgrees(last);
      var c' := Screen(c.closed, c.open + Visible(Concat(init)));
      ShowConcat(c, DeltaEvents(init), [Delta(last)]);
      ShowOne(c', Delta(last));
      ReceiveNothing(c');
      ReceiveOne(c', AssistantStream(last, false));
      assert c'.open + Visible(last) == c.open + Visible(Concat(texts));
      assert c'.open + "" == c'.open;
    }
  }

  /** The deltas of a reply are faithful: they spell out what is visible of its content,
      or show nothing at all. */
  predicate Faithful(resp: StreamedReply) {
    resp.reply.Reply? ==>
      !AnyVisible(resp.deltas) || Visible(Concat(resp.deltas)) == Visible(resp.reply.assistant.content)
  }

  lemma {:induction false} NothingVisible(texts: seq<string>)
    requires !AnyVisible(texts)
    ensures Visible(Concat(texts)) == ""
  {
    if texts != [] {
      forall d | d in texts[1..] ensures !DeltaHasVisibleText(d) {
        assert d in texts;
      }
      NothingVisible(texts[1..]);
      VisibleConcat(texts[0], Concat(texts[1..]));
      VisibilityAgrees(texts[0]);
    }
  }

  /** In each round the visible text reaches the client exactly once if and only if the deltas
      are faithful: the fallback repeats the content exactly when nothing of it was shown. */
  lemma ShownOnce(resp: StreamedReply)
    requires resp.reply.Reply?
    ensures Visible(Concat(Shown(resp))) == Visible(resp.reply.assistant.content) <==> Faithful(resp)
  {
    hide TrimSpace;
    var content := resp.reply.assistant.content;
    if AnyVisible(resp.deltas) {
      assert Shown(resp) == resp.deltas;
    } else {
      NothingVisible(resp.deltas);
      if TrimSpace(content) == "" {
        BlankIsInvisible(content);
        assert Shown(resp) == resp.deltas;
      } else {
        assert Shown(resp) == resp.deltas + [content];
        ConcatSnoc(resp.deltas, content);
        VisibleConcat(Concat(resp.deltas), content);
      }
    }
  }

  /** The visible contents of the first n replies. */
  function Contents<T>(s: StreamSetup<T>, n: nat): seq<string> {
    if n == 0 then []
    else
      Contents(s, n - 1) +
      match s.StreamedAt(n - 1).reply
      case ModelError(_) => []
      case Reply(m) => [Visible(m.content)]
  }

  lemma ShowRound<T>(s: StreamSetup<T>, i: nat, c: Screen)
    requires s.hooks == ALL_HOOKS && c.open == "" && !s.Plain().Errs(i)
    requires Faithful(s.StreamedAt(i))
    ensures Show(c, s.RoundEvents(i)) == Screen(c.closed + [Visible(s.StreamedAt(i).reply.assistant.content)], "")
  {
    hide Show, ReceiveAll, DeltaEvents, Shown, Faithful, ToolEvents, Setup.At, Visible, Concat;
    var resp := s.StreamedAt(i);
    var asked := [Asked(s.Plain().At(i).out)];
    var deltas := DeltaEvents(Shown(resp));
    var tools := ToolEvents(ALL_HOOKS, resp.reply.assistant.toolCalls);
    ShowQuiet(c, asked[0]);
    ShowDeltas(c, Shown(resp));
    ShownOnce(resp);
    ShowConcat(c, asked, deltas);
    var text := Visible(resp.reply.assistant.content);
    assert c.open + text == text;
    var c1 := Screen(c.closed, text);
    ShowOne(c1, Completed);
    ReceiveOne(c1, AssistantStream("", true));
    VisibleNothing();
    assert text + "" == text;
    var c2 := Screen(c.closed + [text], "");
    ShowToolEvents(c2, resp.reply.assistant.toolCalls);
    ShowConcat(c1, [Completed], tools);
    ShowConcat(c, asked + deltas, [Completed] + tools);
    assert s.RoundEvents(i) == asked + deltas + ([Completed] + tools);
  }

  lemma VisibleNothing()
    ensures Visible("") == ""
  {
  }

  lemma ConcatNothing<X>()
    ensures Concat<X>([]) == []
  {
  }

  /** Over a whole run, what the client has shown is, segment by segment, the visible text of the
      replies: nothing is lost, repeated or moved to another segment. */
  lemma {:induction false} ScreenIsContents<T>(s: StreamSetup<T>, n: nat)
    requires s.hooks == ALL_HOOKS
    requires forall j | 0 <= j < n :: !s.Plain().Errs(j) && Faithful(s.StreamedAt(j))
    ensures Show(Screen([], ""), s.Events(n)) == Screen(Contents(s, n), "")
  {
    hide Show, StreamSetup.RoundEvents, Faithful, StreamSetup.Plain, Visible;
    s.EventsStart();
    ShowNothing(Screen([], ""));
    if n > 0 {
      ScreenIsContents(s, n - 1);
      s.EventsAdvance(n - 1);
      ShowRound(s, n - 1, Screen(Contents(s, n - 1), ""));
      ShowConcat(Screen([], ""), s.Events(n - 1), s.RoundEvents(n - 1));
      PlainReply(s, n - 1);
    }
  }

  /** A round cut by a model error leaves the visible text of its deltas in the open segment. */
  lemma ShowCutRound<T>(s: StreamSetup<T>, i: nat, c: Screen)
    requires s.hooks == ALL_HOOKS && c.open == "" && s.Plain().Errs(i)
    ensures Show(c, s.RoundEvents(i)) == Screen(c.closed, Visible(Concat(s.StreamedAt(i).deltas)))
  {
    hide Show, ReceiveAll, DeltaEvents, Setup.At, Visible, Concat;
    var resp := s.StreamedAt(i);
    var asked := [Asked(s.Plain().At(i).out)];
    assert Shown(resp) == resp.deltas;
    ShowQuiet(c, asked[0]);
    ShowDeltas(c, resp.deltas);
    ShowConcat(c, asked, DeltaEvents(resp.deltas));
    var text := Visible(Concat(resp.deltas));
    assert c.open + text == text;
    assert s.RoundEvents(i) == asked + DeltaEvents(resp.deltas);
  }

  /** What the client should have on its screen after a run: one closed segment per reply, and what
      was streamed of a reply that failed. */
  function FinalScreen<T>(s: StreamSetup<T>): Screen {
    var n := s.Plain().StopFrom(0);
    if n < s.opt.Turns() && s.Plain().Errs(n) then Screen(Contents(s, n), Visible(Concat(s.StreamedAt(n).deltas)))
    else Screen(Contents(s, s.Plain().TurnCount()), "")
  }

  /** Whole runs, however they end: the events put exactly that on the screen. */
  lemma RunOnScreen<T>(s: StreamSetup<T>)
    requires s.hooks == ALL_HOOKS
    requires forall j | 0 <= j < s.Plain().TurnCount() :: Faithful(s.StreamedAt(j))
    ensures Show(Screen([], ""), s.Events(s.Plain().TurnCount())) == FinalScreen(s)
  {
    hide Show, Faithful, Contents, Setup.At, Setup.StopFrom, StreamSetup.Plain, StreamSetup.RoundEvents, StreamSetup.Events,
      StreamSetup.StreamedAt, Visible, Concat;
    var p := s.Plain();
    var n := p.StopFrom(0);
    CalledBefore(p, n);
    NoErrorBefore(p, n);
    SameTurns(s);
    if n < p.opt.Turns() && p.Errs(n) {
      ScreenIsContents(s, n);
      s.EventsAdvance(n);
      ShowCutRound(s, n, Screen(Contents(s, n), ""));
      ShowConcat(Screen([], ""), s.Events(n), s.RoundEvents(n));
    } else {
      ScreenIsContents(s, p.TurnCount());
    }
  }

  lemma NoErrorBefore<T>(p: Setup<T>, n: nat)
    requires forall j | 0 <= j < n :: p.Calls(j)
    ensures forall j | 0 <= j < n :: !p.Errs(j)
  {
    forall j | 0 <= j < n ensures !p.Errs(j) {
      assert p.Calls(j);
    }
  }

  lemma SameTurns<T>(s: StreamSetup<T>)
    ensures s.Plain().opt == s.opt
  {
  }

  lemma PlainReply<T>(s: StreamSetup<T>, i: nat)
    ensures s.Plain().ReplyAt(i) == s.StreamedAt(i).reply
  {
  }
}
