/** What a turn does, in the configured numbers and the messages themselves: its prompt, its run, what
    it writes, what the client receives, and whose session it touches. */
module Turns {
  import opened Text
  import opened Transcript
  import opened Pruning
  import opened Compaction
  import opened Loop
  import opened Streaming
  import opened Session
  import opened Engine
  import opened Service
  import opened History

  // ---- what a turn adds ----

  /** A run without error adds exactly what follows its prompt; every other turn adds nothing. */
  lemma AddedIsWhatRan<T>(s: Settings, env: Env<T>, history: seq<Message>, tail: Message)
    ensures var r := TurnOf(s.Discipline(), env, history, tail);
            var d := Added(s, env, history, tail);
            if r.TurnRan? && r.outcome.err == NoError then
              Prepared(s.Discipline(), env.assembly.sys, history, tail) + d == r.outcome.out && d != []
            else d == []
  {
    hide Prepared, Setup.TurnCount, StreamSetup.Events, Setup.At, Setup.StopFrom, TrimSpace, RunBatch;
    InputIsPrefix(s.Discipline(), env, history, tail);
    if env.assembly.Assembled? {
      var p := TurnSetup(s.Discipline(), env, history, tail).Plain();
      if p.RunOutcome().err == NoError {
        SuccessEnds(p);
        OutGrows(p, p.StopFrom(0));
      }
    }
  }

  /** Action a writes op: the message of a new turn, or, when a loaded turn's run ends without error,
      all that the run added behind its prompt, in one piece. */
  ghost predicate WrittenBy<T>(s: Settings, w: World, a: Action<T>, op: Op) {
    match a
    case Open(id, key, text) => id !in w.turns && op == AppendOp(key, [Message(User, text, [], "")])
    case Load(_) => false
    case Close(id, env) =>
      && id in w.turns && w.turns[id].Loaded?
      && var t := w.turns[id];
         var r := TurnOf(s.Discipline(), env, t.history, t.tail);
         && r.TurnRan? && env.assembly.Assembled? && r.outcome.err == NoError
         && op == AppendOp(t.key, op.msgs)
         && Prepared(s.Discipline(), env.assembly.sys, t.history, t.tail) + op.msgs == r.outcome.out
  }

  lemma WriteMeans<T>(s: Settings, w: World, a: Action<T>, op: Op)
    ensures WriteOf(s, w, a) == Some(op) <==> WrittenBy(s, w, a, op)
  {
    hide Added, TurnOf, Prepared, Settings.Discipline;
    match a
    case Open(_, _, _) =>
    case Load(_) =>
    case Close(id, env) =>
      if id in w.turns && w.turns[id].Loaded? {
        var t := w.turns[id];
        AddedIsWhatRan(s, env, t.history, t.tail);
        InputIsPrefix(s.Discipline(), env, t.history, t.tail);
        if env.assembly.Assembled? {
          SameTail(s, env, t.history, t.tail, op.msgs);
        }
      }
  }

  lemma SameTail<T>(s: Settings, env: Env<T>, history: seq<Message>, tail: Message, d: seq<Message>)
    requires env.assembly.Assembled?
    ensures var p := Prepared(s.Discipline(), env.assembly.sys, history, tail);
            var added := Added(s, env, history, tail);
            p + d == p + added ==> d == added
  {
    hide Added, Prepared, Settings.Discipline;
    var p := Prepared(s.Discipline(), env.assembly.sys, history, tail);
    var added := Added(s, env, history, tail);
    assert (p + d)[|p|..] == d && (p + added)[|p|..] == added;
  }

  /** Action i of a run writes op, in the state it finds. */
  ghost predicate WrittenAt<T>(s: Settings, actions: seq<Action<T>>, i: int, op: Op) {
    0 <= i < |actions| && WrittenBy(s, Steps(s, actions[..i]), actions[i], op)
  }

  /** The log of a run consists of exactly what its actions write. */
  lemma {:induction false} WritesAre<T>(s: Settings, actions: seq<Action<T>>, op: Op)
    ensures op in Writes(s, actions) <==> exists i :: WrittenAt(s, actions, i, op)
  {
    hide WrittenBy, WriteOf, Steps, WrittenAt;
    if actions == [] {
      NothingWrittenAt(s, actions, op);
    } else {
      var before, a := actions[..|actions| - 1], actions[|actions| - 1];
      WritesAre(s, before, op);
      WriteMeans(s, Steps(s, before), a, op);
      forall i ensures WrittenAt(s, actions, i, op) <==>
                       WrittenAt(s, before, i, op) || (i == |before| && WrittenBy(s, Steps(s, before), a, op)) {
        WrittenAtSnoc(s, before, a, i, op);
        assert before + [a] == actions;
      }
      assert WrittenBy(s, Steps(s, before), a, op) ==> WrittenAt(s, actions, |before|, op);
    }
  }

  lemma NothingWrittenAt<T>(s: Settings, actions: seq<Action<T>>, op: Op)
    requires actions == []
    ensures !exists i :: WrittenAt(s, actions, i, op)
  {
  }

  lemma WrittenAtSnoc<T>(s: Settings, before: seq<Action<T>>, a: Action<T>, i: int, op: Op)
    ensures WrittenAt(s, before + [a], i, op) <==>
            WrittenAt(s, before, i, op) || (i == |before| && WrittenBy(s, Steps(s, before), a, op))
  {
    hide WrittenBy, Steps;
    var all := before + [a];
    assert all[..|before|] == before && all[|before|] == a;
    if 0 <= i < |before| {
      assert all[..i] == before[..i] && all[i] == before[i];
    }
  }

  /** A turn opens once, reads once and closes once; nothing another turn does changes its state, and
      only opening and closing write. */
  lemma Lifecycle<T>(s: Settings, w: World, a: Action<T>, id: nat)
    requires forall t | t in w.turns && w.turns[t].Opened? :: w.turns[t].key in w.store && w.store[w.turns[t].key] != []
    ensures var w' := Step(s, w, a);
            && (id !in w.turns ==> (id in w'.turns <==> a.Open? && a.id == id))
            && (id !in w.turns && id in w'.turns ==> w'.turns[id] == Opened(a.key))
            && (id in w.turns ==> id in w'.turns)
            && (id in w.turns && w.turns[id].Opened? ==>
                  if a == Load(id) then w'.turns[id].Loaded? else w'.turns[id] == w.turns[id])
            && (id in w.turns && w.turns[id].Loaded? ==>
                  if a.Close? && a.id == id then w'.turns[id] == Closed else w'.turns[id] == w.turns[id])
            && (id in w.turns && w.turns[id].Closed? ==> w'.turns[id] == Closed)
  {
    hide Added, AppendTo;
  }

  /** A turn reads the whole session: its last message becomes the turn's, the others its history. */
  lemma LoadReadsAll<T>(s: Settings, w: World, id: nat, key: string)
    requires id in w.turns && w.turns[id] == Opened(key) && key in w.store && w.store[key] != []
    ensures var load: Action<T> := Load(id);
            var w' := Step(s, w, load);
            && id in w'.turns && w'.turns[id].Loaded? && w'.turns[id].key == key && w'.store == w.store
            && w'.turns[id].history + [w'.turns[id].tail] == w.store[key]
  {
  }

  /** A turn whose prompt cannot be assembled fails with that error and does nothing else. */
  lemma FailedAssembly<T>(s: Settings, env: Env<T>, history: seq<Message>, tail: Message)
    requires env.assembly.AssemblyError?
    ensures var r := TurnOf(s.Discipline(), env, history, tail);
            r == TurnFailed(env.assembly.msg) && Added(s, env, history, tail) == [] && ClientView(r) == []
  {
  }

  // ---- the prompt ----

  /** System messages, the history with each tool result pruned, and the turn's message. */
  function FullPrompt(p: Pruner, sys: seq<Message>, history: seq<Message>, user: Message): seq<Message> {
    sys + seq(|history|, i requires 0 <= i < |history| => Prune(p, history[i])) + [user]
  }

  /** The prompt as configured: compaction cuts it if and only if there is a compactor, the given
      estimate, if any, and the own one are over its budget, and more than its tail lies between the
      system messages and the last one; otherwise it is sent as assembled. */
  lemma PreparedMeans(s: Settings, sys: seq<Message>, history: seq<Message>, user: Message)
    ensures var p, msgs := Prepared(s.Discipline(), sys, history, user), FullPrompt(s.pruner, sys, history, user);
            && (s.compactor.None? ==> p == msgs)
            && (s.compactor.Some? ==>
                  var c := s.compactor.value;
                  var max, tail := LimitOr(c.maxTokens, 48000), LimitOr(c.minTail, 8);
                  if (s.estimate.None? || s.estimate.value(msgs) <= 0 || s.estimate.value(msgs) > max)
                     && Tokens(msgs) > max && |msgs| - 1 - LeadingSystem(msgs) > tail
                  then exists k :: CutAt(max, tail, msgs, k) && IsCompacted(msgs, k, p)
                  else p == msgs)
  {
    hide Tokens, LeadingSystem, Prune, Compact, CutAt, IsCompacted;
    var msgs := FullPrompt(s.pruner, sys, history, user);
    PruneAllShape(s.pruner, history);
    assert PruneAll(s.pruner, history) == seq(|history|, i requires 0 <= i < |history| => Prune(s.pruner, history[i]));
    assert Assemble(s.Discipline(), sys, history, user) == msgs;
    if s.compactor.Some? {
      CompactExactly(s.compactor.value, msgs, Estimate(s.Discipline(), msgs));
      assert LimitOr(s.compactor.value.maxTokens, 48000) == s.compactor.value.Max();
      assert LimitOr(s.compactor.value.minTail, 8) == s.compactor.value.Tail();
    } else {
      NoCompactor(msgs, Estimate(s.Discipline(), msgs));
    }
  }

  lemma NoCompactor(msgs: seq<Message>, est: int)
    ensures Compact(None, msgs, est).0 == msgs
  {
  }

  // ---- the run ----

  /** The run of a turn with the service's numbers: 32 turns and 3 failed batches unless configured.
      Its history determines the outcome, the events and how often the model is asked. */
  lemma TurnHasHistory<T>(s: Settings, env: Env<T>, history: seq<Message>, tail: Message) returns (h: seq<Round<T>>)
    requires env.assembly.Assembled?
    ensures var r := TurnOf(s.Discipline(), env, history, tail);
            var n := LimitOr(s.maxTurns, 32);
            && r.TurnRan?
            && IsHistory((i: nat, sent: seq<Message>) => env.streamer(i, sent).reply, env.exec, s.pruner, n,
                         LimitOr(s.maxConsecutiveFailures, 3), Prepared(s.Discipline(), env.assembly.sys, history, tail),
                         env.tools0, h, r.outcome)
            && r.events == Script(env.hooks, env.streamer, h)
            && ModelCalls(r.events) == |h| <= n
  {
    hide Prepared, IsHistory, Script, StreamSetup.Events, StreamSetup.Plain, Setup.RunOutcome, Setup.TurnCount, ModelCalls;
    var setup := TurnSetup(s.Discipline(), env, history, tail);
    h := StreamedRunHasHistory(setup);
    HistoryFits((i: nat, sent: seq<Message>) => env.streamer(i, sent).reply, env.exec, s.pruner, LimitOr(s.maxTurns, 32),
                LimitOr(s.maxConsecutiveFailures, 3), setup.input, env.tools0, h, setup.Plain().RunOutcome());
  }

  lemma HistoryFits<T>(model: Model, exec: Exec<T>, p: Pruner, n: nat, k: nat, input: seq<Message>, tools: T,
                       h: seq<Round<T>>, o: Outcome<T>)
    requires IsHistory(model, exec, p, n, k, input, tools, h, o)
    ensures |h| <= n
  {
  }

  /** How the run ends, in the service's numbers and over what the model and the tools replied. */
  lemma TurnLimits<T>(s: Settings, env: Env<T>, history: seq<Message>, tail: Message) returns (h: seq<Round<T>>)
    requires env.assembly.Assembled?
    ensures var o := TurnOf(s.Discipline(), env, history, tail).outcome;
            var n, k := LimitOr(s.maxTurns, 32), LimitOr(s.maxConsecutiveFailures, 3);
            && ModelCalls(TurnOf(s.Discipline(), env, history, tail).events) == |h| <= n
            && (o.err == MaxTurnsExceeded <==> |h| == n && forall i | 0 <= i < n :: AsksTools(h[i]) && !ClosesStreak(h, k, i))
            && h != [] && (o.err == CircuitOpen <==> ClosesStreak(h, k, |h| - 1))
            && (forall i | 0 <= i < |h| - 1 :: !ClosesStreak(h, k, i))
            && (o.err == NoError <==> h[|h| - 1].reply.Reply? && !AsksTools(h[|h| - 1]))
    ensures forall i: nat | i < |h| :: h[i].reply == env.streamer(i, h[i].sent).reply
  {
    hide TurnOf, Prepared, Script, ClosesStreak, ModelCalls;
    h := TurnHasHistory(s, env, history, tail);
    var model: Model := (i: nat, sent: seq<Message>) => env.streamer(i, sent).reply;
    var input := Prepared(s.Discipline(), env.assembly.sys, history, tail);
    HistoryMeaning(model, env.exec, s.pruner, LimitOr(s.maxTurns, 32), LimitOr(s.maxConsecutiveFailures, 3), input, env.tools0,
                   h, TurnOf(s.Discipline(), env, history, tail).outcome);
    forall i: nat | i < |h| ensures h[i].reply == env.streamer(i, h[i].sent).reply {
      assert Link(model, env.exec, s.pruner, input, env.tools0, h, i);
    }
  }

  // ---- the client ----

  /** What the client receives: round by round the visible texts, the end of each segment and the tool
      status; and, if the run succeeds and no assistant message it added has more than white space, a
      last notice. */
  lemma ClientHears<T>(s: Settings, env: Env<T>, history: seq<Message>, tail: Message) returns (h: seq<Round<T>>)
    requires env.assembly.Assembled? && env.hooks == ALL_HOOKS && AssistantsOnly(Close(0, env))
    ensures var r := TurnOf(s.Discipline(), env, history, tail);
            && r.TurnRan?
            && IsHistory((i: nat, sent: seq<Message>) => env.streamer(i, sent).reply, env.exec, s.pruner,
                         LimitOr(s.maxTurns, 32), LimitOr(s.maxConsecutiveFailures, 3),
                         Prepared(s.Discipline(), env.assembly.sys, history, tail), env.tools0, h, r.outcome)
            && ClientView(r) ==
               ClientScript(env.streamer, h) +
               if r.outcome.err == NoError && AllBlank(Added(s, env, history, tail)) then [NoVisibleReply] else []
  {
    hide Prepared, IsHistory, Script, ClientScript, DeliverAll, WroteAssistant, AllBlank, StreamSetup.Events, StreamSetup.Plain,
      Setup.RunOutcome, Setup.TurnCount, ModelCalls;
    var setup := TurnSetup(s.Discipline(), env, history, tail);
    h := StreamedRunHasHistory(setup);
    if setup.Plain().RunOutcome().err == NoError {
      InputIsPrefix(s.Discipline(), env, history, tail);
      NothingWritten(s, env, history, tail);
    }
  }

  predicate AllBlank(msgs: seq<Message>) {
    forall m | m in msgs && m.role == Assistant :: AllSpace(m.content)
  }

  /** The final text is that of the last message added, so it decides nothing by itself. */
  lemma NothingWritten<T>(s: Settings, env: Env<T>, history: seq<Message>, tail: Message)
    requires env.assembly.Assembled? && AssistantsOnly(Close(0, env))
    requires TurnOf(s.Discipline(), env, history, tail).outcome.err == NoError
    ensures var o := TurnOf(s.Discipline(), env, history, tail).outcome;
            WroteAssistant(o.text, Added(s, env, history, tail)) <==> !AllBlank(Added(s, env, history, tail))
  {
    hide Prepared, TrimSpace, AllSpace, ToolRounds, Setup.RunOutcome, Setup.TurnCount, StreamSetup.Events;
    var p := TurnSetup(s.Discipline(), env, history, tail).Plain();
    SuccessDelta(p);
    var o, d := p.RunOutcome(), Added(s, env, history, tail);
    assert d[|d| - 1] == o.out[|o.out| - 1];
    forall m | m in d ensures TrimSpace(m.content) == "" <==> AllSpace(m.content) {
      BlankMeans(m.content);
    }
    assert d[|d| - 1] in d;
    TrimTwiceIsOnce(d[|d| - 1].content);
  }

  // ---- whose session ----

  /** Turns whose resolved users and agents lack the separator share a session if and only if their
      resolved scopes are equal. */
  lemma TurnsShareSession(user: string, agent: string, connUser: string, connAgent: string, sessionID: string,
                          user': string, agent': string, connUser': string, connAgent': string, sessionID': string)
    requires ValidSessionID(sessionID) && ValidSessionID(sessionID')
    requires SEP !in Override(user, connUser) && SEP !in Override(agent, connAgent)
    ensures var a := Scope(Override(user, connUser), Override(agent, connAgent), sessionID);
            var b := Scope(Override(user', connUser'), Override(agent', connAgent'), sessionID');
            Key(a) == Key(b) <==> a == b
  {
    hide Override, ValidSessionID, Key;
    ValidSessionHasNoSeparator(sessionID);
    ValidSessionHasNoSeparator(sessionID');
    PlainKeyIsOwn(Scope(Override(user, connUser), Override(agent, connAgent), sessionID),
                  Scope(Override(user', connUser'), Override(agent', connAgent'), sessionID'));
  }

  /** So a turn of one scope leaves the session of every other scope alone, whatever it does. */
  lemma OtherScopesUntouched<T>(s: Settings, store: Sessions, text: string, env: Env<T>, scope: Scope, other: Scope)
    requires SEP !in other.user && SEP !in other.agent && SEP !in other.session && SEP !in scope.session && scope != other
    ensures Lookup(Uninterrupted(s, store, Key(scope), text, env), Key(other)) == Lookup(store, Key(other))
  {
    hide Uninterrupted, Key, ReadBack, Added;
    PlainKeyIsOwn(other, scope);
    UninterruptedSession(s, store, Key(scope), text, env);
  }
}
