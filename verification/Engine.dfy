/** Preparation of the prompt (engine.go, PrepareLoop) and the streamed tool loop on top of it. */
module Engine {
  import opened Text
  import opened Transcript
  import opened Grammar
  import opened Pruning
  import opened Compaction
  import opened Loop
  import opened Streaming

  /** What the prompt assembler, the side query and the tool catalog give for a turn, or why they fail. */
  datatype Assembly = Assembled(sys: seq<Message>) | AssemblyError(msg: string)

  /** The parts of a run that are the same for every turn of a service. */
  datatype Discipline = Discipline(
    compactor: Option<Threshold>, pruner: Pruner, estimate: Option<seq<Message> -> int>, maxTurns: int, maxFailures: int)

  /** The oracles of one turn. */
  datatype Env<!T> = Env(assembly: Assembly, streamer: Streamer, exec: Exec<T>, tools0: T, hooks: Hooks)

  function PruneAll(p: Pruner, history: seq<Message>): seq<Message> {
    if history == [] then []
    else PruneAll(p, history[..|history| - 1]) + [Prune(p, history[|history| - 1])]
  }

  function Estimate(d: Discipline, msgs: seq<Message>): int {
    match d.estimate
    case None => 0
    case Some(f) => f(msgs)
  }

  function Assemble(d: Discipline, sys: seq<Message>, history: seq<Message>, user: Message): seq<Message> {
    sys + (PruneAll(d.pruner, history) + [user])
  }

  /** The messages the loop starts from. */
  function Prepared(d: Discipline, sys: seq<Message>, history: seq<Message>, user: Message): seq<Message> {
    var msgs := Assemble(d, sys, history, user);
    Compact(d.compactor, msgs, Estimate(d, msgs)).0
  }

  method PrepareLoop(d: Discipline, sys: seq<Message>, history: seq<Message>, user: Message) returns (msgs: seq<Message>)
    ensures msgs == Prepared(d, sys, history, user)
  {
    hide Compact, Prune;
    msgs := sys;
    for i := 0 to |history|
      invariant msgs == sys + PruneAll(d.pruner, history[..i])
    {
      assert history[..i + 1][..i] == history[..i];
      msgs := msgs + [Prune(d.pruner, history[i])];
    }
    assert history[..|history|] == history;
    msgs := msgs + [user];
    assert msgs == Assemble(d, sys, history, user);
    var tok := 0;
    if d.estimate.Some? {
      tok := d.estimate.value(msgs);
    }
    var rep;
    msgs, rep := MaybeCompact(d.compactor, msgs, tok);
  }

  /** The streamed run of a turn, once the prompt is assembled. */
  function TurnSetup<T>(d: Discipline, env: Env<T>, history: seq<Message>, user: Message): StreamSetup<T>
    requires env.assembly.Assembled?
  {
    StreamSetup(env.streamer, env.exec, Options(d.maxTurns, d.maxFailures, d.pruner),
                Prepared(d, env.assembly.sys, history, user), env.tools0, env.hooks)
  }

  datatype TurnResult<T> = TurnFailed(msg: string) | TurnRan(preLen: nat, outcome: Outcome<T>, events: seq<Event>)

  function TurnOf<T>(d: Discipline, env: Env<T>, history: seq<Message>, user: Message): TurnResult<T> {
    match env.assembly
    case AssemblyError(msg) => TurnFailed(msg)
    case Assembled(_) =>
      var s := TurnSetup(d, env, history, user);
      TurnRan(|s.input|, s.Plain().RunOutcome(), s.Events(s.Plain().TurnCount()))
  }

  method RunStreamedToolLoop<T>(d: Discipline, env: Env<T>, history: seq<Message>, user: Message)
    returns (r: TurnResult<T>)
    ensures r == TurnOf(d, env, history, user)
  {
    hide Prepared, Setup.RunOutcome, Setup.TurnCount, StreamSetup.Events;
    match env.assembly {
      case AssemblyError(msg) =>
        return TurnFailed(msg);
      case Assembled(sys) =>
        var prepared := PrepareLoop(d, sys, history, user);
        var s := StreamSetup(env.streamer, env.exec, Options(d.maxTurns, d.maxFailures, d.pruner), prepared, env.tools0, env.hooks);
        var o, events := RunStreamed(s);
        return TurnRan(|prepared|, o, events);
    }
  }

  // ---- what every model call sees ----

  lemma {:induction false} PruneAllShape(p: Pruner, history: seq<Message>)
    ensures |PruneAll(p, history)| == |history|
    ensures forall i | 0 <= i < |history| :: PruneAll(p, history)[i] == Prune(p, history[i])
  {
    hide Prune;
    if history != [] {
      PruneAllShape(p, history[..|history| - 1]);
    }
  }

  /** Two histories that agree on roles, calls and identifiers have the same form. */
  lemma {:induction false} FormIgnoresContent(a: seq<Message>, b: seq<Message>)
    requires |a| == |b|
    requires forall i | 0 <= i < |a| :: b[i] == a[i].(content := b[i].content)
    ensures Blocks(a) ==> Blocks(b)
    ensures Form(a) ==> Form(b)
    decreases |a|
  {
    if a != [] {
      assert b[0] == a[0].(content := b[0].content);
      FormIgnoresContent(a[1..], b[1..]);
      if Blocks(a) {
        var n := BlockLen(a[0]);
        BlockResults(a);
        assert forall j | 0 <= j < n - 1 :: b[1..n][j] == a[1..n][j].(content := b[1..n][j].content);
        FormIgnoresContent(a[n..], b[n..]);
      }
    }
  }

  /** A history of the conversation form, a settled last message and system messages in front
      make a prompt of the right form, pruned and compacted or not. */
  lemma PreparedForm(d: Discipline, sys: seq<Message>, history: seq<Message>, user: Message)
    requires AllSystem(sys)
    requires Form(history + [user]) && Single(user)
    ensures PromptForm(Prepared(d, sys, history, user))
    ensures var p := Prepared(d, sys, history, user); p != [] && p[|p| - 1] == user
  {
    hide Compact, Form, Prune, PromptForm, LeadingSystem;
    var pruned := PruneAll(d.pruner, history) + [user];
    PruneAllShape(d.pruner, history);
    forall i | 0 <= i < |pruned|
      ensures pruned[i] == (history + [user])[i].(content := pruned[i].content)
    {
      PruneShape(d.pruner, (history + [user])[i]);
    }
    FormIgnoresContent(history + [user], pruned);
    PromptFormOf(sys, pruned);
    var msgs := Assemble(d, sys, history, user);
    CompactKeepsForm(d.compactor, msgs, Estimate(d, msgs));
    CompactKeepsLast(d.compactor, msgs, Estimate(d, msgs));
  }

  lemma AppendRoundsToPrompt(p: seq<Message>, sent: seq<Message>)
    requires PromptForm(p) && p <= sent && ToolRounds(sent[|p|..])
    ensures PromptForm(sent)
  {
    hide Form, LeadingSystem, ToolRounds;
    var i := LeadingSystem(p);
    LeadingSystemIsLongest(p);
    var rest := sent[|p|..];
    ToolRoundsAreBlocks(rest);
    FormAppend(p[i..], rest);
    assert sent == p[..i] + (p[i..] + rest);
    PromptFormOf(p[..i], p[i..] + rest);
  }

  /** At every model call of a turn the messages sent are system messages, possibly some orphan
      results, then complete blocks only; the prepared prompt is always a prefix. */
  lemma EveryPromptWellFormed<T>(d: Discipline, env: Env<T>, history: seq<Message>, user: Message, sent: seq<Message>)
    requires env.assembly.Assembled? && AllSystem(env.assembly.sys)
    requires Form(history + [user]) && Single(user)
    requires RepliesAsAssistant(TurnSetup(d, env, history, user).Plain().model)
    requires Asked(sent) in TurnOf(d, env, history, user).events
    ensures Prepared(d, env.assembly.sys, history, user) <= sent
    ensures PromptForm(sent)
  {
    hide Form, LeadingSystem, ToolRounds, Prepared, StreamSetup.Events, Setup.TurnCount, Setup.Log, PromptForm;
    var s := TurnSetup(d, env, history, user);
    var n := s.Plain().TurnCount();
    SameCalls(s, n);
    AskedInCore(s.Events(n), sent);
    SentIsRounds(s.Plain(), n, sent);
    PreparedForm(d, env.assembly.sys, history, user);
    AppendRoundsToPrompt(s.input, sent);
  }

  lemma {:induction false} AskedInCore(events: seq<Event>, sent: seq<Message>)
    requires Asked(sent) in events
    ensures Asked(sent) in Core(events)
  {
    var last := events[|events| - 1];
    if last != Asked(sent) {
      AskedInCore(events[..|events| - 1], sent);
    }
  }

  /** When the history holds fixed points of the pruner and the budget is not exceeded, the
      model sees the history word for word. */
  lemma PreparedVerbatim(d: Discipline, sys: seq<Message>, history: seq<Message>, user: Message)
    requires forall i | 0 <= i < |history| :: Prune(d.pruner, history[i]) == history[i]
    ensures Assemble(d, sys, history, user) == sys + history + [user]
    ensures d.compactor.None? || Tokens(sys + history + [user]) <= d.compactor.value.Max() ==>
              Prepared(d, sys, history, user) == sys + history + [user]
  {
    hide Prune, Tokens, WithNotice, Notice;
    PruneAllShape(d.pruner, history);
    assert PruneAll(d.pruner, history) == history;
    assert Assemble(d, sys, history, user) == sys + history + [user];
    if d.compactor.Some? {
      CompactApplies(d.compactor.value, sys + history + [user], Estimate(d, sys + history + [user]));
      CompactOutcome(d.compactor.value, sys + history + [user], Estimate(d, sys + history + [user]));
    }
  }
}
