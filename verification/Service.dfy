/** Chat turns over the shared session store (runtime/service.go). */
module Service {
  import opened Text
  import opened Transcript
  import opened Grammar
  import opened Pruning
  import opened Compaction
  import opened Loop
  import opened Streaming
  import opened Session
  import opened Engine
  import ToolStream

  function MaxBreaker(configured: int): int {
    if configured > 0 then configured else 3
  }

  /** What a service is configured with; estimate and compactor are optional. */
  datatype Settings = Settings(
    maxMessages: int, compactor: Option<Threshold>, pruner: Pruner, estimate: Option<seq<Message> -> int>,
    maxTurns: int, maxConsecutiveFailures: int)
  {
    function Discipline(): Engine.Discipline {
      Engine.Discipline(compactor, pruner, estimate, maxTurns, MaxBreaker(maxConsecutiveFailures))
    }
  }

  // ---- turns as a state machine over the store ----

  /** A turn appends the user message, reads the session back, runs, and appends what the run added. */
  datatype Turn =
    | Opened(key: string)
    | Loaded(key: string, history: seq<Message>, tail: Message)
    | Closed

  datatype World = World(store: Sessions, turns: map<nat, Turn>)

  /** One mutex section of the store each; Close stands for the run and the final append. */
  datatype Action<!T> =
    | Open(id: nat, key: string, text: string)
    | Load(id: nat)
    | Close(id: nat, env: Env<T>)

  const EMPTY := World(map[], map[])

  /** The messages a turn adds to its session. */
  function Added<T>(s: Settings, env: Env<T>, history: seq<Message>, tail: Message): seq<Message> {
    match TurnOf(s.Discipline(), env, history, tail)
    case TurnFailed(_) => []
    case TurnRan(preLen, o, _) => if o.err == NoError && preLen <= |o.out| then o.out[preLen..] else []
  }

  function AppendTo(s: Settings, store: Sessions, key: string, msgs: seq<Message>): Sessions {
    if msgs == [] then store else Apply(s.maxMessages, store, AppendOp(key, msgs))
  }

  /** Actions that do not fit the turn's state have no effect. */
  function Step<T>(s: Settings, w: World, a: Action<T>): World {
    match a
    case Open(id, key, text) =>
      if id in w.turns then w
      else World(AppendTo(s, w.store, key, [UserMessage(text)]), w.turns[id := Opened(key)])
    case Load(id) =>
      if id !in w.turns || !w.turns[id].Opened? then w
      else
        var key := w.turns[id].key;
        var full := Lookup(w.store, key);
        if full == [] then w.(turns := w.turns[id := Closed])
        else w.(turns := w.turns[id := Loaded(key, full[..|full| - 1], full[|full| - 1])])
    case Close(id, env) =>
      if id !in w.turns || !w.turns[id].Loaded? then w
      else
        var t := w.turns[id];
        World(AppendTo(s, w.store, t.key, Added(s, env, t.history, t.tail)), w.turns[id := Closed])
  }

  function StepsFrom<T>(s: Settings, w: World, actions: seq<Action<T>>): World {
    if actions == [] then w else Step(s, StepsFrom(s, w, actions[..|actions| - 1]), actions[|actions| - 1])
  }

  /** Any interleaving of any number of turns, finished or not. */
  function Steps<T>(s: Settings, actions: seq<Action<T>>): World {
    StepsFrom(s, EMPTY, actions)
  }

  /** All models reply as the assistant; this is the only thing asked of the oracles. */
  ghost predicate AssistantsOnly<T>(a: Action<T>) {
    a.Close? ==> forall i: nat, sent: seq<Message> ::
      a.env.streamer(i, sent).reply.Reply? ==> a.env.streamer(i, sent).reply.assistant.role in {Assistant, Other("")}
  }

  // ---- the invariant ----

  predicate Fixed(p: Pruner, msgs: seq<Message>) {
    forall i | 0 <= i < |msgs| :: Prune(p, msgs[i]) == msgs[i]
  }

  /** A stored session: within bounds, of the conversation form, ending in a message that no tool
      result follows, and untouched by another pruning. */
  predicate SessionOK(s: Settings, h: seq<Message>) {
    h != [] && Form(h) && EndsSettled(h) && Fixed(s.pruner, h) && (s.maxMessages > 0 ==> |h| <= s.maxMessages)
  }

  predicate TurnOK(s: Settings, w: World, t: Turn) {
    match t
    case Opened(key) => key in w.store
    case Loaded(key, history, tail) =>
      key in w.store && Form(history) && Form(history + [tail]) && Single(tail) && Fixed(s.pruner, history)
    case Closed => true
  }

  predicate WorldOK(s: Settings, w: World) {
    (forall key | key in w.store :: SessionOK(s, w.store[key])) &&
    (forall id | id in w.turns :: TurnOK(s, w, w.turns[id]))
  }

  /** Complete blocks appended to a session, and whatever falls off its front, keep it in order. */
  lemma AppendKeepsSession(s: Settings, h: seq<Message>, d: seq<Message>)
    requires h == [] || SessionOK(s, h)
    requires d != [] && Blocks(d) && EndsSettled(d) && Fixed(s.pruner, d)
    ensures SessionOK(s, LastN(s.maxMessages, h + d))
  {
    hide Form, Blocks, Prune;
    var all := h + d;
    assert Form(all) by {
      if h == [] {
        assert all == d;
        BlocksAreForm(d);
      } else {
        FormAppend(h, d);
      }
    }
    assert all[|all| - 1] == d[|d| - 1];
    assert Fixed(s.pruner, all);
    var kept := LastN(s.maxMessages, all);
    var k := |all| - |kept|;
    assert kept == all[k..];
    SuffixKeepsForm(all, k);
    assert forall i | 0 <= i < |kept| :: kept[i] == all[k + i];
  }

  lemma UserMessageIsBlock(p: Pruner, text: string)
    ensures Blocks([UserMessage(text)]) && EndsSettled([UserMessage(text)]) && Fixed(p, [UserMessage(text)])
  {
    SingleIsBlocks(UserMessage(text));
    PruneShape(p, UserMessage(text));
  }

  lemma TurnDeltaIsBlocks(d: seq<Message>)
    requires TurnDelta(d)
    ensures Blocks(d) && EndsSettled(d)
  {
    hide ToolRounds, Blocks;
    var init, last := d[..|d| - 1], d[|d| - 1];
    assert d == init + [last];
    ToolRoundsAreBlocks(init);
    SingleIsBlocks(last);
    BlocksConcat(init, [last]);
  }

  /** A turn adds nothing, or complete tool rounds and one answer, all already pruned. */
  lemma AddedShape<T>(s: Settings, env: Env<T>, history: seq<Message>, tail: Message)
    requires AssistantsOnly(Close(0, env))
    ensures var d := Added(s, env, history, tail); d == [] || (TurnDelta(d) && Fixed(s.pruner, d))
  {
    hide Prepared, ToolRounds, Prune, Setup.RunOutcome, Setup.TurnCount, StreamSetup.Events;
    if env.assembly.Assembled? {
      var setup := TurnSetup(s.Discipline(), env, history, tail);
      var p := setup.Plain();
      if p.RunOutcome().err == NoError {
        SuccessDelta(p);
        SuccessPruned(p);
        var out := p.RunOutcome().out;
        var d := out[|p.input|..];
        assert forall i | 0 <= i < |d| :: d[i] == out[|p.input| + i];
      }
    }
  }

  lemma StepStore(s: Settings, w: World, key: string, d: seq<Message>)
    requires WorldOK(s, w)
    requires d == [] || (Blocks(d) && EndsSettled(d) && Fixed(s.pruner, d))
    ensures var store := AppendTo(s, w.store, key, d);
            && w.store.Keys <= store.Keys && (d != [] ==> key in store)
            && forall k | k in store :: SessionOK(s, store[k])
  {
    hide SessionOK, TurnOK, Blocks, Fixed;
    if d != [] {
      assert key in w.store ==> SessionOK(s, w.store[key]);
      AppendKeepsSession(s, Lookup(w.store, key), d);
    }
  }

  lemma StepKeepsOK<T>(s: Settings, w: World, a: Action<T>)
    requires WorldOK(s, w) && AssistantsOnly(a)
    ensures WorldOK(s, Step(s, w, a))
  {
    hide SessionOK, Added, AppendTo, Form, Blocks;
    match a
    case Open(id, key, text) =>
      UserMessageIsBlock(s.pruner, text);
      StepStore(s, w, key, [UserMessage(text)]);
    case Load(id) =>
      if id in w.turns && w.turns[id].Opened? {
        var key := w.turns[id].key;
        assert TurnOK(s, w, w.turns[id]);
        LoadSplits(s, w.store[key]);
      }
    case Close(id, env) =>
      if id in w.turns && w.turns[id].Loaded? {
        var t := w.turns[id];
        var d := Added(s, env, t.history, t.tail);
        AddedShape(s, env, t.history, t.tail);
        if d != [] {
          TurnDeltaIsBlocks(d);
        }
        StepStore(s, w, t.key, d);
      }
  }

  /** Taking the newest message off a stored session never cuts a tool round. */
  lemma LoadSplits(s: Settings, full: seq<Message>)
    requires SessionOK(s, full)
    ensures full != []
    ensures var history, tail := full[..|full| - 1], full[|full| - 1];
            Form(history) && Form(history + [tail]) && Single(tail) && Fixed(s.pruner, history)
  {
    hide Form, Prune;
    SplitTail(full);
    assert full[..|full| - 1] + [full[|full| - 1]] == full;
  }

  /** In every reachable state of every interleaving of turns, successful or failing, all stored
      sessions are in order, and so is everything a turn has read and not yet used. In particular
      a turn that has appended its message never finds its session empty. */
  lemma {:induction false} ReachableOK<T>(s: Settings, actions: seq<Action<T>>)
    requires forall a | a in actions :: AssistantsOnly(a)
    ensures WorldOK(s, Steps(s, actions))
  {
    hide WorldOK, Step;
    if actions == [] {
      EmptyOK(s);
    } else {
      var before := actions[..|actions| - 1];
      forall a | a in before ensures AssistantsOnly(a) {
        assert a in actions;
      }
      ReachableOK(s, before);
      StepKeepsOK(s, Steps(s, before), actions[|actions| - 1]);
    }
  }

  lemma EmptyOK(s: Settings)
    ensures WorldOK(s, EMPTY)
  {
  }

  /** In every reachable state, whatever turn runs next sends the model only well-formed prompts. */
  lemma ReachablePrompts<T>(s: Settings, actions: seq<Action<T>>, id: nat, env: Env<T>, sent: seq<Message>)
    requires forall a | a in actions :: AssistantsOnly(a)
    requires AssistantsOnly(Close(id, env))
    requires env.assembly.Assembled? && AllSystem(env.assembly.sys)
    requires var w := Steps(s, actions); id in w.turns && w.turns[id].Loaded?
    requires var t := Steps(s, actions).turns[id];
             Asked(sent) in TurnOf(s.Discipline(), env, t.history, t.tail).events
    ensures PromptForm(sent)
    ensures var t := Steps(s, actions).turns[id];
            Prepared(s.Discipline(), env.assembly.sys, t.history, t.tail) <= sent
  {
    hide Steps, TurnOf, Form, Prepared, PromptForm;
    ReachableOK(s, actions);
    var w := Steps(s, actions);
    var t := w.turns[id];
    assert TurnOK(s, w, t);
    EveryPromptWellFormed(s.Discipline(), env, t.history, t.tail, sent);
  }

  /** In every reachable state, pruning the history again changes nothing: within budget the model
      sees the stored messages word for word. */
  lemma ReachableVerbatim<T>(s: Settings, actions: seq<Action<T>>, id: nat, sys: seq<Message>)
    requires forall a | a in actions :: AssistantsOnly(a)
    requires var w := Steps(s, actions); id in w.turns && w.turns[id].Loaded?
    ensures var t := Steps(s, actions).turns[id];
            Assemble(s.Discipline(), sys, t.history, t.tail) == sys + t.history + [t.tail]
  {
    hide Steps;
    ReachableOK(s, actions);
    var w := Steps(s, actions);
    assert TurnOK(s, w, w.turns[id]);
    PreparedVerbatim(s.Discipline(), sys, w.turns[id].history, w.turns[id].tail);
  }

  // ---- what a session holds, and which message a turn works on ----

  /** What an action writes: the message of a new turn, or what a loaded turn added. */
  function WriteOf<T>(s: Settings, w: World, a: Action<T>): Option<Op> {
    match a
    case Open(id, key, text) =>
      if id in w.turns then None else Some(AppendOp(key, [UserMessage(text)]))
    case Load(_) => None
    case Close(id, env) =>
      if id !in w.turns || !w.turns[id].Loaded? then None
      else
        var t := w.turns[id];
        var d := Added(s, env, t.history, t.tail);
        if d == [] then None else Some(AppendOp(t.key, d))
  }

  /** All writes of a run, in order. */
  function Writes<T>(s: Settings, actions: seq<Action<T>>): seq<Op> {
    if actions == [] then []
    else
      var before := actions[..|actions| - 1];
      Writes(s, before) +
      match WriteOf(s, Steps(s, before), actions[|actions| - 1])
      case None => []
      case Some(op) => [op]
  }

  lemma StepWrites<T>(s: Settings, w: World, a: Action<T>)
    ensures Step(s, w, a).store ==
            match WriteOf(s, w, a)
            case None => w.store
            case Some(op) => Apply(s.maxMessages, w.store, op)
  {
    hide Added, Apply;
  }

  lemma {:induction false} StoreIsWrites<T>(s: Settings, actions: seq<Action<T>>)
    ensures Steps(s, actions).store == ApplyAll(s.maxMessages, Writes(s, actions))
  {
    hide Step, WriteOf, Apply;
    if actions != [] {
      var before, a := actions[..|actions| - 1], actions[|actions| - 1];
      StoreIsWrites(s, before);
      StepWrites(s, Steps(s, before), a);
      if WriteOf(s, Steps(s, before), a).None? {
        assert Writes(s, before) + [] == Writes(s, before);
      } else {
        var ops := Writes(s, actions);
        assert ops[..|ops| - 1] == Writes(s, before);
      }
    }
  }

  /** One user message, or complete tool rounds and one answer. */
  predicate WellFormedWrite(op: Op) {
    op.AppendOp? && ((|op.msgs| == 1 && op.msgs[0] == UserMessage(op.msgs[0].content)) || TurnDelta(op.msgs))
  }

  lemma WriteShape<T>(s: Settings, w: World, a: Action<T>)
    requires AssistantsOnly(a)
    ensures WriteOf(s, w, a).Some? ==> WellFormedWrite(WriteOf(s, w, a).value)
  {
    hide Added, TurnDelta, Fixed;
    match a
    case Open(_, _, text) =>
    case Load(_) =>
    case Close(id, env) =>
      if id in w.turns && w.turns[id].Loaded? {
        AddedShape(s, env, w.turns[id].history, w.turns[id].tail);
      }
  }

  lemma {:induction false} WritesShape<T>(s: Settings, actions: seq<Action<T>>)
    requires forall a | a in actions :: AssistantsOnly(a)
    ensures forall op | op in Writes(s, actions) :: WellFormedWrite(op)
  {
    hide WriteOf, WellFormedWrite, AssistantsOnly, Steps;
    if actions != [] {
      var before, a := actions[..|actions| - 1], actions[|actions| - 1];
      assert forall x | x in before :: x in actions;
      assert a in actions;
      WritesShape(s, before);
      WriteShape(s, Steps(s, before), a);
    }
  }

  /** In every reachable state a session is the newest part of the log of everything written to its
      key: the messages of opened turns and the complete deltas of successful ones, in the order of
      their appends, and nothing else. */
  lemma SessionIsLog<T>(s: Settings, actions: seq<Action<T>>, key: string)
    requires forall a | a in actions :: AssistantsOnly(a)
    ensures Lookup(Steps(s, actions).store, key) == LastN(s.maxMessages, Written(Writes(s, actions), key))
    ensures forall op | op in Writes(s, actions) :: WellFormedWrite(op)
  {
    hide Steps, Writes, ApplyAll, Written, WellFormedWrite, AssistantsOnly;
    StoreIsWrites(s, actions);
    StoreRefinesLog(s.maxMessages, Writes(s, actions), key);
    WritesShape(s, actions);
  }

  // ---- scopes ----

  /** Every turn is opened under the key of its scope. */
  predicate ScopedBy<T>(a: Action<T>, owner: nat -> Scope) {
    a.Open? ==> a.key == Key(owner(a.id))
  }

  /** All writes of a run, with the scope of the turn that wrote. */
  function ScopedWrites<T>(s: Settings, actions: seq<Action<T>>, owner: nat -> Scope): seq<ScopedWrite> {
    if actions == [] then []
    else
      var before, a := actions[..|actions| - 1], actions[|actions| - 1];
      ScopedWrites(s, before, owner) +
      match WriteOf(s, Steps(s, before), a)
      case None => []
      case Some(op) => [ScopedWrite(owner(a.id), op.msgs)]
  }

  /** Turns keep the key of their scope. */
  predicate TurnsScoped(w: World, owner: nat -> Scope) {
    forall id | id in w.turns ::
      match w.turns[id]
      case Opened(key) => key == Key(owner(id))
      case Loaded(key, _, _) => key == Key(owner(id))
      case Closed => true
  }

  lemma StepScoped<T>(s: Settings, w: World, a: Action<T>, owner: nat -> Scope)
    requires TurnsScoped(w, owner) && ScopedBy(a, owner)
    ensures TurnsScoped(Step(s, w, a), owner)
    ensures WriteOf(s, w, a).Some? ==> WriteOf(s, w, a).value == AppendOp(Key(owner(a.id)), WriteOf(s, w, a).value.msgs)
  {
    hide Added, AppendTo, Key;
  }

  lemma {:induction false} WritesAreScoped<T>(s: Settings, actions: seq<Action<T>>, owner: nat -> Scope)
    requires forall a | a in actions :: ScopedBy(a, owner)
    ensures TurnsScoped(Steps(s, actions), owner)
    ensures Writes(s, actions) == ToOps(ScopedWrites(s, actions, owner))
    ensures forall w | w in ScopedWrites(s, actions, owner) :: exists a :: a in actions && w.scope == owner(a.id)
  {
    hide Step, WriteOf, Key, TurnsScoped, ScopedBy;
    if actions == [] {
      NoTurnsScoped(owner);
    } else {
      var before, a := actions[..|actions| - 1], actions[|actions| - 1];
      assert forall x | x in before :: x in actions;
      assert a in actions;
      WritesAreScoped(s, before, owner);
      StepScoped(s, Steps(s, before), a, owner);
      var ws := ScopedWrites(s, before, owner);
      if WriteOf(s, Steps(s, before), a).None? {
        assert ws + [] == ws;
        assert Writes(s, before) + [] == Writes(s, before);
      } else {
        ToOpsSnoc(ws, ScopedWrite(owner(a.id), WriteOf(s, Steps(s, before), a).value.msgs));
      }
    }
  }

  lemma NoTurnsScoped(owner: nat -> Scope)
    ensures TurnsScoped(EMPTY, owner)
  {
  }

  /** In every reachable state a scope's session holds exactly the newest of what turns of that scope
      wrote, and nothing of any other scope: if its user and agent lack the separator, whatever the
      other turns' scopes are, or if no agent has one. */
  lemma SessionsNeverMix<T>(s: Settings, actions: seq<Action<T>>, owner: nat -> Scope, scope: Scope)
    requires forall a | a in actions :: ScopedBy(a, owner) && SEP !in owner(a.id).session
    requires SEP !in scope.agent && SEP !in scope.session
    requires SEP !in scope.user || forall a | a in actions :: SEP !in owner(a.id).agent
    ensures Lookup(Steps(s, actions).store, Key(scope)) ==
            LastN(s.maxMessages, WrittenTo(ScopedWrites(s, actions, owner), scope))
  {
    hide Steps, Writes, ApplyAll, ToOps, Key, ScopedBy, ScopedWrites, WrittenTo;
    StoreIsWrites(s, actions);
    WritesAreScoped(s, actions, owner);
    HistoriesNeverMix(s.maxMessages, ScopedWrites(s, actions, owner), scope);
  }

  /** Action a writes to key. */
  predicate WritesTo<T>(s: Settings, w: World, a: Action<T>, key: string) {
    WriteOf(s, w, a).Some? && WriteOf(s, w, a).value.key == key
  }

  /** The last of some actions to write to a key, and what it wrote. */
  datatype LastWrite<!T> = NoWrite | WriteBy(action: Action<T>, msgs: seq<Message>)

  function LastWriter<T>(s: Settings, w: World, actions: seq<Action<T>>, key: string): LastWrite<T> {
    if actions == [] then NoWrite
    else
      var before, a := actions[..|actions| - 1], actions[|actions| - 1];
      var w' := StepsFrom(s, w, before);
      if WritesTo(s, w', a, key) then WriteBy(a, WriteOf(s, w', a).value.msgs) else LastWriter(s, w, before, key)
  }

  /** The newest message of a session. */
  predicate EndsWith(store: Sessions, key: string, m: Message) {
    key in store && store[key] != [] && store[key][|store[key]| - 1] == m
  }

  /** The newest message is the last one that writer wrote, or a turn's own one if nobody has
      written since: another turn's message, or a finished turn's answer. */
  predicate NewestFrom<T>(store: Sessions, key: string, own: string, writer: LastWrite<T>) {
    match writer
    case NoWrite => EndsWith(store, key, UserMessage(own))
    case WriteBy(a, msgs) =>
      && msgs != [] && EndsWith(store, key, msgs[|msgs| - 1])
      && match a
         case Open(_, _, text) => msgs == [UserMessage(text)]
         case Load(_) => false
         case Close(_, _) => TurnDelta(msgs)
  }

  lemma AppendEnds(max: int, store: Sessions, key: string, msgs: seq<Message>)
    requires msgs != []
    ensures EndsWith(Apply(max, store, AppendOp(key, msgs)), key, msgs[|msgs| - 1])
  {
  }

  lemma StepNewest<T>(s: Settings, w: World, a: Action<T>, key: string, own: string, writer: LastWrite<T>)
    requires AssistantsOnly(a) && NewestFrom(w.store, key, own, writer)
    ensures NewestFrom(Step(s, w, a).store, key, own,
                       if WritesTo(s, w, a, key) then WriteBy(a, WriteOf(s, w, a).value.msgs) else writer)
  {
    hide Step, Added, Fixed, ToolRounds;
    StepWrites(s, w, a);
    match a
    case Open(id, k, text) =>
      AppendEnds(s.maxMessages, w.store, k, [UserMessage(text)]);
    case Load(_) =>
    case Close(id, env) =>
      if id in w.turns && w.turns[id].Loaded? {
        var t := w.turns[id];
        var d := Added(s, env, t.history, t.tail);
        AddedShape(s, env, t.history, t.tail);
        if d != [] {
          AppendEnds(s.maxMessages, w.store, t.key, d);
        }
      }
  }

  /** Until its own read nothing changes the state of an opened turn. */
  lemma StepKeepsOpened<T>(s: Settings, w: World, a: Action<T>, id: nat, key: string)
    requires id in w.turns && w.turns[id] == Opened(key) && a != Load(id)
    ensures var w' := Step(s, w, a); id in w'.turns && w'.turns[id] == Opened(key)
  {
    hide Added, AppendTo;
  }

  lemma {:induction false} NewestAfter<T>(s: Settings, w: World, actions: seq<Action<T>>, id: nat, key: string, own: string)
    requires id in w.turns && w.turns[id] == Opened(key) && EndsWith(w.store, key, UserMessage(own))
    requires forall a | a in actions :: AssistantsOnly(a) && !(a.Load? && a.id == id)
    ensures var w' := StepsFrom(s, w, actions);
            && id in w'.turns && w'.turns[id] == Opened(key)
            && NewestFrom(w'.store, key, own, LastWriter(s, w, actions, key))
  {
    hide Step, WritesTo, AssistantsOnly;
    if actions != [] {
      var before, a := actions[..|actions| - 1], actions[|actions| - 1];
      assert forall x | x in before :: x in actions;
      assert a in actions;
      NewestAfter(s, w, before, id, key, own);
      var w' := StepsFrom(s, w, before);
      StepKeepsOpened(s, w', a, id, key);
      StepNewest(s, w', a, key, own, LastWriter(s, w, before, key));
    }
  }

  lemma OpenEnds<T>(s: Settings, w: World, id: nat, key: string, text: string)
    requires id !in w.turns
    ensures var open: Action<T> := Open(id, key, text);
            var w' := Step(s, w, open);
            id in w'.turns && w'.turns[id] == Opened(key) && EndsWith(w'.store, key, UserMessage(text))
  {
    AppendEnds(s.maxMessages, w.store, key, [UserMessage(text)]);
  }

  /** The world in which a turn has opened, actions have happened, and the turn has read. */
  function LoadedAfter<T>(s: Settings, w: World, id: nat, key: string, text: string, actions: seq<Action<T>>): World {
    var open: Action<T> := Open(id, key, text);
    var load: Action<T> := Load(id);
    Step(s, StepsFrom(s, Step(s, w, open), actions), load)
  }

  /** Who wrote to key last while the turn waited between its append and its read. */
  function Overtaker<T>(s: Settings, w: World, id: nat, key: string, text: string, actions: seq<Action<T>>): LastWrite<T> {
    var open: Action<T> := Open(id, key, text);
    LastWriter(s, Step(s, w, open), actions, key)
  }

  /** Which message a turn works on, in every world and for everything that happens between its
      append and its read: its own if and only if no action has written to its session, or the last
      one to do so has opened a turn with the same text. Otherwise it is the last message of the last
      write: another turn's user message, or, exactly when that write finished a turn, its answer. */
  lemma TailIsNewest<T>(s: Settings, w: World, id: nat, key: string, text: string, actions: seq<Action<T>>)
    requires id !in w.turns
    requires forall a | a in actions :: AssistantsOnly(a) && !(a.Load? && a.id == id)
    ensures var w' := LoadedAfter(s, w, id, key, text, actions);
            var writer := Overtaker(s, w, id, key, text, actions);
            && id in w'.turns && w'.turns[id].Loaded?
            && var tail := w'.turns[id].tail;
               && (tail == UserMessage(text) <==> writer.NoWrite? || (writer.action.Open? && writer.action.text == text))
               && (writer.WriteBy? ==> writer.msgs != [] && tail == writer.msgs[|writer.msgs| - 1])
               && (writer.WriteBy? && writer.action.Open? ==> tail == UserMessage(writer.action.text))
               && (tail.role == Assistant <==> writer.WriteBy? && writer.action.Close?)
  {
    hide StepsFrom, LastWriter, AssistantsOnly, ToolRounds;
    var open: Action<T> := Open(id, key, text);
    OpenEnds<T>(s, w, id, key, text);
    NewestAfter(s, Step(s, w, open), actions, id, key, text);
  }

  /** So a turn works on its own message whenever nobody else writes to its session meanwhile ... */
  lemma OwnTail<T>(s: Settings, w: World, id: nat, key: string, text: string, actions: seq<Action<T>>)
    requires id !in w.turns
    requires forall a | a in actions :: AssistantsOnly(a) && !(a.Load? && a.id == id)
    requires Overtaker(s, w, id, key, text, actions).NoWrite?
    ensures var w' := LoadedAfter(s, w, id, key, text, actions);
            id in w'.turns && w'.turns[id].Loaded? && w'.turns[id].tail == UserMessage(text)
  {
    hide StepsFrom, LastWriter;
    TailIsNewest(s, w, id, key, text, actions);
  }

  /** ... on another turn's message when that is opened last on the same session ... */
  lemma OvertakenTail<T>(s: Settings, w: World, id: nat, key: string, text: string, actions: seq<Action<T>>, other: nat, otherText: string)
    requires id !in w.turns
    requires forall a | a in actions :: AssistantsOnly(a) && !(a.Load? && a.id == id)
    requires var open: Action<T> := Open(id, key, text); other !in StepsFrom(s, Step(s, w, open), actions).turns
    ensures var overtake: Action<T> := Open(other, key, otherText);
            var w' := LoadedAfter(s, w, id, key, text, actions + [overtake]);
            id in w'.turns && w'.turns[id].Loaded? && w'.turns[id].tail == UserMessage(otherText)
  {
    hide StepsFrom, Added;
    var overtake: Action<T> := Open(other, key, otherText);
    LastOfSnoc(s, w, id, key, text, actions, overtake);
    TailIsNewest(s, w, id, key, text, actions + [overtake]);
  }

  /** ... and on another turn's answer when that turn finishes last on the same session. */
  lemma AnswerAsTail<T>(s: Settings, w: World, id: nat, key: string, text: string, actions: seq<Action<T>>, other: nat, env: Env<T>)
    requires id !in w.turns && AssistantsOnly(Close(other, env))
    requires forall a | a in actions :: AssistantsOnly(a) && !(a.Load? && a.id == id)
    requires var open: Action<T> := Open(id, key, text);
             var w1 := StepsFrom(s, Step(s, w, open), actions);
             && other in w1.turns && w1.turns[other].Loaded? && w1.turns[other].key == key
             && Added(s, env, w1.turns[other].history, w1.turns[other].tail) != []
    ensures var open: Action<T> := Open(id, key, text);
            var t := StepsFrom(s, Step(s, w, open), actions).turns[other];
            var d := Added(s, env, t.history, t.tail);
            var w' := LoadedAfter(s, w, id, key, text, actions + [Close(other, env)]);
            && id in w'.turns && w'.turns[id].Loaded?
            && w'.turns[id].tail == d[|d| - 1] && w'.turns[id].tail.role == Assistant
  {
    hide StepsFrom, Added;
    LastOfSnoc(s, w, id, key, text, actions, Close(other, env));
    TailIsNewest(s, w, id, key, text, actions + [Close(other, env)]);
  }

  lemma LastOfSnoc<T>(s: Settings, w: World, id: nat, key: string, text: string, actions: seq<Action<T>>, a: Action<T>)
    ensures var open: Action<T> := Open(id, key, text);
            var w1 := StepsFrom(s, Step(s, w, open), actions);
            WritesTo(s, w1, a, key) ==>
              Overtaker(s, w, id, key, text, actions + [a]) == WriteBy(a, WriteOf(s, w1, a).value.msgs)
  {
    hide StepsFrom, WriteOf, Step;
    assert (actions + [a])[..|actions|] == actions;
  }

  // ---- the sequential method ----

  datatype ChatError = NoChatError | InvalidScope | EmptySession | AssemblyFailed(msg: string) | LoopFailed(err: LoopError)

  predicate WroteAssistant(finalText: string, delta: seq<Message>) {
    TrimSpace(finalText) != "" ||
    exists m | m in delta :: m.role == Assistant && TrimSpace(m.content) != ""
  }

  /** The test for a visible answer: the final text, else the first assistant message of the delta with one. */
  method FindAssistantText(finalText: string, delta: seq<Message>) returns (wroteAssistant: bool)
    ensures wroteAssistant == WroteAssistant(finalText, delta)
  {
    hide TrimSpace;
    wroteAssistant := TrimSpace(finalText) != "";
    if !wroteAssistant {
      for i := 0 to |delta|
        invariant forall j | 0 <= j < i :: !(delta[j].role == Assistant && TrimSpace(delta[j].content) != "")
      {
        if delta[i].role == Assistant && TrimSpace(delta[i].content) != "" {
          return true;
        }
      }
    }
  }

  /** What the client receives for a finished run. */
  function ClientView<T>(r: TurnResult<T>): seq<ClientMsg> {
    match r
    case TurnFailed(_) => []
    case TurnRan(preLen, o, events) =>
      DeliverAll(events) +
      if o.err == NoError && preLen <= |o.out| && !WroteAssistant(o.text, o.out[preLen..]) then [NoVisibleReply] else []
  }

  lemma NoticeIsQuiet(c: Screen, ms: seq<ClientMsg>)
    ensures ReceiveAll(c, ms + [NoVisibleReply]) == ReceiveAll(c, ms)
  {
    assert (ms + [NoVisibleReply])[..|ms|] == ms;
  }

  /** End to end: after everything a turn sends, the client shows one segment per reply with exactly
      its visible text, and what was streamed of a reply that failed. */
  lemma ClientSeesReplies<T>(s: Settings, env: Env<T>, history: seq<Message>, tail: Message)
    requires env.assembly.Assembled? && env.hooks == ALL_HOOKS
    requires var setup := TurnSetup(s.Discipline(), env, history, tail);
             forall j | 0 <= j < setup.Plain().TurnCount() :: Faithful(setup.StreamedAt(j))
    ensures ReceiveAll(Screen([], ""), ClientView(TurnOf(s.Discipline(), env, history, tail))) ==
            FinalScreen(TurnSetup(s.Discipline(), env, history, tail))
  {
    hide Prepared, DeliverAll, ReceiveAll, Show, FinalScreen, Faithful, WroteAssistant, StreamSetup.Events, StreamSetup.StreamedAt,
      Setup.TurnCount, Setup.RunOutcome;
    var setup := TurnSetup(s.Discipline(), env, history, tail);
    RunOnScreen(setup);
    var events := setup.Events(setup.Plain().TurnCount());
    ShowIsDelivery(Screen([], ""), events);
    NoticeIsQuiet(Screen([], ""), DeliverAll(events));
    assert DeliverAll(events) + [] == DeliverAll(events);
  }

  /** With the streaming model client nothing need be asked of the deltas: whatever lines the model
      sends at each call, the client shows exactly the visible text of its replies. */
  lemma StreamChatOnScreen<T>(s: Settings, env: Env<T>, history: seq<Message>, tail: Message,
                              lines: (nat, seq<Message>) -> seq<ToolStream.Line>)
    requires env.assembly.Assembled? && env.hooks == ALL_HOOKS
    requires forall i: nat, sent: seq<Message> :: env.streamer(i, sent) == ToolStream.AsStreamed(lines(i, sent))
    ensures ReceiveAll(Screen([], ""), ClientView(TurnOf(s.Discipline(), env, history, tail))) ==
            FinalScreen(TurnSetup(s.Discipline(), env, history, tail))
  {
    hide Prepared, DeliverAll, ReceiveAll, FinalScreen, Faithful, Setup.TurnCount, Setup.At, ClientView, TurnOf, ToolStream.AsStreamed;
    var setup := TurnSetup(s.Discipline(), env, history, tail);
    forall j | 0 <= j < setup.Plain().TurnCount() ensures Faithful(setup.StreamedAt(j)) {
      ToolStream.StreamChatIsFaithful(lines(j, setup.Plain().At(j).out));
    }
    ClientSeesReplies(s, env, history, tail);
  }

  /** The store after the three steps of one turn in a row. */
  function Uninterrupted<T>(s: Settings, store: Sessions, key: string, text: string, env: Env<T>): Sessions {
    var open: Action<T> := Open(0, key, text);
    var load: Action<T> := Load(0);
    Step(s, Step(s, Step(s, World(store, map[]), open), load), Close(0, env)).store
  }

  /** What the turn reads back right after its own append. */
  function ReadBack(s: Settings, store: Sessions, key: string, text: string): seq<Message> {
    LastN(s.maxMessages, Lookup(store, key) + [UserMessage(text)])
  }

  lemma UninterruptedSteps<T>(s: Settings, store: Sessions, key: string, text: string, env: Env<T>)
    ensures var full := ReadBack(s, store, key, text);
            && full != []
            && Uninterrupted(s, store, key, text, env) ==
               AppendTo(s, store[key := full], key, Added(s, env, full[..|full| - 1], full[|full| - 1]))
  {
    ReadBackNotEmpty(s, store, key, text);
    hide Added, LastN, AppendTo;
    var open: Action<T> := Open(0, key, text);
    var load: Action<T> := Load(0);
    var full := ReadBack(s, store, key, text);
    OwnAppend(s, store, key, text);
    var w1 := Step(s, World(store, map[]), open);
    assert w1 == World(store[key := full], map[0 := Opened(key)]);
    var w2 := Step(s, w1, load);
    assert w2 == World(store[key := full], map[0 := Loaded(key, full[..|full| - 1], full[|full| - 1])]);
  }

  /** Only the turn's session changes, and it ends with what the turn added. */
  lemma UninterruptedSession<T>(s: Settings, store: Sessions, key: string, text: string, env: Env<T>)
    ensures var full := ReadBack(s, store, key, text);
            var store' := Uninterrupted(s, store, key, text, env);
            && full != []
            && Lookup(store', key) == LastN(s.maxMessages, full + Added(s, env, full[..|full| - 1], full[|full| - 1]))
            && forall k | k != key :: Lookup(store', k) == Lookup(store, k)
  {
    hide Added, Uninterrupted, LastN;
    UninterruptedSteps(s, store, key, text, env);
    var full := ReadBack(s, store, key, text);
    ReadBackFits(s, store, key, text);
    assert full + [] == full;
  }

  lemma ReadBackFits(s: Settings, store: Sessions, key: string, text: string)
    ensures LastN(s.maxMessages, ReadBack(s, store, key, text)) == ReadBack(s, store, key, text)
  {
  }

  lemma ReadBackNotEmpty(s: Settings, store: Sessions, key: string, text: string)
    ensures ReadBack(s, store, key, text) != []
  {
  }

  lemma OwnAppend(s: Settings, store: Sessions, key: string, text: string)
    ensures AppendTo(s, store, key, [UserMessage(text)]) == store[key := ReadBack(s, store, key, text)]
  {
  }

  class ChatService {
    const sessions: Store
    const settings: Settings
    const user: string
    const agent: string

    constructor (sessions: Store, settings: Settings, user: string, agent: string)
      ensures this.sessions == sessions && this.settings == settings && this.user == user && this.agent == agent
    {
      this.sessions := sessions;
      this.settings := settings;
      this.user := user;
      this.agent := agent;
    }

    /** One turn without interference on a session: the three steps of the state machine in a row. A
        failed turn leaves the user message and nothing else. */
    method RunTurn<T>(stmKey: string, userText: string, env: Env<T>) returns (err: ChatError, client: seq<ClientMsg>)
      requires sessions.maxMessages == settings.maxMessages
      requires env.hooks == ALL_HOOKS
      modifies sessions`sessions
      ensures err != InvalidScope
      ensures sessions.sessions == Uninterrupted(settings, old(sessions.sessions), stmKey, userText, env)
      ensures Answered(settings, LastN(settings.maxMessages, Lookup(old(sessions.sessions), stmKey) + [Message(User, userText, [], "")]),
                       env, err, client)
    {
      hide TurnOf, DeliverAll, WroteAssistant, Prepared, TrimSpace, Uninterrupted, LastN, Added, Settings.Discipline;
      client := [];
      UninterruptedSteps(settings, sessions.sessions, stmKey, userText, env);
      sessions.Append(stmKey, [UserMessage(userText)]);
      var full := sessions.Get(stmKey);
      if |full| == 0 {
        return EmptySession, client;
      }
      var history := full[..|full| - 1];
      var userTail := full[|full| - 1];
      var r := RunStreamedToolLoop(settings.Discipline(), env, history, userTail);
      AddedCases(settings, env, history, userTail);
      match r {
        case TurnFailed(msg) =>
          err := AssemblyFailed(msg);
        case TurnRan(preLen, o, events) =>
          client := DeliverAll(events);
          if o.err != NoError {
            return LoopFailed(o.err), client;
          }
          var delta := o.out[preLen..];
          var wroteAssistant := FindAssistantText(o.text, delta);
          if !wroteAssistant {
            client := client + [NoVisibleReply];
          }
          if |delta| > 0 {
            sessions.Append(stmKey, delta);
          }
          err := NoChatError;
      }
    }

    /** A turn runs on the session of its resolved scope and on no other; an invalid scope touches none. */
    method ChatStream<T>(sessionID: string, userText: string, connUser: string, connAgent: string, env: Env<T>)
      returns (err: ChatError, client: seq<ClientMsg>)
      requires sessions.maxMessages == settings.maxMessages
      requires env.hooks == ALL_HOOKS
      modifies sessions`sessions
      ensures var u, a := Override(user, connUser), Override(agent, connAgent);
              err == InvalidScope <==> !(u != "" && ByteLen(u) <= 128 && a != "" && ByteLen(a) <= 128)
      ensures err == InvalidScope ==> sessions.sessions == old(sessions.sessions) && client == []
      ensures err != InvalidScope ==>
                var key := Key(Scope(Override(user, connUser), Override(agent, connAgent), sessionID));
                var full := LastN(settings.maxMessages, Lookup(old(sessions.sessions), key) + [Message(User, userText, [], "")]);
                && Answered(settings, full, env, err, client)
                && Lookup(sessions.sessions, key) ==
                   LastN(settings.maxMessages, full + Added(settings, env, full[..|full| - 1], full[|full| - 1]))
                && sessions.sessions == Uninterrupted(settings, old(sessions.sessions), key, userText, env)
                && forall k | k != key :: Lookup(sessions.sessions, k) == Lookup(old(sessions.sessions), k)
    {
      hide TrimSpace, ByteLen, Override, Uninterrupted, ScopedChatSessionKey, TurnOf, LastN, Added, ClientView, Settings.Discipline;
      var scopeUser, scopeAgent := Override(user, connUser), Override(agent, connAgent);
      if !ValidScope(scopeUser, scopeAgent) {
        return InvalidScope, [];
      }
      var stmKey := ScopedChatSessionKey(scopeUser, scopeAgent, sessionID);
      UninterruptedSession(settings, sessions.sessions, stmKey, userText, env);
      err, client := RunTurn(stmKey, userText, env);
    }
  }

  lemma AddedCases<T>(s: Settings, env: Env<T>, history: seq<Message>, tail: Message)
    ensures match TurnOf(s.Discipline(), env, history, tail)
            case TurnFailed(_) => Added(s, env, history, tail) == []
            case TurnRan(preLen, o, _) =>
              && preLen <= |o.out|
              && Added(s, env, history, tail) == if o.err == NoError then o.out[preLen..] else []
  {
    hide TurnOf, Prepared, Settings.Discipline;
    InputIsPrefix(s.Discipline(), env, history, tail);
  }

  /** The error and the client's messages are those of the run on the session as read back. */
  predicate Answered<T>(s: Settings, full: seq<Message>, env: Env<T>, err: ChatError, client: seq<ClientMsg>) {
    full != [] &&
    var r := TurnOf(s.Discipline(), env, full[..|full| - 1], full[|full| - 1]);
    && client == ClientView(r)
    && err == match r
              case TurnFailed(msg) => AssemblyFailed(msg)
              case TurnRan(_, o, _) => if o.err == NoError then NoChatError else LoopFailed(o.err)
  }

  /** The prepared prompt stays in front of every run's transcript, whatever the model does. */
  lemma InputIsPrefix<T>(d: Discipline, env: Env<T>, history: seq<Message>, user: Message)
    ensures var r := TurnOf(d, env, history, user);
            && (r.TurnRan? <==> env.assembly.Assembled?)
            && (r.TurnRan? ==>
                  && r.preLen == |Prepared(d, env.assembly.sys, history, user)|
                  && Prepared(d, env.assembly.sys, history, user) <= r.outcome.out)
  {
    hide Prepared, Setup.TurnCount, StreamSetup.Events, Setup.At, Setup.StopFrom, TrimSpace, RunBatch;
    if env.assembly.Assembled? {
      var p := TurnSetup(d, env, history, user).Plain();
      OutGrows(p, p.StopFrom(0));
      OutGrows(p, p.StopFrom(0) + 1);
    }
  }

  lemma {:induction false} OutGrows<T>(s: Setup<T>, n: nat)
    ensures s.input <= s.At(n).out
  {
    if n > 0 {
      OutGrows(s, n - 1);
    }
  }
}
