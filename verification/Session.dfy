/** The in-memory session store (session/store.go), the key it is addressed by
    (runtime/scoped_session.go) and the checks its parts pass (identity/scope.go, ws/limits.go). */
module Session {
  import opened Text
  import opened Transcript

  type Sessions = map<string, seq<Message>>

  const DEFAULT_MAX_MESSAGES := 60

  function Lookup(m: Sessions, key: string): seq<Message> {
    if key in m then m[key] else []
  }

  /** The newest max messages; a non-positive max keeps everything. */
  function LastN(max: int, s: seq<Message>): seq<Message> {
    if max <= 0 || |s| <= max then s else s[|s| - max..]
  }

  /** The newest messages, in order: as many as there are, or as the limit allows. */
  lemma LastNMeans(max: int, s: seq<Message>)
    ensures |LastN(max, s)| == (if max <= 0 || |s| <= max then |s| else max)
    ensures LastN(max, s) == s[|s| - |LastN(max, s)|..]
  {
  }

  class Store {
    var sessions: Sessions
    var maxMessages: int

    constructor ()
      ensures sessions == map[] && maxMessages == 60
    {
      sessions := map[];
      maxMessages := DEFAULT_MAX_MESSAGES;
    }

    method Get(sessionID: string) returns (out: seq<Message>)
      ensures out == if sessionID in sessions then sessions[sessionID] else []
    {
      out := if sessionID in sessions then sessions[sessionID] else [];
    }

    method Append(sessionID: string, msgs: seq<Message>)
      modifies this`sessions
      ensures sessions == Apply(maxMessages, old(sessions), AppendOp(sessionID, msgs))
      ensures sessions == old(sessions)[
                sessionID := LastN(maxMessages, (if sessionID in old(sessions) then old(sessions)[sessionID] else []) + msgs)]
    {
      var before := Get(sessionID);
      sessions := sessions[sessionID := before + msgs];
      TrimLocked(sessionID);
    }

    method Replace(sessionID: string, msgs: seq<Message>)
      modifies this`sessions
      ensures sessions == Apply(maxMessages, old(sessions), ReplaceOp(sessionID, msgs))
      ensures sessions == old(sessions)[sessionID := LastN(maxMessages, msgs)]
    {
      sessions := sessions[sessionID := msgs];
      TrimLocked(sessionID);
    }

    method TrimLocked(sessionID: string)
      modifies this`sessions
      ensures sessions == if sessionID in old(sessions)
                          then old(sessions)[sessionID := LastN(maxMessages, old(sessions)[sessionID])]
                          else old(sessions)
    {
      var max := maxMessages;
      if max <= 0 {
        assert sessionID in sessions ==> sessions == sessions[sessionID := sessions[sessionID]];
        return;
      }
      var msgs := Get(sessionID);
      if |msgs| <= max {
        assert sessionID in sessions ==> sessions == sessions[sessionID := sessions[sessionID]];
        return;
      }
      var start := |msgs| - max;
      sessions := sessions[sessionID := msgs[start..]];
    }
  }

  // ---- the store refines an unbounded log per key ----

  datatype Op = AppendOp(key: string, msgs: seq<Message>) | ReplaceOp(key: string, msgs: seq<Message>)

  function Apply(max: int, m: Sessions, op: Op): Sessions {
    match op
    case AppendOp(key, msgs) => m[key := LastN(max, Lookup(m, key) + msgs)]
    case ReplaceOp(key, msgs) => m[key := LastN(max, msgs)]
  }

  function ApplyAll(max: int, ops: seq<Op>): Sessions {
    if ops == [] then map[] else Apply(max, ApplyAll(max, ops[..|ops| - 1]), ops[|ops| - 1])
  }

  /** Everything written to key since its last Replace, in order. */
  function Written(ops: seq<Op>, key: string): seq<Message> {
    if ops == [] then []
    else
      var before := Written(ops[..|ops| - 1], key);
      match ops[|ops| - 1]
      case AppendOp(k, msgs) => if k == key then before + msgs else before
      case ReplaceOp(k, msgs) => if k == key then msgs else before
  }

  lemma TrimTwice(max: int, a: seq<Message>, b: seq<Message>)
    ensures LastN(max, LastN(max, a) + b) == LastN(max, a + b)
  {
  }

  /** After any run of operations over any keys, a session holds exactly the newest messages of its log. */
  lemma {:induction false} StoreRefinesLog(max: int, ops: seq<Op>, key: string)
    ensures Lookup(ApplyAll(max, ops), key) == LastN(max, Written(ops, key))
  {
    if ops != [] {
      var before, op := ops[..|ops| - 1], ops[|ops| - 1];
      StoreRefinesLog(max, before, key);
      if op.key == key && op.AppendOp? {
        TrimTwice(max, Written(before, key), op.msgs);
      }
    }
  }

  // ---- scoped keys ----

  const SEP: char := '\U{1f}'

  datatype Scope = Scope(user: string, agent: string, session: string)

  function ScopedChatSessionKey(user: string, agent: string, session: string): string {
    user + [SEP] + agent + [SEP] + session
  }

  function Key(s: Scope): string {
    ScopedChatSessionKey(s.user, s.agent, s.session)
  }

  /** The three parts joined by the unit separator. */
  lemma KeyIsJoined(s: Scope)
    ensures Key(s) == s.user + "\U{1f}" + s.agent + "\U{1f}" + s.session
  {
    assert "\U{1f}" == [SEP];
  }

  lemma SeparatorAt(x: string, s: string)
    ensures var w := x + [SEP] + s;
            && w[|x|] == SEP && w[..|x|] == x && w[|x| + 1..] == s
            && (SEP !in s ==> forall i | |x| < i < |w| :: w[i] != SEP)
            && (SEP !in x ==> forall i | 0 <= i < |x| :: w[i] != SEP)
  {
    var w := x + [SEP] + s;
    forall i | |x| < i < |w| ensures w[i] in s {
      assert w[i] == s[i - |x| - 1];
    }
    forall i | 0 <= i < |x| ensures w[i] in x {
      assert w[i] == x[i];
    }
  }

  /** The part after the last separator is determined. */
  lemma SplitLast(x: string, s: string, y: string, t: string)
    requires SEP !in s && SEP !in t
    requires x + [SEP] + s == y + [SEP] + t
    ensures x == y && s == t
  {
    SeparatorAt(x, s);
    SeparatorAt(y, t);
  }

  predicate Clean(s: Scope) {
    SEP !in s.agent && SEP !in s.session
  }

  /** Scopes whose agent and session parts lack the separator never share a key. */
  lemma KeyInjective(a: Scope, b: Scope)
    requires Clean(a) && Clean(b)
    ensures Key(a) == Key(b) <==> a == b
  {
    if Key(a) == Key(b) {
      SplitLast(a.user + [SEP] + a.agent, a.session, b.user + [SEP] + b.agent, b.session);
      SplitLast(a.user, a.agent, b.user, b.agent);
    }
  }

  lemma OnlySeparator(x: string, s: string, y: string, t: string)
    requires SEP !in x && SEP !in s
    requires x + [SEP] + s == y + [SEP] + t
    ensures x == y && s == t
  {
    SeparatorAt(x, s);
    SeparatorAt(y, t);
  }

  /** A scope whose parts lack the separator shares its key with no other scope whose session part
      lacks it, whatever the other's user and agent are. */
  lemma PlainKeyIsOwn(a: Scope, b: Scope)
    requires SEP !in a.user && SEP !in a.agent && SEP !in a.session && SEP !in b.session
    ensures Key(a) == Key(b) <==> a == b
  {
    if Key(a) == Key(b) {
      SplitLast(a.user + [SEP] + a.agent, a.session, b.user + [SEP] + b.agent, b.session);
      OnlySeparator(a.user, a.agent, b.user, b.agent);
    }
  }

  // ---- accepted scopes ----

  const MAX_TENANT_FIELD_LEN := 128

  predicate ValidScope(user: string, agent: string) {
    user != "" && ByteLen(user) <= MAX_TENANT_FIELD_LEN && agent != "" && ByteLen(agent) <= MAX_TENANT_FIELD_LEN
  }

  const MAX_SESSION_ID_LEN := 128

  /** The gateway checks the trimmed identifier and uses it as it came. */
  predicate ValidSessionID(id: string) {
    var t := TrimSpace(id);
    t != "" && ByteLen(t) <= MAX_SESSION_ID_LEN && '\U{1f}' !in t && '\n' !in t && '\r' !in t
  }

  predicate Accepted(s: Scope) {
    ValidScope(s.user, s.agent) && ValidSessionID(s.session)
  }

  lemma {:induction false} TrimLeftKeepsSeparator(s: string)
    ensures SEP in s ==> SEP in TrimLeft(s)
  {
    if s != "" && IsSpace(s[0]) {
      TrimLeftKeepsSeparator(s[1..]);
      assert s == [s[0]] + s[1..];
    }
  }

  lemma {:induction false} TrimRightKeepsSeparator(s: string)
    ensures SEP in s ==> SEP in TrimRight(s)
  {
    if s != "" && IsSpace(s[|s| - 1]) {
      TrimRightKeepsSeparator(s[..|s| - 1]);
      assert s == s[..|s| - 1] + [s[|s| - 1]];
    }
  }

  /** Trimming does not hide a separator: no accepted session identifier has one, trimmed or not. */
  lemma ValidSessionHasNoSeparator(id: string)
    requires ValidSessionID(id)
    ensures SEP !in id
  {
    TrimLeftKeepsSeparator(id);
    TrimRightKeepsSeparator(TrimLeft(id));
  }

  /** What trimming takes off at both ends. */
  function TrimmedOff(s: string): string {
    var l := TrimLeft(s);
    s[..|s| - |l|] + l[|TrimRight(l)|..]
  }

  /** Trimming only takes white space off, at both ends. */
  lemma TrimParts(s: string)
    ensures forall c | c in TrimmedOff(s) :: IsSpace(c)
    ensures forall c :: c in s <==> c in TrimSpace(s) || c in TrimmedOff(s)
  {
    hide IsSpace, TrimLeft, TrimRight;
    var l := TrimLeft(s);
    TrimLeftIsSuffix(s);
    TrimRightIsPrefix(l);
    assert s == s[..|s| - |l|] + l;
    assert l == TrimRight(l) + l[|TrimRight(l)|..];
  }

  /** The check rejects line breaks in the trimmed identifier, and the raw one is used: an accepted
      identifier contains a line break if and only if trimming takes one off. */
  lemma LineBreakKept(id: string, c: char)
    requires ValidSessionID(id) && (c == '\n' || c == '\r')
    ensures c in id <==> c in TrimmedOff(id)
  {
    hide TrimmedOff, TrimSpace;
    TrimParts(id);
  }

  /** An accepted identifier that begins with a line break. */
  lemma LineBreakAccepted()
    ensures ValidSessionID("\ns") && '\n' in "\ns"
  {
    var id := "\ns";
    assert id[1..] == "s" && id[0] == '\n';
    Untrimmed("s");
    ByteLenBound("s", 4);
  }

  /** w can be cut at a separator at i into a user and an agent that pass validation. */
  predicate ValidCut(w: string, i: int) {
    0 <= i < |w| && w[i] == SEP && ValidScope(w[..i], w[i + 1..])
  }

  /** Two scopes with one key cut their common text at different separators. */
  lemma SharedCut(a: Scope, b: Scope)
    requires SEP !in a.session && SEP !in b.session && Key(a) == Key(b)
    ensures var w := a.user + [SEP] + a.agent;
            && |b.user| < |w| && w[|b.user|] == SEP && w[..|b.user|] == b.user && w[|b.user| + 1..] == b.agent
            && (b != a ==> |b.user| != |a.user|)
  {
    SplitLast(a.user + [SEP] + a.agent, a.session, b.user + [SEP] + b.agent, b.session);
    CutOf(a.user, a.agent);
    CutOf(b.user, b.agent);
  }

  lemma CutShares(a: Scope, i: int)
    requires var w := a.user + [SEP] + a.agent; 0 <= i < |w| && w[i] == SEP && i != |a.user|
    ensures var w := a.user + [SEP] + a.agent;
            var b := Scope(w[..i], w[i + 1..], a.session);
            b != a && Key(b) == Key(a)
  {
    var w := a.user + [SEP] + a.agent;
    assert w == w[..i] + [SEP] + w[i + 1..];
  }

  /** Session identifiers are checked for the separator, user and agent identifiers are not: an
      accepted scope shares its key with another accepted scope if and only if its user and agent,
      joined by the separator, have another separator that also cuts them into a valid pair. */
  lemma KeyShared(a: Scope)
    requires Accepted(a)
    ensures (exists b: Scope :: Accepted(b) && b != a && Key(b) == Key(a)) <==>
            exists i :: i != |a.user| && ValidCut(a.user + [SEP] + a.agent, i)
  {
    hide ValidScope, ValidSessionID, Key;
    var w := a.user + [SEP] + a.agent;
    ValidSessionHasNoSeparator(a.session);
    forall b: Scope | Accepted(b) && b != a && Key(b) == Key(a)
      ensures |b.user| != |a.user| && ValidCut(w, |b.user|)
    {
      ValidSessionHasNoSeparator(b.session);
      SharedCut(a, b);
    }
    forall i | i != |a.user| && ValidCut(w, i)
      ensures var b := Scope(w[..i], w[i + 1..], a.session); Accepted(b) && b != a && Key(b) == Key(a)
    {
      CutShares(a, i);
    }
  }

  // ---- the scopes of one service ----

  /** The connection's identifier if it gives one, else the service's. */
  function Override(base: string, given: string): string {
    if TrimSpace(given) != "" then TrimSpace(given) else base
  }

  /** What a connection gives counts when it is not blank, and then without the white space at its ends. */
  lemma OverrideMeans(base: string, given: string)
    ensures AllSpace(given) ==> Override(base, given) == base
    ensures !AllSpace(given) ==> Override(base, given) == TrimSpace(given) != ""
  {
    BlankMeans(given);
  }

  /** id is the service's own or has no white space at its ends. */
  predicate Supplied(base: string, id: string) {
    id == base || (id != "" && TrimSpace(id) == id)
  }

  lemma TrimTwiceIsOnce(s: string)
    ensures TrimSpace(TrimSpace(s)) == TrimSpace(s)
  {
    var l := TrimLeft(s);
    TrimLeftIsSuffix(s);
    TrimRightIsPrefix(l);
    var t := TrimRight(l);
    assert t != "" ==> t[0] == l[0];
  }

  /** These are exactly the identifiers that a turn of the service can have. */
  lemma SuppliedMeans(base: string, id: string)
    ensures (exists given :: Override(base, given) == id) <==> Supplied(base, id)
  {
    hide TrimSpace;
    assert Override(base, "") == base by {
      assert TrimSpace("") == "" by {
        NothingToTrim();
      }
    }
    forall given ensures Supplied(base, Override(base, given)) {
      TrimTwiceIsOnce(given);
    }
    assert Supplied(base, id) ==> Override(base, id) == id || id == base;
  }

  lemma NothingToTrim()
    ensures TrimSpace("") == ""
  {
  }

  /** An accepted scope of a turn of the service with these identifiers. */
  predicate OfService(user: string, agent: string, s: Scope) {
    Accepted(s) && Supplied(user, s.user) && Supplied(agent, s.agent)
  }

  /** The same for the scopes that connections to one service can have: the other cut must also
      leave identifiers that a connection can supply. */
  lemma KeySharedInService(user: string, agent: string, a: Scope)
    requires OfService(user, agent, a)
    ensures var w := a.user + [SEP] + a.agent;
            (exists b: Scope :: OfService(user, agent, b) && b != a && Key(b) == Key(a)) <==>
            exists i :: i != |a.user| && ValidCut(w, i) && Supplied(user, w[..i]) && Supplied(agent, w[i + 1..])
  {
    hide ValidScope, ValidSessionID, Key, Supplied;
    var w := a.user + [SEP] + a.agent;
    ValidSessionHasNoSeparator(a.session);
    forall b: Scope | OfService(user, agent, b) && b != a && Key(b) == Key(a)
      ensures var i := |b.user|;
              i != |a.user| && ValidCut(w, i) && Supplied(user, w[..i]) && Supplied(agent, w[i + 1..])
    {
      ValidSessionHasNoSeparator(b.session);
      SharedCut(a, b);
    }
    forall i | i != |a.user| && ValidCut(w, i) && Supplied(user, w[..i]) && Supplied(agent, w[i + 1..])
      ensures var b := Scope(w[..i], w[i + 1..], a.session); OfService(user, agent, b) && b != a && Key(b) == Key(a)
    {
      CutShares(a, i);
    }
  }

  lemma CutOf(x: string, y: string)
    ensures var w := x + [SEP] + y; w[|x|] == SEP && w[..|x|] == x && w[|x| + 1..] == y
  {
  }

  /** Two different accepted scopes with one key, which connections to any service can have. */
  lemma CollidingPair(user: string, agent: string)
    ensures var a, b := Scope(['a', SEP, 'b'], "c", "s"), Scope("a", ['b', SEP, 'c'], "s");
            Accepted(a) && Accepted(b) && a != b && Key(a) == Key(b) && OfService(user, agent, a) && OfService(user, agent, b)
  {
    var a, b := Scope(['a', SEP, 'b'], "c", "s"), Scope("a", ['b', SEP, 'c'], "s");
    ByteLenBound("s", 4);
    ByteLenBound(a.user, 12);
    ByteLenBound(a.agent, 12);
    ByteLenBound(b.user, 12);
    ByteLenBound(b.agent, 12);
    Untrimmed("s");
    Untrimmed(a.user);
    Untrimmed(a.agent);
    Untrimmed(b.user);
    Untrimmed(b.agent);
    assert a.user + [SEP] + a.agent == ['a', SEP, 'b', SEP, 'c'] == b.user + [SEP] + b.agent;
  }

  lemma Untrimmed(s: string)
    requires s != "" && !IsSpace(s[0]) && !IsSpace(s[|s| - 1])
    ensures TrimSpace(s) == s
  {
  }

  lemma {:induction false} ByteLenBound(s: string, n: nat)
    requires 4 * |s| <= n
    ensures ByteLen(s) <= n
  {
    if s != "" {
      ByteLenBound(s[1..], n - 4);
    }
  }

  /** A separator at the end of the agent alone does no harm: the other cut leaves an empty agent. */
  lemma HarmlessSeparator(a: Scope, b: Scope)
    requires SEP !in a.user && |a.agent| > 0 && SEP !in a.agent[..|a.agent| - 1]
    requires Accepted(a) && Accepted(b) && Key(a) == Key(b)
    ensures a == b
  {
    hide ValidSessionID;
    KeyShared(a);
    var w := a.user + [SEP] + a.agent;
    assert forall i | 0 <= i < |a.user| :: w[i] == a.user[i];
    assert forall i | |a.user| < i < |w| - 1 :: w[i] == a.agent[..|a.agent| - 1][i - |a.user| - 1];
    assert w[|w|..] == "";
  }

  /** An append addressed by scope. */
  datatype ScopedWrite = ScopedWrite(scope: Scope, msgs: seq<Message>)

  function ToOps(ws: seq<ScopedWrite>): seq<Op> {
    if ws == [] then []
    else ToOps(ws[..|ws| - 1]) + [AppendOp(Key(ws[|ws| - 1].scope), ws[|ws| - 1].msgs)]
  }

  lemma ToOpsSnoc(ws: seq<ScopedWrite>, w: ScopedWrite)
    ensures ToOps(ws + [w]) == ToOps(ws) + [AppendOp(Key(w.scope), w.msgs)]
  {
    assert (ws + [w])[..|ws|] == ws;
  }

  function WrittenTo(ws: seq<ScopedWrite>, s: Scope): seq<Message> {
    if ws == [] then []
    else WrittenTo(ws[..|ws| - 1], s) + if ws[|ws| - 1].scope == s then ws[|ws| - 1].msgs else []
  }

  /** Histories never mix: with all sessions checked, a scope reads exactly the newest of what was
      written to it if its user and agent lack the separator, whatever the writers' are; a
      separator in its user does no harm as long as no agent has one. */
  lemma HistoriesNeverMix(max: int, ws: seq<ScopedWrite>, s: Scope)
    requires SEP !in s.agent && SEP !in s.session
    requires forall w | w in ws :: SEP !in w.scope.session
    requires SEP !in s.user || forall w | w in ws :: SEP !in w.scope.agent
    ensures Lookup(ApplyAll(max, ToOps(ws)), Key(s)) == LastN(max, WrittenTo(ws, s))
  {
    StoreRefinesLog(max, ToOps(ws), Key(s));
    forall w | w in ws ensures Key(w.scope) == Key(s) ==> w.scope == s {
      if SEP !in s.user {
        PlainKeyIsOwn(s, w.scope);
      } else {
        KeyInjective(w.scope, s);
      }
    }
    WrittenIsWrittenTo(ws, s);
  }

  lemma {:induction false} WrittenIsWrittenTo(ws: seq<ScopedWrite>, s: Scope)
    requires forall w | w in ws :: Key(w.scope) == Key(s) ==> w.scope == s
    ensures Written(ToOps(ws), Key(s)) == WrittenTo(ws, s)
  {
    hide Key;
    if ws != [] {
      var before, w := ws[..|ws| - 1], ws[|ws| - 1];
      assert forall x | x in before :: x in ws;
      WrittenIsWrittenTo(before, s);
      assert w in ws;
      assert ToOps(ws)[..|ToOps(ws)| - 1] == ToOps(before);
    }
  }
}
