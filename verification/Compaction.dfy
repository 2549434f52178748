/** Token estimates and the threshold compactor (compaction/heuristic.go). */
module Compaction {
  import opened Text
  import opened Transcript
  import opened Grammar

  // ---- token estimates ----

  function CallTokens(calls: seq<ToolCall>): nat {
    if calls == [] then 0
    else CallTokens(calls[..|calls| - 1]) + CallCost(calls[|calls| - 1])
  }

  function CallCost(c: ToolCall): nat {
    8 + ByteLen(c.name) / 3 + ByteLen(c.arguments) / 3
  }

  function MsgTokens(m: Message): nat {
    4 + ByteLen(m.content) / 3 + CallTokens(m.toolCalls)
  }

  function Tokens(msgs: seq<Message>): nat {
    if msgs == [] then 0 else Tokens(msgs[..|msgs| - 1]) + MsgTokens(msgs[|msgs| - 1])
  }

  method EstimateMsgTokens(m: Message) returns (t: nat)
    ensures t == MsgTokens(m)
  {
    t := 4 + ByteLen(m.content) / 3;
    for i := 0 to |m.toolCalls|
      invariant t == 4 + ByteLen(m.content) / 3 + CallTokens(m.toolCalls[..i])
    {
      assert m.toolCalls[..i + 1][..i] == m.toolCalls[..i];
      var c := m.toolCalls[i];
      t := t + 8 + ByteLen(c.name) / 3 + ByteLen(c.arguments) / 3;
    }
    assert m.toolCalls[..|m.toolCalls|] == m.toolCalls;
  }

  method RoughTokenEstimator(msgs: seq<Message>) returns (n: nat)
    ensures n == Tokens(msgs)
  {
    n := 0;
    for i := 0 to |msgs|
      invariant n == Tokens(msgs[..i])
    {
      assert msgs[..i + 1][..i] == msgs[..i];
      var t := EstimateMsgTokens(msgs[i]);
      n := n + t;
    }
    assert msgs[..|msgs|] == msgs;
  }

  /** A message costs four tokens and a third of its bytes, and each call eight and a third of the
      bytes of its name and of its arguments, all rounded down. */
  lemma EstimateMeans(role: Role, content: string, calls: seq<ToolCall>, c: ToolCall, id: string)
    ensures MsgTokens(Message(role, content, [], id)) == 4 + ByteLen(content) / 3
    ensures MsgTokens(Message(role, content, calls + [c], id)) ==
            MsgTokens(Message(role, content, calls, id)) + 8 + ByteLen(c.name) / 3 + ByteLen(c.arguments) / 3
  {
    hide ByteLen;
    assert (calls + [c])[..|calls|] == calls;
  }

  // ---- bytes and runes ----

  /** The estimate as its comment describes it, in runes. */
  function RuneCallTokens(calls: seq<ToolCall>): nat {
    if calls == [] then 0
    else
      var c := calls[|calls| - 1];
      RuneCallTokens(calls[..|calls| - 1]) + 8 + |c.name| / 3 + |c.arguments| / 3
  }

  function RuneTokens(m: Message): nat {
    4 + |m.content| / 3 + RuneCallTokens(m.toolCalls)
  }

  /** A text costs the same either way: its bytes beyond one per rune do not complete another third. */
  predicate CostsAlike(s: string) {
    ByteLen(s) - |s| < 3 - |s| % 3
  }

  predicate IsAscii(s: string) {
    forall i | 0 <= i < |s| :: s[i] as int < 0x80
  }

  lemma {:induction false} ByteLenIsRunes(s: string)
    ensures ByteLen(s) >= |s|
    ensures ByteLen(s) == |s| <==> IsAscii(s)
  {
    if s != "" {
      ByteLenIsRunes(s[1..]);
      assert forall i | 1 <= i < |s| :: s[i] == s[1..][i - 1];
      assert IsAscii(s) <==> s[0] as int < 0x80 && IsAscii(s[1..]);
    }
  }

  lemma ThirdsAgree(s: string)
    ensures ByteLen(s) / 3 >= |s| / 3
    ensures ByteLen(s) / 3 == |s| / 3 <==> CostsAlike(s)
  {
    ByteLenIsRunes(s);
  }

  lemma {:induction false} CallTokensAgree(calls: seq<ToolCall>)
    ensures CallTokens(calls) >= RuneCallTokens(calls)
    ensures CallTokens(calls) == RuneCallTokens(calls) <==>
            forall c | c in calls :: CostsAlike(c.name) && CostsAlike(c.arguments)
  {
    hide CostsAlike;
    if calls != [] {
      var init, c := calls[..|calls| - 1], calls[|calls| - 1];
      CallTokensAgree(init);
      ThirdsAgree(c.name);
      ThirdsAgree(c.arguments);
      assert calls == init + [c];
    }
  }

  /** The code counts bytes where its comment says runes: it never estimates less, and the same
      exactly when no text of the message has enough multi-byte characters to cost another token.
      ASCII texts always cost the same. */
  lemma BytesAgreeWithRunes(m: Message)
    ensures MsgTokens(m) >= RuneTokens(m)
    ensures MsgTokens(m) == RuneTokens(m) <==>
            CostsAlike(m.content) && forall c | c in m.toolCalls :: CostsAlike(c.name) && CostsAlike(c.arguments)
    ensures IsAscii(m.content) ==> CostsAlike(m.content)
  {
    ThirdsAgree(m.content);
    CallTokensAgree(m.toolCalls);
    ByteLenIsRunes(m.content);
  }

  /** The estimate adds up over concatenation, so every dropped message lowers it by at least four. */
  lemma {:induction false} TokensConcat(a: seq<Message>, b: seq<Message>)
    ensures Tokens(a + b) == Tokens(a) + Tokens(b)
    ensures Tokens(a) >= 4 * |a|
    decreases |a| + |b|
  {
    if b == [] {
      assert a + b == a;
      if a != [] {
        TokensConcat(a[..|a| - 1], []);
      }
    } else {
      TokensConcat(a, b[..|b| - 1]);
      assert (a + b)[..|a + b| - 1] == a + b[..|b| - 1];
    }
  }

  // ---- blocks at the front ----

  /** The call identifiers a result can match: empty ones are left out. */
  function CallIDs(calls: seq<ToolCall>): set<string> {
    set c | c in calls && c.id != "" :: c.id
  }

  /** How many tool results at the front of s carry one of ids. */
  function MatchingResults(s: seq<Message>, ids: set<string>): (n: nat)
    ensures n <= |s|
  {
    if s != [] && s[0].role == Tool && s[0].toolCallID in ids then 1 + MatchingResults(s[1..], ids) else 0
  }

  lemma {:induction false} MatchingResultsIsLongest(s: seq<Message>, ids: set<string>)
    ensures forall i | 0 <= i < MatchingResults(s, ids) :: s[i].role == Tool && s[i].toolCallID in ids
    ensures var n := MatchingResults(s, ids); n < |s| ==> !(s[n].role == Tool && s[n].toolCallID in ids)
  {
    if s != [] && s[0].role == Tool && s[0].toolCallID in ids {
      MatchingResultsIsLongest(s[1..], ids);
      forall i | 0 <= i < MatchingResults(s, ids) ensures s[i].role == Tool && s[i].toolCallID in ids {
        assert i > 0 ==> s[i] == s[1..][i - 1];
      }
    }
  }

  function BlockSize(mid: seq<Message>): (n: nat)
    ensures n <= |mid|
    ensures n == 0 <==> mid == []
  {
    if mid == [] then 0
    else if mid[0].role == Assistant && mid[0].toolCalls != [] then
      1 + MatchingResults(mid[1..], CallIDs(mid[0].toolCalls))
    else 1
  }

  method ConsumeBlockFromFront(mid: seq<Message>) returns (n: nat, rest: seq<Message>)
    ensures n == BlockSize(mid)
    ensures rest == mid[n..]
  {
    if |mid| == 0 {
      return 0, mid;
    }
    var first := mid[0];
    match first.role {
      case User =>
        return 1, mid[1..];
      case Assistant =>
        if |first.toolCalls| == 0 {
          return 1, mid[1..];
        }
        var ids: set<string> := {};
        for i := 0 to |first.toolCalls|
          invariant ids == CallIDs(first.toolCalls[..i])
        {
          var tc := first.toolCalls[i];
          assert first.toolCalls[..i + 1] == first.toolCalls[..i] + [tc];
          if tc.id != "" {
            ids := ids + {tc.id};
          }
        }
        assert first.toolCalls[..|first.toolCalls|] == first.toolCalls;
        n := 1;
        rest := mid[1..];
        while |rest| > 0 && rest[0].role == Tool
          invariant 1 <= n <= |mid| && rest == mid[n..]
          invariant n + MatchingResults(rest, ids) == BlockSize(mid)
          decreases |rest|
        {
          if rest[0].toolCallID in ids {
            n := n + 1;
            rest := rest[1..];
            continue;
          }
          break;
        }
        return n, rest;
      case Tool =>
        return 1, mid[1..];
      case _ =>
        return 1, mid[1..];
    }
  }

  predicate IDsPresent(m: Message) {
    forall c | c in m.toolCalls :: c.id != ""
  }

  /** On a front made of complete blocks, one drop takes exactly the first block if and only if
      none of its calls has an empty identifier (an assistant without calls has none). */
  lemma DropTakesWholeBlock(mid: seq<Message>)
    requires Blocks(mid) && mid != []
    ensures BlockSize(mid) == BlockLen(mid[0]) <==> mid[0].role == Assistant ==> IDsPresent(mid[0])
    ensures Blocks(mid[BlockSize(mid)..]) <==> mid[0].role == Assistant ==> IDsPresent(mid[0])
  {
    var n := BlockLen(mid[0]);
    BlockResults(mid);
    if mid[0].role == Assistant && mid[0].toolCalls != [] {
      var calls := mid[0].toolCalls;
      var ids := CallIDs(calls);
      var k := MatchingResults(mid[1..], ids);
      MatchingResultsIsLongest(mid[1..], ids);
      forall j | 0 <= j < |calls| ensures mid[1..][j].toolCallID == calls[j].id && mid[1..][j].role == Tool {
        assert mid[1..n][j] == mid[1..][j];
      }
      if n < |mid| {
        assert mid[n..][0].role != Tool;
        assert mid[1..][n - 1] == mid[n];
      }
      assert k <= n - 1;
      if k < n - 1 {
        assert mid[1..][k].toolCallID == calls[k].id;
        assert calls[k].id == "";
        assert mid[1 + k..][0].role == Tool;
      } else {
        forall c | c in calls ensures c.id != "" {
          var j :| 0 <= j < |calls| && calls[j] == c;
          assert mid[1..][j].toolCallID in ids;
        }
      }
    }
  }

  // ---- the compactor ----

  function Squash(prefix: seq<Message>, mid: seq<Message>, last: Message): seq<Message> {
    prefix + mid + [last]
  }

  /** MaxTokens and MinTail as configured; non-positive values mean the defaults. */
  datatype Threshold = Threshold(maxTokens: int, minTail: int)
  {
    function Max(): (m: int)
      ensures m > 0
    {
      if maxTokens <= 0 then 48000 else maxTokens
    }

    function Tail(): (m: int)
      ensures m > 0
    {
      if minTail <= 0 then 8 else minTail
    }

    /** Dropping k messages of mid satisfies the budget, or the tail limit forbids more. */
    predicate Enough(prefix: seq<Message>, mid: seq<Message>, last: Message, k: nat)
      requires k <= |mid|
    {
      Tokens(Squash(prefix, mid[k..], last)) <= Max() || |mid| - k <= Tail()
    }

    /** How many messages the loop drops. */
    function Dropped(prefix: seq<Message>, mid: seq<Message>, last: Message): (k: nat)
      ensures k <= |mid|
      decreases |mid|
    {
      if Enough(prefix, mid, last, 0) then 0
      else
        var n := BlockSize(mid);
        n + Dropped(prefix, mid[n..], last)
    }
  }

  /** Why MaybeCompact did what it did. */
  datatype Reason = Unstated | NothingAfterSystemPrefix | MinTailReached | DroppedOldest

  datatype Report = Report(applied: bool, reason: Reason)

  function Decimal(n: nat): string {
    if n < 10 then [Digit(n)] else Decimal(n / 10) + [Digit(n % 10)]
  }

  function Digit(d: nat): char
    requires d < 10
  {
    '0' + d as char
  }

  const NOTICE_HEAD := "（上下文已压缩：已省略较早的 "
  const NOTICE_TAIL := " 条消息；请依据下文与工具结果继续。）"

  function Notice(dropped: nat): (m: Message)
    ensures m.role == System
  {
    Message(System, NOTICE_HEAD + Decimal(dropped) + NOTICE_TAIL, [], "")
  }

  lemma {:induction false} DecimalInjective(a: nat, b: nat)
    requires Decimal(a) == Decimal(b)
    ensures a == b
  {
    DecimalLength(a);
    DecimalLength(b);
    if a >= 10 && b >= 10 {
      var x, y := Decimal(a / 10), Decimal(b / 10);
      assert Decimal(a)[..|x|] == x && Decimal(b)[..|y|] == y;
      assert Decimal(a)[|x|] == Digit(a % 10) && Decimal(b)[|y|] == Digit(b % 10);
      DecimalInjective(a / 10, b / 10);
    }
  }

  lemma {:induction false} DecimalLength(a: nat)
    ensures |Decimal(a)| >= 1
    ensures |Decimal(a)| == 1 <==> a < 10
  {
    if a >= 10 {
      DecimalLength(a / 10);
    }
  }

  /** The number a decimal text stands for. */
  function DecimalValue(s: string): int {
    if s == "" then 0 else 10 * DecimalValue(s[..|s| - 1]) + (s[|s| - 1] as int - '0' as int)
  }

  /** The notice's number reads as the number itself, in digits and without a leading zero. */
  lemma {:induction false} DecimalReads(n: nat)
    ensures DecimalValue(Decimal(n)) == n
    ensures Decimal(n) != "" && forall i | 0 <= i < |Decimal(n)| :: '0' <= Decimal(n)[i] <= '9'
    ensures n > 0 ==> Decimal(n)[0] != '0'
  {
    if n < 10 {
      assert Decimal(n)[..0] == "";
    } else {
      DecimalReads(n / 10);
      assert Decimal(n)[..|Decimal(n)| - 1] == Decimal(n / 10);
    }
  }

  /** The notice is a system message with that number between its two fixed texts. */
  lemma NoticeReads(k: nat) returns (number: string)
    ensures Notice(k) == Message(System, "（上下文已压缩：已省略较早的 " + number + " 条消息；请依据下文与工具结果继续。）", [], "")
    ensures DecimalValue(number) == k && forall i | 0 <= i < |number| :: '0' <= number[i] <= '9'
  {
    DecimalReads(k);
    number := Decimal(k);
  }

  /** The notice tells the model exactly how many messages are missing. */
  lemma NoticeCounts(a: nat, b: nat)
    ensures Notice(a) == Notice(b) <==> a == b
  {
    if Notice(a) == Notice(b) {
      var x, y := Notice(a).content, Notice(b).content;
      var h, t := |NOTICE_HEAD|, |NOTICE_TAIL|;
      assert x[h..|x| - t] == Decimal(a) && y[h..|y| - t] == Decimal(b);
      DecimalInjective(a, b);
    }
  }

  /** The leading system messages. */
  function LeadingSystem(msgs: seq<Message>): (i: nat)
    ensures i <= |msgs|
  {
    if msgs != [] && msgs[0].role == System then 1 + LeadingSystem(msgs[1..]) else 0
  }

  /** How many messages between the system prefix and the last message are dropped. */
  function Cut(c: Threshold, msgs: seq<Message>): (k: nat)
    ensures LeadingSystem(msgs) + k <= |msgs|
    ensures k > 0 ==> LeadingSystem(msgs) + k < |msgs|
  {
    var i := LeadingSystem(msgs);
    if i == |msgs| then 0 else c.Dropped(msgs[..i], msgs[i..|msgs| - 1], msgs[|msgs| - 1])
  }

  /** msgs with the k messages after the system prefix replaced by a notice. */
  function WithNotice(msgs: seq<Message>, k: nat): seq<Message>
    requires LeadingSystem(msgs) + k <= |msgs|
  {
    var i := LeadingSystem(msgs);
    msgs[..i] + [Notice(k)] + msgs[i + k..]
  }

  /** The result of MaybeCompact; None is the nil compactor. */
  function Compact(c: Option<Threshold>, msgs: seq<Message>, est: int): (seq<Message>, Report) {
    if c.None? || (if est <= 0 then Tokens(msgs) else est) <= c.value.Max() then (msgs, Report(false, Unstated))
    else if LeadingSystem(msgs) == |msgs| then (msgs, Report(false, NothingAfterSystemPrefix))
    else if Cut(c.value, msgs) == 0 then (msgs, Report(false, MinTailReached))
    else (WithNotice(msgs, Cut(c.value, msgs)), Report(true, DroppedOldest))
  }

  method MaybeCompact(c: Option<Threshold>, msgs: seq<Message>, estTokens: int) returns (out: seq<Message>, rep: Report)
    ensures (out, rep) == Compact(c, msgs, estTokens)
  {
    if c.None? {
      return msgs, Report(false, Unstated);
    }
    var max := c.value.Max();
    var tok := estTokens;
    if tok <= 0 {
      tok := RoughTokenEstimator(msgs);
    }
    if tok <= max {
      return msgs, Report(false, Unstated);
    }
    var i := SystemPrefix(msgs);
    if i == |msgs| {
      return msgs, Report(false, NothingAfterSystemPrefix);
    }
    var k;
    out, k := DropToBudget(c.value, msgs, i);
    if k == 0 {
      return msgs, Report(false, MinTailReached);
    }
    rep := Report(true, DroppedOldest);
  }

  /** Splits off the last message, drops from the middle and puts the pieces back around the notice. */
  method DropToBudget(c: Threshold, msgs: seq<Message>, i: nat) returns (out: seq<Message>, k: nat)
    requires i == LeadingSystem(msgs) < |msgs|
    ensures k == Cut(c, msgs)
    ensures out == WithNotice(msgs, k)
  {
    hide Notice, LeadingSystem, Tokens, WithNotice, Threshold.Dropped;
    var prefix := msgs[..i];
    var rest := msgs[i..];
    var last := rest[|rest| - 1];
    var mid := rest[..|rest| - 1];
    RestParts(msgs, i);
    var kept;
    k, kept := DropOldest(c, prefix, mid, last);
    out := prefix + [Notice(k)] + kept + [last];
    KeptParts(msgs, i, k);
    WithNoticeParts(msgs, k);
    assert out == prefix + [Notice(k)] + (kept + [last]);
  }

  lemma KeptParts(msgs: seq<Message>, i: nat, k: nat)
    requires i + k < |msgs|
    ensures msgs[i..|msgs| - 1][k..] + [msgs[|msgs| - 1]] == msgs[i + k..]
  {
  }

  lemma RestParts(msgs: seq<Message>, i: nat)
    requires i < |msgs|
    ensures var rest := msgs[i..];
            rest[..|rest| - 1] == msgs[i..|msgs| - 1] && rest[|rest| - 1] == msgs[|msgs| - 1]
  {
  }

  /** The loop that counts the leading system messages. */
  method SystemPrefix(msgs: seq<Message>) returns (i: nat)
    ensures i == LeadingSystem(msgs)
  {
    i := 0;
    while i < |msgs| && msgs[i].role == System
      invariant i <= |msgs|
      invariant i + LeadingSystem(msgs[i..]) == LeadingSystem(msgs)
    {
      i := i + 1;
    }
  }

  /** The drop loop of MaybeCompact. */
  method DropOldest(c: Threshold, prefix: seq<Message>, mid0: seq<Message>, last: Message)
    returns (droppedBlocks: nat, mid: seq<Message>)
    ensures droppedBlocks == c.Dropped(prefix, mid0, last)
    ensures mid == mid0[droppedBlocks..]
  {
    var max := c.Max();
    var minTail := c.Tail();
    mid := mid0;
    droppedBlocks := 0;
    while true
      invariant droppedBlocks <= |mid0| && mid == mid0[droppedBlocks..]
      invariant droppedBlocks + c.Dropped(prefix, mid, last) == c.Dropped(prefix, mid0, last)
      decreases |mid|
    {
      var est := RoughTokenEstimator(Squash(prefix, mid, last));
      assert mid[0..] == mid;
      if !(est > max && |mid| > minTail) {
        break;
      }
      var n, newMid := ConsumeBlockFromFront(mid);
      if n == 0 {
        break;
      }
      assert mid[n..] == mid0[droppedBlocks + n..];
      mid := newMid;
      droppedBlocks := droppedBlocks + n;
    }
  }

  // ---- the cut is the least one ----

  /** k is the end of some number of whole drops from the front of mid. */
  predicate Boundary(mid: seq<Message>, k: nat)
    decreases |mid|
  {
    k == 0 || (mid != [] && BlockSize(mid) <= k && Boundary(mid[BlockSize(mid)..], k - BlockSize(mid)))
  }

  lemma EnoughShift(c: Threshold, prefix: seq<Message>, mid: seq<Message>, last: Message, n: nat, b: nat)
    requires n <= b <= |mid|
    ensures c.Enough(prefix, mid[n..], last, b - n) == c.Enough(prefix, mid, last, b)
  {
    assert mid[n..][b - n..] == mid[b..];
  }

  /** The loop drops the shortest boundary that meets the budget or the tail limit. */
  lemma {:induction false} DroppedIsLeast(c: Threshold, prefix: seq<Message>, mid: seq<Message>, last: Message, k: nat)
    requires k == c.Dropped(prefix, mid, last)
    ensures Boundary(mid, k) && c.Enough(prefix, mid, last, k)
    ensures forall b | 0 <= b < k && Boundary(mid, b) :: !c.Enough(prefix, mid, last, b)
    decreases |mid|
  {
    hide Tokens;
    if !c.Enough(prefix, mid, last, 0) {
      var n := BlockSize(mid);
      DroppedIsLeast(c, prefix, mid[n..], last, k - n);
      EnoughShift(c, prefix, mid, last, n, k);
      forall b | 0 <= b < k && Boundary(mid, b) ensures !c.Enough(prefix, mid, last, b) {
        if b > 0 {
          EnoughShift(c, prefix, mid, last, n, b);
        }
      }
    }
  }

  /** The last boundary before k, if any blocks were dropped. */
  lemma {:induction false} PreviousBoundary(mid: seq<Message>, k: nat) returns (b: nat)
    requires Boundary(mid, k) && 0 < k <= |mid|
    ensures b < k && Boundary(mid, b) && k == b + BlockSize(mid[b..])
    decreases |mid|
  {
    var n := BlockSize(mid);
    if k == n {
      b := 0;
      assert mid[0..] == mid;
    } else {
      var b' := PreviousBoundary(mid[n..], k - n);
      b := n + b';
      assert mid[n..][b'..] == mid[b..];
    }
  }

  /** k is the shortest sufficient boundary of mid and b the boundary before its last drop. */
  ghost predicate LeastCut(c: Threshold, prefix: seq<Message>, mid: seq<Message>, last: Message, k: nat, b: nat) {
    b < k <= |mid| && Boundary(mid, k) && Boundary(mid, b) && k == b + BlockSize(mid[b..]) &&
    c.Enough(prefix, mid, last, k) &&
    (forall x | 0 <= x < k && Boundary(mid, x) :: !c.Enough(prefix, mid, last, x)) &&
    Tokens(Squash(prefix, mid[b..], last)) > c.Max() && |mid| - b > c.Tail()
  }

  /** b < k are the last two boundaries of the least cut of msgs. */
  ghost predicate CutBetween(c: Threshold, msgs: seq<Message>, b: int, k: int) {
    var i := LeadingSystem(msgs);
    0 <= b && 0 <= k < |msgs| - i && LeastCut(c, msgs[..i], msgs[i..|msgs| - 1], msgs[|msgs| - 1], k, b)
  }

  lemma CutIsLeast(c: Threshold, msgs: seq<Message>) returns (b: nat)
    requires Cut(c, msgs) > 0
    ensures CutBetween(c, msgs, b, Cut(c, msgs))
  {
    var i := LeadingSystem(msgs);
    var prefix, mid, last := msgs[..i], msgs[i..|msgs| - 1], msgs[|msgs| - 1];
    var k := c.Dropped(prefix, mid, last);
    DroppedIsLeast(c, prefix, mid, last, k);
    b := PreviousBoundary(mid, k);
    assert !c.Enough(prefix, mid, last, b);
  }

  /** When compaction applies, the output is the system prefix, a notice that counts the dropped
      messages, the rest of the middle and the last message; the dropped part is the shortest run
      of whole drops that reaches the budget (the notice not counted) or the tail limit, and
      before its last drop the estimate was over budget with more than the tail kept.
      Otherwise nothing changes. */
  lemma CompactOutcome(c: Threshold, msgs: seq<Message>, est: int)
    ensures var (out, rep) := Compact(Some(c), msgs, est);
            if rep.applied then exists b, k :: CutBetween(c, msgs, b, k) && out == WithNotice(msgs, k) else out == msgs
  {
    if Compact(Some(c), msgs, est).1.applied {
      var b := CutIsLeast(c, msgs);
    }
  }

  /** Compaction applies exactly when the caller's estimate and its own are both over budget and
      the middle is longer than the tail to keep. */
  lemma CompactApplies(c: Threshold, msgs: seq<Message>, est: int)
    ensures Compact(Some(c), msgs, est).1.applied <==>
            && (est <= 0 || est > c.Max()) && Tokens(msgs) > c.Max()
            && |msgs| - 1 - LeadingSystem(msgs) > c.Tail()
  {
    CutIsPositive(c, msgs);
  }

  // ---- compaction in plain numbers ----

  /** How many messages a drop takes from a middle that is not empty: the first one, and if it is an
      assistant message with calls, the longest run of tool results right after it that carry an
      identifier of one of its calls, the empty identifier excepted. */
  lemma BlockSizeMeans(mid: seq<Message>)
    requires mid != []
    ensures 1 <= BlockSize(mid) <= |mid|
    ensures mid[0].role != Assistant || mid[0].toolCalls == [] ==> BlockSize(mid) == 1
    ensures mid[0].role == Assistant ==> forall i | 1 <= i < BlockSize(mid) :: ResultFor(mid[0].toolCalls, mid[i])
    ensures mid[0].role == Assistant && BlockSize(mid) < |mid| ==> !ResultFor(mid[0].toolCalls, mid[BlockSize(mid)])
  {
    var calls := mid[0].toolCalls;
    MatchingResultsIsLongest(mid[1..], CallIDs(calls));
    forall m: Message ensures ResultFor(calls, m) <==> m.role == Tool && m.toolCallID in CallIDs(calls) {
    }
    if mid[0].role == Assistant && calls != [] {
      forall i | 1 <= i < BlockSize(mid) ensures ResultFor(calls, mid[i]) {
        assert mid[i] == mid[1..][i - 1];
      }
    }
  }

  predicate ResultFor(calls: seq<ToolCall>, m: Message) {
    m.role == Tool && m.toolCallID != "" && exists c :: c in calls && c.id == m.toolCallID
  }

  /** Cutting k messages after the system prefix ends a whole number of drops, reaches the budget or
      leaves no more than the tail, and no earlier end of a drop does. */
  predicate CutAt(max: int, tail: int, msgs: seq<Message>, k: int) {
    var i := LeadingSystem(msgs);
    0 < k < |msgs| - i &&
    var mid := msgs[i..|msgs| - 1];
    && Boundary(mid, k) && (Tokens(msgs[..i] + msgs[i + k..]) <= max || |mid| - k <= tail)
    && forall x: nat | x < k && Boundary(mid, x) :: OverBudget(max, tail, msgs, x)
  }

  predicate OverBudget(max: int, tail: int, msgs: seq<Message>, x: nat) {
    var i := LeadingSystem(msgs);
    i + x <= |msgs| && Tokens(msgs[..i] + msgs[i + x..]) > max && |msgs| - 1 - i - x > tail
  }

  /** out is msgs with the k messages after the system prefix replaced by one notice of k. */
  predicate IsCompacted(msgs: seq<Message>, k: int, out: seq<Message>) {
    var i := LeadingSystem(msgs);
    && 0 <= k && i + k <= |msgs| && |out| == |msgs| - k + 1
    && out[..i] == msgs[..i] && out[i] == Notice(k) && out[i + 1..] == msgs[i + k..]
  }

  lemma SquashIsRest(msgs: seq<Message>, x: nat)
    requires LeadingSystem(msgs) + x < |msgs|
    ensures var i := LeadingSystem(msgs);
            Squash(msgs[..i], msgs[i..|msgs| - 1][x..], msgs[|msgs| - 1]) == msgs[..i] + msgs[i + x..]
  {
    hide LeadingSystem, Squash;
    var i := LeadingSystem(msgs);
    KeptParts(msgs, i, x);
    SquashTail(msgs[..i], msgs[i..|msgs| - 1][x..], msgs[|msgs| - 1]);
  }

  lemma SquashTail(prefix: seq<Message>, mid: seq<Message>, last: Message)
    ensures Squash(prefix, mid, last) == prefix + (mid + [last])
  {
  }

  lemma EnoughMeans(c: Threshold, msgs: seq<Message>, x: nat)
    requires LeadingSystem(msgs) + x < |msgs|
    ensures var i := LeadingSystem(msgs);
            c.Enough(msgs[..i], msgs[i..|msgs| - 1], msgs[|msgs| - 1], x) <==> !OverBudget(c.Max(), c.Tail(), msgs, x)
  {
    hide Tokens, LeadingSystem, Squash, Threshold.Max, Threshold.Tail, Threshold.Enough;
    var i := LeadingSystem(msgs);
    SquashIsRest(msgs, x);
    EnoughPlain(c, msgs[..i], msgs[i..|msgs| - 1], msgs[|msgs| - 1], x, msgs[..i] + msgs[i + x..]);
  }

  lemma EnoughPlain(c: Threshold, prefix: seq<Message>, mid: seq<Message>, last: Message, x: nat, rest: seq<Message>)
    requires x <= |mid| && Squash(prefix, mid[x..], last) == rest
    ensures c.Enough(prefix, mid, last, x) <==> Tokens(rest) <= c.Max() || |mid| - x <= c.Tail()
  {
    hide Tokens, Squash, Threshold.Max, Threshold.Tail;
  }

  lemma CutIsCutAt(c: Threshold, msgs: seq<Message>)
    requires Cut(c, msgs) > 0
    ensures CutAt(c.Max(), c.Tail(), msgs, Cut(c, msgs))
  {
    hide Tokens, LeadingSystem, Boundary, OverBudget, Cut, Threshold.Enough, Threshold.Max, Threshold.Tail;
    var i, k := LeadingSystem(msgs), Cut(c, msgs);
    CutIsFirstEnough(c, msgs, k);
    EnoughMeans(c, msgs, k);
    KeptNumbers(c, msgs, k);
    forall x: nat | x < k && Boundary(msgs[i..|msgs| - 1], x) ensures OverBudget(c.Max(), c.Tail(), msgs, x) {
      EnoughMeans(c, msgs, x);
    }
  }

  lemma KeptNumbers(c: Threshold, msgs: seq<Message>, k: nat)
    requires LeadingSystem(msgs) + k < |msgs| && !OverBudget(c.Max(), c.Tail(), msgs, k)
    ensures var i := LeadingSystem(msgs);
            Tokens(msgs[..i] + msgs[i + k..]) <= c.Max() || |msgs| - 1 - i - k <= c.Tail()
  {
    hide Tokens, LeadingSystem;
  }

  lemma WithNoticeIsCompacted(msgs: seq<Message>, k: nat)
    requires LeadingSystem(msgs) + k <= |msgs|
    ensures IsCompacted(msgs, k, WithNotice(msgs, k))
  {
    hide LeadingSystem, Notice, WithNotice;
    var i := LeadingSystem(msgs);
    WithNoticeParts(msgs, k);
    PartsOf(msgs[..i], Notice(k), msgs[i + k..]);
  }

  lemma PartsOf(a: seq<Message>, m: Message, b: seq<Message>)
    ensures var s := a + [m] + b;
            |s| == |a| + 1 + |b| && s[..|a|] == a && s[|a|] == m && s[|a| + 1..] == b
  {
  }

  /** All of MaybeCompact in plain numbers, a budget of 48000 and a tail of 8 by default: when it cuts,
      where, what it returns, and the reason it gives. */
  lemma CompactExactly(c: Threshold, msgs: seq<Message>, est: int)
    ensures var max := if c.maxTokens > 0 then c.maxTokens else 48000;
            var tail := if c.minTail > 0 then c.minTail else 8;
            var over := (est <= 0 || est > max) && (est > 0 || Tokens(msgs) > max);
            var (out, rep) := Compact(Some(c), msgs, est);
            && (rep.applied <==> over && Tokens(msgs) > max && |msgs| - 1 - LeadingSystem(msgs) > tail)
            && (if rep.applied then exists k :: CutAt(max, tail, msgs, k) && IsCompacted(msgs, k, out) else out == msgs)
            && rep.reason == (if !over then Unstated
                              else if rep.applied then DroppedOldest
                              else if LeadingSystem(msgs) == |msgs| then NothingAfterSystemPrefix
                              else MinTailReached)
  {
    hide Tokens, LeadingSystem, CutAt, IsCompacted, WithNotice, Cut;
    CompactApplies(c, msgs, est);
    if Compact(Some(c), msgs, est).1.applied {
      CutIsCutAt(c, msgs);
      WithNoticeIsCompacted(msgs, Cut(c, msgs));
    }
  }

  // ---- the budget and the tail after compaction ----

  /** msgs without the k messages after the system prefix. */
  function Remaining(msgs: seq<Message>, k: nat): seq<Message>
    requires LeadingSystem(msgs) + k <= |msgs|
  {
    msgs[..LeadingSystem(msgs)] + msgs[LeadingSystem(msgs) + k..]
  }

  /** The messages kept between the system prefix and the last one. */
  function KeptTail(msgs: seq<Message>, k: nat): int {
    |msgs| - 1 - LeadingSystem(msgs) - k
  }

  lemma TokensOfOne(m: Message)
    ensures Tokens([m]) == MsgTokens(m)
  {
    assert [m][..0] == [];
    assert Tokens([]) == 0;
  }

  /** The notice is paid for on top of what remains. */
  lemma NoticeIsExtra(msgs: seq<Message>, k: nat)
    requires LeadingSystem(msgs) + k <= |msgs|
    ensures Tokens(WithNotice(msgs, k)) == Tokens(Remaining(msgs, k)) + MsgTokens(Notice(k))
  {
    hide Tokens, MsgTokens, Notice, LeadingSystem;
    var i := LeadingSystem(msgs);
    TokensConcat(msgs[..i] + [Notice(k)], msgs[i + k..]);
    TokensConcat(msgs[..i], [Notice(k)]);
    TokensConcat(msgs[..i], msgs[i + k..]);
    TokensOfOne(Notice(k));
  }

  lemma DroppedIsSaved(msgs: seq<Message>, k: nat)
    requires LeadingSystem(msgs) + k <= |msgs|
    ensures Tokens(msgs) == Tokens(Remaining(msgs, k)) + Tokens(msgs[LeadingSystem(msgs)..LeadingSystem(msgs) + k])
  {
    hide Tokens, LeadingSystem;
    var i := LeadingSystem(msgs);
    TokensConcat(msgs[..i] + msgs[i..i + k], msgs[i + k..]);
    TokensConcat(msgs[..i], msgs[i..i + k]);
    TokensConcat(msgs[..i], msgs[i + k..]);
    assert msgs == msgs[..i] + msgs[i..i + k] + msgs[i + k..];
  }

  /** x is the first boundary after the system prefix at which the rest is within budget or the
      tail forbids more. */
  predicate FirstEnough(c: Threshold, msgs: seq<Message>, x: int) {
    var i := LeadingSystem(msgs);
    0 <= x < |msgs| - i &&
    var mid, last := msgs[i..|msgs| - 1], msgs[|msgs| - 1];
    && Boundary(mid, x) && c.Enough(msgs[..i], mid, last, x)
    && forall y | 0 <= y < x && Boundary(mid, y) :: !c.Enough(msgs[..i], mid, last, y)
  }

  /** There is exactly one such boundary, and compaction cuts there. */
  lemma CutIsFirstEnough(c: Threshold, msgs: seq<Message>, x: int)
    requires LeadingSystem(msgs) < |msgs|
    ensures FirstEnough(c, msgs, x) <==> x == Cut(c, msgs)
  {
    hide LeadingSystem, Tokens, Threshold.Enough, Boundary;
    var i := LeadingSystem(msgs);
    DroppedIsLeast(c, msgs[..i], msgs[i..|msgs| - 1], msgs[|msgs| - 1], Cut(c, msgs));
  }

  /** The list that compaction returns. It is within budget exactly when what remains from the first
      sufficient boundary on leaves room for the notice; with more than the tail kept it exceeds the
      budget by at most the notice; and it is cheaper than before exactly when the dropped messages
      cost more than the notice. */
  lemma CompactBudget(c: Threshold, msgs: seq<Message>, est: int)
    requires Compact(Some(c), msgs, est).1.applied
    ensures var out, k := Compact(Some(c), msgs, est).0, Cut(c, msgs);
            var i, cost := LeadingSystem(msgs), MsgTokens(Notice(k));
            && (Tokens(out) <= c.Max() <==>
                exists x :: FirstEnough(c, msgs, x) && Tokens(Remaining(msgs, x)) + MsgTokens(Notice(x)) <= c.Max())
            && (KeptTail(msgs, k) > c.Tail() ==> Tokens(out) <= c.Max() + cost)
            && (Tokens(out) < Tokens(msgs) <==> Tokens(msgs[i..i + k]) > cost)
  {
    hide Tokens, MsgTokens, Notice, LeadingSystem, WithNotice, Cut, Remaining, FirstEnough;
    var k := Cut(c, msgs);
    NoticeIsExtra(msgs, k);
    DroppedIsSaved(msgs, k);
    RemainingFits(c, msgs);
    CutIsFirstEnough(c, msgs, k);
    forall x | FirstEnough(c, msgs, x) ensures x == k {
      CutIsFirstEnough(c, msgs, x);
    }
  }

  lemma RemainingFits(c: Threshold, msgs: seq<Message>)
    requires Cut(c, msgs) > 0
    ensures Tokens(Remaining(msgs, Cut(c, msgs))) <= c.Max() || KeptTail(msgs, Cut(c, msgs)) <= c.Tail()
  {
    hide Tokens, LeadingSystem, Cut;
    var i, k := LeadingSystem(msgs), Cut(c, msgs);
    var b := CutIsLeast(c, msgs);
    SquashIsRest(msgs, k);
  }

  /** Dropping x messages reaches the budget without touching the tail, or leaves exactly the tail. */
  predicate SparesTail(c: Threshold, prefix: seq<Message>, mid: seq<Message>, last: Message, x: int) {
    0 <= x <= |mid| - c.Tail() && Boundary(mid, x) &&
    (Tokens(Squash(prefix, mid[x..], last)) <= c.Max() || x == |mid| - c.Tail())
  }

  /** The minimal tail is kept if and only if some boundary before it reaches the budget or lies
      exactly at its start. */
  lemma TailKept(c: Threshold, prefix: seq<Message>, mid: seq<Message>, last: Message)
    requires |mid| > c.Tail()
    ensures |mid| - c.Dropped(prefix, mid, last) >= c.Tail() <==> exists x :: SparesTail(c, prefix, mid, last, x)
  {
    hide Tokens, Boundary, Threshold.Tail, Threshold.Max, Threshold.Dropped;
    var k := c.Dropped(prefix, mid, last);
    DroppedIsLeast(c, prefix, mid, last, k);
    assert |mid| - k >= c.Tail() ==> SparesTail(c, prefix, mid, last, k);
    assert forall x | SparesTail(c, prefix, mid, last, x) :: c.Enough(prefix, mid, last, x);
  }

  /** Whatever the budget is, the tail is kept if and only if it starts at a boundary. */
  lemma TailAlwaysKept(prefix: seq<Message>, mid: seq<Message>, last: Message, t: nat)
    requires 0 < t < |mid|
    ensures (forall max: int :: |mid| - Threshold(max, t).Dropped(prefix, mid, last) >= t) <==> Boundary(mid, |mid| - t)
  {
    hide Tokens, Boundary, Threshold.Dropped;
    forall max: int ensures Boundary(mid, |mid| - t) ==> |mid| - Threshold(max, t).Dropped(prefix, mid, last) >= t {
      TailKept(Threshold(max, t), prefix, mid, last);
      assert Boundary(mid, |mid| - t) ==> SparesTail(Threshold(max, t), prefix, mid, last, |mid| - t);
    }
    var c := Threshold(1, t);
    TailKept(c, prefix, mid, last);
    forall x | SparesTail(c, prefix, mid, last, x) ensures x == |mid| - t {
      TokensConcat(Squash(prefix, mid[x..], last), []);
    }
  }

  /** Among complete blocks with identifiers the boundaries are the places between blocks ... */
  lemma {:induction false} BoundaryMeansBlocks(mid: seq<Message>, x: nat)
    requires Blocks(mid) && x <= |mid|
    requires forall m | m in mid :: IDsPresent(m)
    ensures Boundary(mid, x) <==> Blocks(mid[x..])
    decreases |mid|
  {
    hide BlockSize, IDsPresent;
    BlockSizeFits(mid);
    if x == 0 {
      assert mid[0..] == mid;
    } else {
      var n := BlockLen(mid[0]);
      DropTakesWholeBlock(mid);
      assert mid[0] in mid;
      if x < n {
        BlockResults(mid);
        assert mid[x..][0] == mid[x];
      } else {
        BoundaryMeansBlocks(mid[n..], x - n);
        assert mid[n..][x - n..] == mid[x..];
      }
    }
  }

  /** ... so the tail is kept under every budget if and only if it starts with a block. */
  lemma BlocksKeepTail(prefix: seq<Message>, mid: seq<Message>, last: Message, t: nat)
    requires 0 < t < |mid| && Blocks(mid)
    requires forall m | m in mid :: IDsPresent(m)
    ensures (forall max: int :: |mid| - Threshold(max, t).Dropped(prefix, mid, last) >= t) <==> Blocks(mid[|mid| - t..])
  {
    hide *;
    TailAlwaysKept(prefix, mid, last, t);
    BoundaryMeansBlocks(mid, |mid| - t);
  }

  predicate CutSparesTail(c: Threshold, msgs: seq<Message>, x: int) {
    var i := LeadingSystem(msgs);
    i < |msgs| && SparesTail(c, msgs[..i], msgs[i..|msgs| - 1], msgs[|msgs| - 1], x)
  }

  /** What is kept of the tail: all of it exactly under that condition on the input, and otherwise
      less than the block of the last drop is missing (b < k are the last two boundaries of the cut). */
  lemma CompactTail(c: Threshold, msgs: seq<Message>, est: int) returns (b: nat)
    requires Compact(Some(c), msgs, est).1.applied
    ensures var k := Cut(c, msgs);
            && CutBetween(c, msgs, b, k)
            && (KeptTail(msgs, k) >= c.Tail() <==>
                exists x :: CutSparesTail(c, msgs, x))
            && KeptTail(msgs, k) > c.Tail() - (k - b)
  {
    hide *;
    CompactApplies(c, msgs, est);
    CutIsPositive(c, msgs);
    b := CutIsLeast(c, msgs);
    CutTailKept(c, msgs);
    ShortfallBound(c, msgs, b);
  }

  lemma CutTailKept(c: Threshold, msgs: seq<Message>)
    requires |msgs| - 1 - LeadingSystem(msgs) > c.Tail()
    ensures KeptTail(msgs, Cut(c, msgs)) >= c.Tail() <==> exists x :: CutSparesTail(c, msgs, x)
  {
    hide LeadingSystem, Threshold.Dropped, Threshold.Tail, SparesTail;
    assert c.Tail() > 0;
    var i := LeadingSystem(msgs);
    var prefix, mid, last := msgs[..i], msgs[i..|msgs| - 1], msgs[|msgs| - 1];
    TailKept(c, prefix, mid, last);
    if x :| SparesTail(c, prefix, mid, last, x) {
      assert CutSparesTail(c, msgs, x);
    }
    if x :| CutSparesTail(c, msgs, x) {
      assert SparesTail(c, prefix, mid, last, x);
    }
  }

  lemma ShortfallBound(c: Threshold, msgs: seq<Message>, b: nat)
    requires CutBetween(c, msgs, b, Cut(c, msgs))
    ensures KeptTail(msgs, Cut(c, msgs)) > c.Tail() - (Cut(c, msgs) - b)
  {
    hide LeadingSystem, Cut, Tokens, Boundary, Threshold.Enough, Threshold.Tail, Threshold.Max;
  }

  lemma NoticeCostsSome(k: nat)
    ensures MsgTokens(Notice(k)) >= 4 + (|NOTICE_HEAD| + |NOTICE_TAIL|) / 3
  {
    hide Decimal;
    ByteLenIsRunes(Notice(k).content);
  }

  /** Three empty user messages over a budget of eight tokens: dropping the first one would reach the
      budget, but the notice leads beyond it and beyond what the list cost before. */
  lemma NoticeBreaksBudget()
    ensures var m := UserMessage("");
            var (out, rep) := Compact(Some(Threshold(8, 1)), [m, m, m], 0);
            rep.applied && Tokens(out) > 8 && Tokens(out) > Tokens([m, m, m])
  {
    var m, c := UserMessage(""), Threshold(8, 1);
    var msgs := [m, m, m];
    TokensOfOne(m);
    TokensConcat([m], [m]);
    TokensConcat([m, m], [m]);
    assert [m] + [m] == [m, m] && [m, m] + [m] == msgs;
    assert LeadingSystem(msgs) == 0;
    CompactApplies(c, msgs, 0);
    NoticeCostsSome(Cut(c, msgs));
    NoticeIsExtra(msgs, Cut(c, msgs));
  }

  /** A tool round before the newest message is dropped as a whole, so nothing of a minimal tail of one is kept. */
  lemma BlockBreaksTail(call: ToolCall, result: string)
    requires call.id != ""
    ensures var msgs := [Message(Assistant, "", [call], ""), ToolMessage(call.id, result), UserMessage("")];
            Compact(Some(Threshold(1, 1)), msgs, 0).1.applied && KeptTail(msgs, Cut(Threshold(1, 1), msgs)) == 0
  {
    var c := Threshold(1, 1);
    var a, r, last := Message(Assistant, "", [call], ""), ToolMessage(call.id, result), UserMessage("");
    var msgs := [a, r, last];
    TokensConcat(msgs, []);
    assert LeadingSystem(msgs) == 0;
    CompactApplies(c, msgs, 0);
    RoundIsBlock(a, r, call);
    assert msgs[0..2] == [a, r];
    var b := CutIsLeast(c, msgs);
  }

  /** One character of three bytes costs a token that its comment's count in runes does not have. */
  lemma RunesCostLess()
    ensures MsgTokens(UserMessage("世")) > RuneTokens(UserMessage("世"))
  {
    assert ByteLen("世"[1..]) == 0;
  }

  /** Of a round whose only call has an empty identifier one drop takes the assistant message and
      leaves the result behind. */
  lemma EmptyIDSplitsRound(name: string, arguments: string, result: string)
    ensures var a, r := Message(Assistant, "", [ToolCall("", "function", name, arguments)], ""), ToolMessage("", result);
            Blocks([a, r]) && BlockSize([a, r]) == 1 && !Blocks([a, r][1..])
  {
    var a, r := Message(Assistant, "", [ToolCall("", "function", name, arguments)], ""), ToolMessage("", result);
    assert [a, r][1..2] == [r] && [a, r][2..] == [] && [a, r][1..] == [r];
    assert a.toolCalls[0] in a.toolCalls;
    DropTakesWholeBlock([a, r]);
  }

  lemma RoundIsBlock(a: Message, r: Message, call: ToolCall)
    requires a == Message(Assistant, "", [call], "") && r.role == Tool && r.toolCallID == call.id != ""
    ensures BlockSize([a, r]) == 2
  {
    assert call in a.toolCalls;
    assert [a, r][1..] == [r] && [r][1..] == [];
    assert MatchingResults([], CallIDs([call])) == 0;
  }

  lemma CutIsPositive(c: Threshold, msgs: seq<Message>)
    ensures Cut(c, msgs) > 0 <==> Tokens(msgs) > c.Max() && |msgs| - 1 - LeadingSystem(msgs) > c.Tail()
  {
    var i := LeadingSystem(msgs);
    if i < |msgs| {
      SquashWhole(msgs, i);
      DroppedPositive(c, msgs[..i], msgs[i..|msgs| - 1], msgs[|msgs| - 1]);
    }
  }

  lemma SquashWhole(msgs: seq<Message>, i: nat)
    requires i < |msgs|
    ensures Squash(msgs[..i], msgs[i..|msgs| - 1], msgs[|msgs| - 1]) == msgs
  {
  }

  lemma DroppedPositive(c: Threshold, prefix: seq<Message>, mid: seq<Message>, last: Message)
    ensures c.Dropped(prefix, mid, last) > 0 <==> Tokens(Squash(prefix, mid, last)) > c.Max() && |mid| > c.Tail()
  {
    assert mid[0..] == mid;
  }

  // ---- what compaction does to the form of a prompt ----

  /** A prompt is system messages, then a history in the conversation form. */
  predicate PromptForm(msgs: seq<Message>) {
    Form(msgs[LeadingSystem(msgs)..])
  }

  predicate AllSystem(sys: seq<Message>) {
    forall j | 0 <= j < |sys| :: sys[j].role == System
  }

  /** The prefix holds system messages only, and the message after it is another kind. */
  lemma {:induction false} LeadingSystemIsLongest(msgs: seq<Message>)
    ensures AllSystem(msgs[..LeadingSystem(msgs)])
    ensures LeadingSystem(msgs) < |msgs| ==> msgs[LeadingSystem(msgs)].role != System
  {
    if msgs != [] && msgs[0].role == System {
      LeadingSystemIsLongest(msgs[1..]);
      var i := LeadingSystem(msgs);
      assert msgs[..i] == [msgs[0]] + msgs[1..][..i - 1];
    }
  }

  lemma {:induction false} LeadingSystemSplit(sys: seq<Message>, rest: seq<Message>)
    requires AllSystem(sys)
    ensures LeadingSystem(sys + rest) == |sys| + LeadingSystem(rest)
  {
    if sys == [] {
      assert sys + rest == rest;
    } else {
      LeadingSystemSplit(sys[1..], rest);
      assert (sys + rest)[1..] == sys[1..] + rest;
    }
  }

  lemma FormHasNoSystem(s: seq<Message>)
    requires Form(s)
    ensures LeadingSystem(s) == 0
  {
  }

  lemma PromptFormOf(sys: seq<Message>, rest: seq<Message>)
    requires AllSystem(sys)
    requires Form(rest)
    ensures PromptForm(sys + rest) && LeadingSystem(sys + rest) == |sys|
  {
    LeadingSystemSplit(sys, rest);
    FormHasNoSystem(rest);
    assert (sys + rest)[|sys|..] == rest;
  }

  /** Compaction keeps the last message. */
  lemma CompactKeepsLast(c: Option<Threshold>, msgs: seq<Message>, est: int)
    requires msgs != []
    ensures Compact(c, msgs, est).0 != []
    ensures Compact(c, msgs, est).0[|Compact(c, msgs, est).0| - 1] == msgs[|msgs| - 1]
  {
    hide Notice, LeadingSystem, Tokens;
  }

  /** Compaction keeps the prompt form, whatever the identifiers are. */
  lemma CompactKeepsForm(c: Option<Threshold>, msgs: seq<Message>, est: int)
    requires PromptForm(msgs)
    ensures PromptForm(Compact(c, msgs, est).0)
  {
    hide Notice, LeadingSystem, Tokens, Form, WithNotice;
    if Compact(c, msgs, est).1.applied {
      WithNoticeKeepsForm(msgs, Cut(c.value, msgs));
    }
  }

  lemma WithNoticeKeepsForm(msgs: seq<Message>, k: nat)
    requires PromptForm(msgs) && LeadingSystem(msgs) + k <= |msgs|
    ensures PromptForm(WithNotice(msgs, k)) && LeadingSystem(WithNotice(msgs, k)) == LeadingSystem(msgs) + 1
  {
    hide *;
    var i := LeadingSystem(msgs);
    PromptRest(msgs);
    LeadingSystemIsLongest(msgs);
    DropKeepsForm(msgs, i, k);
    NoticeIsSystem(k);
    WithNoticeParts(msgs, k);
    NoticeBetween(msgs[..i], Notice(k), msgs[i + k..]);
  }

  lemma NoticeIsSystem(k: nat)
    ensures Notice(k).role == System
  {
  }

  lemma WithNoticeParts(msgs: seq<Message>, k: nat)
    requires LeadingSystem(msgs) + k <= |msgs|
    ensures WithNotice(msgs, k) == msgs[..LeadingSystem(msgs)] + [Notice(k)] + msgs[LeadingSystem(msgs) + k..]
  {
    hide Notice, LeadingSystem;
  }

  lemma PromptRest(msgs: seq<Message>)
    requires PromptForm(msgs)
    ensures Form(msgs[LeadingSystem(msgs)..])
  {
  }

  lemma DropKeepsForm(msgs: seq<Message>, i: nat, k: nat)
    requires i + k <= |msgs| && Form(msgs[i..])
    ensures Form(msgs[i + k..])
  {
    hide Form;
    SuffixKeepsForm(msgs[i..], k);
    assert msgs[i..][k..] == msgs[i + k..];
  }

  lemma NoticeBetween(sys: seq<Message>, notice: Message, rest: seq<Message>)
    requires AllSystem(sys) && notice.role == System && Form(rest)
    ensures PromptForm(sys + [notice] + rest) && LeadingSystem(sys + [notice] + rest) == |sys| + 1
  {
    hide Form, LeadingSystem;
    PromptFormOf(sys + [notice], rest);
  }

  lemma BlockSizeFits(mid: seq<Message>)
    ensures BlockSize(mid) <= |mid|
    ensures BlockSize(mid) == 0 <==> mid == []
  {
  }

  /** With identifiers on all calls, compaction of complete blocks leaves complete blocks. */
  lemma {:induction false} BoundaryKeepsBlocks(mid: seq<Message>, k: nat)
    requires Blocks(mid) && Boundary(mid, k) && k <= |mid|
    requires forall m | m in mid :: IDsPresent(m)
    ensures Blocks(mid[k..])
    decreases |mid|
  {
    hide Blocks, BlockSize;
    BlockSizeFits(mid);
    if k == 0 {
      assert mid[0..] == mid;
    } else {
      var n := BlockSize(mid);
      DropTakesWholeBlock(mid);
      assert IDsPresent(mid[0]);
      BoundaryKeepsBlocks(mid[n..], k - n);
      assert mid[n..][k - n..] == mid[k..];
    }
  }

  /** A prompt of complete blocks with identifiers on all calls stays one: compaction leaves no
      tool result behind without its call. */
  lemma CompactKeepsBlocks(c: Option<Threshold>, sys: seq<Message>, rest: seq<Message>, est: int)
    requires AllSystem(sys) && Blocks(rest) && rest != [] && EndsSettled(rest)
    requires forall m | m in rest :: IDsPresent(m)
    ensures var out := Compact(c, sys + rest, est).0; Blocks(out[LeadingSystem(out)..])
  {
    hide Blocks, LeadingSystem, Notice, Form, Tokens, Cut, WithNotice;
    BlocksAreForm(rest);
    PromptFormOf(sys, rest);
    assert (sys + rest)[|sys|..] == rest;
    if Compact(c, sys + rest, est).1.applied {
      var k := Cut(c.value, sys + rest);
      CutKeepsBlocks(c.value, sys, rest, k);
      NoticeBeforeBlocks(sys, rest, k);
    }
  }

  lemma NoticeBeforeBlocks(sys: seq<Message>, rest: seq<Message>, k: nat)
    requires LeadingSystem(sys + rest) == |sys| && k <= |rest|
    requires AllSystem(sys) && Blocks(rest[k..])
    ensures var out := WithNotice(sys + rest, k); out[LeadingSystem(out)..] == rest[k..]
  {
    hide Blocks, LeadingSystem, Notice, Form;
    BlocksAreForm(rest[k..]);
    assert (sys + rest)[..|sys|] == sys;
    assert (sys + rest)[|sys| + k..] == rest[k..];
    NoticeBetween(sys, Notice(k), rest[k..]);
  }

  lemma CutKeepsBlocks(c: Threshold, sys: seq<Message>, rest: seq<Message>, k: nat)
    requires LeadingSystem(sys + rest) == |sys|
    requires Blocks(rest) && rest != [] && EndsSettled(rest)
    requires forall m | m in rest :: IDsPresent(m)
    requires k == Cut(c, sys + rest)
    ensures k < |rest| && Blocks(rest[k..])
  {
    hide *;
    CutOfRest(c, sys, rest);
    DroppedIsLeast(c, sys, rest[..|rest| - 1], rest[|rest| - 1], k);
    RestKeepsBlocks(rest, k);
  }

  lemma RestKeepsBlocks(rest: seq<Message>, k: nat)
    requires Blocks(rest) && rest != [] && EndsSettled(rest)
    requires forall m | m in rest :: IDsPresent(m)
    requires k < |rest| && Boundary(rest[..|rest| - 1], k)
    ensures Blocks(rest[k..])
  {
    hide Blocks, Boundary, IDsPresent, Single;
    var mid, last := rest[..|rest| - 1], rest[|rest| - 1];
    SplitTailBlocks(rest);
    assert forall m | m in mid :: m in rest;
    BoundaryKeepsBlocks(mid, k);
    SingleIsBlocks(last);
    BlocksConcat(mid[k..], [last]);
    assert mid[k..] + [last] == rest[k..];
  }

  lemma CutOfRest(c: Threshold, sys: seq<Message>, rest: seq<Message>)
    requires rest != [] && LeadingSystem(sys + rest) == |sys|
    ensures Cut(c, sys + rest) == c.Dropped(sys, rest[..|rest| - 1], rest[|rest| - 1])
  {
    hide LeadingSystem, Threshold.Dropped;
    var msgs := sys + rest;
    assert msgs[..|sys|] == sys;
    assert msgs[|sys|..|msgs| - 1] == rest[..|rest| - 1];
  }
}
