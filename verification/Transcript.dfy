/** The transcript rows that compaction, the loop and the session store exchange. */
module Transcript {

  /** Roles are strings in the source; Other("") is a reply that carries no role. */
  datatype Role = System | User | Assistant | Tool | Other(name: string)

  datatype ToolCall = ToolCall(id: string, kind: string, name: string, arguments: string)

  datatype Message = Message(role: Role, content: string, toolCalls: seq<ToolCall>, toolCallID: string)

  function UserMessage(text: string): Message {
    Message(User, text, [], "")
  }

  function ToolMessage(id: string, text: string): Message {
    Message(Tool, text, [], id)
  }
}

/** The shape of a conversation: tool results whose call was dropped, then complete blocks.
    A block is a user message, an assistant message without calls, or an assistant message
    with calls followed by exactly its results, in order. */
module Grammar {
  import opened Transcript

  /** results answer calls one by one. */
  predicate Answers(calls: seq<ToolCall>, results: seq<Message>) {
    |results| == |calls| &&
    forall j | 0 <= j < |calls| :: results[j].role == Tool && results[j].toolCallID == calls[j].id
  }

  /** How many messages the block that starts with m takes. */
  function BlockLen(m: Message): nat {
    if m.role == Assistant then 1 + |m.toolCalls| else 1
  }

  /** s starts with one complete block. */
  predicate StartsWithBlock(s: seq<Message>) {
    s != [] &&
    match s[0].role
    case User => true
    case Assistant => BlockLen(s[0]) <= |s| && Answers(s[0].toolCalls, s[1..BlockLen(s[0])])
    case _ => false
  }

  predicate Blocks(s: seq<Message>) {
    s == [] || (StartsWithBlock(s) && Blocks(s[BlockLen(s[0])..]))
  }

  /** Orphan results, then complete blocks. */
  predicate Form(s: seq<Message>) {
    if s != [] && s[0].role == Tool then Form(s[1..]) else Blocks(s)
  }

  /** A block of one message: a user message or an assistant message without calls. */
  predicate Single(m: Message) {
    m.role == User || (m.role == Assistant && m.toolCalls == [])
  }

  predicate EndsSettled(s: seq<Message>) {
    s == [] || Single(s[|s| - 1])
  }

  /** All messages of the first block after its head are tool results. */
  lemma BlockResults(s: seq<Message>)
    requires StartsWithBlock(s)
    ensures forall i | 1 <= i < BlockLen(s[0]) :: s[i].role == Tool
  {
    forall i | 1 <= i < BlockLen(s[0]) ensures s[i].role == Tool {
      assert s[i] == s[1..BlockLen(s[0])][i - 1];
    }
  }

  lemma {:induction false} BlocksConcat(a: seq<Message>, b: seq<Message>)
    requires Blocks(a) && Blocks(b)
    ensures Blocks(a + b)
  {
    if a == [] {
      assert a + b == b;
    } else {
      var n := BlockLen(a[0]);
      BlocksConcat(a[n..], b);
      assert (a + b)[n..] == a[n..] + b;
      assert (a + b)[..n] == a[..n];
      assert (a + b)[1..n] == (a + b)[..n][1..] == a[1..n];
    }
  }

  lemma {:induction false} FormAppend(a: seq<Message>, b: seq<Message>)
    requires Form(a) && Blocks(b)
    ensures Form(a + b)
  {
    if a != [] && a[0].role == Tool {
      FormAppend(a[1..], b);
      assert (a + b)[1..] == a[1..] + b;
    } else {
      BlocksConcat(a, b);
    }
  }

  lemma {:induction false} ToolsThenForm(t: seq<Message>, s: seq<Message>)
    requires forall i | 0 <= i < |t| :: t[i].role == Tool
    requires Form(s)
    ensures Form(t + s)
  {
    if t == [] {
      assert t + s == s;
    } else {
      ToolsThenForm(t[1..], s);
      assert (t + s)[1..] == t[1..] + s;
    }
  }

  /** Dropping any number of messages from the front, even inside a round, keeps the form. */
  lemma {:induction false} SuffixKeepsForm(s: seq<Message>, k: nat)
    requires Form(s) && k <= |s|
    ensures Form(s[k..])
    decreases |s|
  {
    if k == 0 {
      assert s[0..] == s;
    } else if s[0].role == Tool {
      SuffixKeepsForm(s[1..], k - 1);
      assert s[k..] == s[1..][k - 1..];
    } else {
      var n := BlockLen(s[0]);
      BlocksAreForm(s[n..]);
      if k < n {
        BlockResults(s);
        assert s[k..n] + s[n..] == s[k..];
        ToolsThenForm(s[k..n], s[n..]);
      } else {
        SuffixKeepsForm(s[n..], k - n);
        assert s[k..] == s[n..][k - n..];
      }
    }
  }

  lemma BlocksAreForm(s: seq<Message>)
    requires Blocks(s)
    ensures Form(s)
  {
  }

  /** Splitting off a settled last message never cuts a tool round. */
  lemma {:induction false} SplitTail(s: seq<Message>)
    requires Form(s) && s != [] && EndsSettled(s)
    ensures Form(s[..|s| - 1])
  {
    if s[0].role == Tool {
      SplitTail(s[1..]);
      assert s[..|s| - 1][1..] == s[1..][..|s| - 2];
    } else {
      SplitTailBlocks(s);
      BlocksAreForm(s[..|s| - 1]);
    }
  }

  lemma {:induction false} SplitTailBlocks(s: seq<Message>)
    requires Blocks(s) && s != [] && EndsSettled(s)
    ensures Blocks(s[..|s| - 1])
  {
    var n := BlockLen(s[0]);
    if n == |s| {
      BlockResults(s);
      assert s[..|s| - 1] == [];
    } else {
      SplitTailBlocks(s[n..]);
      assert s[..|s| - 1][n..] == s[n..][..|s| - 1 - n];
      assert s[..|s| - 1][1..n] == s[1..n];
    }
  }

  lemma SingleIsBlocks(m: Message)
    requires Single(m)
    ensures Blocks([m])
  {
    assert [m][1..] == [];
    assert [m][1..1] == [];
  }

  // ---- the same shape, said by positions ----

  /** The assistant message at i is followed at once by its results, in order. */
  predicate AnsweredAt(s: seq<Message>, i: int) {
    0 <= i < |s| && s[i].role == Assistant ==>
      i + |s[i].toolCalls| < |s| &&
      forall j | i < j <= i + |s[i].toolCalls| ::
        s[j].role == Tool && s[j].toolCallID == s[i].toolCalls[j - i - 1].id
  }

  /** Position p lies among the results of the assistant message at i. */
  predicate ResultOf(s: seq<Message>, i: int, p: int) {
    0 <= i < p < |s| && s[i].role == Assistant && p <= i + |s[i].toolCalls|
  }

  predicate Owned(s: seq<Message>, p: int) {
    exists i | 0 <= i < p :: ResultOf(s, i, p)
  }

  /** Position p belongs to the leading run of orphan results. */
  predicate OrphanAt(s: seq<Message>, p: int) {
    p < |s| && forall q | 0 <= q <= p :: s[q].role == Tool
  }

  /** Every call is answered once, in order, right after it, and no tool result outside a leading run lacks its call. */
  predicate Paired(s: seq<Message>, orphans: bool) {
    (forall i | 0 <= i < |s| :: s[i].role in {User, Assistant, Tool} && AnsweredAt(s, i)) &&
    (forall p | 0 <= p < |s| && s[p].role == Tool :: (orphans && OrphanAt(s, p)) || Owned(s, p))
  }

  lemma {:induction false} BlocksMeansPaired(s: seq<Message>)
    ensures Blocks(s) <==> Paired(s, false)
  {
    if s != [] {
      if Blocks(s) {
        BlocksMeansPaired(s[BlockLen(s[0])..]);
        PairedPrepend(s);
      }
      if Paired(s, false) {
        PairedFirst(s);
        PairedDrop(s);
        BlocksMeansPaired(s[BlockLen(s[0])..]);
      }
    }
  }

  lemma PairedFirst(s: seq<Message>)
    requires s != [] && Paired(s, false)
    ensures StartsWithBlock(s)
  {
    assert AnsweredAt(s, 0);
    assert !Owned(s, 0);
  }

  /** What follows the first block sees the same rounds, shifted. */
  lemma ShiftRounds(s: seq<Message>, n: nat, i: int)
    requires n <= |s| && n <= i
    ensures AnsweredAt(s, i) <==> AnsweredAt(s[n..], i - n)
    ensures forall p :: ResultOf(s, i, p) <==> ResultOf(s[n..], i - n, p - n)
  {
    var r := s[n..];
    if i < |s| && s[i].role == Assistant && i + |s[i].toolCalls| < |s| {
      forall j | i < j <= i + |s[i].toolCalls| ensures s[j] == r[j - n] {
      }
      if AnsweredAt(r, i - n) {
        forall j | i < j <= i + |s[i].toolCalls|
          ensures s[j].role == Tool && s[j].toolCallID == s[i].toolCalls[j - i - 1].id
        {
          assert r[j - n].role == Tool;
        }
      }
    }
  }

  lemma PairedDrop(s: seq<Message>)
    requires StartsWithBlock(s) && Paired(s, false)
    ensures Paired(s[BlockLen(s[0])..], false)
  {
    var n := BlockLen(s[0]);
    var r := s[n..];
    forall i | 0 <= i < |r| ensures r[i].role in {User, Assistant, Tool} && AnsweredAt(r, i) {
      ShiftRounds(s, n, n + i);
      assert AnsweredAt(s, n + i);
    }
    forall p | 0 <= p < |r| && r[p].role == Tool ensures Owned(r, p) {
      assert Owned(s, n + p);
      var i :| 0 <= i < n + p && ResultOf(s, i, n + p);
      BlockResults(s);
      ShiftRounds(s, n, i);
      assert ResultOf(r, i - n, p);
    }
  }

  lemma PairedPrepend(s: seq<Message>)
    requires StartsWithBlock(s) && Paired(s[BlockLen(s[0])..], false)
    ensures Paired(s, false)
  {
    var n := BlockLen(s[0]);
    var r := s[n..];
    BlockResults(s);
    forall i | 0 <= i < |s| ensures s[i].role in {User, Assistant, Tool} && AnsweredAt(s, i) {
      if i >= n {
        ShiftRounds(s, n, i);
        assert AnsweredAt(r, i - n);
      } else if i == 0 && s[0].role == Assistant {
        forall j | 0 < j < n ensures s[j] == s[1..n][j - 1] {
        }
      }
    }
    forall p | 0 <= p < |s| && s[p].role == Tool ensures Owned(s, p) {
      if p < n {
        assert ResultOf(s, 0, p);
      } else {
        assert r[p - n].role == Tool;
        assert Owned(r, p - n);
        var i :| 0 <= i < p - n && ResultOf(r, i, p - n);
        ShiftRounds(s, n, i + n);
        assert ResultOf(s, i + n, p);
      }
    }
  }

  /** The grammar and the reading by positions are the same property. */
  lemma {:induction false} FormMeansPaired(s: seq<Message>)
    ensures Form(s) <==> Paired(s, true)
  {
    if s != [] && s[0].role == Tool {
      FormMeansPaired(s[1..]);
      OrphanShift(s);
    } else {
      BlocksMeansPaired(s);
      assert forall p | 0 <= p < |s| :: OrphanAt(s, p) ==> s[0].role == Tool;
    }
  }

  lemma OrphanShift(s: seq<Message>)
    requires s != [] && s[0].role == Tool
    ensures Paired(s, true) <==> Paired(s[1..], true)
  {
    var r := s[1..];
    forall i | 1 <= i < |s| ensures AnsweredAt(r, i - 1) <==> AnsweredAt(s, i) {
      ShiftRounds(s, 1, i);
    }
    forall p | 1 <= p < |s|
      ensures OrphanAt(r, p - 1) <==> OrphanAt(s, p)
      ensures Owned(r, p - 1) <==> Owned(s, p)
    {
      OrphanOwners(s, p);
    }
    if Paired(s, true) {
      forall i | 0 <= i < |r| ensures r[i].role in {User, Assistant, Tool} && AnsweredAt(r, i) {
        assert AnsweredAt(s, i + 1);
      }
      forall p | 0 <= p < |r| && r[p].role == Tool ensures OrphanAt(r, p) || Owned(r, p) {
        assert s[p + 1].role == Tool;
      }
    }
    if Paired(r, true) {
      forall i | 0 <= i < |s| ensures s[i].role in {User, Assistant, Tool} && AnsweredAt(s, i) {
        assert i > 0 ==> AnsweredAt(r, i - 1) && s[i] == r[i - 1];
      }
      forall p | 0 <= p < |s| && s[p].role == Tool ensures OrphanAt(s, p) || Owned(s, p) {
        assert p > 0 ==> r[p - 1].role == Tool;
      }
    }
  }

  lemma OrphanOwners(s: seq<Message>, p: int)
    requires s != [] && s[0].role == Tool && 1 <= p < |s|
    ensures OrphanAt(s[1..], p - 1) <==> OrphanAt(s, p)
    ensures Owned(s[1..], p - 1) <==> Owned(s, p)
  {
    var r := s[1..];
    assert forall q | 1 <= q <= p :: s[q] == r[q - 1];
    if OrphanAt(s, p) {
      forall q | 0 <= q <= p - 1 ensures r[q].role == Tool {
        assert s[q + 1].role == Tool;
      }
    }
    if Owned(s, p) {
      var i :| 0 <= i < p && ResultOf(s, i, p);
      ShiftRounds(s, 1, i);
      assert ResultOf(r, i - 1, p - 1);
    }
    if Owned(r, p - 1) {
      var i :| 0 <= i < p - 1 && ResultOf(r, i, p - 1);
      ShiftRounds(s, 1, i + 1);
      assert ResultOf(s, i + 1, p);
    }
  }
}
