/** The streaming demultiplexer for <thinking> blocks (thinking/split.go), on bytes. */
module Thinking {

  type Byte = bv8
  type Bytes = seq<Byte>

  /** "<thinking>" and "</thinking>" in ASCII. */
  const OPEN_TAG: Bytes := [60, 116, 104, 105, 110, 107, 105, 110, 103, 62]
  const CLOSE_TAG: Bytes := [60, 47, 116, 104, 105, 110, 107, 105, 110, 103, 62]

  /** The tag that ends the current mode. */
  function Tag(inThinking: bool): (t: Bytes)
    ensures |t| > 0
  {
    if inThinking then CLOSE_TAG else OPEN_TAG
  }

  /** The ASCII codes of the characters that tags are made of. */
  function Code(c: char): Byte {
    match c
    case '/' => 0x2F
    case '<' => 0x3C
    case '>' => 0x3E
    case 'g' => 0x67
    case 'h' => 0x68
    case 'i' => 0x69
    case 'k' => 0x6B
    case 'n' => 0x6E
    case 't' => 0x74
    case _ => 0
  }

  function Ascii(s: string): Bytes {
    seq(|s|, i requires 0 <= i < |s| => Code(s[i]))
  }

  /** Text ends with the opening tag and thinking with the closing one. */
  lemma TagsAre()
    ensures Tag(false) == Ascii("<thinking>") && Tag(true) == Ascii("</thinking>")
  {
  }

  /** A call of OnThinking or OnText. */
  datatype Emit = Emit(thinking: bool, bytes: Bytes)

  // ---- occurrences of a tag ----

  predicate OccursAt(s: Bytes, tag: Bytes, p: int) {
    0 <= p && p + |tag| <= |s| && s[p..p + |tag|] == tag
  }

  /** strings.Index: the first occurrence, or -1. */
  function Index(s: Bytes, tag: Bytes): (i: int)
    requires |tag| > 0
    ensures -1 <= i <= |s| - |tag| || i == -1
  {
    IndexFrom(s, tag, 0)
  }

  function IndexFrom(s: Bytes, tag: Bytes, p: nat): (i: int)
    requires |tag| > 0 && p <= |s|
    ensures p <= i <= |s| - |tag| || i == -1
    decreases |s| - p
  {
    if p + |tag| > |s| then -1
    else if s[p..p + |tag|] == tag then p
    else IndexFrom(s, tag, p + 1)
  }

  lemma {:induction false} IndexFromIsFirst(s: Bytes, tag: Bytes, p: nat)
    requires |tag| > 0 && p <= |s|
    ensures var i := IndexFrom(s, tag, p); i >= 0 ==> OccursAt(s, tag, i)
    ensures var i := IndexFrom(s, tag, p); forall q | p <= q && (i < 0 || q < i) :: !OccursAt(s, tag, q)
    decreases |s| - p
  {
    if p + |tag| <= |s| && s[p..p + |tag|] != tag {
      IndexFromIsFirst(s, tag, p + 1);
    }
  }

  lemma IndexIsFirst(s: Bytes, tag: Bytes)
    requires |tag| > 0
    ensures Index(s, tag) >= 0 ==> OccursAt(s, tag, Index(s, tag))
    ensures var i := Index(s, tag); forall q | 0 <= q && (i < 0 || q < i) :: !OccursAt(s, tag, q)
  {
    IndexFromIsFirst(s, tag, 0);
  }

  /** The last k bytes of s begin the tag. */
  predicate Pending(s: Bytes, tag: Bytes, k: int) {
    0 <= k <= |s| && k < |tag| && s[|s| - k..] == tag[..k]
  }

  /** The length of the longest pending suffix. */
  function LongestPending(s: Bytes, tag: Bytes, k: nat): (r: nat)
    requires |tag| > 0 && k <= |s| && k < |tag|
    ensures r <= k
  {
    if Pending(s, tag, k) then k else LongestPending(s, tag, k - 1)
  }

  lemma {:induction false} LongestPendingIsLongest(s: Bytes, tag: Bytes, k: nat)
    requires |tag| > 0 && k <= |s| && k < |tag|
    ensures Pending(s, tag, LongestPending(s, tag, k))
    ensures forall j | LongestPending(s, tag, k) < j <= k :: !Pending(s, tag, j)
  {
    if !Pending(s, tag, k) {
      LongestPendingIsLongest(s, tag, k - 1);
    }
  }

  function Min(a: int, b: int): int {
    if a < b then a else b
  }

  function Carry(s: Bytes, tag: Bytes): (r: nat)
    requires |tag| > 0
    ensures r <= |s| && r < |tag|
  {
    LongestPending(s, tag, Min(|s|, |tag| - 1))
  }

  lemma PendingMeans(s: Bytes, tag: Bytes, k: nat)
    requires k <= |s| && k < |tag|
    ensures Pending(s, tag, k) <==> s[|s| - k..] <= tag
  {
  }

  lemma PendingFitsTag(s: Bytes, tag: Bytes)
    ensures forall j | Pending(s, tag, j) :: 0 <= j <= |s| && j < |tag|
  {
  }

  method PartialSuffix(s: Bytes, tag: Bytes) returns (r: nat)
    requires |tag| > 0
    ensures Pending(s, tag, r)
    ensures forall j | Pending(s, tag, j) :: j <= r
    ensures r == Carry(s, tag)
  {
    hide Pending;
    var max := Min(|s|, |tag| - 1);
    LongestPendingIsLongest(s, tag, max);
    PendingFitsTag(s, tag);
    var k := max;
    while k > 0
      invariant 0 <= k <= max
      invariant LongestPending(s, tag, k) == Carry(s, tag)
    {
      var suf := s[|s| - k..];
      PendingMeans(s, tag, k);
      if suf <= tag {
        return k;
      }
      assert !Pending(s, tag, k);
      k := k - 1;
    }
    return 0;
  }

  // ---- the incremental parser ----

  datatype State = State(inThinking: bool, carry: Bytes)

  /** A handler call, unless there is nothing to hand over. */
  function Piece(thinking: bool, s: Bytes): seq<Emit> {
    if s == [] then [] else [Emit(thinking, s)]
  }

  /** Without a tag in full: what is put out and what is held back. */
  function Held(inThinking: bool, full: Bytes): (State, seq<Emit>) {
    var n := |full| - Carry(full, Tag(inThinking));
    (State(inThinking, full[n..]), Piece(inThinking, full[..n]))
  }

  function AfterTag(inThinking: bool, full: Bytes): Bytes
    requires Index(full, Tag(inThinking)) >= 0
  {
    full[Index(full, Tag(inThinking)) + |Tag(inThinking)|..]
  }

  function BeforeTag(inThinking: bool, full: Bytes): Bytes
    requires Index(full, Tag(inThinking)) >= 0
  {
    full[..Index(full, Tag(inThinking))]
  }

  /** What one call does with the carried bytes followed by the chunk. */
  function Consume(inThinking: bool, full: Bytes): (State, seq<Emit>)
    decreases |full|
  {
    if Index(full, Tag(inThinking)) < 0 then Held(inThinking, full)
    else
      var after := Consume(!inThinking, AfterTag(inThinking, full));
      (after.0, Piece(inThinking, BeforeTag(inThinking, full)) + after.1)
  }

  lemma ConsumeUnfold(inThinking: bool, full: Bytes)
    ensures Index(full, Tag(inThinking)) < 0 ==> Consume(inThinking, full) == Held(inThinking, full)
    ensures Index(full, Tag(inThinking)) >= 0 ==>
              var after := Consume(!inThinking, AfterTag(inThinking, full));
              Consume(inThinking, full) == (after.0, Piece(inThinking, BeforeTag(inThinking, full)) + after.1)
  {
    hide Tag, Index, Held, Piece, AfterTag, BeforeTag;
  }

  class ParserState {
    var inThinking: bool
    var carry: Bytes

    constructor ()
      ensures !inThinking && carry == []
    {
      inThinking, carry := false, [];
    }

    method ProcessChunk(chunk: Bytes) returns (emits: seq<Emit>)
      modifies this
      ensures (State(inThinking, carry), emits) == Consume(old(inThinking), old(carry) + chunk)
    {
      hide Tag, Index, Consume, Held, Piece, AfterTag, BeforeTag;
      emits := [];
      var full := carry + chunk;
      carry := [];
      ghost var target := Consume(inThinking, full);
      assert [] + target.1 == target.1;
      while true
        invariant carry == []
        invariant target == (Consume(inThinking, full).0, emits + Consume(inThinking, full).1)
        decreases |full|
      {
        ConsumeUnfold(inThinking, full);
        var i := Index(full, Tag(inThinking));
        if i < 0 {
          var rest := HoldBack(full);
          emits := emits + rest;
          return;
        }
        var piece;
        piece, full := PassTag(full, i);
        assert emits + (piece + Consume(inThinking, full).1) == (emits + piece) + Consume(inThinking, full).1;
        emits := emits + piece;
      }
    }

    /** Puts out what comes before the tag at i and switches sides after it. */
    method PassTag(full: Bytes, i: nat) returns (emits: seq<Emit>, rest: Bytes)
      requires i == Index(full, Tag(inThinking))
      modifies this`inThinking
      ensures inThinking == !old(inThinking)
      ensures emits == Piece(old(inThinking), BeforeTag(old(inThinking), full))
      ensures rest == AfterTag(old(inThinking), full) && |rest| < |full|
    {
      hide Tag, Index;
      emits := if i > 0 then [Emit(inThinking, full[..i])] else [];
      rest := full[i + |Tag(inThinking)|..];
      inThinking := !inThinking;
    }

    /** The end of ProcessChunk when no tag is left: keep what may become one, put out the rest. */
    method HoldBack(full: Bytes) returns (emits: seq<Emit>)
      requires carry == []
      modifies this`carry
      ensures (State(inThinking, carry), emits) == Held(inThinking, full)
    {
      hide Tag, Carry;
      var rest := full;
      var k := PartialSuffix(full, Tag(inThinking));
      if k > 0 {
        carry := carry + full[|full| - k..];
        rest := full[..|full| - k];
      }
      assert full[..|full|] == full && full[|full|..] == [];
      assert rest == full[..|full| - k] && carry == full[|full| - k..];
      emits := if rest != [] then [Emit(inThinking, rest)] else [];
    }

    method Flush() returns (emits: seq<Emit>)
      modifies this
      ensures emits == FlushOf(State(old(inThinking), old(carry)))
      ensures emits == if old(carry) == [] then [] else [Emit(old(inThinking), old(carry))]
      ensures inThinking == old(inThinking) && carry == []
    {
      var rest := carry;
      carry := [];
      if rest == [] {
        return [];
      }
      emits := if inThinking then [Emit(true, rest)] else [Emit(false, rest)];
    }
  }

  function FlushOf(st: State): seq<Emit> {
    Piece(st.inThinking, st.carry)
  }

  // ---- the reference splitter ----

  /** A byte of output with the side it belongs to. */
  datatype Labelled = Labelled(thinking: bool, byte: Byte)

  function Label(thinking: bool, s: Bytes): (r: seq<Labelled>)
    ensures |r| == |s|
  {
    seq(|s|, i requires 0 <= i < |s| => Labelled(thinking, s[i]))
  }

  /** The whole input at once, byte by byte: a tag switches sides, any other byte belongs to the current side. */
  function Split(inThinking: bool, s: Bytes): seq<Labelled>
    decreases |s|
  {
    if s == [] then []
    else if Tag(inThinking) <= s then Split(!inThinking, s[|Tag(inThinking)|..])
    else [Labelled(inThinking, s[0])] + Split(inThinking, s[1..])
  }

  function Flatten(emits: seq<Emit>): seq<Labelled> {
    if emits == [] then [] else Label(emits[0].thinking, emits[0].bytes) + Flatten(emits[1..])
  }

  lemma {:induction false} FlattenConcat(a: seq<Emit>, b: seq<Emit>)
    ensures Flatten(a + b) == Flatten(a) + Flatten(b)
  {
    hide Label;
    if a == [] {
      assert a + b == b;
    } else {
      assert (a + b)[0] == a[0] && (a + b)[1..] == a[1..] + b;
      FlattenConcat(a[1..], b);
    }
  }

  /** Feeding the chunks one after the other. */
  function Feed(chunks: seq<Bytes>): (State, seq<Emit>) {
    if chunks == [] then (State(false, []), [])
    else
      var (st, emits) := Feed(chunks[..|chunks| - 1]);
      var (st', more) := Consume(st.inThinking, st.carry + chunks[|chunks| - 1]);
      (st', emits + more)
  }

  function Join(chunks: seq<Bytes>): Bytes {
    if chunks == [] then [] else Join(chunks[..|chunks| - 1]) + chunks[|chunks| - 1]
  }

  /** All output of a stream cut into chunks. */
  function Demux(chunks: seq<Bytes>): seq<Labelled> {
    var (st, emits) := Feed(chunks);
    Flatten(emits + FlushOf(st))
  }

  // ---- chunk invariance ----

  /** No tag starts before position n of s, so the first n bytes belong to the current side. */
  lemma {:induction false} SplitPlain(inThinking: bool, s: Bytes, n: nat)
    requires n <= |s|
    requires forall p | 0 <= p < n :: !OccursAt(s, Tag(inThinking), p)
    ensures Split(inThinking, s) == Label(inThinking, s[..n]) + Split(inThinking, s[n..])
  {
    hide Tag, Split, Label, OccursAt;
    if n == 0 {
      assert s[0..] == s && s[..0] == [];
      assert Label(inThinking, []) + Split(inThinking, s) == Split(inThinking, s);
    } else {
      OccursFirst(s, Tag(inThinking));
      SplitByte(inThinking, s);
      forall p | 0 <= p < n - 1 ensures !OccursAt(s[1..], Tag(inThinking), p) {
        OccursShift(s, Tag(inThinking), 1, p);
      }
      SplitPlain(inThinking, s[1..], n - 1);
      assert s[1..][n - 1..] == s[n..];
      LabelCons(inThinking, s[0], s[1..][..n - 1]);
      assert s[..n] == [s[0]] + s[1..][..n - 1];
    }
  }

  lemma SplitByte(inThinking: bool, s: Bytes)
    requires s != [] && !(Tag(inThinking) <= s)
    ensures Split(inThinking, s) == [Labelled(inThinking, s[0])] + Split(inThinking, s[1..])
  {
    hide Tag;
  }

  lemma OccursFirst(s: Bytes, tag: Bytes)
    ensures OccursAt(s, tag, 0) <==> tag <= s
  {
  }

  lemma LabelCons(thinking: bool, b: Byte, s: Bytes)
    ensures Label(thinking, [b] + s) == [Labelled(thinking, b)] + Label(thinking, s)
  {
  }

  lemma OccursShift(s: Bytes, tag: Bytes, m: nat, p: nat)
    requires m <= |s|
    ensures OccursAt(s[m..], tag, p) <==> OccursAt(s, tag, m + p)
  {
    if m + p + |tag| <= |s| {
      assert s[m..][p..p + |tag|] == s[m + p..m + p + |tag|];
    }
  }

  /** An occurrence in s that ends within its first part is one of that part; otherwise the part's end is pending. */
  lemma OccursInFront(a: Bytes, b: Bytes, tag: Bytes, p: nat)
    requires OccursAt(a + b, tag, p) && p <= |a|
    ensures p + |tag| <= |a| ==> OccursAt(a, tag, p)
    ensures p + |tag| > |a| ==> Pending(a, tag, |a| - p)
  {
    if p + |tag| <= |a| {
      assert (a + b)[p..p + |tag|] == a[p..p + |tag|];
    } else {
      assert (a + b)[p..p + |tag|][..|a| - p] == a[p..];
    }
  }

  /** Without a tag in full, all but the carry belongs to the current side, whatever follows. */
  lemma PlainBeforeCarry(full: Bytes, rest: Bytes, tag: Bytes)
    requires |tag| > 0 && Index(full, tag) < 0
    ensures forall p | 0 <= p < |full| - Carry(full, tag) :: !OccursAt(full + rest, tag, p)
  {
    hide Carry, Index;
    IndexIsFirst(full, tag);
    CarryIsLongest(full, tag);
    forall p | 0 <= p < |full| - Carry(full, tag) ensures !OccursAt(full + rest, tag, p) {
      if OccursAt(full + rest, tag, p) {
        OccursInFront(full, rest, tag, p);
      }
    }
  }

  /** The first tag in full stays the first, whatever follows. */
  lemma PlainBeforeTag(full: Bytes, rest: Bytes, tag: Bytes)
    requires |tag| > 0 && Index(full, tag) >= 0
    ensures forall p | 0 <= p < Index(full, tag) :: !OccursAt(full + rest, tag, p)
  {
    hide Index;
    IndexIsFirst(full, tag);
    forall p | 0 <= p < Index(full, tag) ensures !OccursAt(full + rest, tag, p) {
      if OccursAt(full + rest, tag, p) {
        OccursInFront(full, rest, tag, p);
      }
    }
  }

  /** One call, for every continuation of the input: what it emits and what it carries split like
      what it was given. */
  lemma {:induction false} ConsumeSound(inThinking: bool, full: Bytes, rest: Bytes)
    ensures var (st, emits) := Consume(inThinking, full);
            Split(inThinking, full + rest) == Flatten(emits) + Split(st.inThinking, st.carry + rest)
    decreases |full|
  {
    hide Tag, Carry, Index, Split, Flatten, Label, OccursAt, Piece, Consume;
    ConsumeUnfold(inThinking, full);
    var tag := Tag(inThinking);
    var i := Index(full, tag);
    if i < 0 {
      var n := |full| - Carry(full, tag);
      PlainBeforeCarry(full, rest, tag);
      SplitPlain(inThinking, full + rest, n);
      assert (full + rest)[..n] == full[..n] && (full + rest)[n..] == full[n..] + rest;
      FlattenOne(inThinking, full[..n]);
    } else {
      var r := full[i + |tag|..];
      IndexIsFirst(full, tag);
      PlainBeforeTag(full, rest, tag);
      SplitPlain(inThinking, full + rest, i);
      CutAt(full, rest, tag, i);
      SplitTag(inThinking, r + rest);
      FlattenOne(inThinking, full[..i]);
      ConsumeSound(!inThinking, r, rest);
      FlattenConcat(Piece(inThinking, full[..i]), Consume(!inThinking, r).1);
    }
  }

  lemma CutAt(full: Bytes, rest: Bytes, tag: Bytes, i: nat)
    requires OccursAt(full, tag, i)
    ensures (full + rest)[..i] == full[..i]
    ensures (full + rest)[i..] == tag + (full[i + |tag|..] + rest)
    ensures (full + rest)[i + |tag|..] == full[i + |tag|..] + rest
  {
    assert full == full[..i] + tag + full[i + |tag|..];
  }

  lemma SplitTag(inThinking: bool, s: Bytes)
    ensures Split(inThinking, Tag(inThinking) + s) == Split(!inThinking, s)
  {
    hide Tag;
    assert (Tag(inThinking) + s)[|Tag(inThinking)|..] == s;
  }

  lemma FlattenOne(thinking: bool, s: Bytes)
    ensures Flatten(Piece(thinking, s)) == Label(thinking, s)
  {
    if |s| > 0 {
      assert [Emit(thinking, s)][1..] == [];
    }
  }

  lemma CarryIsLongest(s: Bytes, tag: Bytes)
    requires |tag| > 0
    ensures Pending(s, tag, Carry(s, tag))
    ensures forall j | Pending(s, tag, j) :: j <= Carry(s, tag)
  {
    LongestPendingIsLongest(s, tag, Min(|s|, |tag| - 1));
  }

  /** After any chunks, for every continuation: the output so far and the carry account for the whole input. */
  lemma {:induction false} FeedSound(chunks: seq<Bytes>, rest: Bytes)
    ensures var (st, emits) := Feed(chunks);
            Split(false, Join(chunks) + rest) == Flatten(emits) + Split(st.inThinking, st.carry + rest)
  {
    hide Split, Consume;
    if chunks == [] {
      assert Join(chunks) + rest == rest;
    } else {
      var before, c := chunks[..|chunks| - 1], chunks[|chunks| - 1];
      var (st, emits) := Feed(before);
      FeedSound(before, c + rest);
      ConsumeSound(st.inThinking, st.carry + c, rest);
      assert Join(chunks) + rest == Join(before) + (c + rest);
      assert st.carry + c + rest == st.carry + (c + rest);
      FlattenConcat(emits, Consume(st.inThinking, st.carry + c).1);
    }
  }

  /** The carry is the longest suffix of what was not consumed that can still become the tag. */
  lemma {:induction false} ConsumeCarry(inThinking: bool, full: Bytes)
    ensures var (st, _) := Consume(inThinking, full);
            |st.carry| < |Tag(st.inThinking)| && st.carry == Tag(st.inThinking)[..|st.carry|]
    decreases |full|
  {
    hide Tag, Carry, Index, Consume, Piece;
    ConsumeUnfold(inThinking, full);
    var tag := Tag(inThinking);
    var i := Index(full, tag);
    if i < 0 {
      CarryIsLongest(full, tag);
    } else {
      ConsumeCarry(!inThinking, full[i + |tag|..]);
    }
  }

  lemma FeedCarry(chunks: seq<Bytes>)
    ensures var st := Feed(chunks).0;
            |st.carry| < |Tag(st.inThinking)| && st.carry == Tag(st.inThinking)[..|st.carry|]
  {
    if chunks != [] {
      var st := Feed(chunks[..|chunks| - 1]).0;
      ConsumeCarry(st.inThinking, st.carry + chunks[|chunks| - 1]);
    }
  }

  /** Chunk invariance: however the input is cut, the demultiplexer puts out, in order and on the
      right side, exactly the bytes that the one-shot splitter puts out on the whole input. */
  lemma ChunkInvariance(chunks: seq<Bytes>)
    ensures Demux(chunks) == Split(false, Join(chunks))
  {
    hide Split, Feed, Tag;
    var (st, emits) := Feed(chunks);
    FeedSound(chunks, []);
    FeedCarry(chunks);
    assert Join(chunks) + [] == Join(chunks) && st.carry + [] == st.carry;
    SplitShort(st.inThinking, st.carry);
    FlattenConcat(emits, FlushOf(st));
    FlattenOne(st.inThinking, st.carry);
  }

  /** Fewer bytes than the tag stay on the current side. */
  lemma SplitShort(inThinking: bool, s: Bytes)
    requires |s| < |Tag(inThinking)|
    ensures Split(inThinking, s) == Label(inThinking, s)
  {
    hide Tag;
    SplitPlain(inThinking, s, |s|);
    assert s[..|s|] == s && s[|s|..] == [];
    assert Label(inThinking, s) + [] == Label(inThinking, s);
  }

  /** No handler is ever called with nothing. */
  lemma {:induction false} ConsumeEmitsBytes(inThinking: bool, full: Bytes)
    ensures forall e | e in Consume(inThinking, full).1 :: e.bytes != []
    decreases |full|
  {
    hide Tag, Index, Carry, Consume;
    ConsumeUnfold(inThinking, full);
    if Index(full, Tag(inThinking)) >= 0 {
      ConsumeEmitsBytes(!inThinking, AfterTag(inThinking, full));
    }
  }

  lemma {:induction false} FeedEmitsBytes(chunks: seq<Bytes>)
    ensures forall e | e in Feed(chunks).1 + FlushOf(Feed(chunks).0) :: e.bytes != []
  {
    hide Consume;
    if chunks != [] {
      var before := chunks[..|chunks| - 1];
      FeedEmitsBytes(before);
      var st := Feed(before).0;
      assert forall e | e in Feed(before).1 :: e in Feed(before).1 + FlushOf(st);
      ConsumeEmitsBytes(st.inThinking, st.carry + chunks[|chunks| - 1]);
    }
  }

  // ---- promptness ----

  /** What has been put out before the flush. */
  function Emitted(chunks: seq<Bytes>): seq<Labelled> {
    Flatten(Feed(chunks).1)
  }

  /** The demultiplexer is as prompt as any can be: an output is safe, that is a prefix of the final
      output of every continuation, if and only if it is a prefix of what was emitted. So nothing
      emitted is ever wrong, and with a non-empty carry one more byte could be. */
  lemma Prompt(chunks: seq<Bytes>, p: seq<Labelled>)
    ensures p <= Emitted(chunks) <==> forall rest: Bytes :: p <= Split(false, Join(chunks) + rest)
  {
    hide Split, Feed, Flatten, Join;
    forall rest: Bytes ensures Emitted(chunks) <= Split(false, Join(chunks) + rest) {
      FeedSound(chunks, rest);
    }
    var rest := Completion(Feed(chunks).0);
    WorstContinuation(chunks);
    if forall rest': Bytes :: p <= Split(false, Join(chunks) + rest') {
      assert p <= Split(false, Join(chunks) + rest);
    }
  }

  /** The bytes that would turn the carry into the tag. */
  function Completion(st: State): Bytes {
    if st.carry == [] || |st.carry| > |Tag(st.inThinking)| then [] else Tag(st.inThinking)[|st.carry|..]
  }

  /** Completing the pending tag adds nothing to the output. */
  lemma WorstContinuation(chunks: seq<Bytes>)
    ensures Split(false, Join(chunks) + Completion(Feed(chunks).0)) == Emitted(chunks)
  {
    hide Feed, Flatten, Join, Tag;
    var st := Feed(chunks).0;
    var rest := Completion(st);
    FeedSound(chunks, rest);
    FeedCarry(chunks);
    if st.carry != [] {
      assert st.carry + rest == Tag(st.inThinking) + [];
      SplitTag(st.inThinking, []);
    }
    assert Emitted(chunks) + [] == Emitted(chunks);
  }

  // ---- the state after any chunks ----

  /** The side that is open after s, and what of s follows the last tag. */
  function Residue(inThinking: bool, s: Bytes): (bool, Bytes)
    decreases |s|
  {
    var tag := Tag(inThinking);
    var i := Index(s, tag);
    if i < 0 then (inThinking, s) else Residue(!inThinking, s[i + |tag|..])
  }

  lemma {:induction false} StateOfResidue(inThinking: bool, s: Bytes)
    ensures var (m, r) := Residue(inThinking, s);
            Consume(inThinking, s).0 == State(m, r[|r| - Carry(r, Tag(m))..])
    decreases |s|
  {
    hide Tag, Carry, Index, Consume, Piece;
    ConsumeUnfold(inThinking, s);
    var i := Index(s, Tag(inThinking));
    if i >= 0 {
      StateOfResidue(!inThinking, s[i + |Tag(inThinking)|..]);
    }
  }

  /** The first occurrence is the only position with no occurrence before it. */
  lemma IndexIs(s: Bytes, tag: Bytes, i: int)
    requires |tag| > 0
    requires forall p | 0 <= p < i :: !OccursAt(s, tag, p)
    requires OccursAt(s, tag, i)
    ensures Index(s, tag) == i
  {
    IndexIsFirst(s, tag);
  }

  /** Bytes in front of which nothing is found or pending can be left out. */
  lemma DropPlain(inThinking: bool, s: Bytes, n: nat)
    requires n <= |s|
    requires forall p | 0 <= p < n :: !OccursAt(s, Tag(inThinking), p)
    requires forall j | Pending(s, Tag(inThinking), j) :: j <= |s| - n
    ensures Consume(inThinking, s[n..]).0 == Consume(inThinking, s).0
  {
    hide Tag, Carry, Index, OccursAt, Pending, Consume, Piece;
    var tag := Tag(inThinking);
    var t := s[n..];
    ConsumeUnfold(inThinking, s);
    ConsumeUnfold(inThinking, t);
    var i := Index(s, tag);
    IndexIsFirst(s, tag);
    if i >= 0 {
      forall p | 0 <= p < i - n ensures !OccursAt(t, tag, p) {
        OccursShift(s, tag, n, p);
      }
      OccursShift(s, tag, n, i - n);
      IndexIs(t, tag, i - n);
      assert t[i - n + |tag|..] == s[i + |tag|..];
    } else {
      IndexIsFirst(t, tag);
      if Index(t, tag) >= 0 {
        OccursShift(s, tag, n, Index(t, tag));
      }
      CarryOfSuffix(s, tag, n);
    }
  }

  lemma CarryOfSuffix(s: Bytes, tag: Bytes, n: nat)
    requires |tag| > 0 && n <= |s|
    requires forall j | Pending(s, tag, j) :: j <= |s| - n
    ensures Carry(s[n..], tag) == Carry(s, tag)
    ensures s[n..][|s| - n - Carry(s, tag)..] == s[|s| - Carry(s, tag)..]
  {
    hide Carry;
    var t := s[n..];
    CarryIsLongest(s, tag);
    CarryIsLongest(t, tag);
    PendingSuffix(s, tag, n, Carry(s, tag));
    PendingSuffix(s, tag, n, Carry(t, tag));
  }

  lemma PendingSuffix(s: Bytes, tag: Bytes, n: nat, j: int)
    requires n <= |s| && 0 <= j <= |s| - n
    ensures Pending(s[n..], tag, j) <==> Pending(s, tag, j)
  {
    assert s[n..][|s| - n - j..] == s[|s| - j..];
  }

  /** Two calls leave the state that one call on the joined input leaves. */
  lemma {:induction false} ConsumeTwice(inThinking: bool, full: Bytes, c: Bytes)
    ensures var st := Consume(inThinking, full).0;
            Consume(st.inThinking, st.carry + c).0 == Consume(inThinking, full + c).0
    decreases |full|
  {
    hide Tag, Carry, Index, OccursAt, Pending, Consume, Piece;
    ConsumeUnfold(inThinking, full);
    var tag := Tag(inThinking);
    var i := Index(full, tag);
    if i < 0 {
      var n := |full| - Carry(full, tag);
      PlainBeforeCarry(full, c, tag);
      forall j | Pending(full + c, tag, j) ensures j <= |full + c| - n {
        PendingSplit(full, c, tag, j);
      }
      DropPlain(inThinking, full + c, n);
      assert (full + c)[n..] == full[n..] + c;
    } else {
      var r := full[i + |tag|..];
      IndexIsFirst(full, tag);
      PlainBeforeTag(full, c, tag);
      OccursExtends(full, c, tag, i);
      IndexIs(full + c, tag, i);
      CutAt(full, c, tag, i);
      ConsumeUnfold(inThinking, full + c);
      ConsumeTwice(!inThinking, r, c);
    }
  }

  lemma OccursExtends(full: Bytes, c: Bytes, tag: Bytes, i: int)
    requires OccursAt(full, tag, i)
    ensures OccursAt(full + c, tag, i)
  {
    assert (full + c)[i..i + |tag|] == full[i..i + |tag|];
  }

  lemma PendingSplit(full: Bytes, c: Bytes, tag: Bytes, j: int)
    requires |tag| > 0 && Pending(full + c, tag, j)
    ensures j <= Carry(full, tag) + |c|
  {
    CarryIsLongest(full, tag);
    if j > |c| {
      assert (full + c)[|full + c| - j..][..j - |c|] == full[|full| - (j - |c|)..];
      assert Pending(full, tag, j - |c|);
    }
  }

  /** The state after any chunks depends on the whole input only: the open side, and as carry the
      longest suffix of what follows the last tag that can still become a tag. */
  lemma FeedState(chunks: seq<Bytes>)
    ensures Feed(chunks).0 == Consume(false, Join(chunks)).0
    ensures var (m, r) := Residue(false, Join(chunks));
            var carry := Feed(chunks).0.carry;
            && Feed(chunks).0.inThinking == m
            && |carry| <= |r| && carry == r[|r| - |carry|..] && Pending(r, Tag(m), |carry|)
            && forall j | Pending(r, Tag(m), j) :: j <= |carry|
  {
    hide Tag, Carry, Consume, Residue, Pending;
    FeedIsConsume(chunks);
    StateOfResidue(false, Join(chunks));
    var (m, r) := Residue(false, Join(chunks));
    CarryIsLongest(r, Tag(m));
  }

  lemma {:induction false} FeedIsConsume(chunks: seq<Bytes>)
    ensures Feed(chunks).0 == Consume(false, Join(chunks)).0
  {
    hide Consume;
    if chunks == [] {
      NothingConsumed();
    } else {
      var before := chunks[..|chunks| - 1];
      FeedIsConsume(before);
      ConsumeTwice(false, Join(before), chunks[|chunks| - 1]);
    }
  }

  lemma NothingConsumed()
    ensures Consume(false, []) == (State(false, []), [])
  {
    hide Tag;
    ConsumeUnfold(false, []);
  }

  // ---- printer and parser ----

  /** Segments alternate sides, beginning with the given one, and are joined by the tag that leaves the side. */
  function Render(inThinking: bool, segs: seq<Bytes>): Bytes
    decreases |segs|
  {
    if segs == [] then []
    else if |segs| == 1 then segs[0]
    else segs[0] + (Tag(inThinking) + Render(!inThinking, segs[1..]))
  }

  /** No segment contains the tag that leaves its side. */
  ghost predicate Printable(inThinking: bool, segs: seq<Bytes>)
    decreases |segs|
  {
    segs == [] ||
    ((forall p :: !OccursAt(segs[0], Tag(inThinking), p)) && Printable(!inThinking, segs[1..]))
  }

  function Labels(inThinking: bool, segs: seq<Bytes>): seq<Labelled>
    decreases |segs|
  {
    if segs == [] then [] else Label(inThinking, segs[0]) + Labels(!inThinking, segs[1..])
  }

  /** Neither tag overlaps itself: its first byte does not come again. */
  lemma TagsDoNotOverlap(inThinking: bool)
    ensures forall m | 0 < m < |Tag(inThinking)| :: Tag(inThinking)[m] != Tag(inThinking)[0]
  {
  }

  lemma NoTagBeforeTag(seg: Bytes, r: Bytes, tag: Bytes, p: int)
    requires 0 <= p < |seg|
    requires forall m | 0 < m < |tag| :: tag[m] != tag[0]
    ensures OccursAt(seg + (tag + r), tag, p) ==> OccursAt(seg, tag, p)
  {
    var s := seg + (tag + r);
    if p + |tag| <= |seg| {
      assert s[p..p + |tag|] == seg[p..p + |tag|];
    } else if p + |tag| <= |s| {
      assert s[p..p + |tag|][|seg| - p] == s[|seg|] == tag[0];
    }
  }

  /** The splitter undoes the printer. */
  lemma {:induction false} SplitRender(inThinking: bool, segs: seq<Bytes>)
    requires Printable(inThinking, segs)
    ensures Split(inThinking, Render(inThinking, segs)) == Labels(inThinking, segs)
    decreases |segs|
  {
    hide Tag, Split, Label, OccursAt;
    var tag := Tag(inThinking);
    if segs == [] {
      SplitNothing(inThinking);
    } else if |segs| == 1 {
      SplitPlain(inThinking, segs[0], |segs[0]|);
      SplitNothing(inThinking);
      assert segs[0][..|segs[0]|] == segs[0] && segs[0][|segs[0]|..] == [];
      assert Labels(!inThinking, segs[1..]) == [];
    } else {
      var r := Render(!inThinking, segs[1..]);
      var s := segs[0] + (tag + r);
      TagsDoNotOverlap(inThinking);
      forall p | 0 <= p < |segs[0]| ensures !OccursAt(s, tag, p) {
        NoTagBeforeTag(segs[0], r, tag, p);
      }
      SplitPlain(inThinking, s, |segs[0]|);
      assert s[..|segs[0]|] == segs[0] && s[|segs[0]|..] == tag + r;
      SplitTag(inThinking, r);
      SplitRender(!inThinking, segs[1..]);
    }
  }

  lemma SplitNothing(inThinking: bool)
    ensures Split(inThinking, []) == []
  {
  }

  /** One call of a handler per segment that is not empty. */
  function Calls(inThinking: bool, segs: seq<Bytes>): seq<Emit>
    decreases |segs|
  {
    if segs == [] then []
    else (if segs[0] != [] then [Emit(inThinking, segs[0])] else []) + Calls(!inThinking, segs[1..])
  }

  /** The side after so many segments. */
  function SideAfter(inThinking: bool, n: nat): bool {
    if n == 0 then inThinking else !SideAfter(inThinking, n - 1)
  }

  lemma {:induction false} SideShift(inThinking: bool, n: nat)
    ensures SideAfter(!inThinking, n) == !SideAfter(inThinking, n)
  {
    if n > 0 {
      SideShift(inThinking, n - 1);
    }
  }

  /** What one chunk does, call by call: its input is segments joined by tags and then the carry, none
      of them containing the tag that leaves its side; each segment that is not empty is handed over
      in one call to the handler of its side, and the side of the last one stays open. */
  lemma {:induction false} ConsumeSegments(inThinking: bool, full: Bytes) returns (segs: seq<Bytes>)
    ensures var (st, emits) := Consume(inThinking, full);
            && segs != [] && Printable(inThinking, segs)
            && full == Render(inThinking, segs) + st.carry
            && emits == Calls(inThinking, segs)
            && st.inThinking == SideAfter(inThinking, |segs| - 1)
    decreases |full|
  {
    hide Tag, Index, Carry, Consume, OccursAt;
    ConsumeUnfold(inThinking, full);
    var tag := Tag(inThinking);
    var i := Index(full, tag);
    IndexIsFirst(full, tag);
    if i < 0 {
      var n := |full| - Carry(full, tag);
      segs := [full[..n]];
      NoTagInFront(full, tag, n);
      assert segs[1..] == [];
      assert full == full[..n] + full[n..];
    } else {
      var before, after := full[..i], full[i + |tag|..];
      var rest := ConsumeSegments(!inThinking, after);
      segs := [before] + rest;
      NoTagInFront(full, tag, i);
      assert segs[1..] == rest;
      SideShift(inThinking, |rest| - 1);
      CutHere(full, tag, i);
      var r, carry := Render(!inThinking, rest), Consume(!inThinking, after).0.carry;
      assert full == before + (tag + (r + carry));
      assert before + (tag + (r + carry)) == (before + (tag + r)) + carry;
    }
  }

  lemma CutHere(full: Bytes, tag: Bytes, i: nat)
    requires OccursAt(full, tag, i)
    ensures full == full[..i] + (tag + full[i + |tag|..])
  {
    assert full == full[..i] + full[i..i + |tag|] + full[i + |tag|..];
  }

  lemma NoTagInFront(full: Bytes, tag: Bytes, n: nat)
    requires n <= |full| && forall q | 0 <= q && q + |tag| <= n :: !OccursAt(full, tag, q)
    ensures forall p :: !OccursAt(full[..n], tag, p)
  {
    forall p ensures !OccursAt(full[..n], tag, p) {
      if 0 <= p && p + |tag| <= n {
        assert full[..n][p..p + |tag|] == full[p..p + |tag|];
        assert !OccursAt(full, tag, p);
      }
    }
  }

  /** The maximal runs of one side. */
  function Group(l: seq<Labelled>): seq<Emit> {
    if l == [] then []
    else
      var g := Group(l[1..]);
      if g != [] && g[0].thinking == l[0].thinking then [Emit(l[0].thinking, [l[0].byte] + g[0].bytes)] + g[1..]
      else [Emit(l[0].thinking, [l[0].byte])] + g
  }

  function Alternate(inThinking: bool, segs: seq<Bytes>): seq<Emit>
    decreases |segs|
  {
    if segs == [] then [] else [Emit(inThinking, segs[0])] + Alternate(!inThinking, segs[1..])
  }

  lemma {:induction false} GroupRun(thinking: bool, s: Bytes, rest: seq<Labelled>)
    requires s != []
    requires rest != [] ==> rest[0].thinking != thinking
    ensures Group(Label(thinking, s) + rest) == [Emit(thinking, s)] + Group(rest)
  {
    var l := Label(thinking, s) + rest;
    assert l[0] == Labelled(thinking, s[0]);
    if |s| == 1 {
      assert l[1..] == rest && s == [s[0]];
      GroupHead(rest);
    } else {
      GroupRun(thinking, s[1..], rest);
      assert l[1..] == Label(thinking, s[1..]) + rest;
      assert [s[0]] + s[1..] == s;
    }
  }

  lemma GroupHead(l: seq<Labelled>)
    ensures l != [] ==> Group(l) != [] && Group(l)[0].thinking == l[0].thinking
  {
  }

  lemma {:induction false} GroupLabels(inThinking: bool, segs: seq<Bytes>)
    requires forall i | 0 <= i < |segs| :: segs[i] != []
    ensures Group(Labels(inThinking, segs)) == Alternate(inThinking, segs)
    ensures segs != [] ==> Labels(inThinking, segs) != [] && Labels(inThinking, segs)[0].thinking == inThinking
    decreases |segs|
  {
    hide Group;
    if segs == [] {
      GroupNothing();
    } else {
      GroupLabels(!inThinking, segs[1..]);
      GroupRun(inThinking, segs[0], Labels(!inThinking, segs[1..]));
    }
  }

  lemma GroupNothing()
    ensures Group([]) == []
  {
  }

  /** Printing segments and demultiplexing the result under any chunking gives the segments back,
      every byte on its side; if no segment is empty, the maximal runs are exactly the segments. */
  lemma RoundTrip(segs: seq<Bytes>, chunks: seq<Bytes>)
    requires Printable(false, segs)
    requires Join(chunks) == Render(false, segs)
    ensures Demux(chunks) == Labels(false, segs)
    ensures (forall i | 0 <= i < |segs| :: segs[i] != []) ==> Group(Demux(chunks)) == Alternate(false, segs)
  {
    hide Demux, Split, Render, Labels, Group, Alternate;
    ChunkInvariance(chunks);
    SplitRender(false, segs);
    if forall i | 0 <= i < |segs| :: segs[i] != [] {
      GroupLabels(false, segs);
    }
  }
}
