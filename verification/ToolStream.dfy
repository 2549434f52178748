/** Accumulation and emission of streamed tool calls (StreamChat in llm/client.go). */
module ToolStream {
  import opened Text
  import opened Transcript
  import opened Streaming
  import opened Loop

  /** One entry of a chunk's tool_calls. */
  datatype CallDelta = CallDelta(index: int, id: string, name: string, arguments: string)

  datatype ChoiceDelta = ChoiceDelta(content: Option<string>, toolCalls: seq<CallDelta>)

  /** A line of the event stream: nothing usable, the end mark, a decoded chunk, or a read error. */
  datatype Line = Noise | EndMark | Chunk(choices: seq<ChoiceDelta>) | ReadFailure(msg: string)

  datatype Accum = Accum(id: string, name: string, arguments: string)

  const NO_ACCUM := Accum("", "", "")

  datatype ToolUse<J> = ToolUse(id: string, name: string, input: J)

  datatype ChatResult<J> = ChatError(msg: string) | ChatReply(assistant: Message, toolUses: seq<ToolUse<J>>)

  /** The decoder of argument texts; None is a syntax error. */
  datatype Decoder<!J> = Decoder(parse: string -> Option<J>, none: J)

  type Accums = map<int, Accum>

  function Absorb(a: Accum, d: CallDelta): Accum {
    Accum(
      if d.id != "" then d.id else a.id,
      if d.name != "" then d.name else a.name,
      a.arguments + d.arguments)
  }

  function Into(m: Accums, d: CallDelta): Accums {
    m[d.index := Absorb(if d.index in m then m[d.index] else NO_ACCUM, d)]
  }

  function AbsorbAll(m: Accums, ds: seq<CallDelta>): Accums {
    if ds == [] then m
    else Into(AbsorbAll(m, ds[..|ds| - 1]), ds[|ds| - 1])
  }

  function Decode<J>(dec: Decoder<J>, arguments: string): J {
    if TrimSpace(arguments) == "" then dec.none
    else match dec.parse(arguments) case None => dec.none case Some(v) => v
  }

  /** Emission: the named calls with index 0 to n - 1. */
  function Calls(m: Accums, n: nat): seq<ToolCall> {
    if n == 0 then []
    else Calls(m, n - 1) +
         if n - 1 in m && m[n - 1].name != "" then [CallOf(m[n - 1])] else []
  }

  function CallOf(a: Accum): ToolCall {
    ToolCall(a.id, "function", a.name, a.arguments)
  }

  /** What extractToolUsesFromAssistant reads off calls. */
  function Uses<J>(dec: Decoder<J>, calls: seq<ToolCall>): seq<ToolUse<J>> {
    if calls == [] then []
    else
      var c := calls[|calls| - 1];
      Uses(dec, calls[..|calls| - 1]) + if c.name == "" then [] else [ToolUse(c.id, c.name, Decode(dec, c.arguments))]
  }

  /** The entries and texts of the stream up to its end mark. */
  function Entries(lines: seq<Line>): seq<CallDelta> {
    if lines == [] then []
    else match lines[0]
      case Noise => Entries(lines[1..])
      case EndMark => []
      case ReadFailure(_) => []
      case Chunk(choices) => (if choices == [] then [] else choices[0].toolCalls) + Entries(lines[1..])
  }

  function Texts(lines: seq<Line>): seq<string> {
    if lines == [] then []
    else match lines[0]
      case Noise => Texts(lines[1..])
      case EndMark => []
      case ReadFailure(_) => []
      case Chunk(choices) =>
        (if choices == [] || choices[0].content.None? || choices[0].content.value == "" then [] else [choices[0].content.value])
        + Texts(lines[1..])
  }

  /** The read error that the stream meets before its end mark, if any. */
  function Failure(lines: seq<Line>): Option<string> {
    if lines == [] then None
    else match lines[0]
      case Noise => Failure(lines[1..])
      case EndMark => None
      case ReadFailure(msg) => Some(msg)
      case Chunk(_) => Failure(lines[1..])
  }

  /** What one line adds to the entries and the texts. */
  function LineEntries(line: Line): seq<CallDelta> {
    if line.Chunk? && line.choices != [] then line.choices[0].toolCalls else []
  }

  function LineTexts(line: Line): seq<string> {
    if line.Chunk? && line.choices != [] && line.choices[0].content.Some? && line.choices[0].content.value != ""
    then [line.choices[0].content.value]
    else []
  }

  predicate Stops(line: Line) {
    line.EndMark? || line.ReadFailure?
  }

  lemma NextLine(lines: seq<Line>, i: nat)
    requires i < |lines|
    ensures !Stops(lines[i]) ==>
              && Entries(lines[i..]) == LineEntries(lines[i]) + Entries(lines[i + 1..])
              && Texts(lines[i..]) == LineTexts(lines[i]) + Texts(lines[i + 1..])
              && Failure(lines[i..]) == Failure(lines[i + 1..])
    ensures Stops(lines[i]) ==>
              && Entries(lines[i..]) == [] && Texts(lines[i..]) == []
              && Failure(lines[i..]) == if lines[i].ReadFailure? then Some(lines[i].msg) else None
  {
    var rest := lines[i..];
    assert rest[0] == lines[i] && rest[1..] == lines[i + 1..];
  }

  method StreamChat<J>(lines: seq<Line>, dec: Decoder<J>) returns (r: ChatResult<J>, deltas: seq<string>)
    ensures deltas == Texts(lines)
    ensures Failure(lines).Some? ==> r == ChatError(Failure(lines).value)
    ensures Failure(lines).None? ==>
              var m := AbsorbAll(map[], Entries(lines));
              var calls := Calls(m, |m|);
              r == ChatReply(Message(Assistant, Concat(Texts(lines)), calls, ""), Uses(dec, calls))
    ensures AsStreamed(lines) ==
            StreamedReply(deltas, match r case ChatError(msg) => ModelError(msg) case ChatReply(m, _) => Reply(m))
  {
    hide TrimSpace, Decode, Calls, Uses, AbsorbAll, Absorb, Entries, Texts, Failure, Concat;
    var accums: Accums := map[];
    var assistantText := "";
    deltas := [];
    var i := 0;
    assert lines[0..] == lines;
    assert assistantText == Concat(deltas) by { ConcatEmpty(); }
    ghost var rest, texts := Entries(lines), Texts(lines);
    while i < |lines|
      invariant i <= |lines|
      invariant rest == Entries(lines[i..]) && texts == Texts(lines[i..])
      invariant deltas + texts == Texts(lines)
      invariant assistantText == Concat(deltas)
      invariant AbsorbAll(accums, rest) == AbsorbAll(map[], Entries(lines))
      invariant Failure(lines[i..]) == Failure(lines)
    {
      var line := lines[i];
      NextLine(lines, i);
      if line.EndMark? {
        break;
      }
      if line.ReadFailure? {
        return ChatError(line.msg), deltas;
      }
      var pieces, entries := Usable(line);
      AbsorbConcat(accums, entries, Entries(lines[i + 1..]));
      if |pieces| > 0 {
        ConcatSnoc(deltas, pieces[0]);
        assistantText := assistantText + pieces[0];
        deltas := deltas + [pieces[0]];
      }
      accums := AbsorbEntries(accums, entries);
      i := i + 1;
      rest, texts := Entries(lines[i..]), Texts(lines[i..]);
    }
    StreamEnd(lines, i);
    assert rest == [] && texts == [];
    AbsorbNothing(accums);
    var toolCalls, toolUses := Emit(accums, dec);
    r := ChatReply(Message(Assistant, assistantText, toolCalls, ""), toolUses);
  }

  /** The visible part of a line: at most one text delta, and the tool-call entries of its first choice. */
  method Usable(line: Line) returns (pieces: seq<string>, entries: seq<CallDelta>)
    ensures pieces == LineTexts(line) && |pieces| <= 1
    ensures entries == LineEntries(line)
  {
    pieces, entries := [], [];
    if line.Chunk? && |line.choices| > 0 {
      var delta := line.choices[0];
      if delta.content.Some? && delta.content.value != "" {
        pieces := [delta.content.value];
      }
      entries := delta.toolCalls;
    }
  }

  lemma ConcatEmpty()
    ensures Concat([]) == ""
  {
  }

  lemma AbsorbNothing(m: Accums)
    ensures AbsorbAll(m, []) == m
  {
  }

  lemma StreamEnd(lines: seq<Line>, i: nat)
    requires i == |lines| || (i < |lines| && lines[i].EndMark?)
    ensures Entries(lines[i..]) == [] && Texts(lines[i..]) == []
    ensures Failure(lines[i..]) == None
  {
    if i < |lines| {
      NextLine(lines, i);
    }
  }

  lemma {:induction false} AbsorbConcat(m: Accums, a: seq<CallDelta>, b: seq<CallDelta>)
    ensures AbsorbAll(m, a + b) == AbsorbAll(AbsorbAll(m, a), b)
  {
    hide AbsorbAll;
    if b == [] {
      AbsorbNothing(AbsorbAll(m, a));
      assert a + b == a;
    } else {
      var front, d := b[..|b| - 1], b[|b| - 1];
      AbsorbConcat(m, a, front);
      AbsorbSnoc(m, a + front, d);
      AbsorbSnoc(AbsorbAll(m, a), front, d);
      assert front + [d] == b;
      assert a + b == (a + front) + [d];
    }
  }

  lemma AbsorbSnoc(m: Accums, ds: seq<CallDelta>, d: CallDelta)
    ensures AbsorbAll(m, ds + [d]) == Into(AbsorbAll(m, ds), d)
  {
    assert (ds + [d])[..|ds + [d]| - 1] == ds;
  }

  /** The loop over the entries of one chunk. */
  method AbsorbEntries(accums0: Accums, ds: seq<CallDelta>) returns (accums: Accums)
    ensures accums == AbsorbAll(accums0, ds)
  {
    hide AbsorbAll;
    accums := accums0;
    AbsorbNothing(accums);
    assert ds[..0] == [];
    for k := 0 to |ds|
      invariant accums == AbsorbAll(accums0, ds[..k])
    {
      var tc := ds[k];
      assert ds[..k + 1] == ds[..k] + [tc];
      AbsorbSnoc(accums0, ds[..k], tc);
      var acc := if tc.index in accums then accums[tc.index] else NO_ACCUM;
      if tc.id != "" {
        acc := acc.(id := tc.id);
      }
      if tc.name != "" {
        acc := acc.(name := tc.name);
      }
      assert tc.arguments == "" ==> acc.arguments + tc.arguments == acc.arguments;
      if tc.arguments != "" {
        acc := acc.(arguments := acc.arguments + tc.arguments);
      }
      accums := accums[tc.index := acc];
    }
    assert ds[..|ds|] == ds;
  }

  /** The emission loop. */
  method Emit<J>(accums: Accums, dec: Decoder<J>) returns (toolCalls: seq<ToolCall>, toolUses: seq<ToolUse<J>>)
    ensures toolCalls == Calls(accums, |accums|)
    ensures toolUses == Uses(dec, toolCalls)
  {
    hide TrimSpace;
    toolCalls, toolUses := [], [];
    for i := 0 to |accums|
      invariant toolCalls == Calls(accums, i)
      invariant toolUses == Uses(dec, toolCalls)
    {
      if i !in accums || accums[i].name == "" {
        continue;
      }
      var acc := accums[i];
      var input := dec.none;
      if TrimSpace(acc.arguments) != "" {
        var parsed := dec.parse(acc.arguments);
        if parsed.Some? {
          input := parsed.value;
        }
      }
      toolUses := toolUses + [ToolUse(acc.id, acc.name, input)];
      toolCalls := toolCalls + [CallOf(acc)];
      assert toolCalls[..|toolCalls| - 1] == Calls(accums, i);
    }
  }

  method ExtractToolUsesFromAssistant<J>(m: Message, dec: Decoder<J>) returns (uses: seq<ToolUse<J>>)
    ensures uses == Uses(dec, m.toolCalls)
  {
    hide TrimSpace;
    uses := [];
    for i := 0 to |m.toolCalls|
      invariant uses == Uses(dec, m.toolCalls[..i])
    {
      var tc := m.toolCalls[i];
      assert m.toolCalls[..i + 1][..i] == m.toolCalls[..i];
      if tc.name == "" {
        continue;
      }
      var input := dec.none;
      if TrimSpace(tc.arguments) != "" {
        var parsed := dec.parse(tc.arguments);
        if parsed.Some? {
          input := parsed.value;
        }
      }
      uses := uses + [ToolUse(tc.id, tc.name, input)];
    }
    assert m.toolCalls[..|m.toolCalls|] == m.toolCalls;
  }

  // ---- independence of interleaving ----

  /** The entries of one index, in order. */
  function Fragments(ds: seq<CallDelta>, index: int): seq<CallDelta> {
    if ds == [] then []
    else Fragments(ds[..|ds| - 1], index) + if ds[|ds| - 1].index == index then [ds[|ds| - 1]] else []
  }

  /** The last identifier and the last name that are not empty, and all argument pieces joined. */
  function LastID(ds: seq<CallDelta>): string {
    if ds == [] then "" else if ds[|ds| - 1].id != "" then ds[|ds| - 1].id else LastID(ds[..|ds| - 1])
  }

  function LastName(ds: seq<CallDelta>): string {
    if ds == [] then "" else if ds[|ds| - 1].name != "" then ds[|ds| - 1].name else LastName(ds[..|ds| - 1])
  }

  function Arguments(ds: seq<CallDelta>): string {
    if ds == [] then "" else Arguments(ds[..|ds| - 1]) + ds[|ds| - 1].arguments
  }

  function Assembled(ds: seq<CallDelta>): Accum {
    Accum(LastID(ds), LastName(ds), Arguments(ds))
  }

  lemma AssembledSnoc(f: seq<CallDelta>, d: CallDelta)
    ensures Assembled(f + [d]) == Absorb(Assembled(f), d)
  {
    assert (f + [d])[..|f + [d]| - 1] == f;
  }

  lemma FragmentsSnoc(ds: seq<CallDelta>, d: CallDelta, index: int)
    ensures Fragments(ds + [d], index) == if d.index == index then Fragments(ds, index) + [d] else Fragments(ds, index)
  {
    assert (ds + [d])[..|ds + [d]| - 1] == ds;
  }

  /** What is accumulated for an index depends on the entries of that index only. */
  lemma {:induction false} AccumIsAssembled(ds: seq<CallDelta>, index: int)
    ensures var m := AbsorbAll(map[], ds);
            && (index in m <==> Fragments(ds, index) != [])
            && (index in m ==> m[index] == Assembled(Fragments(ds, index)))
  {
    if ds == [] {
      AbsorbNothing(map[]);
    } else {
      hide AbsorbAll, Absorb, Fragments;
      var before, d := ds[..|ds| - 1], ds[|ds| - 1];
      assert before + [d] == ds;
      AccumIsAssembled(before, index);
      AbsorbSnoc(map[], before, d);
      FragmentsSnoc(before, d, index);
      AssembledSnoc(Fragments(before, index), d);
      assert Assembled([]) == NO_ACCUM;
    }
  }

  /** Interleaving does not matter: streams with the same entries per index, in whatever order the
      indices alternate, give the same emitted calls. */
  lemma InterleavingIrrelevant(a: seq<CallDelta>, b: seq<CallDelta>)
    requires forall i: int :: Fragments(a, i) == Fragments(b, i)
    ensures var m, n := AbsorbAll(map[], a), AbsorbAll(map[], b);
            m == n && Calls(m, |m|) == Calls(n, |n|)
  {
    hide AbsorbAll, Fragments, Assembled, Calls;
    var m, n := AbsorbAll(map[], a), AbsorbAll(map[], b);
    forall i: int ensures (i in m <==> i in n) && (i in m ==> m[i] == n[i]) {
      AccumIsAssembled(a, i);
      AccumIsAssembled(b, i);
    }
    assert m.Keys == n.Keys;
    assert m == n;
  }

  // ---- which calls are emitted ----

  predicate Named(m: Accums, i: int) {
    i in m && m[i].name != ""
  }

  /** The emitted indices, in order of emission. */
  function Emitted(m: Accums, n: nat): seq<int> {
    if n == 0 then [] else Emitted(m, n - 1) + if Named(m, n - 1) then [n - 1] else []
  }

  /** Each emitted index is named, below the number of indices seen, and emitted once, in increasing
      order; its call carries what was assembled for it. */
  lemma {:induction false} EmissionOrder(m: Accums, n: nat)
    ensures |Calls(m, n)| == |Emitted(m, n)|
    ensures forall k | 0 <= k < |Emitted(m, n)| ::
              var i := Emitted(m, n)[k]; 0 <= i < n && Named(m, i) && Calls(m, n)[k] == CallOf(m[i])
    ensures forall j, k | 0 <= j < k < |Emitted(m, n)| :: Emitted(m, n)[j] < Emitted(m, n)[k]
    ensures forall i | 0 <= i < n && Named(m, i) :: i in Emitted(m, n)
  {
    if n > 0 {
      EmissionOrder(m, n - 1);
    }
  }

  /** Every named call is emitted if and only if all named indices lie below the number of indices
      seen; a gap in the indices can lose calls. */
  lemma NothingLost(m: Accums)
    ensures (forall i: int | Named(m, i) :: i in Emitted(m, |m|)) <==> forall i: int | Named(m, i) :: 0 <= i < |m|
  {
    EmissionOrder(m, |m|);
  }

  lemma {:induction false} RangeCount(s: set<int>, n: nat)
    requires forall i: int | 0 <= i < n :: i in s
    ensures |s| >= n
  {
    if n > 0 {
      RangeCount(s - {n - 1}, n - 1);
      assert n - 1 in s;
    }
  }

  /** The calls a stream with indices 0 to n - 1 describes: per index the last name and identifier
      and all argument pieces joined. */
  function Described(ds: seq<CallDelta>, n: nat): seq<ToolCall> {
    if n == 0 then []
    else
      var f := Fragments(ds, n - 1);
      Described(ds, n - 1) + if LastName(f) != "" then [ToolCall(LastID(f), "function", LastName(f), Arguments(f))] else []
  }

  /** A stream whose indices are exactly 0 to n - 1, in whatever order, yields the calls it describes. */
  lemma ContiguousStream(ds: seq<CallDelta>, n: nat)
    requires forall i: int :: Fragments(ds, i) != [] <==> 0 <= i < n
    ensures var m := AbsorbAll(map[], ds); Calls(m, |m|) == Described(ds, n)
  {
    hide AbsorbAll, Fragments, Calls, Described, Assembled;
    var m := AbsorbAll(map[], ds);
    forall i: int ensures i in m <==> 0 <= i < n {
      AccumIsAssembled(ds, i);
    }
    RangeCount(m.Keys, n);
    CallsBeyond(m, n, |m|);
    CallsDescribed(ds, n);
  }

  lemma {:induction false} CallsBeyond(m: Accums, n: nat, k: nat)
    requires n <= k && forall i: int | n <= i :: i !in m
    ensures Calls(m, k) == Calls(m, n)
  {
    if n < k {
      CallsBeyond(m, n, k - 1);
      assert k - 1 !in m;
    }
  }

  lemma {:induction false} CallsDescribed(ds: seq<CallDelta>, n: nat)
    requires forall i: int | 0 <= i < n :: Fragments(ds, i) != []
    ensures Calls(AbsorbAll(map[], ds), n) == Described(ds, n)
  {
    hide AbsorbAll, Fragments, LastName;
    if n > 0 {
      CallsDescribed(ds, n - 1);
      AccumIsAssembled(ds, n - 1);
    }
  }

  /** The returned tool uses line up with the calls of the returned message, one for one. */
  lemma {:induction false} UsesAlign<J>(dec: Decoder<J>, calls: seq<ToolCall>)
    requires forall k | 0 <= k < |calls| :: calls[k].name != ""
    ensures |Uses(dec, calls)| == |calls|
    ensures forall k | 0 <= k < |calls| ::
              var c, parsed := calls[k], dec.parse(calls[k].arguments);
              Uses(dec, calls)[k] == ToolUse(c.id, c.name, if AllSpace(c.arguments) || parsed.None? then dec.none else parsed.value)
  {
    hide AllSpace, TrimSpace;
    if calls != [] {
      UsesAlign(dec, calls[..|calls| - 1]);
      BlankMeans(calls[|calls| - 1].arguments);
    }
  }

  /** Every emitted call, field by field: the last identifier and name of its index, and all argument
      pieces of that index joined in order. */
  lemma CallFields(ds: seq<CallDelta>, n: nat)
    ensures var m := AbsorbAll(map[], ds);
            && |Calls(m, n)| == |Emitted(m, n)|
            && forall k | 0 <= k < |Calls(m, n)| ::
                 var f := Fragments(ds, Emitted(m, n)[k]);
                 Calls(m, n)[k] == ToolCall(LastID(f), "function", LastName(f), Arguments(f)) && LastName(f) != ""
  {
    hide AbsorbAll, Calls, Emitted, Fragments, LastID, LastName, Arguments;
    var m := AbsorbAll(map[], ds);
    EmissionOrder(m, n);
    forall k | 0 <= k < |Calls(m, n)|
      ensures var f := Fragments(ds, Emitted(m, n)[k]);
              Calls(m, n)[k] == ToolCall(LastID(f), "function", LastName(f), Arguments(f)) && LastName(f) != ""
    {
      AccumIsAssembled(ds, Emitted(m, n)[k]);
    }
  }

  // ---- what of the lines counts ----

  /** The first choice of a decoded chunk; all other lines have none. */
  function FirstChoice(line: Line): Option<ChoiceDelta> {
    match line
    case Chunk(choices) => if |choices| > 0 then Some(choices[0]) else None
    case _ => None
  }

  function EntriesOf(c: Option<ChoiceDelta>): seq<CallDelta> {
    match c
    case Some(d) => d.toolCalls
    case None => []
  }

  function TextOf(c: Option<ChoiceDelta>): seq<string> {
    match c
    case Some(d) => if d.content.Some? && d.content.value != "" then [d.content.value] else []
    case None => []
  }

  /** The stream counts up to its first end mark or read error, if it has one: the texts and entries
      are those of the first choices before it, in order, and the error is that one. */
  lemma {:induction false} StreamMeans(lines: seq<Line>, p: nat)
    requires p <= |lines| && forall i | 0 <= i < p :: lines[i].Noise? || lines[i].Chunk?
    requires p < |lines| ==> lines[p].EndMark? || lines[p].ReadFailure?
    ensures Entries(lines) == Concat(seq(p, i requires 0 <= i < p => EntriesOf(FirstChoice(lines[i]))))
    ensures Texts(lines) == Concat(seq(p, i requires 0 <= i < p => TextOf(FirstChoice(lines[i]))))
    ensures Failure(lines) == if p < |lines| && lines[p].ReadFailure? then Some(lines[p].msg) else None
  {
    hide Concat, EntriesOf, TextOf, FirstChoice;
    if p == 0 {
      ConcatNothing<CallDelta>();
      ConcatNothing<string>();
    } else {
      var rest := lines[1..];
      StreamMeans(rest, p - 1);
      var entries := seq(p - 1, i requires 0 <= i < p - 1 => EntriesOf(FirstChoice(rest[i])));
      var texts := seq(p - 1, i requires 0 <= i < p - 1 => TextOf(FirstChoice(rest[i])));
      assert seq(p, i requires 0 <= i < p => EntriesOf(FirstChoice(lines[i]))) == [EntriesOf(FirstChoice(lines[0]))] + entries;
      assert seq(p, i requires 0 <= i < p => TextOf(FirstChoice(lines[i]))) == [TextOf(FirstChoice(lines[0]))] + texts;
      ConcatCons(EntriesOf(FirstChoice(lines[0])), entries);
      ConcatCons(TextOf(FirstChoice(lines[0])), texts);
      LineMeans(lines[0]);
      NextLine(lines, 0);
      assert lines[0..] == lines;
    }
  }

  lemma ConcatCons<X>(x: seq<X>, rest: seq<seq<X>>)
    ensures Concat([x] + rest) == x + Concat(rest)
  {
    assert ([x] + rest)[1..] == rest;
  }

  lemma LineMeans(line: Line)
    ensures LineEntries(line) == EntriesOf(FirstChoice(line)) && LineTexts(line) == TextOf(FirstChoice(line))
  {
  }

  /** In general a use is read off exactly the named calls, in order, at these positions. */
  lemma {:induction false} UsesMean<J>(dec: Decoder<J>, calls: seq<ToolCall>) returns (at: seq<nat>)
    ensures |at| == |Uses(dec, calls)|
    ensures forall k | 0 <= k < |at| ::
              && at[k] < |calls| && calls[at[k]].name != ""
              && Uses(dec, calls)[k] == ToolUse(calls[at[k]].id, calls[at[k]].name, Decode(dec, calls[at[k]].arguments))
    ensures forall j, k | 0 <= j < k < |at| :: at[j] < at[k]
    ensures forall i: nat | i < |calls| && calls[i].name != "" :: i in at
  {
    hide Decode;
    at := [];
    if calls != [] {
      var n := |calls| - 1;
      var before := UsesMean(dec, calls[..n]);
      at := before + if calls[n].name != "" then [n] else [];
      forall i: nat | i < |calls| && calls[i].name != "" ensures i in at {
        if i < n {
          assert calls[..n][i] == calls[i] && i in before;
        } else {
          assert at[|before|] == n;
        }
      }
    }
  }

  /** The input is the decoding of the arguments, and nothing for blank or malformed ones. */
  lemma DecodeMeans<J>(dec: Decoder<J>, arguments: string)
    ensures var parsed := dec.parse(arguments);
            Decode(dec, arguments) == if AllSpace(arguments) || parsed.None? then dec.none else parsed.value
  {
    BlankMeans(arguments);
  }

  /** Every emitted call has a name, so no use is left out. */
  lemma {:induction false} EmittedAreNamed(m: Accums, n: nat)
    ensures forall k | 0 <= k < |Calls(m, n)| :: Calls(m, n)[k].name != ""
  {
    if n > 0 {
      EmittedAreNamed(m, n - 1);
    }
  }

  /** A single call with index 1 is lost. */
  lemma GapLosesCall(id: string, name: string, arguments: string)
    requires name != ""
    ensures var m := AbsorbAll(map[], [CallDelta(1, id, name, arguments)]);
            Named(m, 1) && Calls(m, |m|) == []
  {
    var d := CallDelta(1, id, name, arguments);
    AbsorbNothing(map[]);
    AbsorbSnoc(map[], [], d);
    assert [] + [d] == [d];
    var m := AbsorbAll(map[], [d]);
    assert m.Keys == {1};
    assert Calls(m, 1) == Calls(m, 0) + [];
  }

  // ---- as a streamer of the loop ----

  /** The reply of StreamChat, seen by the streamed loop. */
  function AsStreamed(lines: seq<Line>): StreamedReply {
    var m := AbsorbAll(map[], Entries(lines));
    StreamedReply(
      Texts(lines),
      match Failure(lines)
      case Some(msg) => ModelError(msg)
      case None => Reply(Message(Assistant, Concat(Texts(lines)), Calls(m, |m|), "")))
  }

  /** Its deltas always spell out the content, so with it visible text reaches the client exactly once. */
  lemma StreamChatIsFaithful(lines: seq<Line>)
    ensures Faithful(AsStreamed(lines))
  {
  }
}
