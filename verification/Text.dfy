/** Characters as the source classifies them: Go's unicode.IsSpace, the zero-width
    characters that the service hides, and the length of a text in UTF-8 bytes. */
module Text {

  datatype Option<+T> = None | Some(value: T)

  /** unicode.IsSpace: the White_Space property. */
  predicate IsSpace(c: char) {
    var n := c as int;
    9 <= n <= 13 || n == 0x20 || n == 0x85 || n == 0xA0 || n == 0x1680 ||
    0x2000 <= n <= 0x200A || n == 0x2028 || n == 0x2029 || n == 0x202F || n == 0x205F || n == 0x3000
  }

  /** The 25 characters with the White_Space property. */
  lemma WhiteSpaceIs(c: char)
    ensures IsSpace(c) <==>
            c in {'\t', '\n', '\U{0B}', '\U{0C}', '\r', ' ', '\U{85}', '\U{A0}', '\U{1680}', '\U{2000}', '\U{2001}', '\U{2002}',
                  '\U{2003}', '\U{2004}', '\U{2005}', '\U{2006}', '\U{2007}', '\U{2008}', '\U{2009}', '\U{200A}',
                  '\U{2028}', '\U{2029}', '\U{202F}', '\U{205F}', '\U{3000}'}
    ensures IsZeroWidth(c) <==> c in {'\U{200B}', '\U{200C}', '\U{200D}', '\U{FEFF}'}
  {
  }

  /** Zero-width space, non-joiner, joiner and the byte order mark. */
  predicate IsZeroWidth(c: char) {
    var n := c as int;
    0x200B <= n <= 0x200D || n == 0xFEFF
  }

  predicate IsVisible(c: char) {
    !IsSpace(c) && !IsZeroWidth(c)
  }

  /** The visible characters of s, in order. */
  function Visible(s: string): string {
    if s == "" then "" else (if IsVisible(s[0]) then [s[0]] else "") + Visible(s[1..])
  }

  lemma {:induction false} VisibleConcat(s: string, t: string)
    ensures Visible(s + t) == Visible(s) + Visible(t)
  {
    if s == "" {
      assert s + t == t;
    } else {
      hide IsVisible;
      assert (s + t)[0] == s[0] && (s + t)[1..] == s[1..] + t;
      VisibleConcat(s[1..], t);
      var first := if IsVisible(s[0]) then [s[0]] else "";
      assert first + (Visible(s[1..]) + Visible(t)) == (first + Visible(s[1..])) + Visible(t);
    }
  }

  function TrimLeft(s: string): (r: string)
    ensures |r| <= |s|
  {
    if s != "" && IsSpace(s[0]) then TrimLeft(s[1..]) else s
  }

  function TrimRight(s: string): (r: string)
    ensures |r| <= |s|
  {
    if s != "" && IsSpace(s[|s| - 1]) then TrimRight(s[..|s| - 1]) else s
  }

  /** strings.TrimSpace. */
  function TrimSpace(s: string): string {
    TrimRight(TrimLeft(s))
  }

  /** A text that trims to nothing shows nothing (the converse fails for zero-width characters). */
  lemma BlankIsInvisible(s: string)
    requires TrimSpace(s) == ""
    ensures Visible(s) == ""
  {
    TrimLeftKeepsVisible(s);
    TrimRightKeepsVisible(TrimLeft(s));
  }

  lemma {:induction false} TrimLeftIsSuffix(s: string)
    ensures |TrimLeft(s)| <= |s| && s[|s| - |TrimLeft(s)|..] == TrimLeft(s)
    ensures forall c | c in s[..|s| - |TrimLeft(s)|] :: IsSpace(c)
    ensures TrimLeft(s) == "" || !IsSpace(TrimLeft(s)[0])
  {
    if s != "" && IsSpace(s[0]) {
      TrimLeftIsSuffix(s[1..]);
      var k := |s| - |TrimLeft(s)|;
      assert s[..k] == [s[0]] + s[1..][..k - 1];
    }
  }

  lemma {:induction false} TrimRightIsPrefix(s: string)
    ensures |TrimRight(s)| <= |s| && s[..|TrimRight(s)|] == TrimRight(s)
    ensures forall c | c in s[|TrimRight(s)|..] :: IsSpace(c)
    ensures TrimRight(s) == "" || !IsSpace(TrimRight(s)[|TrimRight(s)| - 1])
  {
    if s != "" && IsSpace(s[|s| - 1]) {
      TrimRightIsPrefix(s[..|s| - 1]);
      var k := |TrimRight(s)|;
      assert s[k..] == s[..|s| - 1][k..] + [s[|s| - 1]];
    }
  }

  predicate AllSpace(s: string) {
    forall i | 0 <= i < |s| :: IsSpace(s[i])
  }

  lemma EachIsSpace(s: string)
    requires forall c | c in s :: IsSpace(c)
    ensures AllSpace(s)
  {
    hide IsSpace;
    forall i | 0 <= i < |s| ensures IsSpace(s[i]) {
      assert s[i] in s;
    }
  }

  /** Trimming takes off white space at both ends, and as much as there is. */
  lemma TrimMeans(s: string)
    ensures var l, t := TrimLeft(s), TrimSpace(s);
            var lead, trail := s[..|s| - |l|], l[|t|..];
            && s == lead + t + trail && AllSpace(lead) && AllSpace(trail)
            && (t == "" || (!IsSpace(t[0]) && !IsSpace(t[|t| - 1])))
  {
    hide IsSpace, AllSpace, TrimLeft, TrimRight;
    var l := TrimLeft(s);
    var t := TrimRight(l);
    TrimLeftIsSuffix(s);
    TrimRightIsPrefix(l);
    assert s == s[..|s| - |l|] + l && l == t + l[|t|..];
    assert t != "" ==> t[0] == l[0];
    EachIsSpace(s[..|s| - |l|]);
    EachIsSpace(l[|t|..]);
  }

  /** A text is blank exactly when all its characters are white space. */
  lemma BlankMeans(s: string)
    ensures TrimSpace(s) == "" <==> AllSpace(s)
  {
    hide IsSpace, TrimLeft, TrimRight;
    TrimMeans(s);
    var l, t := TrimLeft(s), TrimSpace(s);
    var lead := s[..|s| - |l|];
    if t != "" {
      assert s[|lead|] == t[0];
    } else {
      assert s == lead + l[|t|..];
    }
  }

  lemma {:induction false} TrimLeftKeepsVisible(s: string)
    ensures Visible(TrimLeft(s)) == Visible(s)
  {
    if s != "" && IsSpace(s[0]) {
      TrimLeftKeepsVisible(s[1..]);
    }
  }

  lemma {:induction false} TrimRightKeepsVisible(s: string)
    ensures Visible(TrimRight(s)) == Visible(s)
  {
    if s != "" && IsSpace(s[|s| - 1]) {
      TrimRightKeepsVisible(s[..|s| - 1]);
      VisibleConcat(s[..|s| - 1], [s[|s| - 1]]);
      assert s == s[..|s| - 1] + [s[|s| - 1]];
    }
  }

  /** How many bytes UTF-8 spends on c. */
  function Utf8Width(c: char): (n: nat)
    ensures 1 <= n <= 4
  {
    var v := c as int;
    if v < 0x80 then 1 else if v < 0x800 then 2 else if v < 0x1_0000 then 3 else 4
  }

  /** n bytes carry 7 bits when n is 1, and 5n + 1 bits when it is more. */
  function Utf8Capacity(n: nat): int {
    match n
    case 0 => 0
    case 1 => 0x80
    case 2 => 0x800
    case 3 => 0x1_0000
    case _ => 0x20_0000
  }

  /** The width is the least one that can carry the character. */
  lemma WidthIsLeast(c: char)
    ensures Utf8Capacity(Utf8Width(c) - 1) <= c as int < Utf8Capacity(Utf8Width(c))
  {
  }

  /** Go's len of a string. */
  function ByteLen(s: string): nat {
    if s == "" then 0 else Utf8Width(s[0]) + ByteLen(s[1..])
  }

  /** All pieces joined in order. */
  function Concat<X>(pieces: seq<seq<X>>): seq<X> {
    if pieces == [] then [] else pieces[0] + Concat(pieces[1..])
  }

  lemma {:induction false} ConcatAppend<X>(a: seq<seq<X>>, b: seq<seq<X>>)
    ensures Concat(a + b) == Concat(a) + Concat(b)
  {
    if a == [] {
      assert a + b == b;
    } else {
      ConcatAppend(a[1..], b);
      assert (a + b)[1..] == a[1..] + b;
      assert a[0] + (Concat(a[1..]) + Concat(b)) == (a[0] + Concat(a[1..])) + Concat(b);
    }
  }

  lemma ConcatSnoc<X>(a: seq<seq<X>>, x: seq<X>)
    ensures Concat(a + [x]) == Concat(a) + x
  {
    ConcatAppend(a, [x]);
    assert Concat([x]) == x + Concat<X>([]);
  }
}
