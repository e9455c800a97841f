/** The parts of Go's `strings`, `unicode` and `fmt` packages that the controller
    relies on, over strings of Unicode characters. */
module Text {

  import opened Wrappers

  /** Go's `unicode.IsSpace`: the Latin-1 spaces and the other White_Space code points. */
  predicate IsSpace(c: char)
  {
    c == ' ' || c == '\t' || c == '\n' || c == '\r' || c == '\U{000B}' || c == '\U{000C}'
    || c == '\U{0085}' || c == '\U{00A0}' || c == '\U{1680}'
    || ('\U{2000}' <= c <= '\U{200A}') || c == '\U{2028}' || c == '\U{2029}'
    || c == '\U{202F}' || c == '\U{205F}' || c == '\U{3000}'
  }

  /** Go's `unicode.ToUpper`, exact on every character whose upper case is ASCII:
      the ASCII letters a-z, dotless i (U+0131 -> I) and long s (U+017F -> S).
      Every other character is left as it is, which never changes whether an
      upper-case ASCII word occurs in a string. */
  function UpperChar(c: char): (u: char)
    ensures 'a' <= c <= 'z' ==> u as int == c as int - 32
    ensures u != c ==> ('a' <= c <= 'z' || c == '\U{0131}' || c == '\U{017F}')
  {
    if 'a' <= c <= 'z' then ((c as int) - 32) as char
    else if c == '\U{0131}' then 'I'
    else if c == '\U{017F}' then 'S'
    else c
  }

  /** Go's `strings.ToUpper`, character by character. */
  function ToUpper(s: string): (r: string)
    ensures |r| == |s|
    ensures forall i :: 0 <= i < |s| ==> r[i] == UpperChar(s[i])
  {
    seq(|s|, i requires 0 <= i < |s| => UpperChar(s[i]))
  }

  lemma UpperCharIdempotent(c: char)
    ensures UpperChar(UpperChar(c)) == UpperChar(c)
  {
  }

  /** Upper-casing twice is upper-casing once, so matching on the upper-cased
      intent does not depend on how the caller cased it. */
  lemma ToUpperIdempotent(s: string)
    ensures ToUpper(ToUpper(s)) == ToUpper(s)
  {
    forall i | 0 <= i < |s|
      ensures ToUpper(ToUpper(s))[i] == ToUpper(s)[i]
    {
      UpperCharIdempotent(s[i]);
    }
  }

  /** `needle` occurs in `hay` starting at position `i`. */
  predicate OccursAt(hay: string, needle: string, i: int)
  {
    0 <= i && i + |needle| <= |hay| && hay[i..i + |needle|] == needle
  }

  /** Go's `strings.Contains`: `needle` occurs as a contiguous piece of `hay`. */
  function Contains(hay: string, needle: string): (b: bool)
    ensures b <==> exists i :: OccursAt(hay, needle, i)
    decreases |hay|
  {
    if needle <= hay then
      assert OccursAt(hay, needle, 0);
      true
    else if |hay| <= |needle| then
      false
    else
      var b := Contains(hay[1..], needle);
      assert b ==> exists i :: OccursAt(hay, needle, i) by {
        if b {
          var j :| OccursAt(hay[1..], needle, j);
          assert hay[1..][j..j + |needle|] == hay[j + 1..j + 1 + |needle|];
          assert OccursAt(hay, needle, j + 1);
        }
      }
      assert (exists i :: OccursAt(hay, needle, i)) ==> b by {
        if exists i :: OccursAt(hay, needle, i) {
          var i :| OccursAt(hay, needle, i);
          assert i != 0;
          assert hay[1..][i - 1..i - 1 + |needle|] == hay[i..i + |needle|];
          assert OccursAt(hay[1..], needle, i - 1);
        }
      }
      b
  }

  /** The index of the first `c` in `s`, or `|s|` when there is none. */
  function IndexOf(s: string, c: char): (i: nat)
    ensures i <= |s|
    ensures i < |s| ==> s[i] == c
    ensures forall j :: 0 <= j < i ==> s[j] != c
    ensures i == |s| <==> c !in s
  {
    if s == [] then 0
    else if s[0] == c then 0
    else
      var j := IndexOf(s[1..], c);
      assert forall k :: 1 <= k < |s| ==> s[k] == s[1..][k - 1];
      1 + j
  }

  /** `parts` joined with `sep` between consecutive parts (Go: `strings.Join`). */
  function Join(parts: seq<string>, sep: char): string
  {
    if parts == [] then ""
    else if |parts| == 1 then parts[0]
    else parts[0] + [sep] + Join(parts[1..], sep)
  }

  /** Go's `strings.Split(s, sep)` for a one-character separator: at least one
      part, none containing the separator. */
  function Split(s: string, sep: char): (parts: seq<string>)
    ensures |parts| >= 1
    ensures forall k :: 0 <= k < |parts| ==> sep !in parts[k]
    decreases |s|
  {
    var i := IndexOf(s, sep);
    if i == |s| then [s]
    else [s[..i]] + Split(s[i + 1..], sep)
  }

  /** Joining a part in front of at least one more part puts the separator between them. */
  lemma JoinCons(head: string, tail: seq<string>, sep: char)
    requires tail != []
    ensures Join([head] + tail, sep) == head + [sep] + Join(tail, sep)
  {
    assert ([head] + tail)[1..] == tail;
  }

  /** Split of a text without the separator is that text alone. */
  lemma SplitWhole(s: string, sep: char)
    requires IndexOf(s, sep) == |s|
    ensures Split(s, sep) == [s]
  {
  }

  /** Split of a text with the separator: the text up to its first
      occurrence, then the parts of the rest. */
  lemma SplitCut(s: string, sep: char, i: nat)
    requires i == IndexOf(s, sep) < |s|
    ensures Split(s, sep) == [s[..i]] + Split(s[i + 1..], sep)
  {
  }

  /** A text is its part before position `i`, the character at `i`, and the rest. */
  lemma CutAt(s: string, i: nat)
    requires i < |s|
    ensures s == s[..i] + [s[i]] + s[i + 1..]
  {
  }

  /** Splitting and joining back with the same separator gives the original text. */
  lemma {:induction false} JoinSplit(s: string, sep: char)
    ensures Join(Split(s, sep), sep) == s
    decreases |s|
  {
    var i := IndexOf(s, sep);
    if i == |s| {
      SplitWhole(s, sep);
    } else {
      var rest := s[i + 1..];
      SplitCut(s, sep, i);
      JoinSplit(rest, sep);
      JoinCons(s[..i], Split(rest, sep), sep);
      CutAt(s, i);
    }
  }

  /** The outcome of Go's `strings.SplitN(line, sep, 2)`: one part when the
      separator does not occur, else the text before its first occurrence and
      the text after it. */
  datatype SplitOnce = Unsplit | Halves(before: string, after: string)

  function SplitFirst(line: string, sep: char): SplitOnce
  {
    var i := IndexOf(line, sep);
    if i == |line| then Unsplit else Halves(line[..i], line[i + 1..])
  }

  /** SplitFirst cuts at the first separator, and only when there is one. */
  lemma SplitFirstCuts(line: string, sep: char)
    ensures SplitFirst(line, sep).Halves? <==> sep in line
    ensures SplitFirst(line, sep).Halves? ==>
              var r := SplitFirst(line, sep);
              line == r.before + [sep] + r.after && sep !in r.before
  {
    var i := IndexOf(line, sep);
    if i < |line| {
      assert line == line[..i] + [sep] + line[i + 1..];
    }
  }

  /** True when every character of `s` is white space. */
  predicate AllSpace(s: string)
  {
    forall k :: 0 <= k < |s| ==> IsSpace(s[k])
  }

  /** `s` without its leading white space. */
  function TrimLeft(s: string): (r: string)
    ensures |r| <= |s| && r == s[|s| - |r|..]
    ensures AllSpace(s[..|s| - |r|])
    ensures r == [] || !IsSpace(r[0])
  {
    if s == [] || !IsSpace(s[0]) then s
    else
      var r := TrimLeft(s[1..]);
      assert s[..|s| - |r|] == [s[0]] + s[1..][..|s| - 1 - |r|];
      r
  }

  /** `s` without its trailing white space. */
  function TrimRight(s: string): (r: string)
    ensures |r| <= |s| && r == s[..|r|]
    ensures AllSpace(s[|r|..])
    ensures r == [] || !IsSpace(r[|r| - 1])
  {
    if s == [] || !IsSpace(s[|s| - 1]) then s
    else
      var r := TrimRight(s[..|s| - 1]);
      assert s[|r|..] == s[..|s| - 1][|r|..] + [s[|s| - 1]];
      r
  }

  /** `s[i..j]` is what is left of `s` once white space is cut from both ends. */
  predicate TrimBounds(s: string, i: int, j: int)
  {
    0 <= i <= j <= |s| && AllSpace(s[..i]) && AllSpace(s[j..])
  }

  /** Go's `strings.TrimSpace`: `s` with white space cut from both ends. */
  function TrimSpace(s: string): string
  {
    TrimRight(TrimLeft(s))
  }

  /** TrimSpace keeps a middle piece of `s`, cutting only white space, and that
      piece neither starts nor ends with white space. */
  lemma TrimSpaceTrims(s: string)
    ensures exists i, j :: TrimBounds(s, i, j) && TrimSpace(s) == s[i..j]
    ensures var r := TrimSpace(s); r == [] || (!IsSpace(r[0]) && !IsSpace(r[|r| - 1]))
  {
    var l := TrimLeft(s);
    var r := TrimRight(l);
    var i := |s| - |l|;
    var j := i + |r|;
    assert l == s[i..];
    assert s[j..] == l[|r|..];
    assert r == s[i..j] && TrimBounds(s, i, j);
  }

  lemma TrimSpaceOfAllSpace(s: string)
    requires AllSpace(s)
    ensures TrimSpace(s) == ""
  {
  }

  /** The maximal run of non-space characters at the start of `s`. */
  function TakeWord(s: string): (w: string)
    ensures |w| <= |s| && w == s[..|w|]
    ensures forall k :: 0 <= k < |w| ==> !IsSpace(w[k])
    ensures |w| == |s| || IsSpace(s[|w|])
  {
    if s == [] || IsSpace(s[0]) then ""
    else
      var w := TakeWord(s[1..]);
      [s[0]] + w
  }

  /** `w` is a whole word of `s` at position `i` preceded only by white space. */
  predicate FieldAt(s: string, w: string, i: int)
  {
    0 <= i && i + |w| <= |s| && AllSpace(s[..i]) && w == s[i..i + |w|]
    && (i + |w| == |s| || IsSpace(s[i + |w|]))
  }

  /** The first element of Go's `strings.Fields(s)`, or None when `s` holds only
      white space. */
  function FirstField(s: string): Option<string>
  {
    var l := TrimLeft(s);
    if l == [] then None else Some(TakeWord(l))
  }

  /** FirstField finds nothing exactly in all-space text, and otherwise a
      non-empty word free of white space that stands first in `s`. */
  lemma FirstFieldFinds(s: string)
    ensures FirstField(s).None? <==> AllSpace(s)
    ensures FirstField(s).Some? ==>
              var w := FirstField(s).value;
              w != [] && (forall k :: 0 <= k < |w| ==> !IsSpace(w[k])) && exists i :: FieldAt(s, w, i)
  {
    var l := TrimLeft(s);
    if l == [] {
      assert s[..|s|] == s;
    } else {
      var w := TakeWord(l);
      var i := |s| - |l|;
      assert w == s[i..i + |w|];
      assert FieldAt(s, w, i);
      assert !AllSpace(s) by { assert s[i] == l[0]; }
    }
  }

  /** The decimal digit for 0..9. */
  function Digit(d: nat): (c: char)
    requires d < 10
    ensures '0' <= c <= '9' && (c as int) - ('0' as int) == d
  {
    (('0' as int) + d) as char
  }

  /** Go's `fmt.Sprintf("%d", n)` for a non-negative n: decimal, no leading zeros. */
  function NatToString(n: nat): (s: string)
    ensures |s| >= 1
    ensures forall k :: 0 <= k < |s| ==> '0' <= s[k] <= '9'
    ensures |s| > 1 ==> s[0] != '0'
  {
    if n < 10 then [Digit(n)]
    else NatToString(n / 10) + [Digit(n % 10)]
  }

  /** The number a string of decimal digits denotes. */
  function DecimalValue(s: string): nat
    requires forall k :: 0 <= k < |s| ==> '0' <= s[k] <= '9'
  {
    if s == [] then 0
    else 10 * DecimalValue(s[..|s| - 1]) + ((s[|s| - 1] as int) - ('0' as int))
  }

  /** Reading back what NatToString writes gives the number. */
  lemma {:induction false} DecimalRoundTrip(n: nat)
    ensures DecimalValue(NatToString(n)) == n
  {
    if n >= 10 {
      DecimalRoundTrip(n / 10);
      var s := NatToString(n);
      assert s[..|s| - 1] == NatToString(n / 10);
    }
  }

  /** The number of bytes of the UTF-8 encoding of `c` (what Go's `len` counts). */
  function Utf8Width(c: char): (w: nat)
    ensures 1 <= w <= 4
    ensures (c as int < 0x80) <==> w == 1
  {
    if (c as int) < 0x80 then 1
    else if (c as int) < 0x800 then 2
    else if (c as int) < 0x10000 then 3
    else 4
  }

  /** Go's `len(s)`: the byte length of the UTF-8 encoding of `s`. */
  function Utf8Length(s: string): (n: nat)
    ensures |s| <= n <= 4 * |s|
  {
    if s == [] then 0 else Utf8Width(s[0]) + Utf8Length(s[1..])
  }

  /** On ASCII text the byte length is the character count. */
  lemma {:induction false} Utf8LengthAscii(s: string)
    requires forall k :: 0 <= k < |s| ==> (s[k] as int) < 0x80
    ensures Utf8Length(s) == |s|
  {
    if s != [] {
      Utf8LengthAscii(s[1..]);
    }
  }

  /** The byte length of a concatenation is the sum of the byte lengths. */
  lemma {:induction false} Utf8LengthAppend(a: string, b: string)
    ensures Utf8Length(a + b) == Utf8Length(a) + Utf8Length(b)
  {
    if a == [] {
      assert a + b == b;
    } else {
      assert (a + b)[0] == a[0];
      assert (a + b)[1..] == a[1..] + b;
      Utf8LengthAppend(a[1..], b);
    }
  }
}
