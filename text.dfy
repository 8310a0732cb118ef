/** Text helpers with Python's (and JavaScript's) meaning: `str.split()`
    with no separator, `str.strip()`, and the decimal rendering of a number. */
module Text {

  /** Characters for which Python's `str.isspace()` holds; `str.split()` and
      `str.strip()` without arguments cut at exactly these. */
  predicate IsSpace(c: char) {
    || c == ' '
    || '\t' <= c <= '\r'
    || '\U{1C}' <= c <= '\U{1F}'
    || c == '\U{85}' || c == '\U{A0}' || c == '\U{1680}'
    || '\U{2000}' <= c <= '\U{200A}'
    || c == '\U{2028}' || c == '\U{2029}' || c == '\U{202F}' || c == '\U{205F}' || c == '\U{3000}'
  }

  predicate NoSpace(s: string) {
    forall i :: 0 <= i < |s| ==> !IsSpace(s[i])
  }

  predicate AllSpace(s: string) {
    forall i :: 0 <= i < |s| ==> IsSpace(s[i])
  }

  /** A field that `str.split()` can return: non-empty, no white space. */
  predicate IsWord(w: string) {
    |w| > 0 && NoSpace(w)
  }

  /** Length of the leading run of non-space characters. */
  function WordLength(s: string): (n: nat)
    ensures n <= |s|
    ensures NoSpace(s[..n])
    ensures n < |s| ==> IsSpace(s[n])
    ensures s != [] && !IsSpace(s[0]) ==> n > 0
  {
    if s == [] || IsSpace(s[0]) then 0
    else
      var n := 1 + WordLength(s[1..]);
      assert s[..n] == [s[0]] + s[1..][..n - 1];
      n
  }

  /** Python's `s.split()`: the maximal runs of non-space characters, in order. */
  function Split(s: string): (r: seq<string>)
    ensures forall i :: 0 <= i < |r| ==> IsWord(r[i])
    decreases |s|
  {
    if s == [] then []
    else if IsSpace(s[0]) then Split(s[1..])
    else
      var n := WordLength(s);
      [s[..n]] + Split(s[n..])
  }

  /** Words separated by single blanks, the shape of an f-string command line. */
  function Join(ws: seq<string>): string {
    if |ws| == 0 then ""
    else if |ws| == 1 then ws[0]
    else ws[0] + " " + Join(ws[1..])
  }

  lemma JoinCons(w: string, ws: seq<string>)
    requires |ws| > 0
    ensures Join([w] + ws) == w + " " + Join(ws)
  {
    assert ([w] + ws)[1..] == ws;
  }

  /** Joining a fixed number of words, written out. */
  lemma JoinTwo(a: string, b: string)
    ensures Join([a, b]) == a + (" " + b)
  {
    assert [a, b][1..] == [b];
  }

  lemma JoinFour(a: string, b: string, c: string, d: string)
    ensures Join([a, b, c, d]) == a + (" " + (b + (" " + (c + (" " + d)))))
  {
    assert [a, b, c, d][1..] == [b, c, d];
    assert [b, c, d][1..] == [c, d];
    JoinTwo(c, d);
  }

  lemma JoinFive(a: string, b: string, c: string, d: string, e: string)
    ensures Join([a, b, c, d, e]) == a + (" " + (b + (" " + (c + (" " + (d + (" " + e)))))))
  {
    assert [a, b, c, d, e][1..] == [b, c, d, e];
    JoinFour(b, c, d, e);
  }

  lemma {:induction false} WordLengthOfWord(w: string, t: string)
    requires IsWord(w)
    requires t == [] || IsSpace(t[0])
    ensures WordLength(w + t) == |w|
    decreases |w|
  {
    var s := w + t;
    assert s[0] == w[0];
    if |w| == 1 {
      assert s[1..] == t;
    } else {
      assert s[1..] == w[1..] + t;
      assert IsWord(w[1..]) by {
        forall i | 0 <= i < |w[1..]| ensures !IsSpace(w[1..][i]) {
          assert w[1..][i] == w[i + 1];
        }
      }
      WordLengthOfWord(w[1..], t);
    }
  }

  /** A word followed by white space (or nothing) splits off as one field. */
  lemma SplitWord(w: string, t: string)
    requires IsWord(w)
    requires t == [] || IsSpace(t[0])
    ensures Split(w + t) == [w] + Split(t)
  {
    var s := w + t;
    WordLengthOfWord(w, t);
    assert s[..|w|] == w;
    assert s[|w|..] == t;
  }

  /** White space alone splits into nothing. */
  lemma {:induction false} SplitAllSpace(t: string)
    requires AllSpace(t)
    ensures Split(t) == []
    decreases |t|
  {
    if t != [] {
      assert IsSpace(t[0]);
      SplitAllSpace(t[1..]);
    }
  }

  /** Round trip: splitting words joined by blanks, with trailing white space
      such as a line's newline, gives back exactly those words. */
  lemma {:induction false} SplitJoin(ws: seq<string>, tail: string)
    requires forall i :: 0 <= i < |ws| ==> IsWord(ws[i])
    requires AllSpace(tail)
    ensures Split(Join(ws) + tail) == ws
    decreases |ws|
  {
    if |ws| == 0 {
      assert Join(ws) + tail == tail;
      SplitAllSpace(tail);
    } else if |ws| == 1 {
      SplitWord(ws[0], tail);
      SplitAllSpace(tail);
      assert [ws[0]] + [] == ws;
    } else {
      var t := Join(ws[1..]) + tail;
      assert Join(ws) == ws[0] + " " + Join(ws[1..]);
      assert Join(ws) + tail == ws[0] + (" " + t);
      SplitSpaced(ws[0], t);
      SplitJoin(ws[1..], tail);
      assert ws == [ws[0]] + ws[1..];
    }
  }

  /** A word followed by a blank splits off as one field. */
  lemma SplitSpaced(w: string, t: string)
    requires IsWord(w)
    ensures Split(w + (" " + t)) == [w] + Split(t)
  {
    SplitWord(w, " " + t);
    assert (" " + t)[1..] == t;
  }

  /** Python's `s.strip()`: leading and trailing white space cut off, one
      character at a time. */
  function Strip(s: string): (r: string)
    ensures |r| <= |s|
  {
    if s == [] then []
    else if IsSpace(s[0]) then Strip(s[1..])
    else if IsSpace(s[|s| - 1]) then Strip(s[..|s| - 1])
    else s
  }

  /** What `strip()` returns is a piece of `s`, and everything cut off
      around it is white space. */
  lemma StripCutsSpace(s: string)
    ensures exists i, j :: 0 <= i <= j <= |s| && Strip(s) == s[i..j]
                           && AllSpace(s[..i]) && AllSpace(s[j..])
  {
    var i, j := StripBounds(s);
  }

  /** Where `strip()` cuts `s`. */
  lemma {:induction false} StripBounds(s: string) returns (i: nat, j: nat)
    ensures i <= j <= |s| && Strip(s) == s[i..j] && AllSpace(s[..i]) && AllSpace(s[j..])
    decreases |s|
  {
    if s == [] {
      i, j := 0, 0;
      assert s[..0] == [] == s[0..];
    } else if IsSpace(s[0]) {
      var t := s[1..];
      var i', j' := StripBounds(t);
      assert s == [s[0]] + t;
      SpacePrefix(s[0], t, i', j');
      i, j := i' + 1, j' + 1;
    } else if IsSpace(s[|s| - 1]) {
      var t := s[..|s| - 1];
      i, j := StripBounds(t);
      assert s == t + [s[|s| - 1]];
      SpaceSuffix(t, s[|s| - 1], i, j);
    } else {
      i, j := 0, |s|;
      assert s[..0] == [] == s[|s|..];
    }
  }

  /** What `strip()` returns neither starts nor ends with white space. */
  lemma {:induction false} StripEdges(s: string)
    ensures Strip(s) == [] || (!IsSpace(Strip(s)[0]) && !IsSpace(Strip(s)[|Strip(s)| - 1]))
    decreases |s|
  {
    if s != [] && IsSpace(s[0]) {
      StripEdges(s[1..]);
    } else if s != [] && IsSpace(s[|s| - 1]) {
      StripEdges(s[..|s| - 1]);
    }
  }

  /** A white-space character in front of `t` joins the cut-off prefix. */
  lemma SpacePrefix(c: char, t: string, i: nat, j: nat)
    requires IsSpace(c) && i <= j <= |t| && AllSpace(t[..i]) && AllSpace(t[j..])
    ensures var s := [c] + t; s[i + 1..j + 1] == t[i..j] && AllSpace(s[..i + 1]) && AllSpace(s[j + 1..])
  {
    var s := [c] + t;
    assert s[..i + 1] == [c] + t[..i];
    assert s[j + 1..] == t[j..];
  }

  /** A white-space character after `t` joins the cut-off suffix. */
  lemma SpaceSuffix(t: string, c: char, i: nat, j: nat)
    requires IsSpace(c) && i <= j <= |t| && AllSpace(t[..i]) && AllSpace(t[j..])
    ensures var s := t + [c]; s[i..j] == t[i..j] && AllSpace(s[..i]) && AllSpace(s[j..])
  {
    var s := t + [c];
    assert s[..i] == t[..i];
    assert s[j..] == t[j..] + [c];
  }

  function Digit(d: nat): (c: char)
    requires d < 10
  {
    "0123456789"[d]
  }

  function DigitValue(c: char): nat {
    if '0' <= c <= '9' then (c as int - '0' as int) as nat else 0
  }

  /** The decimal text of a natural number, as JavaScript's `String(n)` and
      Python's `str(n)` write it. */
  function NatToString(n: nat): (s: string)
    ensures |s| > 0
    ensures forall i :: 0 <= i < |s| ==> '0' <= s[i] <= '9'
  {
    if n < 10 then [Digit(n)] else NatToString(n / 10) + [Digit(n % 10)]
  }

  /** Reads a string of decimal digits back as a number. */
  function ParseNat(s: string): nat {
    if s == [] then 0 else 10 * ParseNat(s[..|s| - 1]) + DigitValue(s[|s| - 1])
  }

  /** Round trip: the decimal text reads back as the same number. */
  lemma {:induction false} ParseNatToString(n: nat)
    ensures ParseNat(NatToString(n)) == n
  {
    var s := NatToString(n);
    if n < 10 {
      assert s[..|s| - 1] == [];
    } else {
      assert s[..|s| - 1] == NatToString(n / 10);
      ParseNatToString(n / 10);
    }
  }
}
