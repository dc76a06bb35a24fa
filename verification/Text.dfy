/** The string operations the program borrows from Python: line splitting, word splitting, stripping. */
module Text {

  /** Characters at which `str.splitlines` breaks a line. */
  predicate IsBreak(c: char) {
    c in ['\n', '\r', '\U{0B}', '\U{0C}', '\U{1C}', '\U{1D}', '\U{1E}', '\U{85}', '\U{2028}', '\U{2029}']
  }

  /** Characters `str.split` and `str.strip` treat as white space. */
  predicate IsSpace(c: char) {
    || IsBreak(c)
    || c in [' ', '\t', '\U{1F}', '\U{A0}', '\U{1680}', '\U{202F}', '\U{205F}', '\U{3000}']
    || '\U{2000}' <= c <= '\U{200A}'
  }

  /** Index of the first line break, or the length when there is none. */
  function FirstBreak(s: string): (k: nat)
    ensures k <= |s|
    ensures forall i :: 0 <= i < k ==> !IsBreak(s[i])
    ensures k < |s| ==> IsBreak(s[k])
  {
    if s == "" || IsBreak(s[0]) then 0 else 1 + FirstBreak(s[1..])
  }

  /** `str.splitlines`: breaks are dropped, "\r\n" is one break, a final break opens no line. */
  function SplitLines(s: string): (lines: seq<string>)
    ensures forall l :: l in lines ==> forall c :: c in l ==> !IsBreak(c)
    ensures lines == [] <==> s == ""
    decreases |s|
  {
    if s == "" then []
    else
      var k := FirstBreak(s);
      if k == |s| then [s]
      else
        var width := if s[k] == '\r' && k + 1 < |s| && s[k + 1] == '\n' then 2 else 1;
        [s[..k]] + SplitLines(s[k + width..])
  }

  function Rstrip(s: string): (r: string)
    ensures r <= s
    ensures r != "" ==> !IsSpace(r[|r| - 1])
    ensures forall i :: |r| <= i < |s| ==> IsSpace(s[i])
  {
    if s != "" && IsSpace(s[|s| - 1]) then Rstrip(s[..|s| - 1]) else s
  }

  function Lstrip(s: string): (r: string)
    ensures |r| <= |s| && r == s[|s| - |r|..]
    ensures r != "" ==> !IsSpace(r[0])
  {
    if s != "" && IsSpace(s[0]) then Lstrip(s[1..]) else s
  }

  /** `s.strip()`. */
  function Strip(s: string): (r: string)
    ensures r != "" ==> !IsSpace(r[0]) && !IsSpace(r[|r| - 1])
  {
    Rstrip(Lstrip(s))
  }

  /** `not s.strip()`. */
  predicate IsBlank(s: string) {
    forall c :: c in s ==> IsSpace(c)
  }

  function Join(sep: string, parts: seq<string>): string {
    if parts == [] then ""
    else if |parts| == 1 then parts[0]
    else parts[0] + sep + Join(sep, parts[1..])
  }

  /** Index of the first white space, or the length when there is none. */
  function FirstSpace(s: string): (k: nat)
    ensures k <= |s|
    ensures forall i :: 0 <= i < k ==> !IsSpace(s[i])
    ensures k < |s| ==> IsSpace(s[k])
  {
    if s == "" || IsSpace(s[0]) then 0 else 1 + FirstSpace(s[1..])
  }

  predicate IsWord(w: string) {
    w != "" && FirstSpace(w) == |w|
  }

  predicate AllWords(ws: seq<string>) {
    forall i :: 0 <= i < |ws| ==> IsWord(ws[i])
  }

  lemma {:induction false} FirstSpaceIs(a: string, b: string)
    requires FirstSpace(a) == |a| && (b == "" || IsSpace(b[0]))
    ensures FirstSpace(a + b) == |a|
  {
    if a == "" {
      assert a + b == b;
    } else {
      assert (a + b)[1..] == a[1..] + b;
      FirstSpaceIs(a[1..], b);
    }
  }

  lemma {:induction false} NoSpaceIn(s: string)
    requires forall i :: 0 <= i < |s| ==> !IsSpace(s[i])
    ensures FirstSpace(s) == |s|
  {
    if s != "" {
      NoSpaceIn(s[1..]);
    }
  }

  /** `str.split()`. */
  function Words(s: string): (ws: seq<string>)
    ensures AllWords(ws)
    decreases |s|
  {
    if s == "" then []
    else if IsSpace(s[0]) then Words(s[1..])
    else
      var k := FirstSpace(s);
      NoSpaceIn(s[..k]);
      [s[..k]] + Words(s[k..])
  }

  /** `" ".join(s.split())`. */
  function Normalised(s: string): string {
    Join(" ", Words(s))
  }

  lemma {:induction false} WordsOfJoin(ws: seq<string>)
    requires AllWords(ws)
    ensures Words(Join(" ", ws)) == ws
  {
    if ws == [] {
    } else if |ws| == 1 {
      assert ws[0][..|ws[0]|] == ws[0] && ws[0][|ws[0]|..] == "";
    } else {
      WordsOfJoin(ws[1..]);
      var rest := Join(" ", ws[1..]);
      var joined := ws[0] + " " + rest;
      assert joined == ws[0] + (" " + rest);
      FirstSpaceIs(ws[0], " " + rest);
      assert joined[..|ws[0]|] == ws[0] && joined[|ws[0]|..] == " " + rest;
      assert joined[0] == ws[0][0];
      assert (" " + rest)[1..] == rest;
    }
  }

  /** Normalising keeps exactly the word sequence. */
  lemma SameNormalisedIff(a: string, b: string)
    ensures Normalised(a) == Normalised(b) <==> Words(a) == Words(b)
  {
    WordsOfJoin(Words(a));
    WordsOfJoin(Words(b));
  }

  lemma WordsAfter(c: char, s: string)
    ensures |Words([c] + s)| >= |Words(s)|
  {
    var t := [c] + s;
    assert t[1..] == s;
    if !IsSpace(c) && s != "" && !IsSpace(s[0]) {
      var k := FirstSpace(s);
      assert FirstSpace(t) == 1 + k && t[1 + k..] == s[k..];
    }
  }

  lemma {:induction false} WordsBehind(a: string, s: string)
    ensures |Words(a + s)| >= |Words(s)|
  {
    if a == "" {
      assert a + s == s;
    } else {
      assert a + s == [a[0]] + (a[1..] + s);
      WordsBehind(a[1..], s);
      WordsAfter(a[0], a[1..] + s);
    }
  }

  lemma {:induction false} WordsBefore(s: string, b: string)
    ensures |Words(s + b)| >= |Words(s)|
    decreases |s|
  {
    if s == "" {
    } else if IsSpace(s[0]) {
      assert (s + b)[1..] == s[1..] + b;
      WordsBefore(s[1..], b);
    } else {
      var k, m := FirstSpace(s), FirstSpace(s + b);
      assert forall i :: 0 <= i < k ==> (s + b)[i] == s[i];
      if k < |s| {
        assert (s + b)[k] == s[k];
        assert m == k;
        assert (s + b)[k..] == s[k..] + b;
        WordsBefore(s[k..], b);
      }
    }
  }

  /** A text has no fewer words than any part of it. */
  lemma WordsOfPart(a: string, s: string, b: string)
    ensures |Words(a + s + b)| >= |Words(s)|
  {
    WordsBehind(a, s);
    WordsBefore(a + s, b);
  }

  /** Python's `a <= b` on strings. */
  predicate AtMost(a: string, b: string) {
    a == "" || (b != "" && (a[0] < b[0] || (a[0] == b[0] && AtMost(a[1..], b[1..]))))
  }

  lemma {:induction false} AtMostTotal(a: string, b: string)
    ensures AtMost(a, b) || AtMost(b, a)
    ensures AtMost(a, b) && AtMost(b, a) ==> a == b
  {
    if a != "" && b != "" && a[0] == b[0] {
      AtMostTotal(a[1..], b[1..]);
      assert a == [a[0]] + a[1..] && b == [b[0]] + b[1..];
    }
  }

  lemma {:induction false} AtMostChain(a: string, b: string, c: string)
    requires AtMost(a, b) && AtMost(b, c)
    ensures AtMost(a, c)
  {
    if a != "" && a[0] == b[0] == c[0] {
      AtMostChain(a[1..], b[1..], c[1..]);
    }
  }
}
