/** Scoring a typed query against a candidate, and remembering the commands used last
    (velune/cli/autocomplete.py). */
module Matching {
  import opened Optional
  import opened StableSort

  // ---- the tiers ----

  predicate OccursAt(q: string, c: string, i: nat) {
    i + |q| <= |c| && c[i..i + |q|] == q
  }

  /** `c.index(q)` from `i` on, or the length of `c` when there is none. */
  function IndexFrom(q: string, c: string, i: nat): (k: nat)
    requires i <= |c|
    ensures i <= k <= |c|
    ensures k < |c| ==> OccursAt(q, c, k)
    ensures forall j :: i <= j < k ==> !OccursAt(q, c, j)
    decreases |c| - i
  {
    if i == |c| || OccursAt(q, c, i) then i else IndexFrom(q, c, i + 1)
  }

  /** `c.find(ch, i)`, or the length of `c`. */
  function FindChar(ch: char, c: string, i: nat): (k: nat)
    ensures i <= |c| ==> i <= k <= |c|
    ensures i > |c| ==> k == |c|
    ensures k < |c| ==> c[k] == ch
    ensures forall j :: i <= j < k ==> c[j] != ch
    decreases if i < |c| then |c| - i else 0
  {
    if i >= |c| then |c| else if c[i] == ch then i else FindChar(ch, c, i + 1)
  }

  /** Where the left-to-right scan for the letters of `q`, started at `i`, puts the last one. */
  function Scan(q: string, c: string, i: nat): Option<nat> {
    if q == "" then None
    else
      var k := FindChar(q[0], c, i);
      if k == |c| then None
      else if |q| == 1 then Some(k)
      else Scan(q[1..], c, k + 1)
  }

  /** Letters found in order, the denser the better. */
  function ScatterScore(q: string, c: string): int
    requires q != ""
  {
    var last := Scan(q, c, 0);
    if last.None? then 0
    else
      var first := FindChar(q[0], c, 0);
      var span := last.value - first + 1;
      var score := (if span <= 0 then 0 else 100 * |q| / span) - first;
      if score < 1 then 1 else score
  }

  /** The score of a lower-cased query against a lower-cased candidate. */
  function Score(q: string, c: string): int {
    if q == "" then 1
    else if q == c then 1000
    else if q <= c then 500 - |c|
    else
      var k := IndexFrom(q, c, 0);
      if k < |c| then 250 - k else ScatterScore(q, c)
  }

  // ---- the scan is complete ----

  /** Positions that spell `q` in order, none before `i`. */
  ghost predicate Spells(q: string, c: string, at: seq<nat>, i: nat) {
    && |at| == |q|
    && (forall p :: 0 <= p < |at| ==> i <= at[p] < |c| && c[at[p]] == q[p])
    && (forall p, r :: 0 <= p < r < |at| ==> at[p] < at[r])
  }

  ghost predicate IsSubsequence(q: string, c: string) {
    exists at: seq<nat> :: Spells(q, c, at, 0)
  }

  /** If the letters can be placed at all, the scan succeeds and ends no later than they do. */
  lemma {:induction false} ScanComplete(q: string, c: string, i: nat, at: seq<nat>)
    requires q != "" && Spells(q, c, at, i)
    ensures Scan(q, c, i).Some? && Scan(q, c, i).value <= at[|at| - 1]
    decreases |q|
  {
    var k := FindChar(q[0], c, i);
    assert k <= at[0];
    if |q| > 1 {
      assert Spells(q[1..], c, at[1..], k + 1);
      ScanComplete(q[1..], c, k + 1, at[1..]);
    }
  }

  lemma {:induction false} ScanSound(q: string, c: string, i: nat) returns (at: seq<nat>)
    requires Scan(q, c, i).Some?
    ensures Spells(q, c, at, i) && at[0] == FindChar(q[0], c, i) && at[|at| - 1] == Scan(q, c, i).value
    ensures at[0] + |q| - 1 <= Scan(q, c, i).value
    decreases |q|
  {
    var k := FindChar(q[0], c, i);
    if |q| == 1 {
      at := [k];
    } else {
      var rest := ScanSound(q[1..], c, k + 1);
      at := [k] + rest;
    }
  }

  lemma ScanIff(q: string, c: string)
    requires q != ""
    ensures Scan(q, c, 0).Some? <==> IsSubsequence(q, c)
  {
    if Scan(q, c, 0).Some? {
      var at := ScanSound(q, c, 0);
    }
    if IsSubsequence(q, c) {
      var at :| Spells(q, c, at, 0);
      ScanComplete(q, c, 0, at);
    }
  }

  lemma OccurrenceSpells(q: string, c: string, i: nat)
    requires OccursAt(q, c, i)
    ensures IsSubsequence(q, c)
  {
    var at := seq(|q|, p requires 0 <= p < |q| => i + p);
    forall p | 0 <= p < |q|
      ensures c[at[p]] == q[p]
    {
      assert c[i..i + |q|][p] == q[p];
    }
    assert Spells(q, c, at, 0);
  }

  /** Where the score stops being positive although the letters are there: a prefix of a candidate of 500 or
      more characters, or a substring that first occurs at 250 or later. */
  predicate TooLong(q: string, c: string) {
    && q != "" && q != c
    && (if q <= c then |c| >= 500 else IndexFrom(q, c, 0) < |c| && IndexFrom(q, c, 0) >= 250)
  }

  /** A query scores exactly when its letters occur in the candidate in order and it is not too long. */
  lemma PositiveIff(q: string, c: string)
    ensures Score(q, c) > 0 <==> IsSubsequence(q, c) && !TooLong(q, c)
  {
    if q == "" {
      assert Spells(q, c, [], 0);
    } else if q <= c {
      assert OccursAt(q, c, 0);
      OccurrenceSpells(q, c, 0);
    } else if IndexFrom(q, c, 0) < |c| {
      OccurrenceSpells(q, c, IndexFrom(q, c, 0));
    } else {
      ScanIff(q, c);
    }
  }

  /** Up to 250 characters that is every subsequence. */
  lemma PositiveUpTo250(q: string, c: string)
    requires |c| <= 250
    ensures Score(q, c) > 0 <==> IsSubsequence(q, c)
  {
    hide Score, IsSubsequence;
    PositiveIff(q, c);
  }

  // ---- the tiers do not mix ----

  datatype Tier = Unmatched | Scattered | Inside | Prefix | Exact

  function TierOf(q: string, c: string): Tier {
    if q == c then Exact
    else if q <= c then Prefix
    else if IndexFrom(q, c, 0) < |c| then Inside
    else if Scan(q, c, 0).Some? then Scattered
    else Unmatched
  }

  function Rank(t: Tier): nat {
    match t
    case Unmatched => 0
    case Scattered => 1
    case Inside => 2
    case Prefix => 3
    case Exact => 4
  }

  lemma Percent(part: nat, whole: nat)
    requires part <= whole && whole > 0
    ensures 100 * part / whole <= 100
  {
    var k := 100 * part / whole;
    assert whole * k <= 100 * part <= 100 * whole;
    if k > 100 {
      Larger(whole, k);
      assert false;
    }
  }

  lemma Larger(whole: nat, k: nat)
    requires whole > 0 && k > 100
    ensures whole * k > 100 * whole
  {
    assert whole * (k - 100) >= whole;
  }

  lemma ScatterRange(q: string, c: string)
    requires q != "" && Scan(q, c, 0).Some?
    ensures 1 <= ScatterScore(q, c) <= 100
  {
    var at := ScanSound(q, c, 0);
    var span := Scan(q, c, 0).value - at[0] + 1;
    Percent(|q|, span);
  }

  lemma ScoreRange(q: string, c: string)
    requires q != "" && |c| <= 150
    ensures match TierOf(q, c)
            case Unmatched => Score(q, c) == 0
            case Scattered => 1 <= Score(q, c) <= 100
            case Inside => 101 <= Score(q, c) <= 249
            case Prefix => 350 <= Score(q, c) <= 499
            case Exact => Score(q, c) == 1000
  {
    if TierOf(q, c) == Scattered {
      ScatterRange(q, c);
    }
    if TierOf(q, c) == Inside {
      assert !OccursAt(q, c, 0);
    }
  }

  /** Candidates of up to 150 characters: a better kind of match always scores higher, whatever the density,
      position or length. */
  lemma TiersSeparate(q: string, c: string, d: string)
    requires q != "" && |c| <= 150 && |d| <= 150 && Rank(TierOf(q, c)) > Rank(TierOf(q, d))
    ensures Score(q, c) > Score(q, d)
  {
    hide TierOf, Score;
    ScoreRange(q, c);
    ScoreRange(q, d);
  }

  /** Beyond 250 characters they do: here a plain substring scores nothing at all. */
  lemma LongCandidate(c: string)
    requires |c| == 251 && c[250] == 'x' && forall i :: 0 <= i < 250 ==> c[i] != 'x'
    ensures IsSubsequence("x", c) && Score("x", c) == 0
  {
    assert OccursAt("x", c, 250);
    OccurrenceSpells("x", c, 250);
    forall i | 0 <= i < 250
      ensures !OccursAt("x", c, i)
    {
      assert c[i..i + 1] == [c[i]];
    }
    assert IndexFrom("x", c, 0) == 250;
  }

  // ---- the loop ----

  method FuzzyScore(query: string, candidate: string, lower: string -> string) returns (score: int)
    ensures score == Score(lower(query), lower(candidate))
  {
    var q, c := lower(query), lower(candidate);
    if q == "" {
      return 1;
    }
    if q == c {
      return 1000;
    }
    if q <= c {
      return 500 - |c|;
    }
    var k := IndexFrom(q, c, 0);
    if k < |c| {
      return 250 - k;
    }
    score := ScatterLoop(q, c);
  }

  method ScatterLoop(q: string, c: string) returns (score: int)
    requires q != ""
    ensures score == ScatterScore(q, c)
  {
    hide Scan, FindChar;
    var pos, first := -1, -1;
    for i := 0 to |q|
      invariant -1 <= pos < |c|
      invariant i > 0 ==> 0 <= first <= pos && first == FindChar(q[0], c, 0)
      invariant i == 0 ==> pos == first == -1
      invariant Scan(q, c, 0) == if i < |q| then Scan(q[i..], c, pos + 1) else Some(pos)
    {
      ScanStep(q[i..], c, pos + 1);
      assert i + 1 < |q| ==> q[i..][1..] == q[i + 1..];
      pos := FindChar(q[i], c, pos + 1);
      if pos == |c| {
        return 0;
      }
      if first == -1 {
        first := pos;
      }
    }
    var dense := 100 * |q| / (pos - first + 1) - first;
    score := if dense < 1 then 1 else dense;
  }

  lemma ScanStep(q: string, c: string, i: nat)
    requires q != "" && i <= |c|
    ensures var k := FindChar(q[0], c, i);
            Scan(q, c, i) == if k == |c| then None else if |q| == 1 then Some(k) else Scan(q[1..], c, k + 1)
  {
  }

  // ---- commands used last ----

  const MAX_RECENT := 8

  function IsNot(name: string): string -> bool {
    (n: string) => n != name
  }

  function Capped(names: seq<string>): seq<string> {
    if |names| <= MAX_RECENT then names else names[..MAX_RECENT]
  }

  /** `record_use` on a deque of at most eight names. */
  function Used(recent: seq<string>, name: string): seq<string> {
    Capped([name] + Filter(recent, IsNot(name)))
  }

  /** Every command ever used, the latest first. */
  function History(uses: seq<string>): seq<string> {
    if uses == [] then []
    else [uses[|uses| - 1]] + Filter(History(uses[..|uses| - 1]), IsNot(uses[|uses| - 1]))
  }

  function Recent(uses: seq<string>): seq<string> {
    if uses == [] then [] else Used(Recent(uses[..|uses| - 1]), uses[|uses| - 1])
  }

  ghost predicate NoRepeats(names: seq<string>) {
    forall i, j :: 0 <= i < j < |names| ==> names[i] != names[j]
  }

  lemma {:induction false} FilterNoRepeats(names: seq<string>, name: string)
    requires NoRepeats(names)
    ensures NoRepeats(Filter(names, IsNot(name))) && name !in Filter(names, IsNot(name))
    ensures |Filter(names, IsNot(name))| >= |names| - 1
    ensures name !in names ==> Filter(names, IsNot(name)) == names
  {
    if names != [] {
      var front, last := names[..|names| - 1], names[|names| - 1];
      assert names == front + [last];
      FilterNoRepeats(front, name);
      FilterMember(front, IsNot(name), last);
      FilterPush(front, last, IsNot(name));
    }
  }

  lemma HistoryNoRepeats(uses: seq<string>)
    ensures NoRepeats(History(uses))
  {
    if uses != [] {
      var n := |uses| - 1;
      HistoryNoRepeats(uses[..n]);
      FilterNoRepeats(History(uses[..n]), uses[n]);
    }
  }

  /** Forgetting all but eight names before using one is forgetting after. */
  lemma UsedCapped(names: seq<string>, name: string)
    requires NoRepeats(names)
    ensures Used(Capped(names), name) == Used(names, name)
  {
    hide Filter;
    if |names| > MAX_RECENT {
      var head, tail := names[..MAX_RECENT], names[MAX_RECENT..];
      assert names == head + tail;
      FilterJoin(head, tail, IsNot(name));
      FilterNoRepeats(head, name);
      var kept, rest := Filter(head, IsNot(name)), Filter(tail, IsNot(name));
      var whole := [name] + (kept + rest);
      assert whole == ([name] + kept) + rest;
      assert |[name] + kept| >= MAX_RECENT && whole[..MAX_RECENT] == ([name] + kept)[..MAX_RECENT];
      assert whole == Capped(whole) || Capped(whole) == whole[..MAX_RECENT];
    }
  }

  /** What is remembered is the start of the full most-recently-used history: at most eight commands, none
      twice, the last one used first. */
  lemma {:induction false} RecentIsHistory(uses: seq<string>)
    ensures Recent(uses) == Capped(History(uses))
    ensures NoRepeats(Recent(uses)) && |Recent(uses)| <= MAX_RECENT
    ensures uses != [] ==> Recent(uses) != [] && Recent(uses)[0] == uses[|uses| - 1]
  {
    hide Filter;
    HistoryNoRepeats(uses);
    if uses != [] {
      var n := |uses| - 1;
      RecentIsHistory(uses[..n]);
      HistoryNoRepeats(uses[..n]);
      UsedCapped(History(uses[..n]), uses[n]);
    }
  }

  class RecentCommands {
    var names: seq<string>

    ghost predicate Valid()
      reads this
    {
      NoRepeats(names) && |names| <= MAX_RECENT
    }

    constructor ()
      ensures Valid() && names == Recent([])
    {
      names := [];
    }

    method RecordUse(name: string)
      requires Valid()
      modifies this
      ensures Valid() && names == Used(old(names), name)
      ensures forall uses :: old(names) == Recent(uses) ==> names == Recent(uses + [name])
    {
      ghost var before := names;
      FilterNoRepeats(names, name);
      var k := 0;
      while k < |names| && names[k] != name
        invariant k <= |names|
        invariant forall i :: 0 <= i < k ==> names[i] != name
      {
        k := k + 1;
      }
      RemovedAt(names, name, k);
      if k < |names| {
        names := names[..k] + names[k + 1..];
      }
      names := [name] + names;
      if |names| > MAX_RECENT {
        names := names[..MAX_RECENT];
      }
      forall uses | before == Recent(uses)
        ensures names == Recent(uses + [name])
      {
        assert (uses + [name])[..|uses|] == uses;
      }
    }
  }

  /** In a list without repeats, dropping a name is cutting out the place where it first stands. */
  lemma RemovedAt(names: seq<string>, name: string, k: nat)
    requires NoRepeats(names) && k <= |names|
    requires forall i :: 0 <= i < k ==> names[i] != name
    requires k < |names| ==> names[k] == name
    ensures Filter(names, IsNot(name)) == if k < |names| then names[..k] + names[k + 1..] else names
  {
    hide Filter;
    if k < |names| {
      var a, b := names[..k], names[k + 1..];
      assert names == a + [name] + b;
      forall i | 0 <= i < |b|
        ensures b[i] != name
      {
        assert names[k] != names[k + 1 + i];
      }
      DropsOne(a, name, b);
    } else {
      KeepsOthers(names, name);
    }
  }

  lemma DropsOne(a: seq<string>, name: string, b: seq<string>)
    requires forall i :: 0 <= i < |a| ==> a[i] != name
    requires forall i :: 0 <= i < |b| ==> b[i] != name
    ensures Filter(a + [name] + b, IsNot(name)) == a + b
  {
    hide Filter;
    FilterJoin(a + [name], b, IsNot(name));
    FilterJoin(a, [name], IsNot(name));
    KeepsOthers(a, name);
    KeepsOthers(b, name);
    DroppedAlone(name);
  }

  lemma {:induction false} KeepsOthers(names: seq<string>, name: string)
    requires forall i :: 0 <= i < |names| ==> names[i] != name
    ensures Filter(names, IsNot(name)) == names
  {
    if names != [] {
      KeepsOthers(names[..|names| - 1], name);
    }
  }

  lemma DroppedAlone(name: string)
    ensures Filter([name], IsNot(name)) == []
  {
  }
}
