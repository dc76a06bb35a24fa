/**
 The full-screen transcript as values: a capped line buffer beside the unbounded
 transcript it stands for.  `View` is what the screen keeps (velune/cli/fullscreen.py
 keeps it in `_lines`, `_stream_start` and `_scroll_anchor`); `Ideal` is the transcript
 nobody trims.  Each operation is written twice, once per side, and neither side looks
 at the other.
 */
module TranscriptSpec {
  import opened Optional

  const CAP: nat := 4000

  datatype View<L> = View(lines: seq<L>, start: Option<nat>, anchor: Option<nat>)

  datatype Ideal<L> = Ideal(lines: seq<L>, start: Option<nat>)

  /** One change to the transcript.  `Open` starts a stream block with its first line;
      `Rerender` replaces the stream block by a new, non-empty rendering of it. */
  datatype Op<L> =
    | Append(added: seq<L>)
    | Open(gap: seq<L>, first: L)
    | Rerender(first: L, rest: seq<L>)
    | Close
    | Clear
    | Scroll(to: Option<nat>)

  function Less(index: Option<nat>, overflow: nat): Option<nat> {
    match index
    case None => None
    case Some(i) => Some(if i >= overflow then i - overflow else 0)
  }

  /** Drop the oldest lines beyond the cap and move both absolute indices with them. */
  function Trim<L>(v: View<L>): View<L> {
    if |v.lines| <= CAP then v
    else
      var overflow := |v.lines| - CAP;
      View(v.lines[overflow..], Less(v.start, overflow), Less(v.anchor, overflow))
  }

  /** Python's `lines[:i]`: an index past the end keeps everything. */
  function Upto<L>(s: seq<L>, i: nat): seq<L> {
    if i <= |s| then s[..i] else s
  }

  function StepView<L>(v: View<L>, op: Op<L>): View<L> {
    match op
    case Append(added) => Trim(v.(lines := v.lines + added))
    case Open(gap, first) =>
      Trim(v.(lines := v.lines + gap + [first], start := Some(|v.lines + gap|)))
    case Rerender(first, rest) =>
      if v.start.None? then v
      else Trim(v.(lines := Upto(v.lines, v.start.value) + [first] + rest))
    case Close => v.(start := None)
    case Clear => View([], None, None)
    case Scroll(to) => v.(anchor := to)
  }

  function StepIdeal<L>(i: Ideal<L>, op: Op<L>): Ideal<L> {
    match op
    case Append(added) => i.(lines := i.lines + added)
    case Open(gap, first) => Ideal(i.lines + gap + [first], Some(|i.lines + gap|))
    case Rerender(first, rest) =>
      if i.start.None? then i
      else i.(lines := Upto(i.lines, i.start.value) + [first] + rest)
    case Close => i.(start := None)
    case Clear => Ideal([], None)
    case Scroll(_) => i
  }

  function RunView<L>(v: View<L>, ops: seq<Op<L>>): View<L> {
    if ops == [] then v else StepView(RunView(v, ops[..|ops| - 1]), ops[|ops| - 1])
  }

  function RunIdeal<L>(i: Ideal<L>, ops: seq<Op<L>>): Ideal<L> {
    if ops == [] then i else StepIdeal(RunIdeal(i, ops[..|ops| - 1]), ops[|ops| - 1])
  }

  /** How many lines of the ideal transcript are missing from the front of the screen. */
  function Missing<L>(v: View<L>, i: Ideal<L>): int {
    |i.lines| - |v.lines|
  }

  ghost predicate Refines<L>(v: View<L>, i: Ideal<L>) {
    && |v.lines| <= CAP
    && |v.lines| <= |i.lines|
    && v.lines == i.lines[Missing(v, i)..]
    && (v.lines == [] ==> i.lines == [])
    && (v.start.Some? <==> i.start.Some?)
    && (i.start.Some? ==>
          && i.start.value <= |i.lines|
          && v.start.value == if i.start.value >= Missing(v, i) then i.start.value - Missing(v, i) else 0)
  }

  /** The missing count is a function of the run: it grows only by what the cap evicts, and a
      re-rendering of a stream whose own start was evicted gives back the part before the stream. */
  function NextMissing<L>(v: View<L>, i: Ideal<L>, op: Op<L>): int {
    var i' := StepIdeal(i, op);
    var before :=
      match op
      case Rerender(_, _) =>
        if i.start.Some? && i.start.value < Missing(v, i) then i.start.value else Missing(v, i)
      case Clear => 0
      case _ => Missing(v, i);
    if |i'.lines| - before > CAP then |i'.lines| - CAP else before
  }

  /** Trimming keeps a suffix a suffix and the shifted start the shifted start. */
  lemma TrimRefines<L>(v: View<L>, i: Ideal<L>)
    requires v.lines != [] && |v.lines| <= |i.lines|
    requires v.lines == i.lines[Missing(v, i)..]
    requires v.start.Some? <==> i.start.Some?
    requires i.start.Some? ==>
               && i.start.value <= |i.lines|
               && v.start.value == if i.start.value >= Missing(v, i) then i.start.value - Missing(v, i) else 0
    ensures Refines(Trim(v), i)
    ensures Missing(Trim(v), i) == if |v.lines| > CAP then |i.lines| - CAP else Missing(v, i)
  {
    if |v.lines| > CAP {
      var overflow := |v.lines| - CAP;
      assert v.lines[overflow..] == i.lines[Missing(v, i) + overflow..];
    }
  }

  lemma RerenderRefines<L>(v: View<L>, i: Ideal<L>, op: Op<L>)
    requires Refines(v, i) && op.Rerender?
    ensures Refines(StepView(v, op), StepIdeal(i, op))
    ensures Missing(StepView(v, op), StepIdeal(i, op)) == NextMissing(v, i, op)
  {
    if i.start.Some? {
      var miss, block := Missing(v, i), [op.first] + op.rest;
      var i' := StepIdeal(i, op);
      var grown := v.(lines := Upto(v.lines, v.start.value) + [op.first] + op.rest);
      assert i'.lines == i.lines[..i.start.value] + block;
      assert grown.lines == v.lines[..v.start.value] + block;
      if i.start.value >= miss {
        assert v.lines[..v.start.value] == i.lines[miss..i.start.value];
        assert grown.lines == i'.lines[miss..];
      } else {
        assert grown.lines == block == i'.lines[i.start.value..];
      }
      TrimRefines(grown, i');
    }
  }

  lemma AppendRefines<L>(v: View<L>, i: Ideal<L>, added: seq<L>)
    requires Refines(v, i)
    ensures Refines(StepView(v, Append(added)), StepIdeal(i, Append(added)))
    ensures Missing(StepView(v, Append(added)), StepIdeal(i, Append(added))) == NextMissing(v, i, Append(added))
  {
    var grown, i' := v.(lines := v.lines + added), i.(lines := i.lines + added);
    assert grown.lines == i'.lines[Missing(v, i)..];
    if grown.lines != [] {
      TrimRefines(grown, i');
    }
  }

  lemma OpenRefines<L>(v: View<L>, i: Ideal<L>, gap: seq<L>, first: L)
    requires Refines(v, i)
    ensures Refines(StepView(v, Open(gap, first)), StepIdeal(i, Open(gap, first)))
    ensures Missing(StepView(v, Open(gap, first)), StepIdeal(i, Open(gap, first)))
         == NextMissing(v, i, Open(gap, first))
  {
    var grown := v.(lines := v.lines + gap + [first], start := Some(|v.lines + gap|));
    var i' := Ideal(i.lines + gap + [first], Some(|i.lines + gap|));
    assert grown.lines == i'.lines[Missing(v, i)..];
    TrimRefines(grown, i');
  }

  lemma OtherRefines<L>(v: View<L>, i: Ideal<L>, op: Op<L>)
    requires Refines(v, i) && (op.Close? || op.Clear? || op.Scroll?)
    ensures Refines(StepView(v, op), StepIdeal(i, op))
    ensures Missing(StepView(v, op), StepIdeal(i, op)) == NextMissing(v, i, op)
  {
  }

  lemma StepRefines<L>(v: View<L>, i: Ideal<L>, op: Op<L>)
    requires Refines(v, i)
    ensures Refines(StepView(v, op), StepIdeal(i, op))
    ensures Missing(StepView(v, op), StepIdeal(i, op)) == NextMissing(v, i, op)
  {
    hide Refines, StepView, StepIdeal, NextMissing, Missing;
    match op
    case Append(added) => AppendRefines(v, i, added);
    case Open(gap, first) => OpenRefines(v, i, gap, first);
    case Rerender(_, _) => RerenderRefines(v, i, op);
    case _ => OtherRefines(v, i, op);
  }

  /** What an operation may read off the end of the buffer, it could as well read off the ideal. */
  lemma SameEnd<L>(v: View<L>, i: Ideal<L>)
    requires Refines(v, i)
    ensures v.lines == [] <==> i.lines == []
    ensures v.lines != [] ==> v.lines[|v.lines| - 1] == i.lines[|i.lines| - 1]
    ensures StepView(v, Append([])) == v && StepIdeal(i, Append([])) == i
  {
    assert v.lines + [] == v.lines && i.lines + [] == i.lines;
  }

  /** Opening a stream is writing its first line over the empty block behind the gap. */
  lemma OpenIsRerender<L>(v: View<L>, i: Ideal<L>, gap: seq<L>, first: L)
    ensures StepView(View(v.lines + gap, Some(|v.lines + gap|), v.anchor), Rerender(first, []))
         == StepView(v, Open(gap, first))
    ensures StepIdeal(Ideal(i.lines + gap, Some(|i.lines + gap|)), Rerender(first, []))
         == StepIdeal(i, Open(gap, first))
  {
    var lines := v.lines + gap;
    assert lines[..|lines|] + [first] + [] == v.lines + gap + [first];
    var whole := i.lines + gap;
    assert whole[..|whole|] + [first] + [] == i.lines + gap + [first];
  }

  lemma StartInRange<L>(v: View<L>, i: Ideal<L>)
    requires Refines(v, i)
    ensures v.start.Some? <==> i.start.Some?
    ensures v.start.Some? ==> v.start.value <= |v.lines| && i.start.value <= |i.lines|
  {
  }

  lemma RerenderClosed<L>(v: View<L>, i: Ideal<L>, op: Op<L>)
    requires v.start.None? && i.start.None? && op.Rerender?
    ensures StepView(v, op) == v && StepIdeal(i, op) == i
  {
  }

  lemma CloseRefines<L>(v: View<L>, i: Ideal<L>, cards: set<L>)
    requires Refines(v, i)
    ensures StepView(v, Close) == v.(start := None) && StepIdeal(i, Close) == i.(start := None)
    ensures Refines(v.(start := None), i.(start := None)) && CardsSafe(i.(start := None), cards)
  {
    assert Missing(v.(start := None), i.(start := None)) == Missing(v, i);
  }

  lemma RunNone<L>(v: View<L>, i: Ideal<L>)
    ensures RunView(v, []) == v && RunIdeal(i, []) == i
  {
  }

  lemma RunOne<L>(v: View<L>, i: Ideal<L>, op: Op<L>)
    ensures RunView(v, [op]) == StepView(v, op) && RunIdeal(i, [op]) == StepIdeal(i, op)
  {
    assert [op][..0] == [];
  }

  lemma RunMore<L>(v: View<L>, i: Ideal<L>, ops: seq<Op<L>>, op: Op<L>)
    ensures RunView(v, ops + [op]) == StepView(RunView(v, ops), op)
    ensures RunIdeal(i, ops + [op]) == StepIdeal(RunIdeal(i, ops), op)
  {
    assert (ops + [op])[..|ops|] == ops;
  }

  /** Over every run from an empty screen, the buffer is a suffix of the ideal transcript, never
      longer than the cap, and the stream start is the ideal one shifted by what is missing. */
  lemma {:induction false} RunRefines<L>(ops: seq<Op<L>>)
    ensures Refines(RunView(View([], None, None), ops), RunIdeal(Ideal([], None), ops))
  {
    if ops != [] {
      var front := ops[..|ops| - 1];
      RunRefines(front);
      StepRefines(RunView(View([], None, None), front), RunIdeal(Ideal([], None), front), ops[|ops| - 1]);
    }
  }

  /** As long as the ideal transcript has never been longer than the cap, nothing is missing. */
  lemma {:induction false} NothingMissingBelowCap<L>(ops: seq<Op<L>>)
    requires forall k :: 0 <= k <= |ops| ==> |RunIdeal(Ideal([], None), ops[..k]).lines| <= CAP
    ensures RunView(View([], None, None), ops).lines == RunIdeal(Ideal([], None), ops).lines
  {
    if ops != [] {
      var n := |ops| - 1;
      var front := ops[..n];
      forall k | 0 <= k <= n
        ensures |RunIdeal(Ideal([], None), front[..k]).lines| <= CAP
      {
        assert front[..k] == ops[..k];
      }
      NothingMissingBelowCap(front);
      RunRefines(front);
      StepRefines(RunView(View([], None, None), front), RunIdeal(Ideal([], None), front), ops[n]);
      assert ops[..|ops|] == ops;
    }
  }

  // ---- the scrolled-up view ----

  /** The line the viewport is pinned to, clamped as the renderer clamps it. */
  function CursorLine<L>(v: View<L>): nat
    requires v.lines != []
  {
    if v.anchor.None? || v.anchor.value >= |v.lines| then |v.lines| - 1 else v.anchor.value
  }

  /** Whether the line at index `a` of `v` survives `op`, and if so under which index. */
  predicate Kept<L>(v: View<L>, op: Op<L>, a: nat) {
    match op
    case Rerender(_, _) => v.start.None? || a < v.start.value
    case Clear => false
    case _ => a < |v.lines|
  }

  function Grown<L>(v: View<L>, op: Op<L>): seq<L> {
    match op
    case Append(added) => v.lines + added
    case Open(gap, first) => v.lines + gap + [first]
    case Rerender(first, rest) =>
      if v.start.None? then v.lines else Upto(v.lines, v.start.value) + [first] + rest
    case _ => v.lines
  }

  /** The view never jumps: whatever is appended below it, and whatever the stream below it
      re-renders to, the anchor stays on the same line object, or on the oldest survivor when
      the cap evicted that line. */
  lemma AnchorFollowsLine<L>(v: View<L>, op: Op<L>)
    requires |v.lines| <= CAP
    requires v.anchor.Some? && v.anchor.value < |v.lines|
    requires !op.Scroll? && Kept(v, op, v.anchor.value)
    ensures var v' := StepView(v, op);
            var overflow := if |Grown(v, op)| > CAP then |Grown(v, op)| - CAP else 0;
            && v'.anchor.Some? && v'.anchor.value < |v'.lines|
            && v'.lines == Grown(v, op)[overflow..]
            && (overflow <= v.anchor.value ==> v'.lines[v'.anchor.value] == v.lines[v.anchor.value])
            && (overflow > v.anchor.value ==> v'.anchor.value == 0)
  {
    assert Grown(v, op)[v.anchor.value] == v.lines[v.anchor.value];
  }

  /** Index of the anchored line counted from the start of the ideal transcript. */
  function IdealAnchor<L>(v: View<L>, i: Ideal<L>): int
    requires v.anchor.Some?
  {
    Missing(v, i) + v.anchor.value
  }

  /** A re-rendering leaves the anchor on the same ideal line number exactly when either the
      stream's start is still on screen and the anchored line is not evicted, or the start was
      evicted and the cap now evicts as many lines of the stream as were missing before plus all
      those above the anchor. */
  lemma RerenderAnchorDrift<L>(v: View<L>, i: Ideal<L>, op: Op<L>)
    requires Refines(v, i)
    requires op.Rerender? && i.start.Some? && v.anchor.Some?
    ensures var block := 1 + |op.rest|;
            var grown := if i.start.value >= Missing(v, i) then v.start.value + block else block;
            var overflow := if grown > CAP then grown - CAP else 0;
            IdealAnchor(StepView(v, op), StepIdeal(i, op)) == IdealAnchor(v, i) <==>
              if i.start.value >= Missing(v, i) then overflow <= v.anchor.value
              else overflow == (Missing(v, i) - i.start.value) + v.anchor.value
  {
    StepRefines(v, i, op);
  }

  /** The drift is real: on a stream longer than the cap, re-rendering the very same block moves
      an anchor inside it by the whole overflow, every time. */
  lemma LongStreamDrifts<L>(v: View<L>, first: L, rest: seq<L>)
    requires v.start == Some(0) && v.anchor.Some? && |rest| >= CAP
    ensures var v' := StepView(v, Rerender(first, rest));
            && v'.start == Some(0) && v'.lines == ([first] + rest)[|rest| + 1 - CAP..]
            && v'.anchor == Less(v.anchor, |rest| + 1 - CAP)
            && (v'.anchor == v.anchor <==> v.anchor.value == 0)
  {
  }

  // ---- tool cards ----

  /** No card title lies in the part of the transcript a stream update rewrites. */
  ghost predicate CardsSafe<L>(i: Ideal<L>, cards: set<L>) {
    i.start.Some? ==> forall k :: i.start.value <= k < |i.lines| ==> i.lines[k] !in cards
  }

  lemma NoStreamIsSafe<L>(i: Ideal<L>, cards: set<L>)
    requires i.start.None?
    ensures CardsSafe(i, cards)
  {
  }

  lemma AppendKeepsCards<L>(i: Ideal<L>, op: Op<L>, cards: set<L>)
    requires CardsSafe(i, cards)
    requires op.Append? ==> forall l :: l in op.added ==> l !in cards
    requires op.Open? ==> op.first !in cards && forall l :: l in op.gap ==> l !in cards
    requires !op.Rerender?
    ensures CardsSafe(StepIdeal(i, op), cards)
  {
  }

  /** A stream update deletes no title line: one that was on screen is still there, unless the cap
      evicted it from the front, and the titles still on screen keep their order. */
  lemma RerenderKeepsCards<L>(v: View<L>, i: Ideal<L>, op: Op<L>, cards: set<L>)
    requires Refines(v, i) && CardsSafe(i, cards) && op.Rerender?
    requires op.first !in cards && forall l :: l in op.rest ==> l !in cards
    ensures CardsSafe(StepIdeal(i, op), cards)
    ensures forall l :: l in cards ==> (l in i.lines <==> l in StepIdeal(i, op).lines)
    ensures forall k :: 0 <= k < |v.lines| && v.lines[k] in cards ==>
              var v' := StepView(v, op);
              var overflow := if |Grown(v, op)| > CAP then |Grown(v, op)| - CAP else 0;
              overflow <= k ==> k - overflow < |v'.lines| && v'.lines[k - overflow] == v.lines[k]
  {
    if i.start.Some? {
      var s := i.start.value;
      var after := StepIdeal(i, op).lines;
      assert after == i.lines[..s] + [op.first] + op.rest;
      forall l | l in cards
        ensures l in i.lines <==> l in after
      {
        if l in i.lines {
          var k :| 0 <= k < |i.lines| && i.lines[k] == l;
          assert after[k] == l;
        }
        if l in after {
          var k :| 0 <= k < |after| && after[k] == l;
          assert k < s && i.lines[k] == l;
        }
      }
      forall k | 0 <= k < |v.lines| && v.lines[k] in cards
        ensures k < v.start.value
      {
        assert i.lines[Missing(v, i) + k] == v.lines[k];
      }
    }
  }
}
