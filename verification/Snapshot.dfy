/**
 Reducing the repository snapshot (velune/context/assembler.py): low-priority chunks go first, and only
 when the must-keep ones alone are too much is text cut.
 */
module Snapshot {
  import opened ContextTrim
  import opened StableSort

  const BUDGET := 2000
  const CHARS_PER_TOKEN := 4
  const BUDGET_CHARS := BUDGET * CHARS_PER_TOKEN
  const MUST_KEEP := 0.9
  const MARKER := "\n... [snapshot truncated to fit context budget]"

  function MustKeep(chunks: seq<Chunk>): seq<Chunk> {
    if chunks == [] then []
    else
      var before, last := MustKeep(chunks[..|chunks| - 1]), chunks[|chunks| - 1];
      if last.priority >= MUST_KEEP then before + [last] else before
  }

  function Droppable(chunks: seq<Chunk>): seq<Chunk> {
    if chunks == [] then []
    else
      var before, last := Droppable(chunks[..|chunks| - 1]), chunks[|chunks| - 1];
      if last.priority < MUST_KEEP then before + [last] else before
  }

  predicate LowerPriority(a: Chunk, b: Chunk) {
    a.priority <= b.priority
  }

  predicate HigherPriority(a: Chunk, b: Chunk) {
    a.priority >= b.priority
  }

  /** The droppable chunks from the highest priority down, later ones first among equals. */
  function Ranked(chunks: seq<Chunk>): seq<Chunk> {
    Reverse(Sorted(Droppable(chunks), LowerPriority))
  }

  function Room(chunks: seq<Chunk>): int {
    BUDGET - Total(MustKeep(chunks))
  }

  function Kept(chunks: seq<Chunk>): seq<Chunk> {
    MustKeep(chunks) + Pick(Ranked(chunks), Greedy(Ranked(chunks), Room(chunks)))
  }

  // ---- cutting text ----

  /** `s.rfind("\n")`. */
  function LastNewline(s: string): (k: int)
    ensures -1 <= k < |s|
    ensures k >= 0 ==> s[k] == '\n'
    ensures forall i :: k < i < |s| ==> s[i] != '\n'
  {
    if s == "" then -1
    else if s[|s| - 1] == '\n' then |s| - 1
    else LastNewline(s[..|s| - 1])
  }

  function Cutoff(content: string, available: nat): (k: nat)
    requires available <= |content|
    ensures k <= available
  {
    var k := LastNewline(content[..available]);
    if k <= 0 then available else k
  }

  function Shortened(c: Chunk, available: nat): Chunk
    requires available <= |c.content|
  {
    var content := c.content[..Cutoff(c.content, available)] + MARKER;
    c.(content := content, tokens := |content| / CHARS_PER_TOKEN)
  }

  function Chars(s: seq<Chunk>): nat {
    if s == [] then 0 else Chars(s[..|s| - 1]) + |s[|s| - 1].content|
  }

  function Fitted(c: Chunk, available: nat): Chunk {
    if |c.content| <= available then c else Shortened(c, available)
  }

  /** Whole chunks while they fit in what is left, and shortened ones where they do not. */
  function Truncated(s: seq<Chunk>): seq<Chunk> {
    if s == [] then []
    else
      var before, last := Truncated(s[..|s| - 1]), s[|s| - 1];
      if Chars(before) >= BUDGET_CHARS then before
      else before + [Fitted(last, BUDGET_CHARS - Chars(before))]
  }

  function TrimSnapshot(chunks: seq<Chunk>): seq<Chunk> {
    if Total(chunks) <= BUDGET then chunks
    else if Total(Kept(chunks)) <= BUDGET then Kept(chunks)
    else Truncated(Sorted(Kept(chunks), HigherPriority))
  }

  // ---- when text is cut ----

  /** The must-keep chunks decide: the rest never takes more room than they leave. */
  lemma CutIff(chunks: seq<Chunk>)
    ensures Total(Kept(chunks)) <= BUDGET <==> Total(MustKeep(chunks)) <= BUDGET
  {
    hide Greedy, Pick, Total, MustKeep;
    var extra := Pick(Ranked(chunks), Greedy(Ranked(chunks), Room(chunks)));
    GreedyFits(Ranked(chunks), Room(chunks));
    TotalJoin(MustKeep(chunks), extra);
    TotalOfNone();
  }

  lemma TotalOfNone()
    ensures Total([]) == 0
  {
  }

  lemma {:induction false} Partition(chunks: seq<Chunk>)
    ensures multiset(MustKeep(chunks)) + multiset(Droppable(chunks)) == multiset(chunks)
    ensures |MustKeep(chunks)| + |Droppable(chunks)| == |chunks|
  {
    if chunks != [] {
      assert chunks == chunks[..|chunks| - 1] + [chunks[|chunks| - 1]];
      Partition(chunks[..|chunks| - 1]);
    }
  }

  lemma ReverseMembers(s: seq<Chunk>)
    ensures multiset(Reverse(s)) == multiset(s)
    decreases |s|
  {
    if s != [] {
      var n := |s| - 1;
      assert s == s[..n] + [s[n]] && Reverse(s) == [s[n]] + Reverse(s[..n]);
      ReverseMembers(s[..n]);
    }
  }

  lemma KeptMembers(chunks: seq<Chunk>)
    ensures multiset(Kept(chunks)) <= multiset(chunks) && |Kept(chunks)| <= |chunks|
  {
    hide Greedy, Pick, MustKeep, Droppable, Sorted, Reverse;
    Partition(chunks);
    SortedPermutes(Droppable(chunks), LowerPriority);
    ReverseMembers(Sorted(Droppable(chunks), LowerPriority));
    PickMembers(Ranked(chunks), Greedy(Ranked(chunks), Room(chunks)));
  }

  lemma PriorityRanks()
    ensures TotalPreorder(LowerPriority)
  {
  }

  /** The droppable chunks are offered from the highest priority down. */
  lemma RankedDescends(chunks: seq<Chunk>)
    ensures forall i, j :: 0 <= i < j < |Ranked(chunks)| ==> Ranked(chunks)[i].priority >= Ranked(chunks)[j].priority
  {
    hide Sorted, Droppable;
    PriorityRanks();
    var rising := Sorted(Droppable(chunks), LowerPriority);
    SortedOrdered(Droppable(chunks), LowerPriority);
    forall i, j | 0 <= i < j < |Ranked(chunks)|
      ensures Ranked(chunks)[i].priority >= Ranked(chunks)[j].priority
    {
      assert LowerPriority(rising[|rising| - 1 - j], rising[|rising| - 1 - i]);
    }
  }

  /** A snapshot within 2000 tokens is left alone.  One that is over is cut in the text exactly when the
      must-keep chunks alone are over; otherwise all of those stay, the total fits, and no chunk that was
      dropped could be added back. */
  lemma SnapshotFits(chunks: seq<Chunk>)
    ensures Total(chunks) <= BUDGET ==> TrimSnapshot(chunks) == chunks
    ensures Total(MustKeep(chunks)) <= BUDGET < Total(chunks) ==>
              && TrimSnapshot(chunks) == Kept(chunks) && MustKeep(chunks) <= TrimSnapshot(chunks)
              && Total(TrimSnapshot(chunks)) <= BUDGET
              && multiset(TrimSnapshot(chunks)) <= multiset(chunks)
              && forall k :: 0 <= k < |Ranked(chunks)| && !Greedy(Ranked(chunks), Room(chunks))[k] ==>
                   Total(TrimSnapshot(chunks)) + Ranked(chunks)[k].tokens > BUDGET
    ensures Total(MustKeep(chunks)) > BUDGET && Total(chunks) > BUDGET ==>
              TrimSnapshot(chunks) == Truncated(Sorted(Kept(chunks), HigherPriority))
  {
    hide Greedy, Pick, Total, MustKeep, Truncated, Ranked;
    CutIff(chunks);
    KeptMembers(chunks);
    var ranked, room := Ranked(chunks), Room(chunks);
    TotalJoin(MustKeep(chunks), Pick(ranked, Greedy(ranked, room)));
    forall k | 0 <= k < |ranked| && !Greedy(ranked, room)[k]
      ensures Total(Kept(chunks)) + ranked[k].tokens > BUDGET
    {
      GreedyMaximal(ranked, room, k);
    }
  }

  /** Must-keep chunks that are over the budget push everything else out before any text is cut. */
  lemma {:induction false} NothingFits(s: seq<Chunk>, allocation: int)
    requires allocation < 0
    ensures Pick(s, Greedy(s, allocation)) == []
  {
    hide Greedy, Pick;
    GreedyFits(s, allocation);
  }

  lemma OnlyMustKeepIsCut(chunks: seq<Chunk>)
    requires Total(MustKeep(chunks)) > BUDGET
    ensures Kept(chunks) == MustKeep(chunks)
  {
    hide Greedy, Pick, Total, MustKeep, Ranked;
    NothingFits(Ranked(chunks), Room(chunks));
  }

  // ---- how much text is left ----

  lemma CharsPush(s: seq<Chunk>, c: Chunk)
    ensures Chars(s + [c]) == Chars(s) + |c.content|
  {
    assert (s + [c])[..|s|] == s;
  }

  /** Each chunk that comes out is the one that went in or its shortened form. */
  ghost predicate CutFrom(before: seq<Chunk>, after: seq<Chunk>) {
    |after| <= |before| && forall k :: 0 <= k < |after| ==> CutOf(before[k], after[k])
  }

  ghost predicate CutOf(c: Chunk, out: Chunk) {
    exists room: nat :: out == Fitted(c, room)
  }

  lemma CutFromPush(before: seq<Chunk>, after: seq<Chunk>, c: Chunk, room: nat)
    requires CutFrom(before, after)
    ensures CutFrom(before + [c], after)
    ensures |after| == |before| ==> CutFrom(before + [c], after + [Fitted(c, room)])
  {
    assert CutOf(c, Fitted(c, room));
  }

  /** Characters taken over from a chunk, the marker left out. */
  function Taken(c: Chunk, room: nat): nat {
    if |c.content| <= room then |c.content| else Cutoff(c.content, room)
  }

  /** Characters of the chunks' own text in the output for `s`. */
  function Carried(s: seq<Chunk>): nat {
    if s == [] then 0
    else
      var front := s[..|s| - 1];
      var used := Chars(Truncated(front));
      Carried(front) + if used >= BUDGET_CHARS then 0 else Taken(s[|s| - 1], BUDGET_CHARS - used)
  }

  lemma FittedSize(c: Chunk, room: nat)
    ensures Taken(c, room) <= room && Taken(c, room) <= |c.content|
    ensures Fitted(c, room).content[..Taken(c, room)] == c.content[..Taken(c, room)]
    ensures Fitted(c, room).content[Taken(c, room)..] == if |c.content| <= room then "" else MARKER
    ensures |Fitted(c, room).content| == Taken(c, room) + if |c.content| <= room then 0 else |MARKER|
  {
    if |c.content| > room {
      var k := Cutoff(c.content, room);
      assert Fitted(c, room).content == c.content[..k] + MARKER;
    }
  }

  /** The cut output takes at most 8000 characters and one marker, and carries at most 8000 characters of
      the chunks' own text. */
  lemma {:induction false} TruncatedBound(s: seq<Chunk>)
    ensures CutFrom(s, Truncated(s))
    ensures Chars(Truncated(s)) < BUDGET_CHARS ==> |Truncated(s)| == |s|
    ensures Chars(Truncated(s)) <= BUDGET_CHARS + |MARKER|
    ensures Carried(s) <= BUDGET_CHARS && Carried(s) <= Chars(Truncated(s))
  {
    hide Fitted, Chars, CutFrom, Taken;
    if s != [] {
      var front, last := s[..|s| - 1], s[|s| - 1];
      assert s == front + [last];
      TruncatedBound(front);
      var before := Truncated(front);
      if Chars(before) < BUDGET_CHARS {
        var room := BUDGET_CHARS - Chars(before);
        CutFromPush(front, before, last, room);
        CharsPush(before, Fitted(last, room));
        FittedSize(last, room);
      } else {
        CutFromPush(front, before, last, 0);
      }
    } else {
      NothingCut();
    }
  }

  lemma NothingCut()
    ensures Chars([]) == 0 && CutFrom([], []) && Truncated([]) == []
  {
  }

  lemma TrimSnapshotShrinks(chunks: seq<Chunk>)
    ensures |TrimSnapshot(chunks)| <= |chunks|
  {
    hide Kept, Truncated, CutFrom;
    KeptMembers(chunks);
    TruncatedShrinks(Sorted(Kept(chunks), HigherPriority));
  }

  lemma TruncatedShrinks(s: seq<Chunk>)
    ensures |Truncated(s)| <= |s|
  {
    hide Truncated;
    TruncatedBound(s);
  }

  // ---- the loops ----

  method TrimRepositorySnapshot(chunks: seq<Chunk>) returns (out: seq<Chunk>)
    ensures out == TrimSnapshot(chunks)
  {
    if Total(chunks) <= BUDGET {
      return chunks;
    }
    var kept := DropLowPriority(chunks);
    if Total(kept) <= BUDGET {
      return kept;
    }
    out := CutText(Sorted(kept, HigherPriority));
  }

  method DropLowPriority(chunks: seq<Chunk>) returns (kept: seq<Chunk>)
    ensures kept == Kept(chunks)
  {
    hide Greedy, Pick, MustKeep, Droppable, Total, Sorted;
    var ranked := Reverse(Sorted(Droppable(chunks), LowerPriority));
    kept := MustKeep(chunks);
    var room := BUDGET - Total(kept);
    ghost var allocation := room;
    NothingPicked(allocation);
    for i := 0 to |ranked|
      invariant kept == MustKeep(chunks) + Pick(ranked[..i], Greedy(ranked[..i], allocation))
      invariant room == allocation - Total(Pick(ranked[..i], Greedy(ranked[..i], allocation)))
    {
      ghost var before := Pick(ranked[..i], Greedy(ranked[..i], allocation));
      GreedyStep(ranked[..i], ranked[i], allocation);
      TotalPush(before, ranked[i]);
      assert ranked[..i + 1] == ranked[..i] + [ranked[i]];
      if ranked[i].tokens <= room {
        kept := kept + [ranked[i]];
        room := room - ranked[i].tokens;
      }
    }
    assert ranked[..|ranked|] == ranked;
  }

  method CutText(s: seq<Chunk>) returns (out: seq<Chunk>)
    ensures out == Truncated(s)
  {
    hide Fitted, Chars, Truncated;
    NothingCut();
    out := [];
    var used := 0;
    var i := 0;
    while i < |s|
      invariant i <= |s|
      invariant out == Truncated(s[..i]) && used == Chars(out)
      decreases |s| - i
    {
      if used >= BUDGET_CHARS {
        StaysFull(s, i);
        break;
      }
      var available := BUDGET_CHARS - used;
      TruncatedPush(s[..i], s[i]);
      assert s[..i + 1] == s[..i] + [s[i]];
      var next := Fitted(s[i], available);
      CharsPush(out, next);
      out := out + [next];
      used := used + |next.content|;
      i := i + 1;
    }
    assert s[..|s|] == s;
  }

  lemma TruncatedPush(s: seq<Chunk>, c: Chunk)
    requires Chars(Truncated(s)) < BUDGET_CHARS
    ensures Truncated(s + [c]) == Truncated(s) + [Fitted(c, BUDGET_CHARS - Chars(Truncated(s)))]
  {
    hide Fitted, Chars;
    assert (s + [c])[..|s|] == s;
  }

  lemma {:induction false} StaysFull(s: seq<Chunk>, i: nat)
    requires i <= |s| && Chars(Truncated(s[..i])) >= BUDGET_CHARS
    ensures Truncated(s) == Truncated(s[..i])
    decreases |s|
  {
    hide Chars;
    if i == |s| {
      assert s[..i] == s;
    } else {
      assert s[..|s| - 1][..i] == s[..i];
      StaysFull(s[..|s| - 1], i);
    }
  }
}
