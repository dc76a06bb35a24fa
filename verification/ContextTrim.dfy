/**
 The budget trims of the context assembler (velune/context/assembler.py): retrieved context keeps the
 most trusted chunks that fit, working memory the most recent ones.
 */
module ContextTrim {
  import opened StableSort

  datatype Section =
    | SystemPrompt | CognitiveContinuity | ArchitecturalDrift | RepositorySnapshot
    | RetrievedContext | WorkingMemory | CurrentPrompt

  datatype Chunk = Chunk(section: Section, content: string, tokens: nat, source: string, trust: real, priority: real)

  function Total(s: seq<Chunk>): nat {
    if s == [] then 0 else Total(s[..|s| - 1]) + s[|s| - 1].tokens
  }

  lemma TotalPush(s: seq<Chunk>, c: Chunk)
    ensures Total(s + [c]) == Total(s) + c.tokens
  {
    assert (s + [c])[..|s|] == s;
  }

  lemma {:induction false} TotalJoin(a: seq<Chunk>, b: seq<Chunk>)
    ensures Total(a + b) == Total(a) + Total(b)
  {
    if b == [] {
      assert a + b == a;
    } else {
      assert (a + b)[..|a + b| - 1] == a + b[..|b| - 1];
      TotalJoin(a, b[..|b| - 1]);
    }
  }

  // ---- greedy selection ----

  /** Which chunks of `s`, taken in turn, still fit what is left of the allocation. */
  function Greedy(s: seq<Chunk>, allocation: int): (r: seq<bool>)
    ensures |r| == |s|
  {
    if s == [] then []
    else
      var n := |s| - 1;
      var before := Greedy(s[..n], allocation);
      before + [Total(Pick(s[..n], before)) + s[n].tokens <= allocation]
  }

  /** The chosen chunks, in order. */
  function Pick(s: seq<Chunk>, choice: seq<bool>): seq<Chunk>
    requires |choice| == |s|
  {
    if s == [] then []
    else
      var n := |s| - 1;
      var before := Pick(s[..n], choice[..n]);
      if choice[n] then before + [s[n]] else before
  }

  lemma GreedyStep(s: seq<Chunk>, c: Chunk, allocation: int)
    ensures var before := Greedy(s, allocation);
            var fits := Total(Pick(s, before)) + c.tokens <= allocation;
            && Greedy(s + [c], allocation) == before + [fits]
            && Pick(s + [c], Greedy(s + [c], allocation)) == (if fits then Pick(s, before) + [c] else Pick(s, before))
  {
    var before := Greedy(s, allocation);
    assert (s + [c])[..|s|] == s;
    assert forall x :: (before + [x])[..|s|] == before;
  }

  lemma {:induction false} GreedyFits(s: seq<Chunk>, allocation: int)
    ensures Pick(s, Greedy(s, allocation)) == [] || Total(Pick(s, Greedy(s, allocation))) <= allocation
  {
    if s != [] {
      var n := |s| - 1;
      assert s == s[..n] + [s[n]];
      GreedyFits(s[..n], allocation);
      GreedyStep(s[..n], s[n], allocation);
      TotalPush(Pick(s[..n], Greedy(s[..n], allocation)), s[n]);
    }
  }

  lemma {:induction false} PickPrefix(s: seq<Chunk>, choice: seq<bool>, k: nat)
    requires |choice| == |s| && k <= |s|
    ensures Total(Pick(s[..k], choice[..k])) <= Total(Pick(s, choice))
    ensures k < |s| && choice[k] ==> Total(Pick(s[..k], choice[..k])) + s[k].tokens <= Total(Pick(s, choice))
    decreases |s|
  {
    if k == |s| {
      assert s[..k] == s && choice[..k] == choice;
    } else {
      var n := |s| - 1;
      PickPrefix(s[..n], choice[..n], k);
      assert s[..n][..k] == s[..k] && choice[..n][..k] == choice[..k];
      TotalPush(Pick(s[..n], choice[..n]), s[n]);
    }
  }

  lemma {:induction false} GreedyPrefix(s: seq<Chunk>, allocation: int, k: nat)
    requires k < |s|
    ensures Greedy(s, allocation)[..k] == Greedy(s[..k], allocation)
    ensures Greedy(s, allocation)[k]
       <==> Total(Pick(s[..k], Greedy(s[..k], allocation))) + s[k].tokens <= allocation
    decreases |s|
  {
    hide Greedy, Pick, Total;
    var n := |s| - 1;
    GreedyLast(s, allocation);
    if k < n {
      GreedyPrefix(s[..n], allocation, k);
      assert s[..n][..k] == s[..k];
      assert Greedy(s, allocation)[..n][..k] == Greedy(s, allocation)[..k];
      assert Greedy(s, allocation)[..n][k] == Greedy(s, allocation)[k];
    }
  }

  lemma GreedyLast(s: seq<Chunk>, allocation: int)
    requires s != []
    ensures var n := |s| - 1;
            && Greedy(s, allocation)[..n] == Greedy(s[..n], allocation)
            && (Greedy(s, allocation)[n]
                <==> Total(Pick(s[..n], Greedy(s[..n], allocation))) + s[n].tokens <= allocation)
  {
  }

  /** Nothing left out could be added back. */
  lemma GreedyMaximal(s: seq<Chunk>, allocation: int, k: nat)
    requires k < |s| && !Greedy(s, allocation)[k]
    ensures Total(Pick(s, Greedy(s, allocation))) + s[k].tokens > allocation
  {
    GreedyPrefix(s, allocation, k);
    PickPrefix(s, Greedy(s, allocation), k);
  }

  /** Of all selections that fit, the greedy one is first in the lexicographic order: wherever another
      selection first differs, greedy has kept a chunk that the other gave up. */
  lemma GreedyBest(s: seq<Chunk>, allocation: int, other: seq<bool>, k: nat)
    requires |other| == |s| && k < |s|
    requires Total(Pick(s, other)) <= allocation
    requires other[..k] == Greedy(s, allocation)[..k] && other[k] != Greedy(s, allocation)[k]
    ensures Greedy(s, allocation)[k] && !other[k]
  {
    GreedyPrefix(s, allocation, k);
    PickPrefix(s, other, k);
  }

  lemma {:induction false} PickMembers(s: seq<Chunk>, choice: seq<bool>)
    requires |choice| == |s|
    ensures multiset(Pick(s, choice)) <= multiset(s) && |Pick(s, choice)| <= |s|
  {
    if s != [] {
      assert s == s[..|s| - 1] + [s[|s| - 1]];
      PickMembers(s[..|s| - 1], choice[..|s| - 1]);
    }
  }

  // ---- retrieved context ----

  predicate MoreTrusted(a: Chunk, b: Chunk) {
    a.trust >= b.trust
  }

  function TrimRetrieved(chunks: seq<Chunk>, allocation: int): seq<Chunk> {
    if Total(chunks) <= allocation then chunks
    else
      var ranked := Sorted(chunks, MoreTrusted);
      Pick(ranked, Greedy(ranked, allocation))
  }

  // ---- working memory ----

  function Reverse<T>(s: seq<T>): (r: seq<T>)
    ensures |r| == |s|
    ensures forall i :: 0 <= i < |s| ==> r[i] == s[|s| - 1 - i]
  {
    seq(|s|, i requires 0 <= i < |s| => s[|s| - 1 - i])
  }

  function TrimWorkingMemory(chunks: seq<Chunk>, allocation: int): seq<Chunk> {
    if Total(chunks) <= allocation then chunks
    else
      var recent := Reverse(chunks);
      Reverse(Pick(recent, Greedy(recent, allocation)))
  }

  lemma {:induction false} PickFront(s: seq<Chunk>, choice: seq<bool>)
    requires |choice| == |s| && s != []
    ensures Pick(s, choice) == (if choice[0] then [s[0]] else []) + Pick(s[1..], choice[1..])
    decreases |s|
  {
    if |s| > 1 {
      var n := |s| - 1;
      PickFront(s[..n], choice[..n]);
      assert s[..n][1..] == s[1..][..n - 1] && choice[..n][1..] == choice[1..][..n - 1];
    }
  }

  /** Picking backwards and turning round is picking in the original order. */
  lemma {:induction false} PickReverse(s: seq<Chunk>, choice: seq<bool>)
    requires |choice| == |s|
    ensures Reverse(Pick(Reverse(s), choice)) == Pick(s, Reverse(choice))
  {
    if s != [] {
      var n := |s| - 1;
      PickFront(Reverse(s), choice);
      assert Reverse(s)[1..] == Reverse(s[..n]);
      assert Reverse(choice)[..n] == Reverse(choice[1..]);
      PickReverse(s[..n], choice[1..]);
      var tail := Pick(Reverse(s[..n]), choice[1..]);
      assert Reverse([s[n]] + tail) == Reverse(tail) + [s[n]];
      assert [] + tail == tail;
    }
  }

  lemma {:induction false} TotalReverse(s: seq<Chunk>)
    ensures Total(Reverse(s)) == Total(s)
  {
    if s != [] {
      var n := |s| - 1;
      assert Reverse(s) == [s[n]] + Reverse(s[..n]);
      TotalJoin([s[n]], Reverse(s[..n]));
      TotalReverse(s[..n]);
    }
  }

  // ---- what the trims promise ----

  lemma TrustRanks()
    ensures TotalPreorder(MoreTrusted)
  {
  }

  /** The ranking retrieved chunks are chosen from: by trust, equally trusted chunks as they came. */
  lemma TrustRanking(chunks: seq<Chunk>)
    ensures var ranked := Sorted(chunks, MoreTrusted);
            && multiset(ranked) == multiset(chunks)
            && (forall i, j :: 0 <= i < j < |ranked| ==> ranked[i].trust >= ranked[j].trust)
            && forall c :: Tied(ranked, c, MoreTrusted) == Tied(chunks, c, MoreTrusted)
  {
    hide Sorted, Tied;
    TrustRanks();
    SortedPermutes(chunks, MoreTrusted);
    SortedOrdered(chunks, MoreTrusted);
    forall c
      ensures Tied(Sorted(chunks, MoreTrusted), c, MoreTrusted) == Tied(chunks, c, MoreTrusted)
    {
      SortedStable(chunks, c, MoreTrusted);
    }
  }

  /** What a trim returns fits the allocation whenever anything can. */
  lemma TrimsFit(chunks: seq<Chunk>, allocation: int)
    ensures TrimRetrieved(chunks, allocation) == [] || Total(TrimRetrieved(chunks, allocation)) <= allocation
    ensures TrimWorkingMemory(chunks, allocation) == [] || Total(TrimWorkingMemory(chunks, allocation)) <= allocation
    ensures Total(TrimRetrieved(chunks, allocation)) <= allocation <==> allocation >= 0
    ensures Total(TrimWorkingMemory(chunks, allocation)) <= allocation <==> allocation >= 0
  {
    hide Greedy, Pick;
    var ranked, recent := Sorted(chunks, MoreTrusted), Reverse(chunks);
    GreedyFits(ranked, allocation);
    GreedyFits(recent, allocation);
    TotalReverse(Pick(recent, Greedy(recent, allocation)));
  }

  /** The retrieved chunks that stay are a choice from the trust ranking which cannot be improved: adding
      any dropped chunk breaks the allocation, and any other choice that fits first differs by giving up a
      chunk that was kept.  Working memory likewise, ranked by age, and in its original order. */
  lemma TrimsBest(chunks: seq<Chunk>, allocation: int, ranked: seq<Chunk>, kept: seq<Chunk>)
    requires Total(chunks) > allocation
    requires (ranked == Sorted(chunks, MoreTrusted) && kept == TrimRetrieved(chunks, allocation))
          || (ranked == Reverse(chunks) && kept == Reverse(TrimWorkingMemory(chunks, allocation)))
    ensures exists choice: seq<bool> :: |choice| == |ranked| && kept == Pick(ranked, choice)
              && (forall k :: 0 <= k < |ranked| && !choice[k] ==> Total(kept) + ranked[k].tokens > allocation)
              && (forall other: seq<bool>, k :: 0 <= k < |ranked| && |other| == |ranked|
                    && Total(Pick(ranked, other)) <= allocation && other[..k] == choice[..k] && other[k] != choice[k]
                    ==> choice[k])
  {
    hide Greedy, Pick;
    var choice := Greedy(ranked, allocation);
    assert kept == Pick(ranked, choice);
    forall k | 0 <= k < |ranked| && !choice[k]
      ensures Total(kept) + ranked[k].tokens > allocation
    {
      GreedyMaximal(ranked, allocation, k);
    }
    forall other: seq<bool>, k | 0 <= k < |ranked| && |other| == |ranked|
      && Total(Pick(ranked, other)) <= allocation && other[..k] == choice[..k] && other[k] != choice[k]
      ensures choice[k]
    {
      GreedyBest(ranked, allocation, other, k);
    }
  }

  /** Nothing is invented, and working memory keeps its order. */
  lemma TrimsKeep(chunks: seq<Chunk>, allocation: int)
    ensures multiset(TrimRetrieved(chunks, allocation)) <= multiset(chunks)
    ensures multiset(TrimWorkingMemory(chunks, allocation)) <= multiset(chunks)
    ensures |TrimRetrieved(chunks, allocation)| <= |chunks| && |TrimWorkingMemory(chunks, allocation)| <= |chunks|
    ensures Total(chunks) > allocation ==>
              TrimWorkingMemory(chunks, allocation) == Pick(chunks, Reverse(Greedy(Reverse(chunks), allocation)))
  {
    hide Greedy, Pick;
    var ranked, recent := Sorted(chunks, MoreTrusted), Reverse(chunks);
    SortedPermutes(chunks, MoreTrusted);
    PickMembers(ranked, Greedy(ranked, allocation));
    PickReverse(chunks, Greedy(recent, allocation));
    PickMembers(chunks, Reverse(Greedy(recent, allocation)));
  }

  // ---- the loops ----

  lemma NothingPicked(allocation: int)
    ensures Pick([], Greedy([], allocation)) == [] && Reverse<Chunk>([]) == [] && Total([]) == 0
  {
  }

  lemma ReversePush(s: seq<Chunk>, c: Chunk)
    ensures Reverse(s + [c]) == [c] + Reverse(s)
  {
  }

  method TrimRetrievedContext(chunks: seq<Chunk>, allocation: int) returns (kept: seq<Chunk>, trimmed: int)
    ensures kept == TrimRetrieved(chunks, allocation)
    ensures trimmed == Total(chunks) - Total(kept)
  {
    if Total(chunks) <= allocation {
      return chunks, 0;
    }
    kept := KeepWhatFits(Sorted(chunks, MoreTrusted), allocation);
    trimmed := Total(chunks) - Total(kept);
  }

  method KeepWhatFits(ranked: seq<Chunk>, allocation: int) returns (kept: seq<Chunk>)
    ensures kept == Pick(ranked, Greedy(ranked, allocation))
  {
    hide Greedy, Pick, Total;
    kept := [];
    NothingPicked(allocation);
    var used := 0;
    for i := 0 to |ranked|
      invariant kept == Pick(ranked[..i], Greedy(ranked[..i], allocation))
      invariant used == Total(kept)
    {
      GreedyStep(ranked[..i], ranked[i], allocation);
      assert ranked[..i + 1] == ranked[..i] + [ranked[i]];
      if used + ranked[i].tokens <= allocation {
        TotalPush(kept, ranked[i]);
        kept := kept + [ranked[i]];
        used := used + ranked[i].tokens;
      }
    }
    assert ranked[..|ranked|] == ranked;
  }

  method TrimWorkingMemoryTurns(chunks: seq<Chunk>, allocation: int) returns (kept: seq<Chunk>, trimmed: int)
    ensures kept == TrimWorkingMemory(chunks, allocation)
    ensures trimmed == Total(chunks) - Total(kept)
  {
    if Total(chunks) <= allocation {
      return chunks, 0;
    }
    hide Greedy, Pick, Reverse, Total;
    ghost var recent := Reverse(chunks);
    kept := [];
    NothingPicked(allocation);
    var used := 0;
    for i := 0 to |chunks|
      invariant kept == Reverse(Pick(recent[..i], Greedy(recent[..i], allocation)))
      invariant used == Total(Pick(recent[..i], Greedy(recent[..i], allocation)))
    {
      var chunk := chunks[|chunks| - 1 - i];
      ghost var before := Pick(recent[..i], Greedy(recent[..i], allocation));
      GreedyStep(recent[..i], chunk, allocation);
      assert recent[..i + 1] == recent[..i] + [chunk];
      if used + chunk.tokens <= allocation {
        kept := [chunk] + kept;
        used := used + chunk.tokens;
        TotalPush(before, chunk);
        ReversePush(before, chunk);
      }
    }
    assert recent[..|chunks|] == recent;
    trimmed := Total(chunks) - Total(kept);
  }
}
