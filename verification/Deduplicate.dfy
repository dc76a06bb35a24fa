/** Collapsing retrieved chunks whose text differs in white space only (velune/context/assembler.py). */
module Deduplicate {
  import opened Optional
  import opened ContextTrim
  import opened Text

  function Key(c: Chunk): string {
    Normalised(c.content)
  }

  /** More trusted, or as trusted and of higher priority. */
  predicate Beats(a: Chunk, b: Chunk) {
    a.trust > b.trust || (a.trust == b.trust && a.priority > b.priority)
  }

  /** The copy that stands for `key` after reading all of `chunks`. */
  function Best(chunks: seq<Chunk>, key: string): Option<Chunk> {
    if chunks == [] then None
    else
      var before, last := Best(chunks[..|chunks| - 1], key), chunks[|chunks| - 1];
      if Key(last) != key then before
      else if before.None? || Beats(last, before.value) then Some(last)
      else before
  }

  /** The keys in the order they are first seen. */
  function FirstSeen(chunks: seq<Chunk>): (keys: seq<string>)
    ensures |keys| <= |chunks|
    ensures forall key :: key in keys ==> Best(chunks, key).Some?
  {
    if chunks == [] then []
    else
      var before, last := FirstSeen(chunks[..|chunks| - 1]), chunks[|chunks| - 1];
      if Key(last) in before then before else before + [Key(last)]
  }

  function Deduplicated(chunks: seq<Chunk>): (kept: seq<Chunk>)
    ensures |kept| <= |chunks|
  {
    var keys := FirstSeen(chunks);
    seq(|keys|, i requires 0 <= i < |keys| => Best(chunks, keys[i]).value)
  }

  // ---- what deduplication promises ----

  /** `i` is the first of the best copies of its text. */
  ghost predicate FirstBest(chunks: seq<Chunk>, i: nat)
    requires i < |chunks|
  {
    && (forall j :: 0 <= j < |chunks| && Key(chunks[j]) == Key(chunks[i]) ==> !Beats(chunks[j], chunks[i]))
    && (forall j :: 0 <= j < i && Key(chunks[j]) == Key(chunks[i]) ==> Beats(chunks[i], chunks[j]))
  }

  lemma {:induction false} BestIs(chunks: seq<Chunk>, key: string)
    ensures Best(chunks, key).None? ==> forall j :: 0 <= j < |chunks| ==> Key(chunks[j]) != key
    ensures Best(chunks, key).Some? ==>
              exists i :: 0 <= i < |chunks| && chunks[i] == Best(chunks, key).value && Key(chunks[i]) == key
                          && FirstBest(chunks, i)
  {
    hide Key;
    if chunks != [] {
      var n := |chunks| - 1;
      var front := chunks[..n];
      BestIs(front, key);
      if Best(front, key).Some? {
        var i :| 0 <= i < n && front[i] == Best(front, key).value && Key(front[i]) == key && FirstBest(front, i);
        assert forall j :: 0 <= j < n ==> front[j] == chunks[j];
        if Key(chunks[n]) == key && Beats(chunks[n], chunks[i]) {
          assert FirstBest(chunks, n);
        } else {
          assert FirstBest(chunks, i);
        }
      } else if Key(chunks[n]) == key {
        assert forall j :: 0 <= j < n ==> front[j] == chunks[j];
        assert FirstBest(chunks, n);
      }
    }
  }

  function KeysOf(chunks: seq<Chunk>): (r: seq<string>)
    ensures |r| == |chunks|
  {
    seq(|chunks|, i requires 0 <= i < |chunks| => Key(chunks[i]))
  }

  /** Where a key first occurs. */
  function FirstAt(keys: seq<string>, key: string): (i: nat)
    ensures i <= |keys|
    ensures i < |keys| ==> keys[i] == key
    ensures forall j :: 0 <= j < i ==> keys[j] != key
  {
    if keys == [] || keys[0] == key then 0 else 1 + FirstAt(keys[1..], key)
  }

  lemma FirstAtPush(keys: seq<string>, last: string, key: string)
    ensures FirstAt(keys, key) < |keys| ==> FirstAt(keys + [last], key) == FirstAt(keys, key)
    ensures FirstAt(keys, key) == |keys| && last == key ==> FirstAt(keys + [last], key) == |keys|
  {
    hide FirstAt;
    var k := FirstAt(keys + [last], key);
    assert (keys + [last])[|keys|] == last;
    assert forall j :: 0 <= j < |keys| ==> (keys + [last])[j] == keys[j];
    if k < |keys| {
      assert keys[k] == key;
    }
  }

  /** Each of `seen` occurs in `keys`, and the first occurrences follow each other. */
  ghost predicate InOrder(keys: seq<string>, seen: seq<string>) {
    && (forall p :: 0 <= p < |seen| ==> FirstAt(keys, seen[p]) < |keys|)
    && (forall p, q :: 0 <= p < q < |seen| ==> FirstAt(keys, seen[p]) < FirstAt(keys, seen[q]))
  }

  lemma {:induction false} FirstSeenIs(chunks: seq<Chunk>)
    ensures forall j :: 0 <= j < |chunks| ==> Key(chunks[j]) in FirstSeen(chunks)
    ensures InOrder(KeysOf(chunks), FirstSeen(chunks))
  {
    hide Key, FirstAt, Best, InOrder;
    if chunks != [] {
      var n := |chunks| - 1;
      var front, c := chunks[..n], chunks[n];
      FirstSeenIs(front);
      assert KeysOf(chunks) == KeysOf(front) + [Key(c)];
      assert forall j :: 0 <= j < n ==> KeysOf(front)[j] == Key(front[j]);
      InOrderPush(KeysOf(front), Key(c), FirstSeen(front));
    } else {
      NoneInOrder();
    }
  }

  lemma NoneInOrder()
    ensures InOrder([], [])
  {
  }

  lemma InOrderPush(keys: seq<string>, last: string, seen: seq<string>)
    requires InOrder(keys, seen)
    requires forall j :: 0 <= j < |keys| ==> keys[j] in seen
    ensures InOrder(keys + [last], seen)
    ensures last !in seen ==> InOrder(keys + [last], seen + [last])
  {
    hide FirstAt;
    forall p | 0 <= p < |seen|
      ensures FirstAt(keys + [last], seen[p]) == FirstAt(keys, seen[p])
    {
      FirstAtPush(keys, last, seen[p]);
    }
    if last !in seen {
      assert FirstAt(keys, last) == |keys|;
      FirstAtPush(keys, last, last);
    }
  }

  ghost predicate IsFirstBest(chunks: seq<Chunk>, c: Chunk) {
    exists i :: 0 <= i < |chunks| && chunks[i] == c && FirstBest(chunks, i)
  }

  ghost predicate Covered(c: Chunk, kept: seq<Chunk>) {
    exists p :: 0 <= p < |kept| && Key(kept[p]) == Key(c)
  }

  lemma SurvivorIs(chunks: seq<Chunk>, p: nat)
    requires p < |FirstSeen(chunks)|
    ensures Key(Deduplicated(chunks)[p]) == FirstSeen(chunks)[p]
    ensures IsFirstBest(chunks, Deduplicated(chunks)[p])
  {
    hide Key, FirstSeen, Best, FirstBest;
    BestIs(chunks, FirstSeen(chunks)[p]);
  }

  /** The survivors have pairwise different texts, stand in first-seen order, cover every text that came in,
      and each is the first of the best copies of its text. */
  lemma DeduplicatedIs(chunks: seq<Chunk>)
    ensures InOrder(KeysOf(chunks), KeysOf(Deduplicated(chunks)))
    ensures forall p :: 0 <= p < |Deduplicated(chunks)| ==> IsFirstBest(chunks, Deduplicated(chunks)[p])
    ensures forall j :: 0 <= j < |chunks| ==> Covered(chunks[j], Deduplicated(chunks))
  {
    hide Key, FirstSeen, Best, IsFirstBest, InOrder;
    var keys := FirstSeen(chunks);
    FirstSeenIs(chunks);
    forall p | 0 <= p < |keys|
      ensures Key(Deduplicated(chunks)[p]) == keys[p] && IsFirstBest(chunks, Deduplicated(chunks)[p])
    {
      SurvivorIs(chunks, p);
    }
    assert KeysOf(Deduplicated(chunks)) == keys;
    forall j | 0 <= j < |chunks|
      ensures Covered(chunks[j], Deduplicated(chunks))
    {
      assert Key(chunks[j]) in keys;
      var p :| 0 <= p < |keys| && keys[p] == Key(chunks[j]);
      assert Key(Deduplicated(chunks)[p]) == Key(chunks[j]);
    }
  }

  lemma SurvivorsDiffer(chunks: seq<Chunk>)
    ensures forall p, q :: 0 <= p < q < |Deduplicated(chunks)| ==>
              Key(Deduplicated(chunks)[p]) != Key(Deduplicated(chunks)[q])
  {
    hide Key, Deduplicated, FirstAt, IsFirstBest, Covered;
    DeduplicatedIs(chunks);
    var kept := Deduplicated(chunks);
    assert forall p :: 0 <= p < |kept| ==> KeysOf(kept)[p] == Key(kept[p]);
  }

  /** Chunks whose texts already differ are all kept as they are, so deduplicating twice changes nothing. */
  lemma {:induction false} DistinctStay(chunks: seq<Chunk>)
    requires forall p, q :: 0 <= p < q < |chunks| ==> Key(chunks[p]) != Key(chunks[q])
    ensures Deduplicated(chunks) == chunks
  {
    hide Key, Best, FirstSeen, Beats;
    AllFirst(chunks);
    forall p | 0 <= p < |chunks|
      ensures Deduplicated(chunks)[p] == chunks[p]
    {
      OnlyCopy(chunks, p);
    }
  }

  lemma OnlyCopy(chunks: seq<Chunk>, p: nat)
    requires p < |chunks| && forall q :: 0 <= q < |chunks| && q != p ==> Key(chunks[q]) != Key(chunks[p])
    ensures Best(chunks, Key(chunks[p])) == Some(chunks[p])
  {
    hide Key, Best, Beats;
    BestIs(chunks, Key(chunks[p]));
  }

  lemma {:induction false} AllFirst(chunks: seq<Chunk>)
    requires forall p, q :: 0 <= p < q < |chunks| ==> Key(chunks[p]) != Key(chunks[q])
    ensures |FirstSeen(chunks)| == |chunks|
    ensures forall p :: 0 <= p < |chunks| ==> FirstSeen(chunks)[p] == Key(chunks[p])
  {
    hide Key, Best;
    if chunks != [] {
      var front := chunks[..|chunks| - 1];
      assert forall p :: 0 <= p < |front| ==> front[p] == chunks[p];
      AllFirst(front);
    }
  }

  lemma Idempotent(chunks: seq<Chunk>)
    ensures Deduplicated(Deduplicated(chunks)) == Deduplicated(chunks)
  {
    hide Key, Deduplicated;
    SurvivorsDiffer(chunks);
    DistinctStay(Deduplicated(chunks));
  }

  // ---- the loop ----

  method DeduplicateRetrieved(chunks: seq<Chunk>) returns (kept: seq<Chunk>, dropped: nat)
    ensures kept == Deduplicated(chunks) && dropped == |chunks| - |kept|
  {
    hide Key;
    var best: map<string, Chunk> := map[];
    var order: seq<string> := [];
    for i := 0 to |chunks|
      invariant order == FirstSeen(chunks[..i])
      invariant forall key :: key in best <==> key in order
      invariant forall key :: key in best ==> Best(chunks[..i], key) == Some(best[key])
      invariant forall key :: key !in best ==> Best(chunks[..i], key) == None
    {
      var chunk := chunks[i];
      assert chunks[..i + 1][..i] == chunks[..i];
      var key := Key(chunk);
      if key !in best {
        best := best[key := chunk];
        order := order + [key];
      } else if Beats(chunk, best[key]) {
        best := best[key := chunk];
      }
    }
    assert chunks[..|chunks|] == chunks;
    kept := seq(|order|, i requires 0 <= i < |order| => best[order[i]]);
    dropped := |chunks| - |kept|;
  }
}
