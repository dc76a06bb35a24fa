/**
 The walk over an execution graph given by parent numbers: every node but the root was opened
 after its parent.  The order in which the renderers visit the nodes, and why each is visited
 exactly once.
 */
module TraceTree {
  import opened Optional

  ghost predicate Tree(parents: seq<nat>) {
    |parents| >= 1 && forall k :: 1 <= k < |parents| ==> parents[k] < k
  }

  /** The children of `p` among the first `upto` nodes, in opening order. */
  function Children(parents: seq<nat>, p: nat, upto: nat): (r: seq<nat>)
    requires 1 <= upto <= |parents|
    ensures forall c :: c in r <==> 1 <= c < upto && parents[c] == p
    ensures forall i :: 0 <= i < |r| ==> 1 <= r[i] < upto && parents[r[i]] == p
    ensures forall i, j :: 0 <= i < j < |r| ==> r[i] < r[j]
    ensures |r| <= upto
  {
    if upto == 1 then []
    else
      var before := Children(parents, p, upto - 1);
      if parents[upto - 1] == p then before + [upto - 1] else before
  }

  /** Children listed for a parent come later than the parent. */
  ghost predicate Siblings(parents: seq<nat>, p: nat, list: seq<nat>) {
    && |list| <= |parents|
    && (forall c :: c in list ==> 1 <= c < |parents| && parents[c] == p < c)
    && (forall i, j :: 0 <= i < j < |list| ==> list[i] < list[j])
  }

  lemma ChildrenAreSiblings(parents: seq<nat>, p: nat)
    requires Tree(parents) && p < |parents|
    ensures Siblings(parents, p, Children(parents, p, |parents|))
  {
  }

  /** A node, then its children's subtrees from left to right. */
  ghost function Order(parents: seq<nat>, i: nat): seq<nat>
    requires Tree(parents) && i < |parents|
    decreases |parents| - i, |parents| + 1
  {
    assert Siblings(parents, i, Children(parents, i, |parents|));
    [i] + Forest(parents, i, Children(parents, i, |parents|))
  }

  ghost function Forest(parents: seq<nat>, p: nat, list: seq<nat>): seq<nat>
    requires Tree(parents) && p < |parents| && Siblings(parents, p, list)
    decreases |parents| - p, |list|
  {
    if list == [] then []
    else
      assert list[0] in list && forall c :: c in list[1..] ==> c in list;
      Order(parents, list[0]) + Forest(parents, p, list[1..])
  }

  /** How often `j` is visited. */
  ghost function Times(visits: seq<nat>, j: nat): nat {
    multiset(visits)[j]
  }

  lemma TimesAdd(a: seq<nat>, b: seq<nat>, j: nat)
    ensures Times(a + b, j) == Times(a, j) + Times(b, j)
  {
  }

  /** The child of `p` through which the path from the root reaches `j`, if it passes `p` at all. */
  ghost function Toward(parents: seq<nat>, p: nat, j: nat): Option<nat>
    requires Tree(parents) && j < |parents|
    decreases j
  {
    if j <= p then None
    else if parents[j] == p then Some(j)
    else Toward(parents, p, parents[j])
  }

  lemma {:induction false} RootReachesAll(parents: seq<nat>, j: nat)
    requires Tree(parents) && 1 <= j < |parents|
    ensures Toward(parents, 0, j).Some?
  {
    if parents[j] != 0 {
      RootReachesAll(parents, parents[j]);
    }
  }

  lemma {:induction false} ThroughChild(parents: seq<nat>, p: nat, c: nat, j: nat)
    requires Tree(parents) && j < |parents| && 1 <= c < |parents| && parents[c] == p
    ensures Toward(parents, p, j) == Some(c) <==> j == c || Toward(parents, c, j).Some?
    decreases j
  {
    if j > p && parents[j] != p {
      ThroughChild(parents, p, c, parents[j]);
    }
  }

  lemma {:induction false} CountOrder(parents: seq<nat>, i: nat, j: nat)
    requires Tree(parents) && i < |parents| && j < |parents|
    ensures Times(Order(parents, i), j) == if j == i || Toward(parents, i, j).Some? then 1 else 0
    decreases |parents| - i, |parents| + 1
  {
    var list := Children(parents, i, |parents|);
    assert Siblings(parents, i, list);
    CountForest(parents, i, list, j);
    if Toward(parents, i, j).Some? {
      TowardIsChild(parents, i, j);
    }
  }

  lemma {:induction false} TowardIsChild(parents: seq<nat>, p: nat, j: nat)
    requires Tree(parents) && j < |parents| && Toward(parents, p, j).Some?
    ensures var c := Toward(parents, p, j).value; 1 <= c <= j && parents[c] == p
    decreases j
  {
    if parents[j] != p {
      TowardIsChild(parents, p, parents[j]);
    }
  }

  lemma {:induction false} CountForest(parents: seq<nat>, p: nat, list: seq<nat>, j: nat)
    requires Tree(parents) && p < |parents| && j < |parents| && Siblings(parents, p, list)
    ensures Times(Forest(parents, p, list), j)
         == if Toward(parents, p, j).Some? && Toward(parents, p, j).value in list then 1 else 0
    decreases |parents| - p, |list|
  {
    if list != [] {
      var head, rest := list[0], list[1..];
      assert head in list && forall c :: c in rest ==> c in list;
      var first, others := Order(parents, head), Forest(parents, p, rest);
      assert Forest(parents, p, list) == first + others;
      CountOrder(parents, head, j);
      CountForest(parents, p, rest, j);
      ThroughChild(parents, p, head, j);
      hide Order, Forest, Toward, Children, Tree;
      TimesAdd(first, others, j);
      assert forall c :: c in list <==> c == head || c in rest;
      assert forall k :: 0 <= k < |rest| ==> rest[k] == list[k + 1] > head;
    }
  }

  /** The walk a renderer takes: the subtrees of the root's children from left to right. */
  ghost function RootForest(parents: seq<nat>): seq<nat>
    requires Tree(parents)
  {
    assert Siblings(parents, 0, Children(parents, 0, |parents|));
    Forest(parents, 0, Children(parents, 0, |parents|))
  }

  lemma CountRootForest(parents: seq<nat>, j: nat)
    requires Tree(parents) && j < |parents|
    ensures Times(RootForest(parents), j) == if j == 0 then 0 else 1
  {
    var list := Children(parents, 0, |parents|);
    assert Siblings(parents, 0, list);
    CountForest(parents, 0, list, j);
    if j > 0 {
      RootReachesAll(parents, j);
      TowardIsChild(parents, 0, j);
    }
  }

  lemma {:induction false} OrderInRange(parents: seq<nat>, i: nat)
    requires Tree(parents) && i < |parents|
    ensures forall j :: j in Order(parents, i) ==> j < |parents|
    decreases |parents| - i, |parents| + 1
  {
    assert Siblings(parents, i, Children(parents, i, |parents|));
    ForestInRange(parents, i, Children(parents, i, |parents|));
  }

  lemma {:induction false} ForestInRange(parents: seq<nat>, p: nat, list: seq<nat>)
    requires Tree(parents) && p < |parents| && Siblings(parents, p, list)
    ensures forall j :: j in Forest(parents, p, list) ==> j < |parents|
    decreases |parents| - p, |list|
  {
    if list != [] {
      assert list[0] in list && forall c :: c in list[1..] ==> c in list;
      OrderInRange(parents, list[0]);
      ForestInRange(parents, p, list[1..]);
    }
  }

  /** A subtree holds no node opened before its root; in particular never the root of the graph. */
  lemma {:induction false} OrderFrom(parents: seq<nat>, i: nat)
    requires Tree(parents) && i < |parents|
    ensures forall j :: j in Order(parents, i) ==> i <= j
    decreases |parents| - i, |parents| + 1
  {
    assert Siblings(parents, i, Children(parents, i, |parents|));
    ForestFrom(parents, i, Children(parents, i, |parents|));
  }

  lemma {:induction false} ForestFrom(parents: seq<nat>, p: nat, list: seq<nat>)
    requires Tree(parents) && p < |parents| && Siblings(parents, p, list)
    ensures forall j :: j in Forest(parents, p, list) ==> p < j
    decreases |parents| - p, |list|
  {
    if list != [] {
      assert list[0] in list && forall c :: c in list[1..] ==> c in list;
      OrderFrom(parents, list[0]);
      ForestFrom(parents, p, list[1..]);
    }
  }

  lemma RootForestInRange(parents: seq<nat>)
    requires Tree(parents)
    ensures forall j :: j in RootForest(parents) ==> 1 <= j < |parents|
  {
    assert Siblings(parents, 0, Children(parents, 0, |parents|));
    ForestInRange(parents, 0, Children(parents, 0, |parents|));
    CountRootForest(parents, 0);
    AbsentIffZero(RootForest(parents), 0);
  }

  /** It visits every node but the root exactly once, and nothing else. */
  lemma VisitedOnce(parents: seq<nat>)
    requires Tree(parents)
    ensures forall j :: 1 <= j < |parents| ==> Times(RootForest(parents), j) == 1
    ensures Times(RootForest(parents), 0) == 0
    ensures forall k :: 0 <= k < |RootForest(parents)| ==> 1 <= RootForest(parents)[k] < |parents|
  {
    hide RootForest, Times;
    RootForestInRange(parents);
    assert forall k :: 0 <= k < |RootForest(parents)| ==> RootForest(parents)[k] in RootForest(parents);
    CountRootForest(parents, 0);
    forall j | 1 <= j < |parents| ensures Times(RootForest(parents), j) == 1 {
      CountRootForest(parents, j);
    }
  }

  lemma AbsentIffZero(visits: seq<nat>, j: nat)
    ensures j in visits <==> Times(visits, j) > 0
  {
  }

  /** How deep below the root a node was opened. */
  ghost function Depth(parents: seq<nat>, i: nat): nat
    requires Tree(parents) && i < |parents|
    decreases i
  {
    if i == 0 then 0 else 1 + Depth(parents, parents[i])
  }
}
