/**
 The trace of one request (velune/cognition/execution_trace.py): the ledger of provider calls and
 the graph of orchestration phases, the scopes that attribute calls to seats, reasons and phases,
 and the two renderers.
 */
module ExecutionTrace {
  import opened Optional
  import opened TraceTree

  datatype Reason =
    | Primary | SelfConsistency | Review | Revision | Retry | Fallback | ValidationFailure | Escalation

  datatype Kind =
    | Request | Classification | ContextPhase | Planning | SeatExecution | ReviewPhase | Debate
    | Arbitration | Synthesis | Framing | Perspectives | RevisionPhase

  datatype Status = Running | Ok | Skipped | Failed

  datatype Call = Call(id: nat, seat: string, provider: string, model: string, reason: Reason, node: Option<nat>)

  datatype Node = Node(id: nat, parent: Option<nat>, kind: Kind, title: string, status: Status, callIds: seq<nat>)

  // ---- the ledger ----

  predicate Seen(calls: seq<Call>, seat: string) {
    exists k :: 0 <= k < |calls| && calls[k].seat == seat
  }

  /** The PRIMARY calls whose seat had called before, in ledger order. */
  function Unexplained(calls: seq<Call>): seq<Call> {
    if calls == [] then []
    else
      var front, last := calls[..|calls| - 1], calls[|calls| - 1];
      Unexplained(front) + if last.reason == Primary && Seen(front, last.seat) then [last] else []
  }

  ghost predicate Repeat(calls: seq<Call>, k: nat)
    requires k < |calls|
  {
    calls[k].reason == Primary && Seen(calls[..k], calls[k].seat)
  }

  /** Nothing is unexplained exactly when no PRIMARY call follows another call of its seat. */
  lemma {:induction false} ExplainedIff(calls: seq<Call>)
    ensures Unexplained(calls) == [] <==> forall k :: 0 <= k < |calls| ==> !Repeat(calls, k)
  {
    if calls != [] {
      var n := |calls| - 1;
      var front := calls[..n];
      ExplainedIff(front);
      assert forall k :: 0 <= k < n ==> front[..k] == calls[..k];
      assert forall k :: 0 <= k < n ==> (Repeat(front, k) <==> Repeat(calls, k));
      assert Repeat(calls, n) <==> calls[n].reason == Primary && Seen(front, calls[n].seat);
    }
  }

  /** A call is reported exactly when it is such a repeat. */
  lemma {:induction false} ReportedIff(calls: seq<Call>, call: Call)
    ensures call in Unexplained(calls) <==> exists k :: 0 <= k < |calls| && calls[k] == call && Repeat(calls, k)
  {
    if calls != [] {
      var n := |calls| - 1;
      var front := calls[..n];
      ReportedIff(front, call);
      assert forall k :: 0 <= k < n ==> front[..k] == calls[..k];
      assert forall k :: 0 <= k < n ==> (Repeat(front, k) <==> Repeat(calls, k));
      assert Repeat(calls, n) <==> calls[n].reason == Primary && Seen(front, calls[n].seat);
    }
  }

  lemma {:induction false} UnexplainedAppend(calls: seq<Call>, more: seq<Call>)
    requires Unexplained(calls) == []
    requires forall k :: 0 <= k < |more| ==> more[k].reason == Primary ==> !Seen(calls + more[..k], more[k].seat)
    ensures Unexplained(calls + more) == []
  {
    if more == [] {
      assert calls + more == calls;
    } else {
      var n := |more| - 1;
      assert forall k :: 0 <= k < n ==> more[..n][..k] == more[..k];
      hide Seen;
      UnexplainedAppend(calls, more[..n]);
      var whole := calls + more;
      assert whole[..|whole| - 1] == calls + more[..n] && whole[|whole| - 1] == more[n];
    }
  }

  // ---- the graph ----

  function ParentOf(node: Node): nat {
    node.parent.GetOr(0)
  }

  function Parents(nodes: seq<Node>): (r: seq<nat>)
    ensures |r| == |nodes|
  {
    seq(|nodes|, k requires 0 <= k < |nodes| => ParentOf(nodes[k]))
  }

  /** The calls made under node `n`, in ledger order. */
  function Owned(calls: seq<Call>, n: nat): seq<Call> {
    if calls == [] then []
    else
      var last := calls[|calls| - 1];
      Owned(calls[..|calls| - 1], n) + if last.node == Some(n) then [last] else []
  }

  function Ids(calls: seq<Call>): (r: seq<nat>)
    ensures |r| == |calls|
  {
    seq(|calls|, k requires 0 <= k < |calls| => calls[k].id)
  }

  /** Node and call numbers are positions, every parent was opened before its child, and each node
      lists exactly its own calls. */
  ghost predicate WellFormed(nodes: seq<Node>, calls: seq<Call>) {
    && |nodes| >= 1
    && nodes[0].parent == None
    && (forall k :: 0 <= k < |nodes| ==> nodes[k].id == k)
    && (forall k :: 1 <= k < |nodes| ==> nodes[k].parent.Some? && nodes[k].parent.value < k)
    && (forall k :: 0 <= k < |calls| ==> calls[k].id == k + 1)
    && (forall k :: 0 <= k < |calls| && calls[k].node.Some? ==> calls[k].node.value < |nodes|)
    && (forall k :: 0 <= k < |nodes| ==> nodes[k].callIds == Ids(Owned(calls, k)))
  }

  lemma WellFormedIsTree(nodes: seq<Node>, calls: seq<Call>)
    requires WellFormed(nodes, calls)
    ensures Tree(Parents(nodes))
  {
  }

  // ---- what is rendered ----

  datatype Row = NodeRow(depth: nat, title: string, status: Status) | CallRow(depth: nat, call: Call)

  function CallRows(depth: nat, calls: seq<Call>): (r: seq<Row>)
    ensures |r| == |calls|
  {
    seq(|calls|, k requires 0 <= k < |calls| => CallRow(depth, calls[k]))
  }

  /** The rows of one node, indented by its distance below the root's children. */
  ghost function RowsAt(nodes: seq<Node>, calls: seq<Call>, i: nat): seq<Row>
    requires WellFormed(nodes, calls) && 1 <= i < |nodes|
  {
    WellFormedIsTree(nodes, calls);
    var depth := Depth(Parents(nodes), i) - 1;
    [NodeRow(depth, nodes[i].title, nodes[i].status)] + CallRows(depth, Owned(calls, i))
  }

  ghost predicate InRange(nodes: seq<Node>, visits: seq<nat>) {
    forall k :: 0 <= k < |visits| ==> 1 <= visits[k] < |nodes|
  }

  ghost function RowsOf(nodes: seq<Node>, calls: seq<Call>, visits: seq<nat>): seq<Row>
    requires WellFormed(nodes, calls)
    requires InRange(nodes, visits)
  {
    if visits == [] then [] else RowsAt(nodes, calls, visits[0]) + RowsOf(nodes, calls, visits[1..])
  }

  lemma {:induction false} RowsJoin(nodes: seq<Node>, calls: seq<Call>, a: seq<nat>, b: seq<nat>)
    requires WellFormed(nodes, calls) && InRange(nodes, a) && InRange(nodes, b)
    ensures InRange(nodes, a + b)
    ensures RowsOf(nodes, calls, a + b) == RowsOf(nodes, calls, a) + RowsOf(nodes, calls, b)
  {
    hide WellFormed, RowsAt;
    if a == [] {
      assert a + b == b;
    } else {
      assert (a + b)[1..] == a[1..] + b;
      RowsJoin(nodes, calls, a[1..], b);
    }
  }

  /** The visits of a render: the subtrees of the root's children, left to right. */
  ghost function Visits(nodes: seq<Node>, calls: seq<Call>): seq<nat>
    requires WellFormed(nodes, calls)
  {
    WellFormedIsTree(nodes, calls);
    RootForest(Parents(nodes))
  }

  lemma VisitsInRange(nodes: seq<Node>, calls: seq<Call>)
    requires WellFormed(nodes, calls)
    ensures InRange(nodes, Visits(nodes, calls))
    ensures forall j :: 1 <= j < |nodes| ==> Times(Visits(nodes, calls), j) == 1
    ensures Times(Visits(nodes, calls), 0) == 0
  {
    WellFormedIsTree(nodes, calls);
    VisitedOnce(Parents(nodes));
  }

  ghost function Rendered(nodes: seq<Node>, calls: seq<Call>): seq<Row>
    requires WellFormed(nodes, calls)
  {
    VisitsInRange(nodes, calls);
    RowsOf(nodes, calls, Visits(nodes, calls))
  }

  /** In how many rows a call is shown. */
  ghost function Shown(rows: seq<Row>, id: nat): nat {
    if rows == [] then 0
    else (if rows[0].CallRow? && rows[0].call.id == id then 1 else 0) + Shown(rows[1..], id)
  }

  lemma {:induction false} ShownJoin(a: seq<Row>, b: seq<Row>, id: nat)
    ensures Shown(a + b, id) == Shown(a, id) + Shown(b, id)
  {
    if a == [] {
      assert a + b == b;
    } else {
      assert (a + b)[1..] == a[1..] + b;
      ShownJoin(a[1..], b, id);
    }
  }

  lemma {:induction false} ShownOwned(calls: seq<Call>, upto: nat, n: nat, depth: nat, k: nat)
    requires upto <= |calls| && k < |calls|
    requires forall j :: 0 <= j < |calls| ==> calls[j].id == j + 1
    ensures Shown(CallRows(depth, Owned(calls[..upto], n)), k + 1)
         == if k < upto && calls[k].node == Some(n) then 1 else 0
  {
    hide Owned, CallRows, Shown;
    if upto == 0 {
      NothingShown(depth, n, k + 1);
      assert calls[..upto] == [];
    } else {
      ShownOwned(calls, upto - 1, n, depth, k);
      assert calls[..upto] == calls[..upto - 1] + [calls[upto - 1]];
      ShownPush(calls[..upto - 1], calls[upto - 1], n, depth, k + 1);
    }
  }

  lemma NothingShown(depth: nat, n: nat, id: nat)
    ensures Shown(CallRows(depth, Owned([], n)), id) == 0
  {
  }

  lemma ShownPush(calls: seq<Call>, call: Call, n: nat, depth: nat, id: nat)
    ensures Shown(CallRows(depth, Owned(calls + [call], n)), id)
         == Shown(CallRows(depth, Owned(calls, n)), id) + if call.node == Some(n) && call.id == id then 1 else 0
  {
    var front := Owned(calls, n);
    assert (calls + [call])[..|calls|] == calls;
    if call.node == Some(n) {
      assert CallRows(depth, front + [call]) == CallRows(depth, front) + [CallRow(depth, call)];
      ShownJoin(CallRows(depth, front), [CallRow(depth, call)], id);
      assert [CallRow(depth, call)][1..] == [];
    } else {
      assert front + [] == front;
    }
  }

  lemma ShownAt(nodes: seq<Node>, calls: seq<Call>, i: nat, k: nat)
    requires WellFormed(nodes, calls) && k < |calls| && 1 <= i < |nodes|
    ensures Shown(RowsAt(nodes, calls, i), k + 1) == if calls[k].node == Some(i) then 1 else 0
  {
    WellFormedIsTree(nodes, calls);
    var depth := Depth(Parents(nodes), i) - 1;
    var head := [NodeRow(depth, nodes[i].title, nodes[i].status)];
    ShownJoin(head, CallRows(depth, Owned(calls, i)), k + 1);
    assert head[1..] == [];
    assert calls[..|calls|] == calls;
    ShownOwned(calls, |calls|, i, depth, k);
  }

  lemma {:induction false} ShownRows(nodes: seq<Node>, calls: seq<Call>, visits: seq<nat>, k: nat)
    requires WellFormed(nodes, calls) && k < |calls|
    requires InRange(nodes, visits)
    ensures Shown(RowsOf(nodes, calls, visits), k + 1)
         == if calls[k].node.Some? then Times(visits, calls[k].node.value) else 0
  {
    if visits != [] {
      var i, rest := visits[0], visits[1..];
      ShownRows(nodes, calls, rest, k);
      ShownAt(nodes, calls, i, k);
      ShownJoin(RowsAt(nodes, calls, i), RowsOf(nodes, calls, rest), k + 1);
      hide RowsAt, Shown, WellFormed;
      assert visits == [i] + rest;
      if calls[k].node.Some? {
        TimesAdd([i], rest, calls[k].node.value);
      }
    }
  }

  /** A render shows each call made under an opened node exactly once, and no other call. */
  lemma EachCallShownOnce(nodes: seq<Node>, calls: seq<Call>, k: nat)
    requires WellFormed(nodes, calls) && k < |calls|
    ensures Shown(Rendered(nodes, calls), k + 1)
         == if calls[k].node.Some? && calls[k].node.value != 0 then 1 else 0
  {
    VisitsInRange(nodes, calls);
    ShownRows(nodes, calls, Visits(nodes, calls), k);
  }

  // ---- renderers ----

  ghost predicate IndexesChildren(children: map<Option<nat>, seq<nat>>, parents: seq<nat>, upto: nat)
    requires 1 <= upto <= |parents|
  {
    forall p: nat :: Listed(children, p) == Children(parents, p, upto)
  }

  function Listed(children: map<Option<nat>, seq<nat>>, p: nat): seq<nat> {
    if Some(p) in children then children[Some(p)] else []
  }

  ghost predicate IndexesCalls(byId: map<nat, Call>, calls: seq<Call>) {
    && (forall id :: id in byId <==> 1 <= id <= |calls|)
    && (forall id :: id in byId ==> byId[id] == calls[id - 1])
  }

  method GroupChildren(nodes: seq<Node>, ghost calls: seq<Call>) returns (children: map<Option<nat>, seq<nat>>)
    requires WellFormed(nodes, calls)
    ensures IndexesChildren(children, Parents(nodes), |nodes|)
  {
    hide WellFormed, Parents, IndexesChildren;
    NoChildrenYet(nodes, calls);
    ghost var parents := Parents(nodes);
    children := map[None := [0]];
    for k := 1 to |nodes|
      invariant IndexesChildren(children, parents, k)
    {
      ParentAt(nodes, calls, k);
      var parent := nodes[k].parent;
      var listed := if parent in children then children[parent] else [];
      ghost var before := children;
      children := children[parent := listed + [k]];
      ChildrenGrow(before, children, parents, k);
    }
  }

  lemma NoChildrenYet(nodes: seq<Node>, calls: seq<Call>)
    requires WellFormed(nodes, calls)
    ensures |nodes| >= 1 && IndexesChildren(map[None := [0]], Parents(nodes), 1)
  {
  }

  lemma ParentAt(nodes: seq<Node>, calls: seq<Call>, k: nat)
    requires WellFormed(nodes, calls) && 1 <= k < |nodes|
    ensures nodes[k].parent == Some(Parents(nodes)[k])
  {
  }

  lemma ChildrenGrow(before: map<Option<nat>, seq<nat>>, after: map<Option<nat>, seq<nat>>, parents: seq<nat>, k: nat)
    requires 1 <= k < |parents| && IndexesChildren(before, parents, k)
    requires var parent := Some(parents[k]);
             after == before[parent := (if parent in before then before[parent] else []) + [k]]
    ensures IndexesChildren(after, parents, k + 1)
  {
    hide Children;
    forall p: nat
      ensures Listed(after, p) == Children(parents, p, k + 1)
    {
      NextChild(parents, p, k);
      assert Listed(before, p) == Children(parents, p, k);
    }
  }

  lemma NextChild(parents: seq<nat>, p: nat, k: nat)
    requires 1 <= k < |parents|
    ensures Children(parents, p, k + 1)
         == if parents[k] == p then Children(parents, p, k) + [k] else Children(parents, p, k)
  {
  }

  method IndexCalls(calls: seq<Call>) returns (byId: map<nat, Call>)
    requires forall k :: 0 <= k < |calls| ==> calls[k].id == k + 1
    ensures IndexesCalls(byId, calls)
  {
    byId := map[];
    for k := 0 to |calls|
      invariant IndexesCalls(byId, calls[..k])
    {
      byId := byId[calls[k].id := calls[k]];
    }
    assert calls[..|calls|] == calls;
  }

  lemma {:induction false} OwnedAreCalls(calls: seq<Call>, n: nat, j: nat)
    requires j < |Owned(calls, n)|
    requires forall k :: 0 <= k < |calls| ==> calls[k].id == k + 1
    ensures 1 <= Owned(calls, n)[j].id <= |calls| && calls[Owned(calls, n)[j].id - 1] == Owned(calls, n)[j]
  {
    var front := calls[..|calls| - 1];
    if j < |Owned(front, n)| {
      OwnedAreCalls(front, n, j);
    }
  }

  /** The rows of one node's calls, looked up by number. */
  method ListCalls(node: Node, byId: map<nat, Call>, depth: nat, ghost calls: seq<Call>) returns (rows: seq<Row>)
    requires forall k :: 0 <= k < |calls| ==> calls[k].id == k + 1
    requires IndexesCalls(byId, calls) && node.callIds == Ids(Owned(calls, node.id))
    ensures rows == CallRows(depth, Owned(calls, node.id))
  {
    rows := [];
    for j := 0 to |node.callIds|
      invariant rows == CallRows(depth, Owned(calls, node.id))[..j]
    {
      OwnedAreCalls(calls, node.id, j);
      if node.callIds[j] in byId {
        rows := rows + [CallRow(depth, byId[node.callIds[j]])];
      }
    }
  }

  method OwnRows(nodes: seq<Node>, byId: map<nat, Call>, i: nat, depth: nat, ghost calls: seq<Call>)
    returns (rows: seq<Row>)
    requires WellFormed(nodes, calls) && 1 <= i < |nodes| && IndexesCalls(byId, calls)
    requires Tree(Parents(nodes)) && Depth(Parents(nodes), i) == depth + 1
    ensures rows == RowsAt(nodes, calls, i)
  {
    assert nodes[i].id == i && nodes[i].callIds == Ids(Owned(calls, i));
    assert RowsAt(nodes, calls, i)
        == [NodeRow(depth, nodes[i].title, nodes[i].status)] + CallRows(depth, Owned(calls, i));
    assert forall k :: 0 <= k < |calls| ==> calls[k].id == k + 1;
    hide WellFormed, RowsAt, Owned, CallRows, Ids, Depth, Tree, Parents;
    var listed := ListCalls(nodes[i], byId, depth, calls);
    rows := [NodeRow(depth, nodes[i].title, nodes[i].status)] + listed;
  }

  lemma OrderVisits(nodes: seq<Node>, calls: seq<Call>, i: nat)
    requires WellFormed(nodes, calls) && 1 <= i < |nodes|
    ensures Tree(Parents(nodes)) && InRange(nodes, Order(Parents(nodes), i))
  {
    WellFormedIsTree(nodes, calls);
    OrderInRange(Parents(nodes), i);
    OrderFrom(Parents(nodes), i);
    assert forall k :: 0 <= k < |Order(Parents(nodes), i)| ==> Order(Parents(nodes), i)[k] in Order(Parents(nodes), i);
  }

  lemma ForestVisits(nodes: seq<Node>, calls: seq<Call>, p: nat, list: seq<nat>)
    requires WellFormed(nodes, calls) && p < |nodes| && Siblings(Parents(nodes), p, list)
    ensures Tree(Parents(nodes)) && InRange(nodes, Forest(Parents(nodes), p, list))
  {
    WellFormedIsTree(nodes, calls);
    ForestInRange(Parents(nodes), p, list);
    ForestFrom(Parents(nodes), p, list);
    var visits := Forest(Parents(nodes), p, list);
    assert forall k :: 0 <= k < |visits| ==> visits[k] in visits;
  }

  lemma Regroup(a: seq<Row>, b: seq<Row>, c: seq<Row>)
    ensures a + (b + c) == (a + b) + c
  {
  }

  /** The recursive walk of `render`. */
  method Walk(nodes: seq<Node>, children: map<Option<nat>, seq<nat>>, byId: map<nat, Call>, i: nat, depth: nat,
              ghost calls: seq<Call>)
    returns (rows: seq<Row>)
    requires WellFormed(nodes, calls) && Tree(Parents(nodes)) && 1 <= i < |nodes|
    requires IndexesChildren(children, Parents(nodes), |nodes|) && IndexesCalls(byId, calls)
    requires Depth(Parents(nodes), i) == depth + 1
    ensures InRange(nodes, Order(Parents(nodes), i)) && rows == RowsOf(nodes, calls, Order(Parents(nodes), i))
    decreases |nodes| - i
  {
    hide WellFormed, Tree, RowsAt, Order, Forest, Children, Siblings, InRange, Depth, IndexesChildren, IndexesCalls,
         Parents, RowsOf;
    ghost var parents := Parents(nodes);
    rows := OwnRows(nodes, byId, i, depth, calls);
    var list := if Some(i) in children then children[Some(i)] else [];
    ListedChildren(nodes, children, i, calls);
    ghost var own := rows;
    ghost var left := list;
    for j := 0 to |list|
      invariant left == list[j..]
      invariant Siblings(parents, i, left) && InRange(nodes, Forest(parents, i, left))
      invariant rows + RowsOf(nodes, calls, Forest(parents, i, left))
             == own + RowsOf(nodes, calls, Forest(parents, i, list))
    {
      NextSubtree(nodes, calls, i, left);
      assert left[0] == list[j];
      var below := Walk(nodes, children, byId, list[j], depth + 1, calls);
      Regroup(rows, below, RowsOf(nodes, calls, Forest(parents, i, left[1..])));
      rows := rows + below;
      left := left[1..];
    }
    NoSubtrees(nodes, calls, i);
  }

  lemma ListedChildren(nodes: seq<Node>, children: map<Option<nat>, seq<nat>>, i: nat, calls: seq<Call>)
    requires WellFormed(nodes, calls) && Tree(Parents(nodes)) && 1 <= i < |nodes|
    requires IndexesChildren(children, Parents(nodes), |nodes|)
    ensures var list := if Some(i) in children then children[Some(i)] else [];
            && Siblings(Parents(nodes), i, list)
            && InRange(nodes, Forest(Parents(nodes), i, list)) && InRange(nodes, Order(Parents(nodes), i))
            && RowsOf(nodes, calls, Order(Parents(nodes), i))
               == RowsAt(nodes, calls, i) + RowsOf(nodes, calls, Forest(Parents(nodes), i, list))
  {
    var list := if Some(i) in children then children[Some(i)] else [];
    assert Listed(children, i) == Children(Parents(nodes), i, |nodes|);
    hide WellFormed, Tree, RowsAt, Order, Forest, Children, Siblings, InRange;
    ChildrenAreSiblings(Parents(nodes), i);
    ForestVisits(nodes, calls, i, list);
    RowsHead(nodes, calls, i, list);
  }

  lemma NoSubtrees(nodes: seq<Node>, calls: seq<Call>, p: nat)
    requires WellFormed(nodes, calls) && p < |nodes|
    ensures Tree(Parents(nodes)) && Siblings(Parents(nodes), p, [])
    ensures InRange(nodes, Forest(Parents(nodes), p, []))
    ensures RowsOf(nodes, calls, Forest(Parents(nodes), p, [])) == []
  {
    WellFormedIsTree(nodes, calls);
  }

  lemma NextSubtree(nodes: seq<Node>, calls: seq<Call>, p: nat, list: seq<nat>)
    requires WellFormed(nodes, calls) && p < |nodes| && Siblings(Parents(nodes), p, list) && list != []
    ensures Tree(Parents(nodes)) && p < list[0] < |nodes| && Siblings(Parents(nodes), p, list[1..])
    ensures Depth(Parents(nodes), list[0]) == Depth(Parents(nodes), p) + 1
    ensures InRange(nodes, Order(Parents(nodes), list[0])) && InRange(nodes, Forest(Parents(nodes), p, list[1..]))
    ensures InRange(nodes, Forest(Parents(nodes), p, list))
    ensures RowsOf(nodes, calls, Forest(Parents(nodes), p, list))
         == RowsOf(nodes, calls, Order(Parents(nodes), list[0]))
          + RowsOf(nodes, calls, Forest(Parents(nodes), p, list[1..]))
  {
    WellFormedIsTree(nodes, calls);
    var parents := Parents(nodes);
    assert list[0] in list && forall c :: c in list[1..] ==> c in list;
    OrderVisits(nodes, calls, list[0]);
    ForestVisits(nodes, calls, p, list[1..]);
    ForestVisits(nodes, calls, p, list);
    RowsJoin(nodes, calls, Order(parents, list[0]), Forest(parents, p, list[1..]));
  }

  lemma RowsHead(nodes: seq<Node>, calls: seq<Call>, i: nat, list: seq<nat>)
    requires WellFormed(nodes, calls) && 1 <= i < |nodes| && list == Children(Parents(nodes), i, |nodes|)
    requires Tree(Parents(nodes)) && Siblings(Parents(nodes), i, list)
    requires InRange(nodes, Forest(Parents(nodes), i, list))
    ensures InRange(nodes, Order(Parents(nodes), i))
    ensures RowsOf(nodes, calls, Order(Parents(nodes), i))
         == RowsAt(nodes, calls, i) + RowsOf(nodes, calls, Forest(Parents(nodes), i, list))
  {
    var parents := Parents(nodes);
    OrderVisits(nodes, calls, i);
    assert Order(parents, i) == [i] + Forest(parents, i, list);
    assert Order(parents, i)[1..] == Forest(parents, i, list);
  }

  datatype Footer = AllAccounted | Warning(ids: seq<nat>)

  datatype Report = Report(rows: seq<Row>, footer: Footer)

  function FooterOf(unexplained: seq<nat>): Footer {
    if unexplained == [] then AllAccounted else Warning(unexplained)
  }

  /** The loop over the root's children that both renderers end with. */
  method WalkRoots(nodes: seq<Node>, children: map<Option<nat>, seq<nat>>, byId: map<nat, Call>, root: nat,
                   ghost calls: seq<Call>)
    returns (rows: seq<Row>)
    requires WellFormed(nodes, calls) && root == 0
    requires IndexesChildren(children, Parents(nodes), |nodes|) && IndexesCalls(byId, calls)
    ensures rows == Rendered(nodes, calls)
  {
    hide WellFormed, Tree, RowsAt, Order, Forest, Children, Siblings, InRange, IndexesChildren, IndexesCalls,
         Parents, RowsOf, Rendered, Depth;
    ghost var parents := Parents(nodes);
    var list := if Some(root) in children then children[Some(root)] else [];
    RootList(nodes, children, calls);
    ghost var left := list;
    rows := [];
    for j := 0 to |list|
      invariant left == list[j..]
      invariant Siblings(parents, 0, left) && InRange(nodes, Forest(parents, 0, left))
      invariant rows + RowsOf(nodes, calls, Forest(parents, 0, left)) == Rendered(nodes, calls)
    {
      NextSubtree(nodes, calls, 0, left);
      RootDepth(nodes, calls);
      assert left[0] == list[j];
      var below := Walk(nodes, children, byId, list[j], 0, calls);
      Regroup(rows, below, RowsOf(nodes, calls, Forest(parents, 0, left[1..])));
      rows := rows + below;
      left := left[1..];
    }
    NoSubtrees(nodes, calls, 0);
  }

  lemma RootDepth(nodes: seq<Node>, calls: seq<Call>)
    requires WellFormed(nodes, calls)
    ensures Tree(Parents(nodes)) && Depth(Parents(nodes), 0) == 0
  {
    WellFormedIsTree(nodes, calls);
  }

  lemma RootList(nodes: seq<Node>, children: map<Option<nat>, seq<nat>>, calls: seq<Call>)
    requires WellFormed(nodes, calls) && IndexesChildren(children, Parents(nodes), |nodes|)
    ensures var list := if Some(0) in children then children[Some(0)] else [];
            && Tree(Parents(nodes)) && Siblings(Parents(nodes), 0, list)
            && InRange(nodes, Forest(Parents(nodes), 0, list))
            && RowsOf(nodes, calls, Forest(Parents(nodes), 0, list)) == Rendered(nodes, calls)
  {
    var zero: nat := 0;
    var list := if Some(zero) in children then children[Some(zero)] else [];
    assert Listed(children, zero) == Children(Parents(nodes), 0, |nodes|);
    WellFormedIsTree(nodes, calls);
    ChildrenAreSiblings(Parents(nodes), 0);
    VisitsInRange(nodes, calls);
  }

  /** `to_dict`: plain copies of the records, with the numbers of the unexplained calls. */
  datatype Payload = Payload(nodes: seq<Node>, calls: seq<Call>, unexplained: seq<nat>)

  /** `render_trace_dict` on a payload made by `to_dict`. */
  method RenderTraceDict(data: Payload) returns (report: Report)
    requires WellFormed(data.nodes, data.calls)
    ensures report.rows == Rendered(data.nodes, data.calls) && report.footer == FooterOf(data.unexplained)
  {
    var byId := IndexCalls(data.calls);
    var children := GroupChildren(data.nodes, data.calls);
    var rows := WalkRoots(data.nodes, children, byId, data.nodes[0].id, data.calls);
    report := Report(rows, if data.unexplained != [] then Warning(data.unexplained) else AllAccounted);
  }

  /** The context variables a task carries: the phase, seat and reason calls are attributed to. */
  class Context {
    var node: Option<nat>
    var seat: Option<string>
    var reason: Reason

    constructor ()
      ensures node == None && seat == None && reason == Primary
    {
      node, seat, reason := None, None, Primary;
    }
  }

  class RequestTrace {
    var calls: seq<Call>
    var nodes: seq<Node>

    ghost predicate Valid()
      reads this
    {
      WellFormed(nodes, calls)
    }

    constructor ()
      ensures Valid() && calls == [] && |nodes| == 1
    {
      calls := [];
      nodes := [Node(0, None, Request, "user request", Running, [])];
    }

    /** A new node is a child of the given parent, else of the active phase, else of the root. */
    method OpenNode(kind: Kind, title: string, parent: Option<nat>, context: Context) returns (id: nat)
      requires Valid()
      requires parent.Some? ==> parent.value < |nodes|
      requires context.node.Some? ==> context.node.value < |nodes|
      modifies this`nodes
      ensures Valid() && id == |old(nodes)|
      ensures nodes == old(nodes) + [Node(id, Some(parent.GetOr(context.node.GetOr(0))), kind, title, Running, [])]
    {
      id := |nodes|;
      var above :=
        if parent.Some? then parent.value else if context.node.Some? then context.node.value else nodes[0].id;
      nodes := nodes + [Node(id, Some(above), kind, title, Running, [])];
      NothingOwned(calls, id);
    }

    method FinishNode(id: nat, status: Status)
      requires Valid() && id < |nodes|
      modifies this`nodes
      ensures Valid() && nodes == old(nodes)[id := old(nodes)[id].(status := status)]
    {
      nodes := nodes[id := nodes[id].(status := status)];
    }

    /** A new call is recorded with the reason and phase in force and listed under that phase. */
    method OpenCall(seat: string, provider: string, model: string, reason: Reason, context: Context)
      returns (call: Call)
      requires Valid()
      requires context.node.Some? ==> context.node.value < |nodes|
      modifies this`calls, this`nodes
      ensures Valid() && call == Call(|old(calls)| + 1, seat, provider, model, reason, context.node)
      ensures calls == old(calls) + [call] && |nodes| == |old(nodes)|
      ensures forall k :: 0 <= k < |nodes| ==> nodes[k] == old(nodes)[k].(callIds := nodes[k].callIds)
      ensures context.node == None ==> nodes == old(nodes)
    {
      hide WellFormed;
      call := Call(|calls| + 1, seat, provider, model, reason, context.node);
      CallKeepsSound(nodes, calls, call);
      calls := calls + [call];
      if call.node.Some? {
        var k := 0;
        while k < |nodes| && nodes[k].id != call.node.value
          invariant 0 <= k <= call.node.value
          invariant nodes == old(nodes) && nodes[call.node.value].id == call.node.value
        {
          k := k + 1;
        }
        NumberIsPlace(nodes, old(calls), k);
        nodes := nodes[k := nodes[k].(callIds := nodes[k].callIds + [call.id])];
      }
    }

    /** The PRIMARY calls whose seat had called before; none exactly when every repeat has a reason. */
    method UnexplainedCalls() returns (offenders: seq<Call>)
      ensures offenders == Unexplained(calls)
    {
      var seen: set<string> := {};
      offenders := [];
      for k := 0 to |calls|
        invariant offenders == Unexplained(calls[..k])
        invariant forall s :: s in seen <==> Seen(calls[..k], s)
      {
        var call := calls[k];
        assert calls[..k + 1][..k] == calls[..k] && calls[..k + 1][k] == call;
        SeenGrows(calls[..k], call);
        if call.seat in seen && call.reason == Primary {
          offenders := offenders + [call];
        }
        seen := seen + {call.seat};
        assert calls[..k + 1] == calls[..k] + [call];
      }
      assert calls[..|calls|] == calls;
    }

    method ToDict() returns (data: Payload)
      ensures data == Payload(nodes, calls, Ids(Unexplained(calls)))
    {
      var offenders := UnexplainedCalls();
      data := Payload(nodes, calls, Ids(offenders));
    }

    /** The live rendering shows what a rendering of the dictionary shows, row by row. */
    method Render() returns (report: Report)
      requires Valid()
      ensures report.rows == Rendered(nodes, calls)
      ensures report.footer == FooterOf(Ids(Unexplained(calls)))
    {
      var children := GroupChildren(nodes, calls);
      var byId := IndexCalls(calls);
      var rows := WalkRoots(nodes, children, byId, nodes[0].id, calls);
      var offenders := UnexplainedCalls();
      report := Report(rows, if offenders != [] then Warning(Ids(offenders)) else AllAccounted);
    }
  }

  lemma {:induction false} NothingOwned(calls: seq<Call>, n: nat)
    requires forall k :: 0 <= k < |calls| ==> calls[k].node != Some(n)
    ensures Owned(calls, n) == []
  {
    if calls != [] {
      NothingOwned(calls[..|calls| - 1], n);
    }
  }

  lemma NumberIsPlace(nodes: seq<Node>, calls: seq<Call>, k: nat)
    requires WellFormed(nodes, calls) && k < |nodes|
    ensures nodes[k].id == k
  {
  }

  /** The nodes once `call` is listed under its phase. */
  function Listing(nodes: seq<Node>, call: Call): seq<Node>
    requires call.node.Some? ==> call.node.value < |nodes|
  {
    if call.node.None? then nodes
    else
      var n := call.node.value;
      nodes[n := nodes[n].(callIds := nodes[n].callIds + [call.id])]
  }

  lemma CallKeepsSound(nodes: seq<Node>, calls: seq<Call>, call: Call)
    requires WellFormed(nodes, calls) && call.id == |calls| + 1
    requires call.node.Some? ==> call.node.value < |nodes|
    ensures WellFormed(Listing(nodes, call), calls + [call])
    ensures call.node.Some? ==> nodes[call.node.value].id == call.node.value
  {
    hide Owned, Ids;
    var after := Listing(nodes, call);
    forall k | 0 <= k < |nodes|
      ensures after[k].callIds == Ids(Owned(calls + [call], k))
    {
      OwnedIds(calls, call, k);
    }
  }

  lemma OwnedIds(calls: seq<Call>, call: Call, n: nat)
    ensures Ids(Owned(calls + [call], n))
         == if call.node == Some(n) then Ids(Owned(calls, n)) + [call.id] else Ids(Owned(calls, n))
  {
    assert (calls + [call])[..|calls|] == calls;
  }

  lemma SeenGrows(calls: seq<Call>, call: Call)
    ensures forall s :: Seen(calls + [call], s) <==> Seen(calls, s) || s == call.seat
  {
    forall s
      ensures Seen(calls + [call], s) <==> Seen(calls, s) || s == call.seat
    {
      var more := calls + [call];
      assert more[|calls|] == call;
      if Seen(calls, s) {
        var k :| 0 <= k < |calls| && calls[k].seat == s;
        assert more[k].seat == s;
      }
      if Seen(more, s) {
        var k :| 0 <= k < |more| && more[k].seat == s;
        assert k < |calls| ==> calls[k].seat == s;
      }
    }
  }
}
