/**
 Nested `trace_node` and `trace_seat` scopes: whatever the code inside does, calls or raises, each
 scope hands back the context it found, closes its node with the outcome, and attributes every call
 to the innermost phase and reason around it.
 */
module TraceScopes {
  import opened Optional
  import opened ExecutionTrace

  /** What traced code can do. */
  datatype Prog =
    | MakeCall(seat: string, provider: string, model: string)
    | Raise
    | InNode(kind: Kind, title: string, nodeBody: seq<Prog>)
    | InSeat(seat: string, reason: Reason, seatBody: seq<Prog>)

  /** A recorded phase, without the calls listed under it. */
  datatype Phase = Phase(parent: Option<nat>, kind: Kind, title: string, status: Status)

  /** A recorded call, without its number. */
  datatype Entry = Entry(seat: string, provider: string, model: string, reason: Reason, node: Option<nat>)

  datatype Record = Record(phases: seq<Phase>, entries: seq<Entry>, raised: bool)

  /** What running `p` under the phase `active` and the reason `reason` records, with `n` phases
      recorded before: children after their parents, calls with what surrounds them. */
  function RecordOf(p: Prog, active: Option<nat>, reason: Reason, n: nat): Record
    decreases p, 0
  {
    match p
    case MakeCall(seat, provider, model) => Record([], [Entry(seat, provider, model, reason, active)], false)
    case Raise => Record([], [], true)
    case InNode(kind, title, body) =>
      var inner := RecordAll(body, Some(n), reason, n + 1);
      var status := if inner.raised then Failed else Ok;
      Record([Phase(Some(active.GetOr(0)), kind, title, status)] + inner.phases, inner.entries, inner.raised)
    case InSeat(seat, why, body) => RecordAll(body, active, why, n)
  }

  function RecordAll(ps: seq<Prog>, active: Option<nat>, reason: Reason, n: nat): Record
    decreases ps, 1
  {
    if ps == [] then Record([], [], false)
    else
      var first := RecordOf(ps[0], active, reason, n);
      if first.raised then first
      else
        var rest := RecordAll(ps[1..], active, reason, n + |first.phases|);
        Record(first.phases + rest.phases, first.entries + rest.entries, rest.raised)
  }

  function PhasesOf(nodes: seq<Node>): (r: seq<Phase>)
    ensures |r| == |nodes|
  {
    seq(|nodes|, k requires 0 <= k < |nodes| =>
      Phase(nodes[k].parent, nodes[k].kind, nodes[k].title, nodes[k].status))
  }

  function EntriesOf(calls: seq<Call>): (r: seq<Entry>)
    ensures |r| == |calls|
  {
    seq(|calls|, k requires 0 <= k < |calls| =>
      Entry(calls[k].seat, calls[k].provider, calls[k].model, calls[k].reason, calls[k].node))
  }

  ghost predicate Ready(trace: RequestTrace, context: Context)
    reads trace, context
  {
    trace.Valid() && (context.node.Some? ==> context.node.value < |trace.nodes|)
  }

  method Run(p: Prog, trace: RequestTrace, context: Context) returns (raised: bool)
    requires Ready(trace, context)
    modifies trace, context
    ensures Ready(trace, context)
    ensures context.node == old(context.node)
    ensures context.seat == old(context.seat) && context.reason == old(context.reason)
    ensures var record := RecordOf(p, old(context.node), old(context.reason), |old(trace.nodes)|);
            && raised == record.raised
            && PhasesOf(trace.nodes) == PhasesOf(old(trace.nodes)) + record.phases
            && EntriesOf(trace.calls) == EntriesOf(old(trace.calls)) + record.entries
    decreases p, 0
  {
    match p
    case MakeCall(seat, provider, model) =>
      var call := trace.OpenCall(seat, provider, model, context.reason, context);
      raised := false;
    case Raise =>
      raised := true;
    case InNode(kind, title, body) =>
      raised := RunNode(kind, title, body, trace, context);
    case InSeat(seat, reason, body) =>
      var outerSeat, outerReason := context.seat, context.reason;
      context.seat, context.reason := Some(seat), reason;
      raised := RunAll(body, trace, context);
      context.seat, context.reason := outerSeat, outerReason;
  }

  method RunNode(kind: Kind, title: string, body: seq<Prog>, trace: RequestTrace, context: Context)
    returns (raised: bool)
    requires Ready(trace, context)
    modifies trace, context
    ensures Ready(trace, context)
    ensures context.node == old(context.node)
    ensures context.seat == old(context.seat) && context.reason == old(context.reason)
    ensures var inner := RecordAll(body, Some(|old(trace.nodes)|), old(context.reason), |old(trace.nodes)| + 1);
            && raised == inner.raised
            && PhasesOf(trace.nodes)
               == PhasesOf(old(trace.nodes))
                  + ([Phase(Some(old(context.node).GetOr(0)), kind, title, if raised then Failed else Ok)]
                     + inner.phases)
            && EntriesOf(trace.calls) == EntriesOf(old(trace.calls)) + inner.entries
    decreases body, 2
  {
    hide WellFormed, RecordAll;
    var outer := context.node;
    var id := trace.OpenNode(kind, title, None, context);
    ghost var mine := Phase(Some(outer.GetOr(0)), kind, title, Running);
    assert PhasesOf(trace.nodes) == PhasesOf(old(trace.nodes)) + [mine];
    context.node := Some(id);
    raised := RunAll(body, trace, context);
    context.node := outer;
    ghost var before := trace.nodes;
    ghost var inner := RecordAll(body, Some(id), old(context.reason), id + 1).phases;
    assert PhasesOf(before) == PhasesOf(old(trace.nodes)) + [mine] + inner;
    Closed(PhasesOf(old(trace.nodes)), mine, inner, if raised then Failed else Ok);
    assert PhasesOf(before)[id] == mine;
    if trace.nodes[id].status == Running {
      trace.FinishNode(id, if raised then Failed else Ok);
    }
    assert PhasesOf(trace.nodes) == PhasesOf(before)[id := mine.(status := if raised then Failed else Ok)];
  }

  /** The node a scope opened is found as it was left, and closing it changes no other phase. */
  lemma Closed(before: seq<Phase>, mine: Phase, inner: seq<Phase>, status: Status)
    ensures (before + [mine] + inner)[|before|] == mine
    ensures (before + [mine] + inner)[|before| := mine.(status := status)]
         == before + ([mine.(status := status)] + inner)
  {
  }

  lemma Regroup<T>(a: seq<T>, b: seq<T>, c: seq<T>)
    ensures (a + b) + c == a + (b + c)
  {
  }

  method RunAll(ps: seq<Prog>, trace: RequestTrace, context: Context) returns (raised: bool)
    requires Ready(trace, context)
    modifies trace, context
    ensures Ready(trace, context)
    ensures context.node == old(context.node)
    ensures context.seat == old(context.seat) && context.reason == old(context.reason)
    ensures var record := RecordAll(ps, old(context.node), old(context.reason), |old(trace.nodes)|);
            && raised == record.raised
            && PhasesOf(trace.nodes) == PhasesOf(old(trace.nodes)) + record.phases
            && EntriesOf(trace.calls) == EntriesOf(old(trace.calls)) + record.entries
    decreases ps, 1
  {
    hide WellFormed, RecordOf;
    raised := false;
    if ps == [] {
      return;
    }
    ghost var first := RecordOf(ps[0], context.node, context.reason, |trace.nodes|);
    raised := Run(ps[0], trace, context);
    assert |PhasesOf(trace.nodes)| == |PhasesOf(old(trace.nodes))| + |first.phases|;
    if !raised {
      ghost var rest := RecordAll(ps[1..], context.node, context.reason, |trace.nodes|);
      raised := RunAll(ps[1..], trace, context);
      Regroup(PhasesOf(old(trace.nodes)), first.phases, rest.phases);
      Regroup(EntriesOf(old(trace.calls)), first.entries, rest.entries);
    }
  }
}
