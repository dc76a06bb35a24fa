/**
 Starts and stops of the event bus (velune/events.py) that may overlap: exactly when two events can come into
 delivery at once, what a stop leaves behind when they cannot, and runs that show what is not promised.
 */
module BusStops {
  import opened Optional
  import opened BusProtocol

  // ---- starts and stops that do not overlap ----

  /** How many events a stop may still have to deliver. */
  function Load(b: Bus, s: nat): nat
    requires s in b.stoppers
  {
    |b.queue| + if Flushes(b, s) then 1 else 0
  }

  predicate Flushes(b: Bus, s: nat) {
    s in b.stoppers && b.stoppers[s].Flushing? && b.stoppers[s].inFlight.Some?
  }

  /** A step that may bring two events into delivery at once: a start while a stop is under way, or a stop
      while another still has two events to deliver. */
  ghost predicate Overlaps(b: Bus, step: Step) {
    exists s :: s in b.stoppers && ((step.Start? && !b.running) || (step.StopBegin? && Load(b, s) >= 2))
  }

  ghost predicate Orderly(states: seq<Bus>, steps: seq<Step>) {
    && Run(states, steps)
    && forall k :: 0 <= k < |steps| ==> !Overlaps(states[k], steps[k])
  }

  /** One event in delivery at most: a running bus has its task; a stopping one has the cancelled task and
      then the flush, and a second stop finds one event to deliver at most. */
  ghost predicate OneWorker(b: Bus) {
    && (forall t :: t in b.tasks ==> b.current == Some(t))
    && (forall t :: t in b.tasks ==> (b.tasks[t].cancelled <==> !b.running))
    && (forall s, u :: s in b.stoppers && u in b.stoppers && s != u ==> Load(b, s) < 2)
    && (forall s, u :: Flushes(b, s) && Flushes(b, u) ==> s == u)
    && (b.running ==> b.stoppers == map[])
    && (forall s :: s in b.stoppers && b.stoppers[s].Awaiting? ==> b.current == Some(b.stoppers[s].task))
    && (forall s :: s in b.stoppers && b.stoppers[s].Flushing? ==> b.tasks == map[])
    && (!b.running && b.stoppers == map[] ==> b.tasks == map[])
  }

  lemma StartOneWorker(b: Bus)
    requires OneWorker(b) && !Overlaps(b, Start)
    ensures OneWorker(Next(b, Start))
  {
    assert b.stoppers == map[] || exists s :: s in b.stoppers;
  }

  lemma StopBeginOneWorker(b: Bus)
    requires OneWorker(b) && Numbered(b) && !Overlaps(b, StopBegin)
    ensures OneWorker(Next(b, StopBegin))
  {
    if b.current.None? {
      assert forall t :: t !in b.tasks;
      assert b.tasks == map[];
    }
    assert b.stopsMade in Next(b, StopBegin).stoppers;
  }

  lemma ResumeOneWorker(b: Bus, s: nat)
    requires OneWorker(b) && Enabled(b, StopResume(s))
    ensures OneWorker(Next(b, StopResume(s)))
  {
    hide Emitted, Registered, Move;
    assert forall t :: t !in b.tasks;
    assert b.tasks == map[];
    var c := Next(b, StopResume(s));
    assert forall u :: u in c.stoppers ==> u in b.stoppers && (Flushes(c, u) <==> Flushes(b, u));
    assert forall u :: u in c.stoppers ==> Load(c, u) == Load(b, u);
  }

  lemma EndOneWorker(b: Bus, s: nat)
    requires OneWorker(b) && Enabled(b, StopEnd(s))
    ensures OneWorker(Next(b, StopEnd(s)))
  {
    hide Emitted, Registered, Move;
    var c := Next(b, StopEnd(s));
    assert forall u :: u in c.stoppers ==> u in b.stoppers && (Flushes(c, u) <==> Flushes(b, u));
    assert forall u :: u in c.stoppers ==> Load(c, u) == Load(b, u);
  }

  lemma FlushTakeOneWorker(b: Bus, s: nat)
    requires OneWorker(b) && Enabled(b, FlushTake(s))
    ensures OneWorker(Next(b, FlushTake(s)))
  {
    hide Emitted, Registered, Move;
    var c := Next(b, FlushTake(s));
    forall u | u in b.stoppers && u != s
      ensures |b.queue| == 1 && !Flushes(b, u) && !Flushes(c, u)
    {
      assert Load(b, u) < 2;
    }
  }

  lemma FlushDoneOneWorker(b: Bus, s: nat)
    requires OneWorker(b) && Enabled(b, FlushDone(s))
    ensures OneWorker(Next(b, FlushDone(s)))
  {
    hide Emitted, Registered, Move;
    var c := Next(b, FlushDone(s));
    assert forall u :: u in c.stoppers ==> u in b.stoppers && (Flushes(c, u) ==> Flushes(b, u));
    assert forall u :: u in c.stoppers ==> Load(c, u) <= Load(b, u);
  }

  lemma TaskOneWorker(b: Bus, step: Step)
    requires OneWorker(b) && Enabled(b, step)
    requires step.Take? || step.TaskDone? || step.Cut? || step.Exit?
    ensures OneWorker(Next(b, step))
  {
    hide Emitted, Registered, Move;
    var c := Next(b, step);
    assert c.stoppers == b.stoppers && |c.queue| <= |b.queue|;
    assert forall u :: u in c.stoppers ==> (Flushes(c, u) <==> Flushes(b, u)) && Load(c, u) <= Load(b, u);
  }

  /** What neither stops nor tasks can see keeps one worker; the queue grows only while running. */
  lemma OtherOneWorker(b: Bus, c: Bus)
    requires OneWorker(b)
    requires c.tasks == b.tasks && c.stoppers == b.stoppers && c.running == b.running && c.current == b.current
    requires c.queue == b.queue || b.running
    ensures OneWorker(c)
  {
    assert forall u :: u in c.stoppers ==> (Flushes(c, u) <==> Flushes(b, u)) && Load(c, u) == Load(b, u);
  }

  lemma OtherSame(b: Bus, step: Step)
    requires step.Emit? || step.EmitAndWait? || step.Respond? || step.TimeOut? || step.DirectDone?
    requires Enabled(b, step)
    ensures var c := Next(b, step);
            && c.tasks == b.tasks && c.stoppers == b.stoppers && c.running == b.running && c.current == b.current
            && (c.queue == b.queue || b.running)
  {
    hide Remembered, Answered, Move;
  }

  lemma StepOneWorker(b: Bus, step: Step)
    requires OneWorker(b) && Numbered(b) && Enabled(b, step) && !Overlaps(b, step)
    ensures OneWorker(Next(b, step))
  {
    hide OneWorker, Next;
    match step
    case Start => StartOneWorker(b);
    case StopBegin => StopBeginOneWorker(b);
    case StopResume(s) => ResumeOneWorker(b, s);
    case StopEnd(s) => EndOneWorker(b, s);
    case FlushTake(s) => FlushTakeOneWorker(b, s);
    case FlushDone(s) => FlushDoneOneWorker(b, s);
    case Take(_) => TaskOneWorker(b, step);
    case TaskDone(_) => TaskOneWorker(b, step);
    case Cut(_) => TaskOneWorker(b, step);
    case Exit(_) => TaskOneWorker(b, step);
    case _ =>
      OtherSame(b, step);
      OtherOneWorker(b, Next(b, step));
  }

  lemma OneAtWorker(b: Bus, n: nat, m: nat)
    requires OneWorker(b) && Conserved(b) && AtWorker(b, n) && AtWorker(b, m)
    ensures n == m
  {
    assert Held(b, n) && Held(b, m);
  }

  ghost predicate OnlyLastInFlight(b: Bus) {
    forall i :: 0 <= i < |b.taken| - 1 ==> !AtWorker(b, b.taken[i])
  }

  lemma TakeLast(b: Bus, step: Step)
    requires Conserved(b) && Fifo(b) && OneWorker(b) && OnlyLastInFlight(b) && Enabled(b, step)
    requires step.Take? || step.FlushTake?
    ensures OnlyLastInFlight(Next(b, step))
  {
    var b' := Next(b, step);
    forall i | 0 <= i < |b'.taken| - 1
      ensures !AtWorker(b', b'.taken[i])
    {
      assert b'.taken[i] == b.taken[i] == b.accepted[i] && b.queue[0] == b.accepted[|b.taken|];
      assert b.taken[i] < |b.place| ==> Held(b, b.taken[i]);
    }
  }

  /** Nothing older than `c`'s newest event has come into a worker's hands since `b`. */
  ghost predicate NoNewWork(b: Bus, c: Bus) {
    && c.taken == b.taken
    && forall n: nat :: n < |b.place| && AtWorker(c, n) ==> AtWorker(b, n)
  }

  lemma EmitNoWork(b: Bus, event: Event)
    ensures NoNewWork(b, Emitted(b, event))
  {
    hide Remembered, Answered;
  }

  lemma TaskNoWork(b: Bus, step: Step)
    requires Enabled(b, step) && (step.Start? || step.TaskDone? || step.Cut? || step.Exit? || step.DirectDone?)
    ensures NoNewWork(b, Next(b, step))
  {
    hide Emitted, Registered;
  }

  lemma StopNoWork(b: Bus, step: Step)
    requires Enabled(b, step) && (step.StopBegin? || step.StopResume? || step.FlushDone? || step.StopEnd?)
    ensures NoNewWork(b, Next(b, step))
  {
    hide Emitted, Registered;
  }

  lemma WaitNoWork(b: Bus, step: Step)
    requires Enabled(b, step) && (step.Respond? || step.TimeOut?)
    ensures NoNewWork(b, Next(b, step))
  {
    hide Emitted, Registered;
  }

  lemma StepNoWork(b: Bus, step: Step)
    requires Enabled(b, step) && !step.Take? && !step.FlushTake?
    ensures NoNewWork(b, Next(b, step))
  {
    hide Emitted, NoNewWork, Enabled;
    match step
    case Emit(event) => EmitNoWork(b, event);
    case EmitAndWait(event) =>
      EmitNoWork(Registered(b, event), event);
      RegisterNoWork(b, event);
    case Respond(_) => WaitNoWork(b, step);
    case TimeOut(_) => WaitNoWork(b, step);
    case StopBegin => StopNoWork(b, step);
    case StopResume(_) => StopNoWork(b, step);
    case FlushDone(_) => StopNoWork(b, step);
    case StopEnd(_) => StopNoWork(b, step);
    case _ => TaskNoWork(b, step);
  }

  lemma RegisterNoWork(b: Bus, event: Event)
    requires NoNewWork(Registered(b, event), Emitted(Registered(b, event), event))
    ensures NoNewWork(b, Emitted(Registered(b, event), event))
  {
    hide Emitted;
  }

  lemma StepLast(b: Bus, step: Step)
    requires Sound(b) && OneWorker(b) && OnlyLastInFlight(b) && Enabled(b, step)
    ensures OnlyLastInFlight(Next(b, step))
  {
    hide Next, Enabled, OneWorker, Replies, OrderKept, CutsPaid, NoneDirect;
    if step.Take? || step.FlushTake? {
      TakeLast(b, step);
    } else {
      StepNoWork(b, step);
      forall i | 0 <= i < |b.taken|
        ensures b.taken[i] < |b.place|
      {
        assert b.taken[i] == b.accepted[i] && b.accepted[i] in b.accepted;
      }
    }
  }

  lemma {:induction false} OrderlyStates(states: seq<Bus>, steps: seq<Step>, k: nat)
    requires Orderly(states, steps) && k < |states|
    ensures Sound(states[k]) && OneWorker(states[k]) && OnlyLastInFlight(states[k])
  {
    EveryStateSound(states, steps, k);
    if k > 0 {
      OrderlyStates(states, steps, k - 1);
      StepOneWorker(states[k - 1], steps[k - 1]);
      StepLast(states[k - 1], steps[k - 1]);
    }
  }

  lemma TakenNotQueued(b: Bus, i: nat)
    requires Fifo(b) && i < |b.taken|
    ensures b.taken[i] in b.accepted && b.taken[i] !in b.queue
  {
    assert b.taken[i] == b.accepted[i];
    assert forall k :: 0 <= k < |b.queue| ==> b.queue[k] == b.accepted[|b.taken| + k];
  }

  /** While no step overlaps, the events queued while running are, in order, those
      delivered (or cut short by a stop, at most one a stop), then at most one in flight, then the queue. */
  lemma OrderlyConservation(states: seq<Bus>, steps: seq<Step>, k: nat)
    requires Orderly(states, steps) && k < |states|
    ensures var b := states[k];
            exists over: seq<nat>, flying: seq<nat> ::
              && b.accepted == over + flying + b.queue
              && |flying| <= 1
              && (forall n :: n in flying ==> AtWorker(b, n))
              && (forall n :: n in over ==> n < |b.place| && (b.place[n] == Finished || b.place[n] == CutShort))
              && |CutEvents(b)| <= b.stopsMade
  {
    OrderlyStates(states, steps, k);
    var b := states[k];
    var m := |b.taken|;
    var over, flying := b.taken, [];
    if m > 0 && AtWorker(b, b.taken[m - 1]) {
      over, flying := b.taken[..m - 1], [b.taken[m - 1]];
      assert b.taken == over + flying;
    }
    assert b.accepted == over + flying + b.queue;
    forall i | 0 <= i < |over|
      ensures over[i] < |b.place| && (b.place[over[i]] == Finished || b.place[over[i]] == CutShort)
    {
      TakenNotQueued(b, i);
      assert over[i] == b.taken[i];
      assert Held(b, over[i]);
      assert !AtWorker(b, b.taken[i]);
    }
  }

  /** While no step overlaps, two events are never in delivery at once. */
  lemma OnlyOneInFlight(states: seq<Bus>, steps: seq<Step>, k: nat, n: nat, m: nat)
    requires Orderly(states, steps) && k < |states| && AtWorker(states[k], n) && AtWorker(states[k], m)
    ensures n == m
  {
    OrderlyStates(states, steps, k);
    OneAtWorker(states[k], n, m);
  }

  /** A stopper that is there at `j` has been there since its stop began. */
  lemma {:induction false} StopperSince(states: seq<Bus>, steps: seq<Step>, i: nat, m: nat, j: nat)
    requires Run(states, steps) && i < m <= j < |states| && i < |steps| && steps[i].StopBegin?
    requires states[i].stopsMade in states[j].stoppers
    ensures states[i].stopsMade in states[m].stoppers
    decreases j - m
  {
    hide Next, Enabled, Stopping, Run;
    if m < j {
      RunLength(states, steps);
      RunStep(states, steps, j - 1);
      StoppingThroughout(states, steps, i, j - 1);
      StoppingCounts(states[j - 1], states[i].stopsMade, states[i].current);
      StopperThere(states[j - 1], steps[j - 1], states[i].stopsMade);
      StopperSince(states, steps, i, m, j - 1);
    }
  }

  lemma StoppingCounts(b: Bus, s: nat, t: Option<nat>)
    requires Stopping(b, s, t)
    ensures s < b.stopsMade
  {
  }

  /** While a stop is under way, no event comes into delivery by the current dispatch task. */
  lemma InDeliveryEarlier(b: Bus, step: Step, n: nat)
    requires OneWorker(b) && b.stoppers != map[] && Enabled(b, step) && !Overlaps(b, step)
    requires InDelivery(Next(b, step)) == Some(n)
    ensures InDelivery(b) == Some(n)
  {
    hide Remembered, Answered, Move;
    assert exists s :: s in b.stoppers;
  }

  lemma InDeliveryAtStop(b: Bus, n: nat)
    requires InDelivery(Next(b, StopBegin)) == Some(n)
    ensures InDelivery(b) == Some(n)
  {
  }

  lemma DoomedIsInDelivery(b: Bus, n: nat)
    requires OneWorker(b) && Doomed(b, n)
    ensures InDelivery(b) == Some(n)
  {
  }

  /** What is in delivery while a stop is under way was so when it began. */
  lemma {:induction false} InDeliverySince(states: seq<Bus>, steps: seq<Step>, i: nat, m: nat, n: nat)
    requires Orderly(states, steps) && i <= m <= |steps| && i < |steps| && steps[i].StopBegin?
    requires m > i ==> states[i].stopsMade in states[m].stoppers
    requires InDelivery(states[m]) == Some(n)
    ensures InDelivery(states[i]) == Some(n)
    decreases m
  {
    hide Next, Enabled, InDelivery, Overlaps, OneWorker, Sound, OnlyLastInFlight, Orderly, Run;
    if m > i {
      OrderlyStep(states, steps, m - 1);
      if m > i + 1 {
        StopperSince(states, steps, i, m - 1, m);
        OrderlyStates(states, steps, m - 1);
        InDeliveryEarlier(states[m - 1], steps[m - 1], n);
        InDeliverySince(states, steps, i, m - 1, n);
      } else {
        InDeliveryAtStop(states[i], n);
      }
    }
  }

  lemma OrderlyStep(states: seq<Bus>, steps: seq<Step>, k: nat)
    requires Orderly(states, steps) && k < |steps|
    ensures Run(states, steps) && |states| == |steps| + 1 && !Overlaps(states[k], steps[k])
    ensures Enabled(states[k], steps[k]) && states[k + 1] == Next(states[k], steps[k])
  {
  }

  ghost predicate StopsAt(steps: seq<Step>, m: nat) {
    m < |steps| && steps[m].StopBegin?
  }

  /** No other stop is under way between the beginning of a stop at step `i` and moment `k`. */
  ghost predicate Alone(states: seq<Bus>, steps: seq<Step>, i: nat, k: nat)
    requires i < |states|
  {
    states[i].stoppers == map[] && forall m :: i < m < k ==> !StopsAt(steps, m)
  }

  lemma {:induction false} OnlyStopper(states: seq<Bus>, steps: seq<Step>, i: nat, k: nat, u: nat)
    requires Run(states, steps) && i < k < |states| && i < |steps| && steps[i].StopBegin?
    requires Alone(states, steps, i, k) && u in states[k].stoppers
    ensures u == states[i].stopsMade
  {
    hide Next, Enabled, Run;
    RunLength(states, steps);
    RunStep(states, steps, k - 1);
    if k > i + 1 {
      assert !StopsAt(steps, k - 1);
      StopperThere(states[k - 1], steps[k - 1], u);
      OnlyStopper(states, steps, i, k - 1, u);
    } else {
      StopperThere(states[i], StopBegin, u);
    }
  }

  lemma StopperThere(b: Bus, step: Step, u: nat)
    requires Enabled(b, step) && u in Next(b, step).stoppers
    ensures u in b.stoppers || (step.StopBegin? && u == b.stopsMade)
  {
    hide Remembered, Answered, Move;
  }

  /** An orderly stop from its beginning to its end: the queue is empty; every event ever accepted has been
      delivered or cut short, but for one that another stop is still flushing; and the only event that has
      been cut short since the stop began is the one in delivery when it began. */
  lemma StopOutcome(states: seq<Bus>, steps: seq<Step>, i: nat, j: nat)
    requires Orderly(states, steps) && i < j < |steps|
    requires steps[i].StopBegin? && steps[j] == StopEnd(states[i].stopsMade)
    ensures states[j + 1].queue == []
    ensures AllFlushed(states[j + 1])
    ensures Alone(states, steps, i, j) ==> AllSettled(states[j + 1])
    ensures forall n: nat :: IsAt(states[j + 1], n, CutShort) ==>
              IsAt(states[i], n, CutShort) || InDelivery(states[i]) == Some(n)
  {
    hide Next, Enabled, Run, Orderly, Sound, OneWorker, Settled, InDelivery, IsAt, OnlyLastInFlight, Nothing, Doomed,
         AtWorker, StoppedIn, Alone, Flushed;
    OrderlyStep(states, steps, i);
    OrderlyStep(states, steps, j);
    var after := states[j + 1];
    StopDrains(states, steps, i, j);
    OrderlyStates(states, steps, i);
    OrderlyStates(states, steps, j);
    OrderlyStates(states, steps, j + 1);
    StopEnds(states[j], states[i].stopsMade);
    forall n | n in after.accepted
      ensures Settled(after, n) || Flushed(after, n)
      ensures Alone(states, steps, i, j) ==> Settled(after, n)
    {
      if !Settled(after, n) {
        AtWorkerFlushed(after, n);
        var u := FlusherOf(after, n);
        if Alone(states, steps, i, j) {
          OnlyStopper(states, steps, i, j, u);
        }
      }
    }
    forall n: nat | IsAt(after, n, CutShort)
      ensures IsAt(states[i], n, CutShort) || InDelivery(states[i]) == Some(n)
    {
      CutSince(states, steps, i, j + 1, n);
      if Doomed(states[i], n) {
        DoomedIsInDelivery(states[i], n);
      } else if StoppedIn(states, steps, i, j + 1, n) {
        StoppedMeanwhile(states, steps, i, j, n);
      }
    }
  }

  /** Event `n` is being delivered by the flush of some stop. */
  ghost predicate Flushed(b: Bus, n: nat) {
    exists s :: s in b.stoppers && b.stoppers[s] == Flushing(Some(n))
  }

  /** Every event accepted has been delivered or cut short, or some stop is flushing it. */
  ghost predicate AllFlushed(b: Bus) {
    forall n :: n in b.accepted ==> Settled(b, n) || Flushed(b, n)
  }

  lemma FlusherOf(b: Bus, n: nat) returns (s: nat)
    requires Flushed(b, n)
    ensures s in b.stoppers && b.stoppers[s] == Flushing(Some(n))
  {
    s :| s in b.stoppers && b.stoppers[s] == Flushing(Some(n));
  }

  lemma AtWorkerFlushed(b: Bus, n: nat)
    requires Sound(b) && b.tasks == map[] && AtWorker(b, n)
    ensures Flushed(b, n)
  {
    assert Held(b, n);
  }

  /** Another stop that began meanwhile interrupts no other event. */
  lemma StoppedMeanwhile(states: seq<Bus>, steps: seq<Step>, i: nat, j: nat, n: nat)
    requires Orderly(states, steps) && i < j < |steps|
    requires steps[i].StopBegin? && steps[j] == StopEnd(states[i].stopsMade)
    requires StoppedIn(states, steps, i, j + 1, n)
    ensures InDelivery(states[i]) == Some(n)
  {
    hide Next, InDelivery, Overlaps;
    var m :| i <= m < j + 1 && StopsOn(states, steps, m, n);
    assert states[i].stopsMade in states[j].stoppers;
    if m > i {
      StopperSince(states, steps, i, m, j);
    }
    InDeliverySince(states, steps, i, m, n);
  }

  lemma StopEnds(b: Bus, s: nat)
    requires OneWorker(b) && Enabled(b, StopEnd(s))
    ensures Next(b, StopEnd(s)).tasks == map[] && s !in Next(b, StopEnd(s)).stoppers
    ensures forall u :: u in Next(b, StopEnd(s)).stoppers ==> u in b.stoppers
  {
  }

  // ---- exactly when two events can come into delivery at once ----

  /** The bus after taking `steps` in turn, if each of them can be taken. */
  ghost function Drive(b: Bus, steps: seq<Step>): Option<Bus>
    decreases |steps|
  {
    if steps == [] then Some(b)
    else if !Enabled(b, steps[0]) then None
    else Drive(Next(b, steps[0]), steps[1..])
  }

  /** No further start and no further stop. */
  ghost predicate Quiet(steps: seq<Step>) {
    forall k :: 0 <= k < |steps| ==> !steps[k].Start? && !steps[k].StopBegin?
  }

  ghost predicate TwoInDelivery(b: Bus) {
    exists n: nat, m: nat :: n != m && AtWorker(b, n) && AtWorker(b, m)
  }

  /** Emitters and workers alone can bring two events into delivery at once. */
  ghost predicate MayCollide(b: Bus) {
    exists rest :: Quiet(rest) && Drive(b, rest).Some? && TwoInDelivery(Drive(b, rest).value)
  }

  lemma CollidesNow(b: Bus, n: nat, m: nat)
    requires n != m && AtWorker(b, n) && AtWorker(b, m)
    ensures MayCollide(b)
  {
    assert Drive(b, []) == Some(b) && Quiet([]);
  }

  lemma CollidesLater(b: Bus, step: Step)
    requires Enabled(b, step) && !step.Start? && !step.StopBegin? && MayCollide(Next(b, step))
    ensures MayCollide(b)
  {
    hide Enabled, Next, TwoInDelivery;
    var rest :| Quiet(rest) && Drive(Next(b, step), rest).Some? && TwoInDelivery(Drive(Next(b, step), rest).value);
    assert ([step] + rest)[1..] == rest;
    assert Drive(b, [step] + rest) == Drive(Next(b, step), rest);
    assert Quiet([step] + rest);
  }

  lemma {:induction false} QuietKeepsOneWorker(b: Bus, rest: seq<Step>)
    requires Sound(b) && OneWorker(b) && Quiet(rest) && Drive(b, rest).Some?
    ensures !TwoInDelivery(Drive(b, rest).value)
    decreases |rest|
  {
    hide Sound, OneWorker, Enabled, Next, AtWorker;
    if rest == [] {
      forall n: nat, m: nat | AtWorker(b, n) && AtWorker(b, m)
        ensures n == m
      {
        SoundOne(b, n, m);
      }
    } else {
      assert !Overlaps(b, rest[0]);
      SoundNumbered(b);
      StepSound(b, rest[0]);
      StepOneWorker(b, rest[0]);
      QuietKeepsOneWorker(Next(b, rest[0]), rest[1..]);
    }
  }

  lemma SoundOne(b: Bus, n: nat, m: nat)
    requires Sound(b) && OneWorker(b) && AtWorker(b, n) && AtWorker(b, m)
    ensures n == m
  {
    OneAtWorker(b, n, m);
  }

  // ---- a start during a stop ----

  const SOME_EVENT := Event("", "", "")

  lemma HeldAtWorker(b: Bus, n: nat)
    requires Sound(b)
    requires (exists t :: t in b.tasks && b.tasks[t].inFlight == Some(n)) || Flushed(b, n)
    ensures AtWorker(b, n)
  {
  }

  /** One of the workers takes the head of the queue while another is delivering. */
  lemma TakeCollides(b: Bus, step: Step, n: nat)
    requires Sound(b) && AtWorker(b, n) && (step.Take? || step.FlushTake?) && Enabled(b, step)
    ensures MayCollide(b)
  {
    hide OrderKept, CutsPaid, Replies, NoneDirect, Numbered, Fifo, Emitted, Registered, MayCollide, Newest;
    assert b.queue[0] in b.queue && IsAt(b, b.queue[0], Queued);
    CollidesNow(Next(b, step), n, b.queue[0]);
    CollidesLater(b, step);
  }

  lemma EmitFills(b: Bus, n: nat)
    requires b.running
    ensures var c := Next(b, Emit(SOME_EVENT));
            && c.queue != [] && c.running && c.tasks == b.tasks && c.stoppers == b.stoppers
            && (AtWorker(b, n) ==> AtWorker(c, n))
  {
    hide Remembered, Answered;
  }

  /** An idle dispatch task on a running bus. */
  predicate Idle(b: Bus, t: nat) {
    b.running && t in b.tasks && b.tasks[t] == Task(None, false)
  }

  lemma IdleTaskCollides(b: Bus, t: nat, n: nat)
    requires Sound(b) && Idle(b, t) && AtWorker(b, n)
    ensures MayCollide(b)
  {
    hide Sound, Next, AtWorker, MayCollide;
    EmitFills(b, n);
    StepSound(b, Emit(SOME_EVENT));
    TakeCollides(Next(b, Emit(SOME_EVENT)), Take(t), n);
    CollidesLater(b, Emit(SOME_EVENT));
  }

  lemma FlushTaken(b: Bus, s: nat)
    requires Sound(b) && Enabled(b, FlushTake(s))
    ensures var c := Next(b, FlushTake(s));
            && c.running == b.running && c.tasks == b.tasks && c.queue == b.queue[1..]
            && c.stoppers == b.stoppers[s := Flushing(Some(b.queue[0]))] && AtWorker(c, b.queue[0])
  {
    hide OrderKept, CutsPaid, Replies, NoneDirect, Numbered, Fifo, Emitted, Registered, Newest;
    assert b.queue[0] in b.queue && IsAt(b, b.queue[0], Queued);
  }

  lemma IdleFlushCollides(b: Bus, t: nat, s: nat)
    requires Sound(b) && Idle(b, t) && s in b.stoppers && b.stoppers[s] == Flushing(None)
    ensures MayCollide(b)
  {
    hide Sound, Next, AtWorker, MayCollide;
    EmitFills(b, 0);
    StepSound(b, Emit(SOME_EVENT));
    var c := Next(b, Emit(SOME_EVENT));
    FlushTaken(c, s);
    StepSound(c, FlushTake(s));
    IdleTaskCollides(Next(c, FlushTake(s)), t, c.queue[0]);
    CollidesLater(c, FlushTake(s));
    CollidesLater(b, Emit(SOME_EVENT));
  }

  lemma Resumed(b: Bus, s: nat)
    requires Enabled(b, StopResume(s))
    ensures Next(b, StopResume(s)) == b.(stoppers := b.stoppers[s := Flushing(None)])
  {
  }

  lemma AwaitedGoneCollides(b: Bus, t: nat, s: nat)
    requires Sound(b) && Idle(b, t) && Enabled(b, StopResume(s))
    ensures MayCollide(b)
  {
    hide Sound, Next, MayCollide;
    Resumed(b, s);
    StepSound(b, StopResume(s));
    IdleFlushCollides(Next(b, StopResume(s)), t, s);
    CollidesLater(b, StopResume(s));
  }

  lemma AwaitedCollides(b: Bus, t: nat, s: nat, u: nat)
    requires Sound(b) && Idle(b, t) && s in b.stoppers && b.stoppers[s] == Awaiting(u)
    requires u != t && (u in b.tasks ==> b.tasks[u].cancelled)
    ensures MayCollide(b)
  {
    hide Sound, MayCollide, Emitted, Registered, AtWorker;
    if u !in b.tasks {
      AwaitedGoneCollides(b, t, s);
    } else if b.tasks[u].inFlight.Some? {
      HeldAtWorker(b, b.tasks[u].inFlight.value);
      IdleTaskCollides(b, t, b.tasks[u].inFlight.value);
    } else {
      StepSound(b, Exit(u));
      AwaitedGoneCollides(Next(b, Exit(u)), t, s);
      CollidesLater(b, Exit(u));
    }
  }

  lemma StartCollides(b: Bus, s: nat)
    requires Sound(b) && OneWorker(b) && !b.running && s in b.stoppers
    ensures MayCollide(Next(b, Start))
  {
    hide Emitted, Registered, MayCollide, AtWorker, Conserved, OrderKept, CutsPaid, Replies, NoneDirect, Fifo, Newest;
    var c, t := Next(b, Start), b.tasksMade;
    StepSound(b, Start);
    match b.stoppers[s]
    case Awaiting(u) => AwaitedCollides(c, t, s, u);
    case Flushing(None) => IdleFlushCollides(c, t, s);
    case Flushing(Some(n)) =>
      HeldAtWorker(c, n);
      IdleTaskCollides(c, t, n);
  }

  // ---- a stop during a stop ----

  /** A stop that may go on to flush: it does so, or the task it awaits is gone. */
  predicate Released(b: Bus, s: nat) {
    s in b.stoppers && (b.stoppers[s].Flushing? || b.stoppers[s].task !in b.tasks)
  }

  lemma BothFlushingCollide(b: Bus, s: nat, u: nat)
    requires Sound(b) && s != u && s in b.stoppers && u in b.stoppers && Load(b, s) >= 2
    requires b.stoppers[s].Flushing? && b.stoppers[u] == Flushing(None)
    ensures MayCollide(b)
  {
    hide Sound, MayCollide, AtWorker, Next;
    match b.stoppers[s]
    case Flushing(Some(n)) =>
      HeldAtWorker(b, n);
      TakeCollides(b, FlushTake(u), n);
    case Flushing(None) =>
      FlushTaken(b, s);
      StepSound(b, FlushTake(s));
      TakeCollides(Next(b, FlushTake(s)), FlushTake(u), b.queue[0]);
      CollidesLater(b, FlushTake(s));
  }

  lemma OneReleasedCollides(b: Bus, s: nat, u: nat)
    requires Sound(b) && s != u && s in b.stoppers && Released(b, u) && Load(b, s) >= 2
    requires b.stoppers[s].Flushing? && !Flushes(b, u)
    ensures MayCollide(b)
  {
    hide Sound, MayCollide, Next;
    if b.stoppers[u].Awaiting? {
      Resumed(b, u);
      StepSound(b, StopResume(u));
      BothFlushingCollide(Next(b, StopResume(u)), s, u);
      CollidesLater(b, StopResume(u));
    } else {
      BothFlushingCollide(b, s, u);
    }
  }

  lemma BothReleasedCollide(b: Bus, s: nat, u: nat)
    requires Sound(b) && s != u && Released(b, s) && Released(b, u) && Load(b, s) >= 2 && !Flushes(b, u)
    ensures MayCollide(b)
  {
    hide Sound, MayCollide, Next;
    if b.stoppers[s].Awaiting? {
      Resumed(b, s);
      StepSound(b, StopResume(s));
      OneReleasedCollides(Next(b, StopResume(s)), s, u);
      CollidesLater(b, StopResume(s));
    } else {
      OneReleasedCollides(b, s, u);
    }
  }

  /** The step by which a cancelled task ends. */
  function Ending(b: Bus, t: nat): Step
    requires t in b.tasks
  {
    if b.tasks[t].inFlight.Some? then Cut(t) else Exit(t)
  }

  lemma TaskEnds(b: Bus, t: nat)
    requires t in b.tasks && b.tasks[t].cancelled
    ensures Enabled(b, Ending(b, t))
    ensures var c := Next(b, Ending(b, t));
            c.tasks == b.tasks - {t} && c.stoppers == b.stoppers && c.queue == b.queue
  {
  }

  lemma StopCollides(b: Bus, s: nat)
    requires Sound(b) && OneWorker(b) && s in b.stoppers && Load(b, s) >= 2
    ensures MayCollide(Next(b, StopBegin))
  {
    hide Emitted, Registered, MayCollide, AtWorker, Conserved, OrderKept, CutsPaid, Replies, NoneDirect, Fifo, Newest;
    var c, u := Next(b, StopBegin), b.stopsMade;
    StepSound(b, StopBegin);
    if b.stoppers[s].Awaiting? && b.stoppers[s].task in c.tasks {
      var t := b.stoppers[s].task;
      TaskEnds(c, t);
      StepSound(c, Ending(c, t));
      BothReleasedCollide(Next(c, Ending(c, t)), s, u);
      CollidesLater(c, Ending(c, t));
    } else {
      BothReleasedCollide(c, s, u);
    }
  }

  /** Where one event at most can be in delivery, a step opens the way to two exactly when it overlaps. */
  lemma OverlapIff(b: Bus, step: Step)
    requires Sound(b) && OneWorker(b) && Enabled(b, step)
    ensures Overlaps(b, step) <==> MayCollide(Next(b, step))
  {
    hide Sound, OneWorker, Next, Enabled, TwoInDelivery, Quiet, Drive;
    if Overlaps(b, step) {
      var s :| s in b.stoppers && ((step.Start? && !b.running) || (step.StopBegin? && Load(b, s) >= 2));
      if step.Start? {
        StartCollides(b, s);
      } else {
        StopCollides(b, s);
      }
    } else {
      SoundNumbered(b);
      StepSound(b, step);
      StepOneWorker(b, step);
      NoCollision(Next(b, step));
    }
  }

  lemma NoCollision(b: Bus)
    requires Sound(b) && OneWorker(b)
    ensures !MayCollide(b)
  {
    hide Sound, OneWorker, TwoInDelivery, Quiet, Drive;
    forall rest | Quiet(rest) && Drive(b, rest).Some?
      ensures !TwoInDelivery(Drive(b, rest).value)
    {
      QuietKeepsOneWorker(b, rest);
    }
  }

  /** The steps of a run never overlap exactly when at no moment of it emitters and workers alone could have
      brought two events into delivery at once. */
  lemma OrderlyIff(states: seq<Bus>, steps: seq<Step>)
    requires Run(states, steps)
    ensures Orderly(states, steps) <==> forall k :: 0 <= k < |states| ==> !MayCollide(states[k])
  {
    hide Run, MayCollide, Sound, OneWorker, OnlyLastInFlight, Overlaps, Next, Enabled;
    if Orderly(states, steps) {
      forall k | 0 <= k < |states|
        ensures !MayCollide(states[k])
      {
        OrderlyStates(states, steps, k);
        NoCollision(states[k]);
      }
    }
    if forall k :: 0 <= k < |states| ==> !MayCollide(states[k]) {
      RunLength(states, steps);
      forall k | 0 <= k < |steps|
        ensures !Overlaps(states[k], steps[k])
      {
        OneWorkerSoFar(states, steps, k);
        RunStep(states, steps, k);
        OverlapIff(states[k], steps[k]);
      }
    }
  }

  lemma {:induction false} OneWorkerSoFar(states: seq<Bus>, steps: seq<Step>, k: nat)
    requires Run(states, steps) && k < |states|
    requires forall i :: 0 <= i <= k ==> !MayCollide(states[i])
    ensures Sound(states[k]) && OneWorker(states[k])
  {
    hide Run, MayCollide, Sound, Overlaps, Next, Enabled;
    EveryStateSound(states, steps, k);
    RunLength(states, steps);
    if k > 0 {
      OneWorkerSoFar(states, steps, k - 1);
      RunStep(states, steps, k - 1);
      OverlapIff(states[k - 1], steps[k - 1]);
      SoundNumbered(states[k - 1]);
      StepOneWorker(states[k - 1], steps[k - 1]);
    } else {
      RunStarts(states, steps);
    }
  }

  lemma RunStarts(states: seq<Bus>, steps: seq<Step>)
    requires Run(states, steps)
    ensures states[0] == INITIAL
  {
  }

  // ---- runs that show what is not promised ----

  /** A run with its final state. */
  datatype History = History(states: seq<Bus>, steps: seq<Step>, now: Bus)

  ghost predicate Happened(h: History) {
    Run(h.states, h.steps) && h.now == h.states[|h.steps|]
  }

  ghost function Grown(h: History, step: Step): History
    requires Enabled(h.now, step)
  {
    History(h.states + [Next(h.now, step)], h.steps + [step], Next(h.now, step))
  }

  lemma GrownHappened(h: History, step: Step)
    requires Happened(h) && Enabled(h.now, step)
    ensures Happened(Grown(h, step))
  {
    hide Next, Enabled;
    var g := Grown(h, step);
    forall k | 0 <= k < |g.steps|
      ensures Enabled(g.states[k], g.steps[k]) && g.states[k + 1] == Next(g.states[k], g.steps[k])
    {
      assert k < |h.steps| ==> Enabled(h.states[k], h.steps[k]) && h.states[k + 1] == Next(h.states[k], h.steps[k]);
    }
  }

  /** A started bus whose dispatch task is delivering the first event. */
  lemma Delivering(e: Event) returns (h: History)
    ensures Happened(h) && h.steps == [Start, Emit(e), Take(0)]
    ensures h.now.running && h.now.current == Some(0) && h.now.tasks == map[0 := Task(Some(0), false)]
    ensures h.now.stoppers == map[] && h.now.tasksMade == 1 && h.now.stopsMade == 0
    ensures h.now.emitted == [e] && h.now.place == [AtTask(0)] && h.now.started == [0] && h.now.queue == []
  {
    hide Happened, Answered;
    h := History([INITIAL], [], INITIAL);
    NothingHappened();
    GrownHappened(h, Start);
    h := Grown(h, Start);
    GrownHappened(h, Emit(e));
    h := Grown(h, Emit(e));
    GrownHappened(h, Take(0));
    h := Grown(h, Take(0));
  }

  lemma NothingHappened()
    ensures Happened(History([INITIAL], [], INITIAL))
  {
  }

  /** A second event waits, the bus stops while the first is delivered, and a third event is delivered before
      the second. */
  lemma OvertakingRun(e: Event) returns (h: History)
    ensures Happened(h) && h.steps == [Start, Emit(e), Take(0), Emit(e), StopBegin, Emit(e)]
    ensures Line(h.now) == [0, 2, 1]
  {
    hide Happened, Answered, Remembered;
    h := Delivering(e);
    GrownHappened(h, Emit(e));
    h := Grown(h, Emit(e));
    GrownHappened(h, StopBegin);
    h := Grown(h, StopBegin);
    GrownHappened(h, Emit(e));
    h := Grown(h, Emit(e));
  }

  /** A start while a stop is under way puts a second worker beside the cancelled one, and two events are in
      delivery at once. */
  lemma OverlappingRun(e: Event) returns (h: History)
    ensures Happened(h) && h.steps == [Start, Emit(e), Take(0), StopBegin, Start, Emit(e), Take(1)]
    ensures AtWorker(h.now, 0) && AtWorker(h.now, 1)
  {
    hide Happened, Answered, Remembered;
    h := Delivering(e);
    GrownHappened(h, StopBegin);
    h := Grown(h, StopBegin);
    GrownHappened(h, Start);
    h := Grown(h, Start);
    GrownHappened(h, Emit(e));
    h := Grown(h, Emit(e));
    GrownHappened(h, Take(1));
    h := Grown(h, Take(1));
  }

  /** A second stop while the first still has two events to flush: both flush one at once. */
  lemma SecondStopRun(e: Event) returns (h: History)
    ensures Happened(h)
    ensures h.steps == [Start, Emit(e), Emit(e), StopBegin, StopBegin, Exit(0), StopResume(0), StopResume(1),
                        FlushTake(0), FlushTake(1)]
    ensures AtWorker(h.now, 0) && AtWorker(h.now, 1)
  {
    hide Happened, Answered, Remembered;
    h := TwoFlushes(e);
    GrownHappened(h, FlushTake(0));
    h := Grown(h, FlushTake(0));
    GrownHappened(h, FlushTake(1));
    h := Grown(h, FlushTake(1));
  }

  lemma TwoFlushes(e: Event) returns (h: History)
    ensures Happened(h)
    ensures h.steps == [Start, Emit(e), Emit(e), StopBegin, StopBegin, Exit(0), StopResume(0), StopResume(1)]
    ensures h.now.stoppers == map[0 := Flushing(None), 1 := Flushing(None)]
    ensures h.now.queue == [0, 1] && h.now.place == [Queued, Queued]
  {
    hide Happened, Answered, Remembered;
    h := TwoStops(e);
    GrownHappened(h, Exit(0));
    h := Grown(h, Exit(0));
    GrownHappened(h, StopResume(0));
    h := Grown(h, StopResume(0));
    GrownHappened(h, StopResume(1));
    h := Grown(h, StopResume(1));
  }

  lemma TwoStops(e: Event) returns (h: History)
    ensures Happened(h) && h.steps == [Start, Emit(e), Emit(e), StopBegin, StopBegin]
    ensures !h.now.running && h.now.tasks == map[0 := Task(None, true)] && h.now.queue == [0, 1]
    ensures h.now.stoppers == map[0 := Awaiting(0), 1 := Awaiting(0)] && h.now.place == [Queued, Queued]
  {
    hide Happened, Answered, Remembered;
    h := History([INITIAL], [], INITIAL);
    NothingHappened();
    GrownHappened(h, Start);
    h := Grown(h, Start);
    GrownHappened(h, Emit(e));
    h := Grown(h, Emit(e));
    GrownHappened(h, Emit(e));
    h := Grown(h, Emit(e));
    GrownHappened(h, StopBegin);
    h := Grown(h, StopBegin);
    GrownHappened(h, StopBegin);
    h := Grown(h, StopBegin);
  }
}
