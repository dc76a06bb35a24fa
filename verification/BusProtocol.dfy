/**
 The event bus as a protocol (velune/events.py): every atomic stretch of code between two
 suspension points is one step, and steps of emitters, dispatch tasks and `stop` calls
 interleave freely.  An event is named by its ticket, its position among all emissions.
 */
module BusProtocol {
  import opened Optional

  const HISTORY_CAP: nat := 1000

  datatype Event = Event(id: string, kind: string, correlation: string)

  /** A dispatch task: what it is delivering, and whether `stop` has cancelled it. */
  datatype Task = Task(inFlight: Option<nat>, cancelled: bool)

  /** A `stop` call: waiting for the cancelled task to end, or flushing the queue. */
  datatype Stopper = Awaiting(task: nat) | Flushing(inFlight: Option<nat>)

  /** A response somebody waits for since emission number `since`. */
  datatype Waiter = Waiter(id: string, since: nat, result: Option<Event>)

  /** Where an emitted event is; `Direct` is being delivered by its own emitter, `Cut` was in
      delivery when its task was cancelled. */
  datatype Place = Queued | Direct | AtTask(task: nat) | AtStopper(stopper: nat) | Finished | CutShort

  datatype Bus = Bus(
    running: bool,
    current: Option<nat>,
    queue: seq<nat>,
    history: seq<Event>,
    pending: map<string, nat>,
    waiters: map<nat, Waiter>,
    tasks: map<nat, Task>,
    stoppers: map<nat, Stopper>,
    // what has happened so far
    emitted: seq<Event>,
    place: seq<Place>,
    accepted: seq<nat>,
    taken: seq<nat>,
    started: seq<nat>,
    tasksMade: nat,
    stopsMade: nat,
    waitsMade: nat,
    overtaken: bool
  )

  const INITIAL :=
    Bus(false, None, [], [], map[], map[], map[], map[], [], [], [], [], [], 0, 0, 0, false)

  datatype Step =
    | Emit(event: Event)
    | EmitAndWait(event: Event)
    | Respond(waiter: nat)
    | TimeOut(waiter: nat)
    | DirectDone(ticket: nat)
    | Start
    | Take(task: nat)
    | TaskDone(task: nat)
    | Cut(task: nat)
    | Exit(task: nat)
    | StopBegin
    | StopResume(stopper: nat)
    | FlushTake(stopper: nat)
    | FlushDone(stopper: nat)
    | StopEnd(stopper: nat)

  predicate Enabled(b: Bus, step: Step) {
    match step
    case Emit(_) => true
    case EmitAndWait(_) => true
    case Respond(w) => w in b.waiters && b.waiters[w].result.Some?
    case TimeOut(w) => w in b.waiters
    case DirectDone(n) => n < |b.place| && b.place[n] == Direct
    case Start => true
    case Take(t) =>
      t in b.tasks && !b.tasks[t].cancelled && b.tasks[t].inFlight.None? && b.running && b.queue != []
    case TaskDone(t) => t in b.tasks && !b.tasks[t].cancelled && b.tasks[t].inFlight.Some?
    case Cut(t) => t in b.tasks && b.tasks[t].cancelled && b.tasks[t].inFlight.Some?
    case Exit(t) => t in b.tasks && b.tasks[t].inFlight.None? && (b.tasks[t].cancelled || !b.running)
    case StopBegin => true
    case StopResume(s) => s in b.stoppers && b.stoppers[s].Awaiting? && b.stoppers[s].task !in b.tasks
    case FlushTake(s) => s in b.stoppers && b.stoppers[s] == Flushing(None) && b.queue != []
    case FlushDone(s) => s in b.stoppers && b.stoppers[s].Flushing? && b.stoppers[s].inFlight.Some?
    case StopEnd(s) => s in b.stoppers && b.stoppers[s] == Flushing(None) && b.queue == []
  }

  function Remembered(history: seq<Event>, event: Event): (r: seq<Event>)
    ensures |history| <= HISTORY_CAP ==> |r| <= HISTORY_CAP
  {
    if |history| >= HISTORY_CAP then history[|history| - HISTORY_CAP + 1..] + [event] else history + [event]
  }

  /** The waiter, if any, whose unresolved future `event` completes. */
  function Answered(b: Bus, event: Event): map<nat, Waiter> {
    if event.correlation != "" && event.correlation in b.pending
       && b.pending[event.correlation] in b.waiters
       && b.waiters[b.pending[event.correlation]].result.None?
    then
      var w := b.pending[event.correlation];
      b.waiters[w := b.waiters[w].(result := Some(event))]
    else b.waiters
  }

  function Emitted(b: Bus, event: Event): Bus {
    var n := |b.emitted|;
    var b' := b.(history := Remembered(b.history, event), waiters := Answered(b, event),
                 emitted := b.emitted + [event]);
    if !b.running then
      b'.(place := b.place + [Direct], started := b.started + [n], overtaken := b.overtaken || b.queue != [])
    else b'.(place := b.place + [Queued], queue := b.queue + [n], accepted := b.accepted + [n])
  }

  /** `emit_and_wait` first registers a future under the event's id. */
  function Registered(b: Bus, event: Event): Bus {
    var w := b.waitsMade;
    b.(pending := b.pending[event.id := w],
       waiters := b.waiters[w := Waiter(event.id, |b.emitted|, None)],
       waitsMade := w + 1)
  }

  function Move(place: seq<Place>, n: nat, to: Place): seq<Place> {
    if n < |place| then place[n := to] else place
  }

  function Next(b: Bus, step: Step): Bus
    requires Enabled(b, step)
  {
    match step
    case Emit(event) => Emitted(b, event)
    case EmitAndWait(event) => Emitted(Registered(b, event), event)
    case Respond(w) => b.(pending := b.pending - {b.waiters[w].id}, waiters := b.waiters - {w})
    case TimeOut(w) => b.(pending := b.pending - {b.waiters[w].id}, waiters := b.waiters - {w})
    case DirectDone(n) => b.(place := Move(b.place, n, Finished))
    case Start =>
      if b.running then b
      else b.(running := true, current := Some(b.tasksMade), tasksMade := b.tasksMade + 1,
              tasks := b.tasks[b.tasksMade := Task(None, false)])
    case Take(t) =>
      var n := b.queue[0];
      b.(queue := b.queue[1..], taken := b.taken + [n], started := b.started + [n],
         place := Move(b.place, n, AtTask(t)), tasks := b.tasks[t := b.tasks[t].(inFlight := Some(n))])
    case TaskDone(t) =>
      b.(place := Move(b.place, b.tasks[t].inFlight.value, Finished),
         tasks := b.tasks[t := b.tasks[t].(inFlight := None)])
    case Cut(t) => b.(place := Move(b.place, b.tasks[t].inFlight.value, CutShort), tasks := b.tasks - {t})
    case Exit(t) => b.(tasks := b.tasks - {t})
    case StopBegin =>
      var s := b.stopsMade;
      var b' := b.(running := false, stopsMade := s + 1);
      if b.current.None? then b'.(stoppers := b.stoppers[s := Flushing(None)])
      else
        var t := b.current.value;
        b'.(stoppers := b.stoppers[s := Awaiting(t)],
            tasks := if t in b.tasks then b.tasks[t := b.tasks[t].(cancelled := true)] else b.tasks)
    case StopResume(s) => b.(stoppers := b.stoppers[s := Flushing(None)])
    case FlushTake(s) =>
      var n := b.queue[0];
      b.(queue := b.queue[1..], taken := b.taken + [n], started := b.started + [n],
         place := Move(b.place, n, AtStopper(s)), stoppers := b.stoppers[s := Flushing(Some(n))])
    case FlushDone(s) =>
      b.(place := Move(b.place, b.stoppers[s].inFlight.value, Finished), stoppers := b.stoppers[s := Flushing(None)])
    case StopEnd(s) => b.(stoppers := b.stoppers - {s})
  }

  ghost predicate Run(states: seq<Bus>, steps: seq<Step>) {
    && |states| == |steps| + 1
    && states[0] == INITIAL
    && forall k :: 0 <= k < |steps| ==> Enabled(states[k], steps[k]) && states[k + 1] == Next(states[k], steps[k])
  }

  // ---- conservation and order ----

  ghost predicate Increasing(s: seq<nat>) {
    forall i, j :: 0 <= i < j < |s| ==> s[i] < s[j]
  }

  /** The holder named by the place of event `n` does hold it. */
  predicate Held(b: Bus, n: nat)
    requires n < |b.place|
  {
    match b.place[n]
    case Queued => n in b.queue
    case AtTask(t) => t in b.tasks && b.tasks[t].inFlight == Some(n)
    case AtStopper(s) => s in b.stoppers && b.stoppers[s] == Flushing(Some(n))
    case _ => true
  }

  predicate IsAt(b: Bus, n: nat, where: Place) {
    n < |b.place| && b.place[n] == where
  }

  /** Every event is in one place, and each worker and the queue hold exactly what is placed there:
      nothing is lost, nothing is delivered by two workers, a worker delivers one event at a time. */
  ghost predicate Conserved(b: Bus) {
    && |b.place| == |b.emitted|
    && (forall n :: 0 <= n < |b.place| ==> Held(b, n))
    && (forall n :: n in b.queue ==> IsAt(b, n, Queued))
    && (forall t :: t in b.tasks && b.tasks[t].inFlight.Some? ==> IsAt(b, b.tasks[t].inFlight.value, AtTask(t)))
    && (forall s :: s in b.stoppers && b.stoppers[s].Flushing? && b.stoppers[s].inFlight.Some? ==>
          IsAt(b, b.stoppers[s].inFlight.value, AtStopper(s)))
  }

  /** Queue order: what was accepted is what was taken followed by what waits, oldest first. */
  ghost predicate Fifo(b: Bus) {
    && b.accepted == b.taken + b.queue
    && Increasing(b.accepted)
    && (forall n :: n in b.accepted ==> n < |b.emitted|)
  }

  ghost predicate Numbered(b: Bus) {
    && (forall t :: t in b.tasks ==> t < b.tasksMade)
    && (forall s :: s in b.stoppers ==> s < b.stopsMade)
    && (forall w :: w in b.waiters ==> w < b.waitsMade)
    && (forall id :: id in b.pending ==> b.pending[id] < b.waitsMade)
    && (b.current.Some? ==> b.current.value < b.tasksMade)
  }

  lemma EmitFifo(b: Bus, event: Event)
    requires Fifo(b)
    ensures Fifo(Emitted(b, event))
  {
    assert (b.taken + b.queue) + [|b.emitted|] == b.taken + (b.queue + [|b.emitted|]);
    assert forall i :: 0 <= i < |b.accepted| ==> b.accepted[i] in b.accepted;
  }

  lemma TakeFifo(b: Bus, step: Step)
    requires Fifo(b) && Enabled(b, step) && (step.Take? || step.FlushTake?)
    ensures Fifo(Next(b, step))
  {
    assert b.taken + b.queue == (b.taken + [b.queue[0]]) + b.queue[1..];
  }

  lemma StepFifo(b: Bus, step: Step)
    requires Fifo(b) && Enabled(b, step)
    ensures Fifo(Next(b, step))
  {
    match step
    case Emit(event) => EmitFifo(b, event);
    case EmitAndWait(event) =>
      var b0 := Registered(b, event);
      assert Fifo(b0);
      EmitFifo(b0, event);
    case Take(_) => TakeFifo(b, step);
    case FlushTake(_) => TakeFifo(b, step);
    case _ =>
  }

  lemma EmitNumbered(b: Bus, event: Event)
    requires Numbered(b)
    ensures Numbered(Emitted(b, event)) && Numbered(Registered(b, event))
  {
  }

  lemma WorkerNumbered(b: Bus, step: Step)
    requires Numbered(b) && Enabled(b, step) && !step.Emit? && !step.EmitAndWait?
    ensures Numbered(Next(b, step))
  {
  }

  lemma StepNumbered(b: Bus, step: Step)
    requires Numbered(b) && Enabled(b, step)
    ensures Numbered(Next(b, step))
  {
    hide Numbered;
    match step
    case Emit(event) => EmitNumbered(b, event);
    case EmitAndWait(event) => EmitNumbered(b, event); EmitNumbered(Registered(b, event), event);
    case _ => WorkerNumbered(b, step);
  }

  lemma EmitConserves(b: Bus, event: Event)
    requires Conserved(b) && Fifo(b) && Numbered(b)
    ensures Conserved(Emitted(b, event))
  {
    var b' := Emitted(b, event);
    forall n | 0 <= n < |b'.place| ensures Held(b', n) {
      assert n < |b.place| ==> Held(b, n);
    }
  }

  /** Taking the head of the queue takes that event and no other out of it. */
  lemma HeadLeaves(b: Bus)
    requires Fifo(b) && b.queue != []
    ensures forall m :: m in b.queue[1..] <==> m in b.queue && m != b.queue[0]
  {
    var n := b.queue[0];
    assert forall i :: 0 <= i < |b.queue| ==> b.queue[i] == b.accepted[|b.taken| + i];
    assert b.queue == [n] + b.queue[1..];
  }

  lemma TakeConserves(b: Bus, t: nat)
    requires Conserved(b) && Fifo(b) && Numbered(b) && Enabled(b, Take(t))
    ensures Conserved(Next(b, Take(t)))
  {
    HeadLeaves(b);
    assert b.queue[0] in b.queue && IsAt(b, b.queue[0], Queued);
    var b' := Next(b, Take(t));
    forall n | 0 <= n < |b'.place| ensures Held(b', n) {
      assert n < |b.place| ==> Held(b, n);
    }
  }

  lemma FlushTakeConserves(b: Bus, s: nat)
    requires Conserved(b) && Fifo(b) && Numbered(b) && Enabled(b, FlushTake(s))
    ensures Conserved(Next(b, FlushTake(s)))
  {
    HeadLeaves(b);
    assert b.queue[0] in b.queue && IsAt(b, b.queue[0], Queued);
    var b' := Next(b, FlushTake(s));
    forall n | 0 <= n < |b'.place| ensures Held(b', n) {
      assert n < |b.place| ==> Held(b, n);
    }
  }

  lemma FinishConserves(b: Bus, step: Step)
    requires Conserved(b) && Numbered(b) && Enabled(b, step)
    requires step.TaskDone? || step.Cut?
    ensures Conserved(Next(b, step))
  {
    var b' := Next(b, step);
    forall n | 0 <= n < |b'.place| ensures Held(b', n) {
      assert n < |b.place| ==> Held(b, n);
    }
  }

  lemma TaskStepConserves(b: Bus, step: Step)
    requires Conserved(b) && Numbered(b) && Enabled(b, step)
    requires step.Exit? || step.Start? || step.DirectDone?
    ensures Conserved(Next(b, step))
  {
    var b' := Next(b, step);
    forall n | 0 <= n < |b'.place| ensures Held(b', n) {
      assert n < |b.place| ==> Held(b, n);
    }
  }

  lemma FlushDoneConserves(b: Bus, step: Step)
    requires Conserved(b) && Numbered(b) && Enabled(b, step)
    requires step.FlushDone?
    ensures Conserved(Next(b, step))
  {
    var b' := Next(b, step);
    forall n | 0 <= n < |b'.place| ensures Held(b', n) {
      assert n < |b.place| ==> Held(b, n);
    }
  }

  lemma StopBeginConserves(b: Bus, step: Step)
    requires Conserved(b) && Numbered(b) && Enabled(b, step)
    requires step.StopBegin?
    ensures Conserved(Next(b, step))
  {
    var b' := Next(b, step);
    forall n | 0 <= n < |b'.place| ensures Held(b', n) {
      assert n < |b.place| ==> Held(b, n);
    }
  }

  lemma StopStepConserves(b: Bus, step: Step)
    requires Conserved(b) && Numbered(b) && Enabled(b, step)
    requires step.StopResume? || step.StopEnd?
    ensures Conserved(Next(b, step))
  {
    var b' := Next(b, step);
    forall n | 0 <= n < |b'.place| ensures Held(b', n) {
      assert n < |b.place| ==> Held(b, n);
    }
  }

  lemma WaitStepConserves(b: Bus, step: Step)
    requires Conserved(b) && Enabled(b, step) && (step.Respond? || step.TimeOut?)
    ensures Conserved(Next(b, step))
  {
    var b' := Next(b, step);
    forall n | 0 <= n < |b'.place| ensures Held(b', n) {
      assert n < |b.place| ==> Held(b, n);
    }
  }

  lemma StepConserves(b: Bus, step: Step)
    requires Conserved(b) && Fifo(b) && Numbered(b) && Enabled(b, step)
    ensures Conserved(Next(b, step))
  {
    hide Conserved, Fifo, Numbered;
    match step
    case Emit(event) => EmitConserves(b, event);
    case EmitAndWait(event) => EmitAndWaitConserves(b, event);
    case Take(t) => TakeConserves(b, t);
    case FlushTake(s) => FlushTakeConserves(b, s);
    case Respond(_) => WaitStepConserves(b, step);
    case TimeOut(_) => WaitStepConserves(b, step);
    case StopBegin => StopBeginConserves(b, step);
    case StopResume(_) => StopStepConserves(b, step);
    case FlushDone(_) => FlushDoneConserves(b, step);
    case TaskDone(_) => FinishConserves(b, step);
    case Cut(_) => FinishConserves(b, step);
    case StopEnd(_) => StopStepConserves(b, step);
    case _ => TaskStepConserves(b, step);
  }

  lemma EmitAndWaitConserves(b: Bus, event: Event)
    requires Conserved(b) && Fifo(b) && Numbered(b)
    ensures Conserved(Next(b, EmitAndWait(event)))
  {
    var b0 := Registered(b, event);
    forall n | 0 <= n < |b0.place| ensures Held(b0, n) {
      assert Held(b, n);
    }
    EmitConserves(b0, event);
  }

  // ---- history ----

  /** The newest events, as many as the history holds. */
  function Newest(events: seq<Event>): seq<Event> {
    if |events| <= HISTORY_CAP then events else events[|events| - HISTORY_CAP..]
  }

  lemma StepHistory(b: Bus, step: Step)
    requires Enabled(b, step) && b.history == Newest(b.emitted)
    ensures Next(b, step).history == Newest(Next(b, step).emitted)
  {
    if step.Emit? || step.EmitAndWait? {
      EmitHistory(b.emitted, step.event);
    }
  }

  lemma EmitHistory(events: seq<Event>, event: Event)
    ensures Remembered(Newest(events), event) == Newest(events + [event])
  {
  }

  // ---- delivery order ----

  /** Deliveries in the order they began, then what is still queued. */
  function Line(b: Bus): seq<nat> {
    b.started + b.queue
  }

  function Upto(n: nat): (r: seq<nat>)
    ensures |r| == n && forall i :: 0 <= i < n ==> r[i] == i
  {
    seq(n, i => i)
  }

  ghost predicate Inverted(line: seq<nat>) {
    exists i, j :: 0 <= i < j < |line| && line[i] > line[j]
  }

  ghost predicate OrderKept(b: Bus) {
    && (!b.overtaken ==> Line(b) == Upto(|b.emitted|))
    && (b.overtaken ==> Inverted(Line(b)))
    && (forall n :: n in b.queue ==> n < |b.emitted|)
  }

  lemma EmitOrder(b: Bus, event: Event)
    requires OrderKept(b)
    ensures OrderKept(Emitted(b, event))
  {
    var b', n := Emitted(b, event), |b.emitted|;
    if b.running {
      assert Line(b') == Line(b) + [n];
    } else if b.queue == [] {
      assert Line(b') == Line(b) + [n];
    } else {
      var at := |b.started|;
      assert b.queue[0] in b.queue;
      assert Line(b')[at] == n && Line(b')[at + 1] == b.queue[0];
    }
    if b.overtaken {
      var i, j :| 0 <= i < j < |Line(b)| && Line(b)[i] > Line(b)[j];
      var gap := if b.running then 0 else 1;
      var i' := if i < |b.started| then i else i + gap;
      var j' := if j < |b.started| then j else j + gap;
      assert Line(b')[i'] == Line(b)[i] && Line(b')[j'] == Line(b)[j];
    }
  }

  lemma TakeOrder(b: Bus, step: Step)
    requires OrderKept(b) && Enabled(b, step) && (step.Take? || step.FlushTake?)
    ensures OrderKept(Next(b, step))
  {
    assert Line(Next(b, step)) == Line(b);
    assert forall n :: n in b.queue[1..] ==> n in b.queue;
  }

  lemma QuietOrder(b: Bus, step: Step)
    requires OrderKept(b) && Enabled(b, step)
    requires !step.Emit? && !step.EmitAndWait? && !step.Take? && !step.FlushTake?
    ensures OrderKept(Next(b, step))
  {
    hide OrderKept, Next, Enabled, OrderSame;
    QuietSame(b, step);
    SameOrder(b, Next(b, step));
  }

  lemma QuietSame(b: Bus, step: Step)
    requires Enabled(b, step) && !step.Emit? && !step.EmitAndWait? && !step.Take? && !step.FlushTake?
    ensures OrderSame(b, Next(b, step))
  {
    hide Next, Enabled, OrderSame;
    if step.Respond? || step.TimeOut? {
      QuietWait(b, step);
    } else if step.StopBegin? || step.StopResume? || step.FlushDone? || step.StopEnd? {
      QuietStop(b, step);
    } else {
      QuietTask(b, step);
    }
  }

  ghost predicate OrderSame(b: Bus, c: Bus) {
    c.started == b.started && c.queue == b.queue && c.emitted == b.emitted && c.overtaken == b.overtaken
  }

  lemma QuietTask(b: Bus, step: Step)
    requires Enabled(b, step) && (step.Start? || step.TaskDone? || step.Cut? || step.Exit? || step.DirectDone?)
    ensures OrderSame(b, Next(b, step))
  {
    hide Move, Emitted, Registered;
  }

  lemma QuietStop(b: Bus, step: Step)
    requires Enabled(b, step) && (step.StopBegin? || step.StopResume? || step.FlushDone? || step.StopEnd?)
    ensures OrderSame(b, Next(b, step))
  {
    hide Move, Emitted, Registered;
  }

  lemma QuietWait(b: Bus, step: Step)
    requires Enabled(b, step) && (step.Respond? || step.TimeOut?)
    ensures OrderSame(b, Next(b, step))
  {
    hide Move, Emitted, Registered;
  }

  lemma SameOrder(b: Bus, c: Bus)
    requires OrderKept(b)
    requires OrderSame(b, c)
    ensures OrderKept(c)
  {
    assert Line(b) == Line(c);
  }

  lemma StepOrder(b: Bus, step: Step)
    requires OrderKept(b) && Enabled(b, step)
    ensures OrderKept(Next(b, step))
  {
    match step
    case Emit(event) => EmitOrder(b, event);
    case EmitAndWait(event) =>
      assert Line(Registered(b, event)) == Line(b);
      EmitOrder(Registered(b, event), event);
    case Take(_) => TakeOrder(b, step);
    case FlushTake(_) => TakeOrder(b, step);
    case _ => QuietOrder(b, step);
  }

  // ---- what a stop can cut short ----

  ghost function CutEvents(b: Bus): set<nat> {
    set n | 0 <= n < |b.place| && b.place[n] == CutShort
  }

  ghost function CancelledTasks(b: Bus): set<nat> {
    set t | t in b.tasks && b.tasks[t].cancelled
  }

  /** Each `stop` cuts at most one delivery short: every cut is paid for by a cancelled task. */
  ghost predicate CutsPaid(b: Bus) {
    |CutEvents(b)| + |CancelledTasks(b)| <= b.stopsMade
  }

  lemma SubsetSize(a: set<nat>, b: set<nat>)
    requires a <= b
    ensures |a| <= |b|
  {
    assert b == a + (b - a);
  }

  lemma StepCuts(b: Bus, step: Step)
    requires Conserved(b) && CutsPaid(b) && Enabled(b, step)
    ensures CutsPaid(Next(b, step))
  {
    hide Next, Enabled, Conserved, CutEvents, CancelledTasks;
    if step.Cut? {
      CutCuts(b, step.task);
    } else if step.StopBegin? && b.current.Some? {
      StopBeginCuts(b);
    } else {
      NoNewCuts(b, step);
    }
  }

  lemma CutCuts(b: Bus, t: nat)
    requires Conserved(b) && Enabled(b, Cut(t))
    ensures |CutEvents(Next(b, Cut(t)))| <= |CutEvents(b)| + 1
    ensures |CancelledTasks(Next(b, Cut(t)))| == |CancelledTasks(b)| - 1
    ensures Next(b, Cut(t)).stopsMade == b.stopsMade
  {
    hide CutEvents, CancelledTasks;
    var n := b.tasks[t].inFlight.value;
    assert IsAt(b, n, AtTask(t));
    CutPlace(b, Next(b, Cut(t)), n);
    CutTask(b, Next(b, Cut(t)), t);
  }

  lemma CutPlace(b: Bus, c: Bus, n: nat)
    requires n < |b.place| && c.place == b.place[n := CutShort]
    ensures |CutEvents(c)| <= |CutEvents(b)| + 1
  {
    assert CutEvents(c) == CutEvents(b) + {n};
  }

  lemma CutTask(b: Bus, c: Bus, t: nat)
    requires t in b.tasks && b.tasks[t].cancelled && c.tasks == b.tasks - {t}
    ensures |CancelledTasks(c)| == |CancelledTasks(b)| - 1
  {
    assert CancelledTasks(c) == CancelledTasks(b) - {t} && t in CancelledTasks(b);
  }

  lemma StopBeginCuts(b: Bus)
    requires b.current.Some?
    ensures |CutEvents(Next(b, StopBegin))| <= |CutEvents(b)|
    ensures |CancelledTasks(Next(b, StopBegin))| <= |CancelledTasks(b)| + 1
    ensures Next(b, StopBegin).stopsMade == b.stopsMade + 1
  {
    var b' := Next(b, StopBegin);
    assert CutEvents(b') == CutEvents(b);
    SubsetSize(CancelledTasks(b'), CancelledTasks(b) + {b.current.value});
  }

  lemma NoNewCuts(b: Bus, step: Step)
    requires Conserved(b) && Enabled(b, step) && !step.Cut? && !(step.StopBegin? && b.current.Some?)
    ensures |CutEvents(Next(b, step))| <= |CutEvents(b)| && |CancelledTasks(Next(b, step))| <= |CancelledTasks(b)|
    ensures Next(b, step).stopsMade >= b.stopsMade
  {
    SubsetSize(CutEvents(Next(b, step)), CutEvents(b));
    SubsetSize(CancelledTasks(Next(b, step)), CancelledTasks(b));
  }

  // ---- correlated responses ----

  /** The first answer to `id` among the events emitted from number `since` on. */
  function FirstReply(events: seq<Event>, since: nat, id: string): Option<Event>
    requires since <= |events|
    decreases |events| - since
  {
    if since == |events| then None
    else if id != "" && events[since].correlation == id then Some(events[since])
    else FirstReply(events, since + 1, id)
  }

  lemma {:induction false} ReplyExtends(events: seq<Event>, event: Event, since: nat, id: string)
    requires since <= |events|
    ensures FirstReply(events + [event], since, id) ==
            if FirstReply(events, since, id).Some? then FirstReply(events, since, id)
            else if id != "" && event.correlation == id then Some(event) else None
    decreases |events| - since
  {
    if since < |events| {
      ReplyExtends(events, event, since + 1, id);
    } else {
      assert FirstReply(events + [event], since + 1, id) == None;
    }
  }

  /** A waiter holds nothing but the first reply to its event, and while its registration stands
      it holds that reply as soon as it was emitted. */
  ghost predicate Replies(b: Bus) {
    && (forall w :: w in b.waiters ==> b.waiters[w].since <= |b.emitted|)
    && (forall w :: w in b.waiters && b.waiters[w].result.Some? ==>
          b.waiters[w].result == FirstReply(b.emitted, b.waiters[w].since, b.waiters[w].id))
    && (forall id :: id in b.pending && b.pending[id] in b.waiters ==>
          var waiter := b.waiters[b.pending[id]];
          waiter.id == id && waiter.result == FirstReply(b.emitted, waiter.since, id))
    && (forall id, other :: id in b.pending && other in b.pending && b.pending[id] == b.pending[other] ==> id == other)
  }

  lemma EmitReplies(b: Bus, event: Event)
    requires Replies(b)
    ensures Replies(Emitted(b, event))
  {
    var b' := Emitted(b, event);
    forall w | w in b.waiters
      ensures FirstReply(b'.emitted, b.waiters[w].since, b.waiters[w].id) ==
              if FirstReply(b.emitted, b.waiters[w].since, b.waiters[w].id).Some?
              then FirstReply(b.emitted, b.waiters[w].since, b.waiters[w].id)
              else if b.waiters[w].id != "" && event.correlation == b.waiters[w].id then Some(event) else None
    {
      ReplyExtends(b.emitted, event, b.waiters[w].since, b.waiters[w].id);
    }
  }

  lemma WaiterLeaves(b: Bus, step: Step)
    requires Replies(b) && Enabled(b, step) && (step.Respond? || step.TimeOut?)
    ensures Replies(Next(b, step))
  {
  }

  lemma RegisterReplies(b: Bus, event: Event)
    requires Replies(b) && Numbered(b)
    ensures Replies(Registered(b, event))
  {
  }

  lemma StepReplies(b: Bus, step: Step)
    requires Replies(b) && Numbered(b) && Enabled(b, step)
    ensures Replies(Next(b, step))
  {
    hide Replies, Numbered;
    match step
    case Emit(event) => EmitReplies(b, event);
    case EmitAndWait(event) =>
      RegisterReplies(b, event);
      EmitReplies(Registered(b, event), event);
    case Respond(_) => WaiterLeaves(b, step);
    case TimeOut(_) => WaiterLeaves(b, step);
    case _ => SameReplies(b, Next(b, step));
  }

  lemma SameReplies(b: Bus, c: Bus)
    requires Replies(b) && b.waiters == c.waiters && b.pending == c.pending && b.emitted == c.emitted
    ensures Replies(c)
  {
  }

  /** An event that went through the queue is never delivered directly. */
  ghost predicate NoneDirect(b: Bus) {
    forall n :: n in b.accepted ==> n < |b.place| && b.place[n] != Direct
  }

  lemma EmitNoneDirect(b: Bus, event: Event)
    requires NoneDirect(b) && |b.place| == |b.emitted|
    ensures NoneDirect(Emitted(b, event))
  {
    hide Remembered, Answered;
  }

  lemma MoveNoneDirect(b: Bus, c: Bus)
    requires NoneDirect(b) && c.accepted == b.accepted && |c.place| == |b.place|
    requires forall n :: 0 <= n < |b.place| && c.place[n] == Direct ==> b.place[n] == Direct
    ensures NoneDirect(c)
  {
  }

  lemma StepNoneDirect(b: Bus, step: Step)
    requires NoneDirect(b) && |b.place| == |b.emitted| && Enabled(b, step)
    ensures NoneDirect(Next(b, step))
  {
    hide NoneDirect, Emitted;
    match step
    case Emit(event) => EmitNoneDirect(b, event);
    case EmitAndWait(event) =>
      MoveNoneDirect(b, Registered(b, event));
      EmitNoneDirect(Registered(b, event), event);
    case _ => MoveNoneDirect(b, Next(b, step));
  }

  // ---- every reachable state ----

  ghost predicate Sound(b: Bus) {
    && Conserved(b) && Fifo(b) && Numbered(b) && NoneDirect(b) && OrderKept(b) && CutsPaid(b) && Replies(b)
    && b.history == Newest(b.emitted)
  }

  lemma InitialSound()
    ensures Sound(INITIAL)
  {
    assert Line(INITIAL) == Upto(0);
    assert CutEvents(INITIAL) == {} && CancelledTasks(INITIAL) == {};
  }

  lemma StepSound(b: Bus, step: Step)
    requires Sound(b) && Enabled(b, step)
    ensures Sound(Next(b, step))
  {
    assert |b.place| == |b.emitted|;
    hide Conserved, Fifo, Numbered, NoneDirect, OrderKept, CutsPaid, Replies, Next, Newest;
    StepNoneDirect(b, step);
    StepConserves(b, step);
    StepFifo(b, step);
    StepNumbered(b, step);
    StepOrder(b, step);
    StepCuts(b, step);
    StepReplies(b, step);
    StepHistory(b, step);
  }

  /** Under every interleaving: no event is lost or doubled, the queue is first in first out, the
      history is the newest events, waiters hold first replies, and cuts are paid for by stops. */
  lemma {:induction false} EveryStateSound(states: seq<Bus>, steps: seq<Step>, k: nat)
    requires Run(states, steps) && k < |states|
    ensures Sound(states[k])
  {
    if k == 0 {
      InitialSound();
    } else {
      EveryStateSound(states, steps, k - 1);
      StepSound(states[k - 1], steps[k - 1]);
    }
  }

  /** An emission that is delivered at once although older events still wait in the queue. */
  predicate Overtakes(b: Bus, step: Step) {
    (step.Emit? || step.EmitAndWait?) && !b.running && b.queue != []
  }

  /** Deliveries begin in emission order exactly as long as no event was emitted, with the bus not
      running, while others were still queued. */
  lemma {:induction false} InOrderIffNeverOvertaken(states: seq<Bus>, steps: seq<Step>, k: nat)
    requires Run(states, steps) && k < |states|
    ensures Line(states[k]) == Upto(|states[k].emitted|) <==> forall j :: 0 <= j < k ==> !Overtakes(states[j], steps[j])
  {
    EveryStateSound(states, steps, k);
    var line := Line(states[k]);
    if states[k].overtaken {
      var i, j :| 0 <= i < j < |line| && line[i] > line[j];
    }
    OvertakenSoFar(states, steps, k);
  }

  lemma {:induction false} OvertakenSoFar(states: seq<Bus>, steps: seq<Step>, k: nat)
    requires Run(states, steps) && k < |states|
    ensures states[k].overtaken <==> exists j :: 0 <= j < k && Overtakes(states[j], steps[j])
  {
    hide Next, Overtakes;
    if k > 0 {
      OvertakenSoFar(states, steps, k - 1);
      OvertakenStep(states[k - 1], steps[k - 1]);
    }
  }

  lemma OvertakenStep(b: Bus, step: Step)
    requires Enabled(b, step)
    ensures Next(b, step).overtaken <==> b.overtaken || Overtakes(b, step)
  {
    hide Next, Enabled;
    if step.Emit? || step.EmitAndWait? {
      OvertakenByEmission(b, step);
    } else if step.Take? || step.FlushTake? {
      OvertakenByTaking(b, step);
    } else {
      QuietSame(b, step);
    }
  }

  lemma OvertakenByEmission(b: Bus, step: Step)
    requires step.Emit? || step.EmitAndWait?
    ensures Next(b, step).overtaken <==> b.overtaken || Overtakes(b, step)
  {
    hide Remembered, Answered, Move;
  }

  lemma OvertakenByTaking(b: Bus, step: Step)
    requires Enabled(b, step) && (step.Take? || step.FlushTake?)
    ensures Next(b, step).overtaken == b.overtaken
  {
    hide Move;
  }

  // ---- which events are cut short ----

  /** The event the current dispatch task is delivering: what a `stop` that begins now interrupts. */
  function InDelivery(b: Bus): Option<nat> {
    if b.current.Some? && b.current.value in b.tasks then b.tasks[b.current.value].inFlight else None
  }

  /** In delivery by a task that has been cancelled. */
  ghost predicate Doomed(b: Bus, n: nat) {
    exists t :: t in b.tasks && b.tasks[t].cancelled && b.tasks[t].inFlight == Some(n)
  }

  /** Only a stop dooms an event, the one in delivery when it begins, and only a doomed event is cut. */
  ghost predicate DoomFair(b: Bus, step: Step, c: Bus) {
    && (forall n: nat :: Doomed(c, n) ==> Doomed(b, n) || (step.StopBegin? && InDelivery(b) == Some(n)))
    && (forall n: nat :: IsAt(c, n, CutShort) ==> IsAt(b, n, CutShort) || Doomed(b, n))
  }

  lemma SameTasksFair(b: Bus, step: Step, c: Bus)
    requires c.tasks == b.tasks
    requires forall n: nat :: IsAt(c, n, CutShort) ==> IsAt(b, n, CutShort)
    ensures DoomFair(b, step, c)
  {
    forall n: nat | Doomed(c, n)
      ensures Doomed(b, n)
    {
      var t :| t in c.tasks && c.tasks[t].cancelled && c.tasks[t].inFlight == Some(n);
      assert t in b.tasks && b.tasks[t].cancelled;
    }
  }

  lemma EmitCutsNothing(b: Bus, event: Event)
    ensures Emitted(b, event).tasks == b.tasks
    ensures forall n: nat :: IsAt(Emitted(b, event), n, CutShort) ==> IsAt(b, n, CutShort)
  {
    hide Remembered, Answered;
  }

  lemma TaskFair(b: Bus, step: Step)
    requires Enabled(b, step) && (step.Start? || step.Take? || step.TaskDone? || step.Exit?)
    ensures DoomFair(b, step, Next(b, step))
  {
    hide Emitted, Registered;
    var c := Next(b, step);
    forall n: nat | Doomed(c, n)
      ensures Doomed(b, n)
    {
      var t :| t in c.tasks && c.tasks[t].cancelled && c.tasks[t].inFlight == Some(n);
      assert t in b.tasks && b.tasks[t] == c.tasks[t];
    }
  }

  lemma CutFair(b: Bus, t: nat)
    requires Enabled(b, Cut(t))
    ensures DoomFair(b, Cut(t), Next(b, Cut(t)))
  {
    hide Emitted, Registered;
    var c := Next(b, Cut(t));
    assert Doomed(b, b.tasks[t].inFlight.value);
    forall n: nat | Doomed(c, n)
      ensures Doomed(b, n)
    {
      var u :| u in c.tasks && c.tasks[u].cancelled && c.tasks[u].inFlight == Some(n);
      assert u in b.tasks && b.tasks[u] == c.tasks[u];
    }
  }

  lemma StopBeginFair(b: Bus)
    ensures DoomFair(b, StopBegin, Next(b, StopBegin))
  {
    hide Emitted, Registered;
    var c := Next(b, StopBegin);
    forall n: nat | Doomed(c, n)
      ensures Doomed(b, n) || InDelivery(b) == Some(n)
    {
      var t :| t in c.tasks && c.tasks[t].cancelled && c.tasks[t].inFlight == Some(n);
      assert t in b.tasks && b.tasks[t].inFlight == Some(n);
    }
  }

  lemma StepFair(b: Bus, step: Step)
    requires Enabled(b, step)
    ensures DoomFair(b, step, Next(b, step))
  {
    hide Emitted, DoomFair;
    match step
    case Emit(event) =>
      EmitCutsNothing(b, event);
      SameTasksFair(b, step, Next(b, step));
    case EmitAndWait(event) =>
      EmitCutsNothing(Registered(b, event), event);
      SameTasksFair(b, step, Next(b, step));
    case Start => TaskFair(b, step);
    case Take(_) => TaskFair(b, step);
    case TaskDone(_) => TaskFair(b, step);
    case Exit(_) => TaskFair(b, step);
    case Cut(t) => CutFair(b, t);
    case StopBegin => StopBeginFair(b);
    case _ => SameTasksFair(b, step, Next(b, step));
  }

  /** Step `m` begins a stop while event `n` is in delivery. */
  ghost predicate StopsOn(states: seq<Bus>, steps: seq<Step>, m: nat, n: nat)
    requires m < |steps| < |states|
  {
    steps[m].StopBegin? && InDelivery(states[m]) == Some(n)
  }

  /** Some stop that began in steps `i` to `k` did so with event `n` in delivery. */
  ghost predicate StoppedIn(states: seq<Bus>, steps: seq<Step>, i: nat, k: nat, n: nat)
    requires k <= |steps| < |states|
  {
    exists m :: i <= m < k && StopsOn(states, steps, m, n)
  }

  lemma StoppedLonger(states: seq<Bus>, steps: seq<Step>, i: nat, k: nat, n: nat)
    requires i <= k < |steps| < |states|
    ensures StoppedIn(states, steps, i, k, n) ==> StoppedIn(states, steps, i, k + 1, n)
    ensures steps[k].StopBegin? && InDelivery(states[k]) == Some(n) ==> StoppedIn(states, steps, i, k + 1, n)
  {
    hide InDelivery;
    assert steps[k].StopBegin? && InDelivery(states[k]) == Some(n) ==> StopsOn(states, steps, k, n);
  }

  lemma RunLength(states: seq<Bus>, steps: seq<Step>)
    requires Run(states, steps)
    ensures |states| == |steps| + 1
  {
  }

  lemma RunStep(states: seq<Bus>, steps: seq<Step>, k: nat)
    requires Run(states, steps) && k < |steps|
    ensures |states| == |steps| + 1 && Enabled(states[k], steps[k]) && states[k + 1] == Next(states[k], steps[k])
  {
  }

  /** An event that was cut short between two moments of a run, or is doomed at the second, was doomed at the
      first or was in delivery when some stop began between them. */
  lemma {:induction false} CutSince(states: seq<Bus>, steps: seq<Step>, i: nat, k: nat, n: nat)
    requires Run(states, steps) && i <= k < |states|
    requires IsAt(states[k], n, CutShort) || Doomed(states[k], n)
    ensures IsAt(states[i], n, CutShort) || Doomed(states[i], n) || StoppedIn(states, steps, i, k, n)
    decreases k
  {
    hide Next, Enabled, Doomed, InDelivery, IsAt, StoppedIn;
    if k > i {
      StepFair(states[k - 1], steps[k - 1]);
      StoppedLonger(states, steps, i, k - 1, n);
      if IsAt(states[k - 1], n, CutShort) || Doomed(states[k - 1], n) {
        CutSince(states, steps, i, k - 1, n);
      }
    }
  }

  /** In every run, an event that was cut short was in delivery by the current dispatch task when some stop
      began; each stop so interrupts at most the one event its task was delivering. */
  lemma CutByAStop(states: seq<Bus>, steps: seq<Step>, k: nat, n: nat)
    requires Run(states, steps) && k < |states| && IsAt(states[k], n, CutShort)
    ensures exists i :: 0 <= i < k && StopsOn(states, steps, i, n)
  {
    hide Next, Enabled, InDelivery;
    CutSince(states, steps, 0, k, n);
    assert states[0].tasks == map[] && |states[0].place| == 0;
  }

  // ---- a whole stop ----

  /** From the moment stop `s` cancelled task `t` until it returns. */
  ghost predicate Stopping(b: Bus, s: nat, t: Option<nat>) {
    && s < b.stopsMade
    && (t.Some? ==> t.value < b.tasksMade)
    && (t.Some? && t.value in b.tasks ==> b.tasks[t.value].cancelled)
    && (s in b.stoppers ==>
          || (t.Some? && b.stoppers[s] == Awaiting(t.value))
          || (b.stoppers[s].Flushing? && (t.Some? ==> t.value !in b.tasks)))
  }

  lemma StepStopping(b: Bus, step: Step, s: nat, t: Option<nat>)
    requires Numbered(b) && Enabled(b, step) && Stopping(b, s, t)
    ensures Stopping(Next(b, step), s, t)
  {
    hide Next, Enabled, Stopping;
    match step
    case Emit(event) => EmitStopping(b, event, s, t);
    case EmitAndWait(event) => EmitStopping(b, event, s, t);
    case Respond(_) => OtherStopping(b, step, s, t);
    case TimeOut(_) => OtherStopping(b, step, s, t);
    case DirectDone(_) => OtherStopping(b, step, s, t);
    case StopBegin => StopStopping(b, step, s, t);
    case StopResume(_) => StopStopping(b, step, s, t);
    case FlushTake(_) => StopStopping(b, step, s, t);
    case FlushDone(_) => StopStopping(b, step, s, t);
    case StopEnd(_) => StopStopping(b, step, s, t);
    case _ => TaskStopping(b, step, s, t);
  }

  lemma EmitStopping(b: Bus, event: Event, s: nat, t: Option<nat>)
    requires Stopping(b, s, t)
    ensures Stopping(Next(b, Emit(event)), s, t) && Stopping(Next(b, EmitAndWait(event)), s, t)
  {
    hide Remembered, Answered;
  }

  lemma OtherStopping(b: Bus, step: Step, s: nat, t: Option<nat>)
    requires Stopping(b, s, t) && Enabled(b, step) && (step.Respond? || step.TimeOut? || step.DirectDone?)
    ensures Stopping(Next(b, step), s, t)
  {
  }

  lemma StopStopping(b: Bus, step: Step, s: nat, t: Option<nat>)
    requires Numbered(b) && Stopping(b, s, t) && Enabled(b, step)
    requires step.StopBegin? || step.StopResume? || step.FlushTake? || step.FlushDone? || step.StopEnd?
    ensures Stopping(Next(b, step), s, t)
  {
  }

  lemma TaskStopping(b: Bus, step: Step, s: nat, t: Option<nat>)
    requires Numbered(b) && Stopping(b, s, t) && Enabled(b, step)
    requires step.Start? || step.Take? || step.TaskDone? || step.Cut? || step.Exit?
    ensures Stopping(Next(b, step), s, t)
  {
  }

  lemma {:induction false} StoppingThroughout(states: seq<Bus>, steps: seq<Step>, i: nat, k: nat)
    requires Run(states, steps) && i < k < |states| && i < |steps| && steps[i].StopBegin?
    ensures Stopping(states[k], states[i].stopsMade, states[i].current)
  {
    hide Next, Enabled, Stopping, Run, Sound, Numbered;
    RunLength(states, steps);
    RunStep(states, steps, k - 1);
    EveryStateSound(states, steps, k - 1);
    SoundNumbered(states[k - 1]);
    if k > i + 1 {
      StoppingThroughout(states, steps, i, k - 1);
      StepStopping(states[k - 1], steps[k - 1], states[i].stopsMade, states[i].current);
    } else {
      StoppingBegins(states[i]);
    }
  }

  lemma SoundNumbered(b: Bus)
    requires Sound(b)
    ensures Numbered(b)
  {
  }

  lemma StoppingBegins(b: Bus)
    requires Numbered(b)
    ensures Stopping(Next(b, StopBegin), b.stopsMade, b.current)
  {
  }

  ghost predicate Nothing(b: Bus, where: Place) {
    forall n :: 0 <= n < |b.place| ==> b.place[n] != where
  }

  /** When a stop returns, the queue is empty, the dispatch task it cancelled is gone, and every event accepted
      before it was taken for delivery; those still undelivered are with another worker. */
  lemma StopDrains(states: seq<Bus>, steps: seq<Step>, i: nat, j: nat)
    requires Run(states, steps) && i < j < |steps|
    requires steps[i].StopBegin? && steps[j] == StopEnd(states[i].stopsMade)
    ensures states[j + 1].queue == []
    ensures states[i].current.Some? ==> states[i].current.value !in states[j + 1].tasks
    ensures Nothing(states[j + 1], Queued) && Nothing(states[j + 1], AtStopper(states[i].stopsMade))
    ensures states[i].current.Some? ==> Nothing(states[j + 1], AtTask(states[i].current.value))
    ensures AllTaken(states[j + 1])
  {
    var after := states[j + 1];
    StoppingThroughout(states, steps, i, j);
    EveryStateSound(states, steps, j + 1);
    forall n | 0 <= n < |after.place|
      ensures after.place[n] != Queued && after.place[n] != AtStopper(states[i].stopsMade)
      ensures states[i].current.Some? ==> after.place[n] != AtTask(states[i].current.value)
    {
      assert Held(after, n);
    }
    AcceptedPlaces(after);
  }

  /** Delivered, or cut short. */
  ghost predicate Settled(b: Bus, n: nat) {
    IsAt(b, n, Finished) || IsAt(b, n, CutShort)
  }

  ghost predicate AtWorker(b: Bus, n: nat) {
    n < |b.place| && (b.place[n].AtTask? || b.place[n].AtStopper?)
  }

  /** Every event accepted has been delivered or cut short, or is in the hands of a worker. */
  ghost predicate AllTaken(b: Bus) {
    forall n :: n in b.accepted ==> Settled(b, n) || AtWorker(b, n)
  }

  ghost predicate AllSettled(b: Bus) {
    forall n :: n in b.accepted ==> Settled(b, n)
  }

  lemma AcceptedPlaces(b: Bus)
    requires NoneDirect(b) && Nothing(b, Queued)
    ensures AllTaken(b)
  {
  }
}
