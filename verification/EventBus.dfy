/**
 The bus object: its fields, and one method for every atomic stretch of `emit`, `emit_and_wait`,
 `start`, `stop` and the dispatch loop.  The scheduler of the event loop decides which method runs
 next; `bus` is the protocol state the fields stand for.
 */
module EventBus {
  import opened Optional
  import opened BusProtocol

  type Handler = nat

  class CognitiveBus {
    const glob: (string, string) -> bool
    var running: bool
    var dispatchTask: Option<nat>
    var queue: seq<Event>
    var history: seq<Event>
    var pending: map<string, nat>
    var futures: map<nat, Option<Event>>
    var subscribers: map<string, set<Handler>>
    var tasksMade: nat
    var futuresMade: nat

    ghost var bus: Bus

    ghost predicate FuturesMirror()
      reads this
    {
      && pending == bus.pending && futures.Keys == bus.waiters.Keys
      && forall w :: w in futures ==> futures[w] == bus.waiters[w].result
    }

    /** The fields are those of the protocol state; the queue holds the events behind the tickets. */
    ghost predicate Mirrors()
      reads this
    {
      && tasksMade == bus.tasksMade && futuresMade == bus.waitsMade
      && running == bus.running && dispatchTask == bus.current
      && history == bus.history
      && |queue| == |bus.queue|
      && (forall k :: 0 <= k < |queue| ==> bus.queue[k] < |bus.emitted| && queue[k] == bus.emitted[bus.queue[k]])
      && FuturesMirror()
    }

    ghost predicate Valid()
      reads this
    {
      && Sound(bus) && Mirrors()
      && (forall p :: p in subscribers ==> subscribers[p] != {})
    }

    /** The handlers an event of this kind goes to, each with the pattern that matched. */
    ghost function Targets(kind: string): set<(string, Handler)>
      reads this
    {
      set p, h | p in subscribers && glob(kind, p) && h in subscribers[p] :: (p, h)
    }

    constructor (glob: (string, string) -> bool)
      ensures Valid() && bus == INITIAL && subscribers == map[] && this.glob == glob
    {
      this.glob := glob;
      running, dispatchTask, queue, history := false, None, [], [];
      pending, futures, subscribers, tasksMade, futuresMade := map[], map[], map[], 0, 0;
      bus := INITIAL;
      new;
      InitialSound();
    }

    // ---- subscriptions ----

    method Subscribe(pattern: string, handler: Handler)
      requires Valid()
      modifies this`subscribers
      ensures Valid()
      ensures forall p, h :: (p in subscribers && h in subscribers[p]) <==>
                (p in old(subscribers) && h in old(subscribers)[p]) || (p == pattern && h == handler)
    {
      if pattern !in subscribers {
        subscribers := subscribers[pattern := {}];
      }
      subscribers := subscribers[pattern := subscribers[pattern] + {handler}];
    }

    /** A pattern left without handlers is forgotten, so subscribing and unsubscribing a new handler
        leaves the table as it was. */
    method Unsubscribe(pattern: string, handler: Handler)
      requires Valid()
      modifies this`subscribers
      ensures Valid()
      ensures forall p, h :: (p in subscribers && h in subscribers[p]) <==>
                (p in old(subscribers) && h in old(subscribers)[p]) && !(p == pattern && h == handler)
    {
      if pattern in subscribers && handler in subscribers[pattern] {
        var rest := subscribers[pattern] - {handler};
        assert forall h :: h in rest <==> h in subscribers[pattern] && h != handler;
        subscribers := subscribers[pattern := rest];
        if subscribers[pattern] == {} {
          subscribers := subscribers - {pattern};
        }
      }
    }

    method FindMatching(kind: string) returns (hits: set<(string, Handler)>)
      requires Valid()
      ensures hits == Targets(kind)
    {
      hits := {};
      var left := subscribers.Keys;
      while left != {}
        invariant left <= subscribers.Keys
        invariant hits == set p, h | p in subscribers && p !in left && glob(kind, p) && h in subscribers[p] :: (p, h)
        decreases left
      {
        var pattern :| pattern in left;
        if glob(kind, pattern) {
          hits := hits + set h | h in subscribers[pattern] :: (pattern, h);
        }
        left := left - {pattern};
      }
    }

    // ---- emitting ----

    method Remember(event: Event)
      modifies this`history
      ensures history == Remembered(old(history), event)
    {
      if |history| >= HISTORY_CAP {
        history := history[|history| - HISTORY_CAP + 1..];
      }
      history := history + [event];
    }

    method Answer(event: Event)
      requires FuturesMirror()
      modifies this`futures
      ensures futures.Keys == Answered(bus, event).Keys
      ensures forall w :: w in futures ==> futures[w] == Answered(bus, event)[w].result
    {
      if event.correlation != "" && event.correlation in pending {
        var future := pending[event.correlation];
        if future in futures && futures[future].None? {
          futures := futures[future := Some(event)];
        }
      }
    }

    /** Remember the event, answer a waiter, and queue the event if the bus is running. */
    method Publish(event: Event)
      requires Mirrors()
      modifies this`history, this`futures, this`queue, this`bus
      ensures Mirrors() && bus == Emitted(old(bus), event)
    {
      hide Remembered, Answered;
      Remember(event);
      Answer(event);
      if running {
        queue := queue + [event];
      }
      bus := Emitted(bus, event);
    }

    /** `emit` up to its first suspension; with the bus not running the event is delivered at once. */
    method Emit(event: Event) returns (hits: set<(string, Handler)>)
      requires Valid()
      modifies this`history, this`futures, this`queue, this`bus
      ensures Valid() && bus == Next(old(bus), BusProtocol.Emit(event))
      ensures hits == if running then {} else Targets(event.kind)
    {
      hide Sound, Emitted;
      StepSound(bus, BusProtocol.Emit(event));
      Publish(event);
      hits := {};
      if !running {
        hits := FindMatching(event.kind);
      }
    }

    method EmitAndWait(event: Event) returns (future: nat, hits: set<(string, Handler)>)
      requires Valid()
      modifies this`history, this`futures, this`queue, this`bus, this`pending, this`futuresMade
      ensures Valid() && bus == Next(old(bus), BusProtocol.EmitAndWait(event)) && future == old(bus).waitsMade
      ensures hits == if running then {} else Targets(event.kind)
    {
      hide Sound, Emitted;
      StepSound(bus, BusProtocol.EmitAndWait(event));
      future := futuresMade;
      futuresMade := futuresMade + 1;
      pending := pending[event.id := future];
      futures := futures[future := None];
      bus := Registered(bus, event);
      Publish(event);
      hits := {};
      if !running {
        hits := FindMatching(event.kind);
      }
    }

    /** A wait ends with the first event emitted since it began that answers it, and leaves no trace. */
    method Respond(future: nat, id: string) returns (response: Event)
      requires Valid() && Enabled(bus, BusProtocol.Respond(future)) && id == bus.waiters[future].id
      modifies this`pending, this`futures, this`bus
      ensures Valid() && bus == Next(old(bus), BusProtocol.Respond(future))
      ensures var waiter := old(bus).waiters[future];
              waiter.since <= |bus.emitted| && Some(response) == FirstReply(bus.emitted, waiter.since, waiter.id)
    {
      StepSound(bus, BusProtocol.Respond(future));
      response := futures[future].value;
      pending := pending - {id};
      futures := futures - {future};
      bus := Next(bus, BusProtocol.Respond(future));
    }

    method TimeOut(future: nat, id: string)
      requires Valid() && Enabled(bus, BusProtocol.TimeOut(future)) && id == bus.waiters[future].id
      modifies this`pending, this`futures, this`bus
      ensures Valid() && bus == Next(old(bus), BusProtocol.TimeOut(future))
    {
      StepSound(bus, BusProtocol.TimeOut(future));
      pending := pending - {id};
      futures := futures - {future};
      bus := Next(bus, BusProtocol.TimeOut(future));
    }

    // ---- starting, dispatching, stopping ----

    method Start()
      requires Valid()
      modifies this`running, this`dispatchTask, this`tasksMade, this`bus
      ensures Valid() && bus == Next(old(bus), BusProtocol.Start)
    {
      hide Sound;
      StepSound(bus, BusProtocol.Start);
      bus := Next(bus, BusProtocol.Start);
      if running {
        return;
      }
      running := true;
      dispatchTask := Some(tasksMade);
      tasksMade := tasksMade + 1;
    }

    /** One turn of the dispatch loop up to the delivery: the oldest queued event is taken. */
    method Take(task: nat) returns (event: Event, hits: set<(string, Handler)>)
      requires Valid() && Enabled(bus, BusProtocol.Take(task))
      modifies this`queue, this`bus
      ensures Valid() && bus == Next(old(bus), BusProtocol.Take(task))
      ensures event == old(queue)[0] && queue == old(queue)[1..] && hits == Targets(event.kind)
    {
      hide Sound;
      StepSound(bus, BusProtocol.Take(task));
      event := queue[0];
      queue := queue[1..];
      bus := Next(bus, BusProtocol.Take(task));
      hits := FindMatching(event.kind);
    }

    /** `stop` up to its first suspension. */
    method StopBegin()
      requires Valid()
      modifies this`running, this`bus
      ensures Valid() && bus == Next(old(bus), BusProtocol.StopBegin)
    {
      hide Sound;
      StepSound(bus, BusProtocol.StopBegin);
      running := false;
      bus := Next(bus, BusProtocol.StopBegin);
    }

    /** One turn of the flush loop of `stop`: the oldest queued event, or the end of the stop. */
    method FlushNext(stopper: nat) returns (event: Option<Event>, hits: set<(string, Handler)>)
      requires Valid() && stopper in bus.stoppers && bus.stoppers[stopper] == Flushing(None)
      modifies this`queue, this`bus
      ensures Valid()
      ensures old(queue) == [] ==> event == None && hits == {} && queue == [] && bus == Next(old(bus), StopEnd(stopper))
      ensures old(queue) != [] ==>
                && event == Some(old(queue)[0]) && queue == old(queue)[1..] && hits == Targets(event.value.kind)
                && bus == Next(old(bus), FlushTake(stopper))
    {
      hide Sound;
      event, hits := None, {};
      if queue == [] {
        StepSound(bus, StopEnd(stopper));
        bus := Next(bus, StopEnd(stopper));
        return;
      }
      StepSound(bus, FlushTake(stopper));
      event := Some(queue[0]);
      queue := queue[1..];
      bus := Next(bus, FlushTake(stopper));
      hits := FindMatching(event.value.kind);
    }

    /** Steps that end a delivery or a task touch none of the fields. */
    ghost method Elsewhere(step: Step)
      requires Valid() && Enabled(bus, step)
      requires step.DirectDone? || step.TaskDone? || step.Cut? || step.Exit? || step.StopResume? || step.FlushDone?
      modifies this`bus
      ensures Valid() && bus == Next(old(bus), step)
    {
      hide Sound;
      StepSound(bus, step);
      bus := Next(bus, step);
    }
  }
}
