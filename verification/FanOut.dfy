/** The bounded fan-out of a cycle as a step system: the loop that starts targets, the targets themselves and
    concurrent SetClients calls interleave freely. */
module FanOut {
  import opened Prelude
  import opened Collector

  datatype Slot = NotStarted | Running | Finished

  /** One result: the client it was asked of and the answer. */
  datatype Result = Result(client: nat, answer: int)

  /** The cycle: `next` is the loop's position, `waiting` says that it reached g.Wait. */
  datatype Cycle = Cycle(copy: seq<nat>, slots: seq<Slot>, results: seq<Option<Result>>, next: nat,
                         waiting: bool, returned: bool)

  datatype State = State(clients: seq<nat>, limit: int, cycle: Option<Cycle>)

  datatype Event =
    | SetClients(clients: seq<nat>)
    | Begin
    | Spawn
    | Wait
    | Finish(i: nat, answer: int)
    | Return

  function IsRunning(s: Slot): nat {
    if s.Running? then 1 else 0
  }

  ghost predicate Enabled(s: State, e: Event) {
    match e
    case SetClients(_) => true
    case Begin => s.cycle.None?
    case Spawn => s.cycle.Some? && s.cycle.value.next < |s.cycle.value.copy| && !s.cycle.value.waiting
                  && s.cycle.value.next < |s.cycle.value.slots|
                  && SumBy(s.cycle.value.slots, IsRunning) < CollectionLoop.Limit(s.limit)
    case Wait => s.cycle.Some? && s.cycle.value.next == |s.cycle.value.copy| && !s.cycle.value.waiting
    case Finish(i, _) => s.cycle.Some? && i < |s.cycle.value.slots| && s.cycle.value.slots[i].Running?
                         && i < |s.cycle.value.copy| && i < |s.cycle.value.results|
    case Return => s.cycle.Some? && s.cycle.value.waiting && !s.cycle.value.returned
                   && SumBy(s.cycle.value.slots, IsRunning) == 0
  }

  function Apply(s: State, e: Event): State
    requires Enabled(s, e)
  {
    match e
    case SetClients(cs) => s.(clients := cs)
    case Begin =>
      var slots, results := seq(|s.clients|, i => NotStarted), seq(|s.clients|, i => None);
      s.(cycle := Some(Cycle(s.clients, slots, results, 0, false, false)))
    case Spawn =>
      var c := s.cycle.value;
      s.(cycle := Some(c.(slots := c.slots[c.next := Running], next := c.next + 1)))
    case Wait => s.(cycle := Some(s.cycle.value.(waiting := true)))
    case Finish(i, a) =>
      var c := s.cycle.value;
      s.(cycle := Some(c.(slots := c.slots[i := Finished], results := c.results[i := Some(Result(c.copy[i], a))])))
    case Return => s.(cycle := Some(s.cycle.value.(returned := true)))
  }

  ghost predicate Legal(s: State, es: seq<Event>)
    decreases |es|
  {
    es == [] || (Enabled(s, es[0]) && Legal(Apply(s, es[0]), es[1..]))
  }

  ghost function Exec(s: State, es: seq<Event>): State
    requires Legal(s, es)
    decreases |es|
  {
    if es == [] then s else Exec(Apply(s, es[0]), es[1..])
  }

  ghost predicate Inv(limit: int, copy: seq<nat>, c: Cycle) {
    && c.copy == copy && |c.slots| == |copy| && |c.results| == |copy| && c.next <= |copy|
    && SumBy(c.slots, IsRunning) <= CollectionLoop.Limit(limit)
    && (forall i :: 0 <= i < |copy| ==> (c.slots[i].NotStarted? <==> c.next <= i))
    && (forall i :: 0 <= i < |copy| ==> (c.slots[i].Finished? <==> c.results[i].Some?))
    && (forall i :: 0 <= i < |copy| && c.results[i].Some? ==> c.results[i].value.client == copy[i])
    && (c.waiting ==> c.next == |copy|)
    && (c.returned ==> c.waiting && forall i :: 0 <= i < |copy| ==> c.slots[i].Finished?)
  }

  lemma BeginInv(s: State)
    requires Enabled(s, Begin)
    ensures Apply(s, Begin).cycle.Some? && Inv(s.limit, s.clients, Apply(s, Begin).cycle.value)
  {
    SumByZero(Apply(s, Begin).cycle.value.slots, IsRunning);
  }

  lemma {:induction false} NoneRunning(slots: seq<Slot>, i: nat)
    requires SumBy(slots, IsRunning) == 0 && i < |slots|
    ensures !slots[i].Running?
  {
    SumByUpdate(slots, IsRunning, i, NotStarted);
  }

  lemma StepInv(s: State, e: Event, copy: seq<nat>)
    requires s.cycle.Some? && Inv(s.limit, copy, s.cycle.value) && Enabled(s, e)
    ensures Apply(s, e).cycle.Some? && Apply(s, e).limit == s.limit && Inv(s.limit, copy, Apply(s, e).cycle.value)
  {
    var c := s.cycle.value;
    match e {
      case Spawn => SumByUpdate(c.slots, IsRunning, c.next, Running);
      case Finish(i, a) => SumByUpdate(c.slots, IsRunning, i, Finished);
      case Return =>
        forall i | 0 <= i < |copy| ensures c.slots[i].Finished? {
          NoneRunning(c.slots, i);
        }
      case _ =>
    }
  }

  lemma {:induction false} BoundedAndOrdered(s: State, es: seq<Event>, copy: seq<nat>)
    requires s.cycle.Some? && Inv(s.limit, copy, s.cycle.value) && Legal(s, es)
    ensures var t := Exec(s, es);
            t.cycle.Some? && Inv(s.limit, copy, t.cycle.value)
            && SumBy(t.cycle.value.slots, IsRunning) <= (if s.limit <= 0 then 1 else s.limit)
            && (t.cycle.value.returned ==>
                  |t.cycle.value.results| == |copy|
                  && forall i :: 0 <= i < |copy| ==>
                       t.cycle.value.results[i].Some? && t.cycle.value.results[i].value.client == copy[i])
    decreases |es|
  {
    if es != [] {
      StepInv(s, es[0], copy);
      BoundedAndOrdered(Apply(s, es[0]), es[1..], copy);
    }
  }

  /** A cycle begun on a client set, in every interleaving of starts, finishes and SetClients calls: never more
      targets in flight than the limit, and once it returns, one result per client of the set it began with,
      in that order. */
  lemma CycleReturnsInOrder(s: State, es: seq<Event>)
    requires Enabled(s, Begin) && Legal(Apply(s, Begin), es)
    ensures var t := Exec(Apply(s, Begin), es);
            t.cycle.Some?
            && SumBy(t.cycle.value.slots, IsRunning) <= (if s.limit <= 0 then 1 else s.limit)
            && (t.cycle.value.returned ==>
                  |t.cycle.value.results| == |s.clients|
                  && forall i :: 0 <= i < |s.clients| ==>
                       t.cycle.value.results[i].Some? && t.cycle.value.results[i].value.client == s.clients[i])
  {
    BeginInv(s);
    BoundedAndOrdered(Apply(s, Begin), es, s.clients);
  }

  /** What a target answers stands at its own place under its own client and is never touched again, whatever the
      other targets and SetClients do. */
  lemma {:induction false} AnswersStay(s: State, es: seq<Event>, copy: seq<nat>, i: nat, r: Result)
    requires s.cycle.Some? && Inv(s.limit, copy, s.cycle.value) && Legal(s, es)
    requires i < |copy| && s.cycle.value.results[i] == Some(r)
    ensures Exec(s, es).cycle.Some? && i < |Exec(s, es).cycle.value.results|
    ensures Exec(s, es).cycle.value.results[i] == Some(r)
    decreases |es|
  {
    if es != [] {
      StepInv(s, es[0], copy);
      AnswersStay(Apply(s, es[0]), es[1..], copy, i, r);
    }
  }

  /** A finished target's result is its own answer from then on. */
  lemma FinishedAnswer(s: State, i: nat, answer: int, es: seq<Event>, copy: seq<nat>)
    requires s.cycle.Some? && Inv(s.limit, copy, s.cycle.value)
    requires Enabled(s, Finish(i, answer)) && Legal(Apply(s, Finish(i, answer)), es)
    ensures var t := Exec(Apply(s, Finish(i, answer)), es);
            t.cycle.Some? && i < |t.cycle.value.results| && i < |copy|
            && t.cycle.value.results[i] == Some(Result(copy[i], answer))
  {
    StepInv(s, Finish(i, answer), copy);
    AnswersStay(Apply(s, Finish(i, answer)), es, copy, i, Result(copy[i], answer));
  }

  function SlotWork(s: Slot): nat {
    match s
    case NotStarted => 2
    case Running => 1
    case Finished => 0
  }

  /** What is left of a cycle. */
  ghost function Left(c: Cycle): nat {
    SumBy(c.slots, SlotWork) + (if c.waiting then 0 else 1) + (if c.returned then 0 else 1)
  }

  /** An unfinished cycle can always step by itself, and every such step leaves less to do; only a running
      target's own Finish can be what it waits for. */
  lemma CycleEnds(s: State, copy: seq<nat>) returns (e: Event)
    requires s.cycle.Some? && Inv(s.limit, copy, s.cycle.value) && !s.cycle.value.returned
    ensures Enabled(s, e) && !e.SetClients? && !e.Begin?
    ensures Left(Apply(s, e).cycle.value) < Left(s.cycle.value)
  {
    var c := s.cycle.value;
    if SumBy(c.slots, IsRunning) > 0 {
      var i := SomeRunning(c.slots);
      SumByUpdate(c.slots, SlotWork, i, Finished);
      e := Finish(i, 0);
    } else if c.waiting {
      e := Return;
    } else if c.next < |copy| {
      SumByUpdate(c.slots, SlotWork, c.next, Running);
      e := Spawn;
    } else {
      e := Wait;
    }
  }

  lemma {:induction false} SomeRunning(slots: seq<Slot>) returns (i: nat)
    requires SumBy(slots, IsRunning) > 0
    ensures i < |slots| && slots[i].Running?
  {
    if slots[0].Running? {
      return 0;
    }
    i := SomeRunning(slots[1..]);
    i := i + 1;
  }

  /** Every step of a cycle, not just the chosen one, leaves less to do. */
  lemma EveryStepCounts(s: State, e: Event, copy: seq<nat>)
    requires s.cycle.Some? && Inv(s.limit, copy, s.cycle.value) && Enabled(s, e) && !e.SetClients?
    ensures Left(Apply(s, e).cycle.value) < Left(s.cycle.value)
  {
    var c := s.cycle.value;
    match e {
      case Spawn => SumByUpdate(c.slots, SlotWork, c.next, Running);
      case Finish(i, _) => SumByUpdate(c.slots, SlotWork, i, Finished);
      case _ =>
    }
  }
}
