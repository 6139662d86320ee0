/** The config watcher as concurrent steps: the watch loop, every debounce timer that was ever armed, and any
    number of Close calls, over the mutex, `closed`, the pending timer, the close channel and the wait group. */
module ConfigWatcher {
  import opened Prelude

  /** One run of reload. `Stuck` is a callback that called Close itself and waits for its own mutex. */
  datatype Work = Want | Loading | Callback | Stuck | Over

  datatype LoopPc = Select | Reload(work: Work) | Schedule | Exited

  datatype TimerPc = Armed | Stopped | Fired(work: Work)

  datatype CloserPc = Idle | Locking | Signalling | AwaitingLoop | Releasing | Returned

  datatype State = State(closed: bool, mu: Option<Actor>, timer: Option<nat>, closeCh: bool, fswClosed: bool,
                         ctxDone: bool, sighup: bool, events: nat,
                         loop: LoopPc, timers: seq<TimerPc>, closers: seq<CloserPc>)

  /** Who runs a reload: the watch loop, or the callback of a timer. */
  datatype Actor = Loop | Timer(i: nat)

  /** What happens to the watcher from outside. */
  datatype Input = Sighup | FileEvent | Cancel | CallClose(k: nat)

  datatype LoopStep = Exit | TakeSighup | TakeEvent(ours: bool) | Arm

  datatype ReloadStep = Lock | Loaded(ok: bool) | Finish | CallsClose

  datatype CloseStep = Mark | Signal | Await | Release

  datatype Event =
    | Outside(input: Input)
    | LoopDoes(step: LoopStep)
    | Fire(i: nat)
    | ReloadDoes(a: Actor, reload: ReloadStep)
    | CloseDoes(k: nat, close: CloseStep)

  /** A watcher with any number of Close calls to come; without Start there is no loop to wait for. */
  function Init(started: bool, closers: nat): State {
    State(false, None, None, false, false, false, false, 0, if started then Select else Exited, [],
          seq(closers, i => Idle))
  }

  /** The reload an actor is in, if it is in one. */
  function WorkOf(s: State, a: Actor): Option<Work> {
    match a
    case Loop => if s.loop.Reload? then Some(s.loop.work) else None
    case Timer(i) => if i < |s.timers| && s.timers[i].Fired? then Some(s.timers[i].work) else None
  }

  function WithWork(s: State, a: Actor, w: Work): State
    requires a.Timer? ==> a.i < |s.timers|
  {
    match a
    case Loop => s.(loop := if w.Over? then Select else Reload(w))
    case Timer(i) => s.(timers := s.timers[i := Fired(w)])
  }

  predicate LoopMay(s: State, step: LoopStep) {
    match step
    case Exit => s.loop.Select? && (s.ctxDone || s.closeCh || s.fswClosed)
    case TakeSighup => s.loop.Select? && s.sighup
    case TakeEvent(_) => s.loop.Select? && s.events > 0
    case Arm => s.loop.Schedule? && s.mu.None?
  }

  predicate ReloadMay(s: State, a: Actor, step: ReloadStep) {
    match step
    case Lock => WorkOf(s, a) == Some(Want) && s.mu.None?
    case Loaded(_) => WorkOf(s, a) == Some(Loading)
    case Finish => WorkOf(s, a) == Some(Callback)
    case CallsClose => WorkOf(s, a) == Some(Callback)
  }

  predicate CloseMay(s: State, k: nat, step: CloseStep) {
    k < |s.closers| &&
    match step
    case Mark => s.closers[k].Locking? && s.mu.None?
    case Signal => s.closers[k].Signalling?
    case Await => s.closers[k].AwaitingLoop? && s.loop.Exited?
    case Release => s.closers[k].Releasing?
  }

  predicate Enabled(s: State, e: Event) {
    match e
    case Outside(CallClose(k)) => k < |s.closers| && s.closers[k].Idle?
    case Outside(_) => true
    case LoopDoes(step) => LoopMay(s, step)
    case Fire(i) => i < |s.timers| && s.timers[i].Armed?
    case ReloadDoes(a, step) => ReloadMay(s, a, step)
    case CloseDoes(k, step) => CloseMay(s, k, step)
  }

  /** timer.Stop: an armed timer is disarmed, a fired one runs on. */
  function StopTimer(s: State): seq<TimerPc> {
    if s.timer.Some? && s.timer.value < |s.timers| && s.timers[s.timer.value].Armed?
    then s.timers[s.timer.value := Stopped] else s.timers
  }

  function Receive(s: State, input: Input): State
    requires input.CallClose? ==> input.k < |s.closers|
  {
    match input
    case Sighup => s.(sighup := true)
    case FileEvent => s.(events := s.events + 1)
    case Cancel => s.(ctxDone := true)
    case CallClose(k) => s.(closers := s.closers[k := Locking])
  }

  /** The watch loop; arming is scheduleReload. */
  function LoopStepped(s: State, step: LoopStep): State
    requires LoopMay(s, step)
  {
    match step
    case Exit => s.(loop := Exited)
    case TakeSighup => s.(loop := Reload(Want), sighup := false)
    case TakeEvent(ours) => s.(loop := if ours then Schedule else Select, events := s.events - 1)
    case Arm =>
      if s.closed then s.(loop := Select)
      else s.(loop := Select, timers := StopTimer(s) + [Armed], timer := Some(|s.timers|))
  }

  /** The stage a reload reaches. */
  function NextWork(s: State, step: ReloadStep): Work {
    match step
    case Lock => if s.closed then Over else Loading
    case Loaded(ok) => if ok then Callback else Over
    case Finish => Over
    case CallsClose => Stuck
  }

  /** reload, step by step: it owns the mutex from its lock until it is over. */
  function ReloadStepped(s: State, a: Actor, step: ReloadStep): State
    requires ReloadMay(s, a, step)
  {
    var w := NextWork(s, step);
    WithWork(s, a, w).(mu := if w.Over? then None else Some(a))
  }

  function CloseStepped(s: State, k: nat, step: CloseStep): State
    requires CloseMay(s, k, step)
  {
    match step
    case Mark =>
      if s.closed then s.(closers := s.closers[k := Returned])
      else s.(closed := true, timers := StopTimer(s), timer := None, closers := s.closers[k := Signalling])
    case Signal => s.(closeCh := true, closers := s.closers[k := AwaitingLoop])
    case Await => s.(closers := s.closers[k := Releasing])
    case Release => s.(fswClosed := true, closers := s.closers[k := Returned])
  }

  function Apply(s: State, e: Event): State
    requires Enabled(s, e)
  {
    match e
    case Outside(input) => Receive(s, input)
    case LoopDoes(step) => LoopStepped(s, step)
    case Fire(i) => s.(timers := s.timers[i := Fired(Want)])
    case ReloadDoes(a, step) => ReloadStepped(s, a, step)
    case CloseDoes(k, step) => CloseStepped(s, k, step)
  }

  /** The shared fields, changed by the locked sections as the steps above say. */
  class Watcher {
    var closed: bool
    var timer: Option<nat>
    var timers: seq<TimerPc>
    var closeCh: bool
    var fswClosed: bool

    constructor ()
      ensures forall started, closers :: Agrees(Init(started, closers))
    {
      closed, timer, timers, closeCh, fswClosed := false, None, [], false, false;
    }

    ghost predicate Agrees(s: State)
      reads this
    {
      closed == s.closed && timer == s.timer && timers == s.timers && closeCh == s.closeCh && fswClosed == s.fswClosed
    }

    /** timer.Stop on the pending timer, if there is one. */
    function Disarmed(): seq<TimerPc>
      reads this
    {
      if timer.Some? && timer.value < |timers| && timers[timer.value].Armed?
      then timers[timer.value := Stopped] else timers
    }

    method ScheduleReload(ghost s: State)
      requires Agrees(s) && LoopMay(s, Arm)
      modifies this
      ensures Agrees(LoopStepped(s, Arm))
      ensures closed == old(closed)
      ensures closed ==> timer == old(timer) && timers == old(timers)
      ensures !closed ==> timer == Some(|old(timers)|) && |timers| == |old(timers)| + 1
      ensures !closed ==> timers[|old(timers)|] == Armed
      ensures !closed ==> forall i :: 0 <= i < |old(timers)| ==>
                timers[i] == if old(timer) == Some(i) && old(timers)[i].Armed? then Stopped else old(timers)[i]
    {
      if closed {
        return;
      }
      timers := Disarmed();
      timer := Some(|timers|);
      timers := timers + [Armed];
    }

    /** reload, which holds the mutex throughout: `called` says whether onReload ran. A file that does not load
        keeps the previous configuration. */
    method Reload(ghost s: State, loads: bool) returns (called: bool)
      requires Agrees(s) && s.loop == LoopPc.Reload(Want) && s.mu.None?
      ensures called <==> NextWork(s, Lock).Loading? && NextWork(s, Loaded(loads)).Callback?
      ensures called <==> !closed && loads
    {
      called := false;
      if closed {
        return;
      }
      if loads {
        called := true;
      }
    }

    /** The locked section of Close; `first` says whether this call does the tearing down. */
    method MarkClosed(ghost s: State, k: nat) returns (first: bool)
      requires Agrees(s) && CloseMay(s, k, Mark)
      modifies this
      ensures Agrees(CloseStepped(s, k, Mark))
      ensures first <==> CloseStepped(s, k, Mark).closers[k].Signalling?
      ensures closed && (first <==> !old(closed))
      ensures !first ==> timer == old(timer) && timers == old(timers)
      ensures first ==> timer == None && |timers| == |old(timers)|
      ensures first ==> forall i :: 0 <= i < |timers| ==>
                timers[i] == if old(timer) == Some(i) && old(timers)[i].Armed? then Stopped else old(timers)[i]
    {
      if closed {
        return false;
      }
      closed := true;
      if timer.Some? {
        timers := Disarmed();
        timer := None;
      }
      first := true;
    }
  }

  ghost predicate Legal(s: State, es: seq<Event>)
    decreases |es|
  {
    es == [] || (Enabled(s, es[0]) && Legal(Apply(s, es[0]), es[1..]))
  }

  ghost function Exec(s: State, es: seq<Event>): State
    requires Legal(s, es)
    decreases |es|
  {
    if es == [] then s else Exec(Apply(s, es[0]), es[1..])
  }

  /** An actor that holds the mutex. */
  predicate Holding(s: State, a: Actor) {
    var w := WorkOf(s, a);
    w == Some(Loading) || w == Some(Callback) || w == Some(Stuck)
  }

  /** 1 for the Close call that is tearing the watcher down and has not closed the channel yet. */
  function MaySignal(pc: CloserPc): nat {
    if pc.Signalling? then 1 else 0
  }

  /** The mutex is held by exactly the actor that loads or runs the callback, and by none once closed. */
  ghost predicate MutexInv(s: State) {
    (forall a :: Holding(s, a) <==> s.mu == Some(a)) && (s.closed ==> s.mu.None?)
  }

  ghost predicate CloserOk(s: State, k: nat)
    requires k < |s.closers|
  {
    match s.closers[k]
    case Idle => true
    case Locking => true
    case AwaitingLoop => s.closeCh
    case Releasing => s.closeCh && s.loop.Exited?
    case _ => s.closed
  }

  /** At most one Close call tears the watcher down; the channel is closed at most once. */
  ghost predicate CloseInv(s: State) {
    && (s.closeCh ==> s.closed)
    && SumBy(s.closers, MaySignal) + (if s.closeCh then 1 else 0) <= (if s.closed then 1 else 0)
    && (forall k :: 0 <= k < |s.closers| ==> CloserOk(s, k))
    && (s.loop.Reload? ==> !s.loop.work.Over?)
  }

  ghost predicate Inv(s: State) {
    MutexInv(s) && CloseInv(s)
  }

  /** A step changes the reload of the actor that takes it and of no other. */
  lemma OtherActors(s: State, a: Actor, step: ReloadStep, b: Actor)
    requires ReloadMay(s, a, step)
    ensures WorkOf(ReloadStepped(s, a, step), b) ==
              if a != b then WorkOf(s, b)
              else if a.Loop? && NextWork(s, step).Over? then None
              else Some(NextWork(s, step))
  {
  }

  lemma LoopKeepsHolders(s: State, step: LoopStep, a: Actor)
    requires LoopMay(s, step)
    ensures Holding(LoopStepped(s, step), a) <==> Holding(s, a)
  {
  }

  lemma CloseKeepsHolders(s: State, k: nat, step: CloseStep, a: Actor)
    requires CloseMay(s, k, step)
    ensures Holding(CloseStepped(s, k, step), a) <==> Holding(s, a)
  {
  }

  lemma ReloadMutex(s: State, a: Actor, step: ReloadStep)
    requires MutexInv(s) && ReloadMay(s, a, step)
    ensures MutexInv(ReloadStepped(s, a, step))
  {
    var t := ReloadStepped(s, a, step);
    assert step.Lock? || Holding(s, a);
    forall b ensures Holding(t, b) <==> t.mu == Some(b) {
      OtherActors(s, a, step, b);
      assert Holding(s, b) <==> s.mu == Some(b);
    }
  }

  lemma LoopMutex(s: State, step: LoopStep)
    requires MutexInv(s) && LoopMay(s, step)
    ensures MutexInv(LoopStepped(s, step))
  {
    forall b ensures Holding(LoopStepped(s, step), b) <==> s.mu == Some(b) {
      LoopKeepsHolders(s, step, b);
    }
  }

  lemma CloseMutex(s: State, k: nat, step: CloseStep)
    requires MutexInv(s) && CloseMay(s, k, step)
    ensures MutexInv(CloseStepped(s, k, step))
  {
    forall b ensures Holding(CloseStepped(s, k, step), b) <==> s.mu == Some(b) {
      CloseKeepsHolders(s, k, step, b);
    }
  }

  lemma StepMutex(s: State, e: Event)
    requires MutexInv(s) && Enabled(s, e)
    ensures MutexInv(Apply(s, e))
  {
    match e {
      case ReloadDoes(a, step) => ReloadMutex(s, a, step);
      case LoopDoes(step) => LoopMutex(s, step);
      case CloseDoes(k, step) => CloseMutex(s, k, step);
      case Fire(i) =>
        assert forall b :: Holding(s, b) <==> Holding(Apply(s, e), b);
      case Outside(input) =>
        assert forall b :: WorkOf(Apply(s, e), b) == WorkOf(s, b);
    }
  }

  lemma ReloadLeavesCloseAlone(s: State, a: Actor, step: ReloadStep)
    requires CloseInv(s) && ReloadMay(s, a, step)
    ensures var t := ReloadStepped(s, a, step);
            t.closed == s.closed && t.closeCh == s.closeCh && t.closers == s.closers
            && (s.loop.Exited? ==> t.loop.Exited?) && (t.loop.Reload? ==> !t.loop.work.Over?)
  {
  }

  lemma LoopLeavesCloseAlone(s: State, step: LoopStep)
    requires CloseInv(s) && LoopMay(s, step)
    ensures var t := LoopStepped(s, step);
            t.closed == s.closed && t.closeCh == s.closeCh && t.closers == s.closers
            && !s.loop.Exited? && (t.loop.Reload? ==> !t.loop.work.Over?)
  {
  }

  /** Only Close steps move a Close call under way; nothing reopens the watcher or restarts its loop. */
  lemma OthersLeaveCloseAlone(s: State, e: Event)
    requires CloseInv(s) && Enabled(s, e) && !e.CloseDoes?
    ensures var t := Apply(s, e);
            t.closed == s.closed && t.closeCh == s.closeCh && (s.loop.Exited? ==> t.loop.Exited?)
            && (t.loop.Reload? ==> !t.loop.work.Over?)
            && t.closers == if e.Outside? && e.input.CallClose? then s.closers[e.input.k := Locking] else s.closers
  {
    match e {
      case ReloadDoes(a, step) => ReloadLeavesCloseAlone(s, a, step);
      case LoopDoes(step) => LoopLeavesCloseAlone(s, step);
      case Fire(i) =>
      case Outside(input) =>
    }
  }

  lemma CloseKeeps(s: State, k: nat, step: CloseStep)
    requires CloseInv(s) && CloseMay(s, k, step)
    ensures CloseInv(CloseStepped(s, k, step))
  {
    var t := CloseStepped(s, k, step);
    SumByUpdate(s.closers, MaySignal, k, t.closers[k]);
    forall j | 0 <= j < |t.closers| ensures CloserOk(t, j) {
      assert CloserOk(s, j) && CloserOk(s, k);
    }
  }

  lemma StepClose(s: State, e: Event)
    requires CloseInv(s) && Enabled(s, e)
    ensures CloseInv(Apply(s, e))
  {
    if e.CloseDoes? {
      CloseKeeps(s, e.k, e.close);
    } else {
      OthersLeaveCloseAlone(s, e);
      var t := Apply(s, e);
      if e.Outside? && e.input.CallClose? {
        SumByUpdate(s.closers, MaySignal, e.input.k, Locking);
      }
      forall j | 0 <= j < |t.closers| ensures CloserOk(t, j) {
        assert CloserOk(s, j);
      }
    }
  }

  lemma StepInv(s: State, e: Event)
    requires Inv(s) && Enabled(s, e)
    ensures Inv(Apply(s, e))
  {
    StepMutex(s, e);
    StepClose(s, e);
  }

  lemma InitInv(started: bool, closers: nat)
    ensures Inv(Init(started, closers))
  {
    SumByZero(Init(started, closers).closers, MaySignal);
  }

  lemma {:induction false} RunInv(s: State, es: seq<Event>)
    requires Inv(s) && Legal(s, es)
    ensures Inv(Exec(s, es))
    decreases |es|
  {
    if es != [] {
      StepInv(s, es[0]);
      RunInv(Apply(s, es[0]), es[1..]);
    }
  }

  predicate InCallback(s: State, a: Actor) {
    WorkOf(s, a) == Some(Callback) || WorkOf(s, a) == Some(Stuck)
  }

  /** In every interleaving, at most one onReload runs at a time, and none runs once the watcher is closed. */
  lemma OneCallbackAtATime(started: bool, closers: nat, es: seq<Event>)
    requires Legal(Init(started, closers), es)
    ensures var s := Exec(Init(started, closers), es);
            (forall a, b :: InCallback(s, a) && InCallback(s, b) ==> a == b)
            && (s.closed ==> forall a :: !InCallback(s, a))
            && SumBy(s.closers, MaySignal) + (if s.closeCh then 1 else 0) <= 1
  {
    InitInv(started, closers);
    RunInv(Init(started, closers), es);
    var s := Exec(Init(started, closers), es);
    assert forall a :: InCallback(s, a) ==> Holding(s, a);
  }

  // ---------------------------------------------------------------- what a reload does

  /** A reload, stage by stage: on a closed watcher it ends at its lock; a file that does not load ends it without a
      callback and releases the mutex; one that loads leads to the callback, with the mutex held until that ends. */
  lemma ReloadStages(s: State, a: Actor, step: ReloadStep)
    requires Inv(s) && ReloadMay(s, a, step)
    ensures var t := ReloadStepped(s, a, step);
            (step.Lock? && s.closed ==> t.mu == None && !Holding(t, a) && !InCallback(t, a))
            && (step.Lock? && !s.closed ==> t.mu == Some(a) && WorkOf(t, a) == Some(Loading))
            && (step == Loaded(false) ==> t.mu == None && !Holding(t, a) && !InCallback(t, a))
            && (step == Loaded(true) ==> t.mu == Some(a) && WorkOf(t, a) == Some(Callback))
            && (step.Finish? ==> t.mu == None && !Holding(t, a) && !InCallback(t, a))
  {
    OtherActors(s, a, step, a);
    assert step.Lock? || Holding(s, a);
  }

  /** The watch loop, step by step: a signal starts a reload at once, an event of the watched file arms the timer, an
      event of any other file does nothing, and the loop ends only when told to. */
  lemma LoopStages(s: State, step: LoopStep)
    requires LoopMay(s, step)
    ensures var t := LoopStepped(s, step);
            (step.Exit? ==> t.loop == Exited && (s.ctxDone || s.closeCh || s.fswClosed) && t.timers == s.timers)
            && (step.TakeSighup? ==> s.sighup && !t.sighup && t.loop == LoopPc.Reload(Want) && t.timers == s.timers)
            && (step == TakeEvent(true) ==> t.events == s.events - 1 && t.loop == Schedule && t.timers == s.timers)
            && (step == TakeEvent(false) ==> t == s.(events := s.events - 1))
            && (step.Arm? && s.closed ==> t == s.(loop := Select))
            && (step.Arm? && !s.closed ==>
                  t.loop == Select && |t.timers| == |s.timers| + 1 && t.timers[|s.timers|] == Armed
                  && t.timer == Some(|s.timers|)
                  && forall i :: 0 <= i < |s.timers| ==>
                       t.timers[i] == if s.timer == Some(i) && s.timers[i].Armed? then Stopped else s.timers[i])
  {
  }

  /** Close, step by step: the first call marks the watcher and drops its timer, tells the loop, waits until the loop
      is gone and only then releases the filesystem watch and returns; a repeated call returns at the mark. */
  lemma CloseStages(s: State, k: nat, step: CloseStep)
    requires CloseMay(s, k, step)
    ensures var t := CloseStepped(s, k, step);
            (step.Mark? && s.closed ==> t == s.(closers := s.closers[k := Returned]))
            && (step.Mark? && !s.closed ==> t.closed && t.timer == None && t.closers == s.closers[k := Signalling])
            && (step.Signal? ==> t == s.(closeCh := true, closers := s.closers[k := AwaitingLoop]))
            && (step.Await? ==> s.loop == Exited && t == s.(closers := s.closers[k := Releasing]))
            && (step.Release? ==> t == s.(fswClosed := true, closers := s.closers[k := Returned]))
  {
  }

  /** How the latest load of an actor in a run came out. */
  ghost function LatestLoad(es: seq<Event>, a: Actor): Option<bool> {
    if es == [] then None else
      var later := LatestLoad(es[1..], a);
      if later.Some? then later
      else if es[0].ReloadDoes? && es[0].a == a && es[0].reload.Loaded? then Some(es[0].reload.ok)
      else None
  }

  lemma LoopEntersNone(s: State, step: LoopStep, a: Actor)
    requires LoopMay(s, step)
    ensures InCallback(LoopStepped(s, step), a) ==> InCallback(s, a)
  {
  }

  lemma CloseEntersNone(s: State, k: nat, step: CloseStep, a: Actor)
    requires CloseMay(s, k, step)
    ensures InCallback(CloseStepped(s, k, step), a) ==> InCallback(s, a)
  {
  }

  /** One step brings an actor into a callback only by loading the file, and a failed load takes it out. */
  lemma StepIntoCallback(s: State, e: Event, a: Actor)
    requires Enabled(s, e) && InCallback(Apply(s, e), a)
    ensures InCallback(s, a) || e == ReloadDoes(a, Loaded(true))
    ensures e != ReloadDoes(a, Loaded(false))
  {
    match e {
      case ReloadDoes(b, step) => OtherActors(s, b, step, a);
      case LoopDoes(step) => LoopEntersNone(s, step, a);
      case CloseDoes(k, step) => CloseEntersNone(s, k, step, a);
      case Fire(i) =>
      case Outside(input) =>
    }
  }

  lemma {:induction false} CallbackFollowsLoad(s: State, es: seq<Event>, a: Actor)
    requires Legal(s, es) && InCallback(Exec(s, es), a)
    ensures LatestLoad(es, a) == Some(true) || (LatestLoad(es, a) == None && InCallback(s, a))
    decreases |es|
  {
    if es != [] {
      CallbackFollowsLoad(Apply(s, es[0]), es[1..], a);
      if LatestLoad(es[1..], a) == None {
        StepIntoCallback(s, es[0], a);
      }
    }
  }

  /** In every run an actor is in a callback only if its latest load of the file succeeded. */
  lemma NoCallbackWithoutLoad(started: bool, closers: nat, es: seq<Event>, a: Actor)
    requires Legal(Init(started, closers), es) && InCallback(Exec(Init(started, closers), es), a)
    ensures LatestLoad(es, a) == Some(true)
  {
    CallbackFollowsLoad(Init(started, closers), es, a);
  }

  /** At most one timer is armed, the pending one, and none once the watcher is closed. */
  ghost predicate OneArmed(s: State) {
    (s.closed ==> s.timer.None?)
    && (s.timer.Some? ==> s.timer.value < |s.timers|)
    && forall i :: 0 <= i < |s.timers| && s.timers[i].Armed? ==> s.timer == Some(i)
  }

  /** Stopping the pending timer leaves none armed. */
  lemma StopArmed(s: State)
    requires OneArmed(s)
    ensures |StopTimer(s)| == |s.timers| && forall i :: 0 <= i < |s.timers| ==> !StopTimer(s)[i].Armed?
  {
  }

  lemma LoopArmed(s: State, step: LoopStep)
    requires OneArmed(s) && LoopMay(s, step)
    ensures OneArmed(LoopStepped(s, step))
  {
    StopArmed(s);
  }

  lemma ReloadArmed(s: State, a: Actor, step: ReloadStep)
    requires OneArmed(s) && ReloadMay(s, a, step)
    ensures OneArmed(ReloadStepped(s, a, step))
  {
  }

  lemma CloseArmed(s: State, k: nat, step: CloseStep)
    requires OneArmed(s) && CloseMay(s, k, step)
    ensures OneArmed(CloseStepped(s, k, step))
  {
    StopArmed(s);
  }

  lemma StepArmed(s: State, e: Event)
    requires OneArmed(s) && Enabled(s, e)
    ensures OneArmed(Apply(s, e))
  {
    match e {
      case ReloadDoes(a, step) => ReloadArmed(s, a, step);
      case LoopDoes(step) => LoopArmed(s, step);
      case CloseDoes(k, step) => CloseArmed(s, k, step);
      case Fire(i) =>
      case Outside(input) =>
    }
  }

  /** The debounce, in every run: arming stops the timer armed before, so a burst of file events leaves one timer
      to fire, and Close leaves none. */
  lemma {:induction false} OnePendingTimer(s: State, es: seq<Event>)
    requires OneArmed(s) && Legal(s, es)
    ensures OneArmed(Exec(s, es))
    ensures var t := Exec(s, es);
            (forall i, j :: 0 <= i < j < |t.timers| ==> !(t.timers[i].Armed? && t.timers[j].Armed?))
            && (t.closed ==> forall i :: 0 <= i < |t.timers| ==> !t.timers[i].Armed?)
    decreases |es|
  {
    if es != [] {
      StepArmed(s, es[0]);
      OnePendingTimer(Apply(s, es[0]), es[1..]);
    }
  }

  /** The filesystem watch is released only after the loop has gone, in every run. */
  lemma {:induction false} ReleasedLast(s: State, es: seq<Event>)
    requires Inv(s) && Legal(s, es) && (s.fswClosed ==> s.loop.Exited?)
    ensures Exec(s, es).fswClosed ==> Exec(s, es).loop.Exited?
    decreases |es|
  {
    if es != [] {
      StepInv(s, es[0]);
      if es[0].CloseDoes? {
        assert CloserOk(s, es[0].k);
      } else {
        OthersLeaveCloseAlone(s, es[0]);
        assert Apply(s, es[0]).fswClosed == s.fswClosed;
      }
      ReleasedLast(Apply(s, es[0]), es[1..]);
    }
  }

  // ---------------------------------------------------------------- after Close

  /** After any Close has returned, first or repeated, no onReload is running and none ever starts. */
  lemma {:induction false} QuietAfterClose(s: State, k: nat, es: seq<Event>)
    requires Inv(s) && k < |s.closers| && s.closers[k].Returned? && Legal(s, es)
    ensures forall a :: !InCallback(Exec(s, es), a)
    ensures forall i :: 0 <= i < |es| ==> !(es[i].ReloadDoes? && es[i].reload.Loaded?)
    decreases |es|
  {
    assert CloserOk(s, k);
    forall a ensures !Holding(s, a) {}
    assert forall a :: InCallback(s, a) ==> Holding(s, a);
    if es != [] {
      if es[0].ReloadDoes? && es[0].reload.Loaded? {
        assert Holding(s, es[0].a);
      }
      StepInv(s, es[0]);
      QuietAfterClose(Apply(s, es[0]), k, es[1..]);
    }
  }

  // ---------------------------------------------------------------- Close completes

  /** What a Close call may be waiting for: the reload that holds the mutex it wants, or the watch loop. */
  predicate WaitsFor(s: State, k: nat, e: Event)
    requires k < |s.closers|
  {
    match s.closers[k]
    case Locking => e.ReloadDoes? && s.mu == Some(e.a)
    case AwaitingLoop => e.LoopDoes? || (e.ReloadDoes? && e.a.Loop?)
    case _ => false
  }

  /** A Close call under way can always get on, or waits for the mutex's holder or the loop and that can, unless
      a callback has called Close itself and so waits for the mutex it holds. */
  lemma CloseGetsOn(s: State, k: nat) returns (e: Event)
    requires Inv(s) && k < |s.closers| && !s.closers[k].Idle? && !s.closers[k].Returned?
    requires forall a :: WorkOf(s, a) != Some(Stuck)
    ensures Enabled(s, e) && ((e.CloseDoes? && e.k == k) || WaitsFor(s, k, e))
  {
    assert CloserOk(s, k);
    match s.closers[k] {
      case Locking =>
        if s.mu.None? {
          e := CloseDoes(k, Mark);
        } else {
          var a := s.mu.value;
          assert Holding(s, a);
          e := ReloadDoes(a, if WorkOf(s, a) == Some(Loading) then Loaded(false) else Finish);
        }
      case Signalling => e := CloseDoes(k, Signal);
      case AwaitingLoop =>
        assert !Holding(s, Loop) && WorkOf(s, Loop) != Some(Over);
        match s.loop {
          case Select => e := LoopDoes(Exit);
          case Schedule => e := LoopDoes(Arm);
          case Exited => e := CloseDoes(k, Await);
          case Reload(w) => e := ReloadDoes(Loop, Lock);
        }
      case Releasing => e := CloseDoes(k, Release);
    }
  }

  function WorkRank(w: Work): nat {
    match w
    case Want => 3
    case Loading => 2
    case Callback => 1
    case _ => 0
  }

  function TimerRank(t: TimerPc): nat {
    match t
    case Armed => 4
    case Stopped => 0
    case Fired(w) => WorkRank(w)
  }

  function CloserRank(c: CloserPc): nat {
    match c
    case Locking => 4
    case Signalling => 3
    case AwaitingLoop => 2
    case Releasing => 1
    case _ => 0
  }

  function LoopRank(l: LoopPc): nat {
    match l
    case Exited => 0
    case Select => 1
    case Reload(Over) => 2
    case Reload(w) => 2 + WorkRank(w)
    case Schedule => 6
  }

  /** What the watcher still has to do with the signals and file events it was given. */
  ghost function Pending(s: State): nat {
    LoopRank(s.loop) + (if s.sighup then 5 else 0) + 6 * s.events
    + SumBy(s.timers, TimerRank) + SumBy(s.closers, CloserRank)
  }

  lemma StopCosts(s: State)
    ensures SumBy(StopTimer(s), TimerRank) <= SumBy(s.timers, TimerRank)
  {
    if s.timer.Some? && s.timer.value < |s.timers| && s.timers[s.timer.value].Armed? {
      SumByUpdate(s.timers, TimerRank, s.timer.value, Stopped);
    }
  }

  lemma ReloadPending(s: State, a: Actor, step: ReloadStep)
    requires ReloadMay(s, a, step)
    ensures Pending(ReloadStepped(s, a, step)) < Pending(s)
  {
    if a.Timer? {
      SumByUpdate(s.timers, TimerRank, a.i, Fired(NextWork(s, step)));
    }
  }

  lemma LoopPending(s: State, step: LoopStep)
    requires LoopMay(s, step)
    ensures Pending(LoopStepped(s, step)) < Pending(s)
  {
    StopCosts(s);
    SumByAppend(StopTimer(s), TimerRank, Armed);
  }

  lemma MarkPending(s: State, k: nat)
    requires CloseMay(s, k, Mark)
    ensures Pending(CloseStepped(s, k, Mark)) < Pending(s)
  {
    StopCosts(s);
    SumByUpdate(s.closers, CloserRank, k, if s.closed then Returned else Signalling);
  }

  lemma ClosePending(s: State, k: nat, step: CloseStep)
    requires CloseMay(s, k, step)
    ensures Pending(CloseStepped(s, k, step)) < Pending(s)
  {
    if step.Mark? {
      MarkPending(s, k);
    } else {
      SumByUpdate(s.closers, CloserRank, k, CloseStepped(s, k, step).closers[k]);
    }
  }

  /** Every step of the watcher itself leaves less pending, whatever order the steps come in. */
  lemma StepPending(s: State, e: Event)
    requires Enabled(s, e) && !e.Outside?
    ensures Pending(Apply(s, e)) < Pending(s)
  {
    match e {
      case ReloadDoes(a, step) => ReloadPending(s, a, step);
      case LoopDoes(step) => LoopPending(s, step);
      case CloseDoes(k, step) => ClosePending(s, k, step);
      case Fire(i) => SumByUpdate(s.timers, TimerRank, i, Fired(Want));
    }
  }

  lemma LoopSticksNobody(s: State, step: LoopStep, a: Actor)
    requires LoopMay(s, step) && WorkOf(s, a) != Some(Stuck)
    ensures WorkOf(LoopStepped(s, step), a) != Some(Stuck)
  {
  }

  lemma CloseSticksNobody(s: State, k: nat, step: CloseStep, a: Actor)
    requires CloseMay(s, k, step) && WorkOf(s, a) != Some(Stuck)
    ensures WorkOf(CloseStepped(s, k, step), a) != Some(Stuck)
  {
  }

  lemma NobodyGetsStuck(s: State, e: Event, a: Actor)
    requires Enabled(s, e) && !(e.ReloadDoes? && e.reload.CallsClose?) && WorkOf(s, a) != Some(Stuck)
    ensures WorkOf(Apply(s, e), a) != Some(Stuck)
  {
    match e {
      case ReloadDoes(b, step) => OtherActors(s, b, step, a);
      case LoopDoes(step) => LoopSticksNobody(s, step, a);
      case CloseDoes(k, step) => CloseSticksNobody(s, k, step, a);
      case Fire(i) =>
      case Outside(input) =>
    }
  }

  /** No step of the watcher itself is possible. */
  ghost predicate AtRest(s: State) {
    forall e :: Enabled(s, e) ==> e.Outside?
  }

  ghost predicate NobodyStuck(s: State) {
    forall a :: WorkOf(s, a) != Some(Stuck)
  }

  lemma RestMeansReturned(s: State, k: nat)
    requires Inv(s) && AtRest(s) && NobodyStuck(s) && k < |s.closers|
    ensures s.closers[k].Idle? || s.closers[k].Returned?
  {
    if !s.closers[k].Idle? && !s.closers[k].Returned? {
      var e := CloseGetsOn(s, k);
    }
  }

  /** The signals, file events, cancellations and Close calls of a run. */
  ghost function OutsideCount(es: seq<Event>): nat {
    if es == [] then 0 else (if es[0].Outside? then 1 else 0) + OutsideCount(es[1..])
  }

  /** What arrives from outside adds at most six steps. */
  lemma ReceiveCosts(s: State, input: Input)
    requires Enabled(s, Outside(input))
    ensures Pending(Receive(s, input)) <= Pending(s) + 6
  {
    if input.CallClose? {
      SumByUpdate(s.closers, CloserRank, input.k, Locking);
    }
  }

  /** Every Close made outside onReload completes, in every interleaving with signals, file events, cancellation
      and other Close calls: a run is bounded by what it started with and what arrived meanwhile, and whenever
      it cannot go on by itself every Close that was called has returned. */
  lemma {:induction false} EveryCloseCompletes(s: State, es: seq<Event>)
    requires Inv(s) && NobodyStuck(s) && Legal(s, es)
    requires forall e :: e in es ==> !(e.ReloadDoes? && e.reload.CallsClose?)
    ensures |es| <= Pending(s) + 7 * OutsideCount(es)
    ensures AtRest(Exec(s, es)) ==> forall k :: 0 <= k < |Exec(s, es).closers| ==>
              Exec(s, es).closers[k].Idle? || Exec(s, es).closers[k].Returned?
    decreases |es|
  {
    if es != [] {
      StepInv(s, es[0]);
      if es[0].Outside? {
        ReceiveCosts(s, es[0].input);
      } else {
        StepPending(s, es[0]);
      }
      assert es[0] in es;
      forall a ensures WorkOf(Apply(s, es[0]), a) != Some(Stuck) {
        NobodyGetsStuck(s, es[0], a);
      }
      EveryCloseCompletes(Apply(s, es[0]), es[1..]);
    } else if AtRest(s) {
      forall k | 0 <= k < |s.closers| ensures s.closers[k].Idle? || s.closers[k].Returned? {
        RestMeansReturned(s, k);
      }
    }
  }

  /** The condition is needed: a callback that calls Close keeps the mutex for good, and no Close that has not
      passed its lock ever returns. */
  lemma {:induction false} CloseInsideCallbackHangs(s: State, a: Actor, k: nat, es: seq<Event>)
    requires Inv(s) && WorkOf(s, a) == Some(Stuck) && Legal(s, es)
    requires k < |s.closers| && (s.closers[k].Idle? || s.closers[k].Locking?)
    ensures WorkOf(Exec(s, es), a) == Some(Stuck) && !Exec(s, es).closed
    ensures k < |Exec(s, es).closers| && !Exec(s, es).closers[k].Returned?
    decreases |es|
  {
    assert Holding(s, a);
    if es != [] {
      StepInv(s, es[0]);
      if es[0].ReloadDoes? {
        OtherActors(s, es[0].a, es[0].reload, a);
      }
      CloseInsideCallbackHangs(Apply(s, es[0]), a, k, es[1..]);
    }
  }

  /** A run in which a signal's reload calls Close from its callback. */
  const CLOSING_CALLBACK: seq<Event> :=
    [Outside(Sighup), LoopDoes(TakeSighup), ReloadDoes(Loop, Lock), ReloadDoes(Loop, Loaded(true)),
     ReloadDoes(Loop, CallsClose)]

  lemma ClosingCallbackIsStuck(closers: nat)
    ensures Legal(Init(true, closers), CLOSING_CALLBACK)
    ensures var s := Exec(Init(true, closers), CLOSING_CALLBACK);
            WorkOf(s, Loop) == Some(Stuck) && s.closers == Init(true, closers).closers
  {
    var s := Init(true, closers);
    var es := CLOSING_CALLBACK;
    var s1 := Apply(s, es[0]);
    var s2 := Apply(s1, es[1]);
    var s3 := Apply(s2, es[2]);
    var s4 := Apply(s3, es[3]);
    assert es[4..] == [es[4]] && es[4..][1..] == [];
    assert es[3..][1..] == es[4..] && Legal(s4, es[4..]);
    assert es[2..][1..] == es[3..] && Legal(s3, es[3..]);
    assert es[1..][1..] == es[2..] && Legal(s2, es[2..]);
    assert Legal(s1, es[1..]);
  }

  /** No Close that `s` knows of has returned by `t`. */
  ghost predicate NoneReturned(s: State, t: State) {
    |s.closers| <= |t.closers| && forall k :: 0 <= k < |s.closers| ==> !t.closers[k].Returned?
  }

  lemma NoneEverReturns(s: State, more: seq<Event>)
    requires Inv(s) && WorkOf(s, Loop) == Some(Stuck) && Legal(s, more)
    requires forall k :: 0 <= k < |s.closers| ==> s.closers[k].Idle?
    ensures NoneReturned(s, Exec(s, more))
  {
    if s.closers != [] {
      CloseInsideCallbackHangs(s, Loop, |s.closers| - 1, more);
    }
    forall k | 0 <= k < |s.closers| ensures !Exec(s, more).closers[k].Returned? {
      CloseInsideCallbackHangs(s, Loop, k, more);
    }
  }

  /** Such a run exists from the start, and whatever follows it no Close ever returns. */
  lemma CallbackMustNotClose(closers: nat)
    ensures Legal(Init(true, closers), CLOSING_CALLBACK)
    ensures var s := Exec(Init(true, closers), CLOSING_CALLBACK);
            |s.closers| == closers && forall more | Legal(s, more) :: NoneReturned(s, Exec(s, more))
  {
    ClosingCallbackIsStuck(closers);
    InitInv(true, closers);
    RunInv(Init(true, closers), CLOSING_CALLBACK);
    var s := Exec(Init(true, closers), CLOSING_CALLBACK);
    forall more | Legal(s, more) ensures NoneReturned(s, Exec(s, more)) {
      NoneEverReturns(s, more);
    }
  }
}
