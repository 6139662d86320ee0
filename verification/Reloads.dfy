/** Reloads at any time, also while the superseded client still has calls to make: what the new client is told,
    when that is final, and what such reloads can cost. */
module Reloads {
  import opened Prelude
  import opened Client
  import opened ClientProtocol
  import opened Lockout

  // ---------------------------------------------------------------- one reload that loses the cooldown

  /** The client that replaces `s` at a reload one second later, whatever `s` is doing. */
  function Replacement(s: State): State {
    Init(s.cfg, |s.pcs|, s.now + 1).(core := HandedOn(s))
  }

  /** What a reload at state `s` hands to the new client. */
  function HandedOn(s: State): Core {
    Carried(s.core, true, NEW_CORE)
  }

  /** Reloading between cycles is what the lockout bound needs: a client swapped while its call is with the
      appliance hands on nothing, so the old and the new client are both rejected within one window although no
      two of their calls overlap in time. The mutex is free at the swap, as carryAuthCooldown requires. */
  lemma ReloadInFlightLosesTheCooldown(start: int)
    ensures exists swapped, last, next ::
              Reaches(Init(Config(true, false), 1, start), swapped) && !swapped.held && Reaches(swapped, last)
              && Reaches(Replacement(swapped), next)
              && last.now < Replacement(swapped).now && CoolingDown(last.core, Replacement(swapped).now) && Quiet(last)
              && last.h.rejections + next.h.rejections == 2 && next.now < start + COOLDOWN
  {
    var i := Init(Config(true, false), 1, start);
    ReachesIsClosed(i);
    var swapped := Asking((t: State) => Reaches(i, t), i);
    ReachesIsClosed(swapped);
    var last := Refused((t: State) => Reaches(swapped, t), swapped);
    var r := Replacement(swapped);
    ReachesIsClosed(r);
    var asking := Asking((t: State) => Reaches(r, t), r);
    var next := Refused((t: State) => Reaches(r, t), asking);
  }

  lemma Asking(R: State -> bool, s: State) returns (t: State)
    requires StepClosed(R) && R(s) && s == Init(Config(true, false), 1, s.now)
    ensures R(t) && t == s.(core := s.core.(active := Some(Xml)), pcs := [Calling(Stats, Xml)])
  {
    t := Apply(s, Plan(0, Stats));
    t := Apply(t, Enter(0));
    t := Apply(t, Cooldown(0));
    t := Apply(t, EnsureLock(0));
    assert t.pcs == [Calling(Stats, Xml)];
  }

  lemma Refused(R: State -> bool, s: State) returns (t: State)
    requires StepClosed(R) && R(s) && s.pcs == [Calling(Stats, Xml)] && !s.held
    ensures R(t) && Quiet(t) && t.now == s.now && t.core.failedAt == Some(s.now)
    ensures t.h.rejections == s.h.rejections + 1
  {
    t := Apply(s, CallEnds(0, Failed(Auth)));
    assert [Auth][0] == Auth;
    t := Apply(t, NoteLock(0));
  }

  // ---------------------------------------------------------------- when the carried cooldown is final

  /** A call that may still record a rejection on the client it runs on: one that a cycle has planned, or one in
      flight that has not come past the answer of the probe or of the active transport. */
  predicate CanStillNote(pc: Pc) {
    pc.Due? || pc.Entered? || pc.Past? || pc.Probing? || pc.Calling? || (pc.Noting? && Auth in pc.err)
  }

  ghost predicate NobodyCanNote(s: State) {
    forall c :: 0 <= c < |s.pcs| ==> !CanStillNote(s.pcs[c])
  }

  /** What a superseded client sees: the calls planned before the reload begin and run on, no cycle plans new
      ones. */
  ghost predicate RunsOut(es: seq<Event>) {
    forall e :: e in es ==> !e.Plan? && !e.Reload?
  }

  ghost predicate Dated(s: State) {
    MutexOk(s) && (s.core.failedAt.Some? ==> s.core.failedAt.value <= s.now)
  }

  lemma StepDated(s: State, e: Event)
    requires Dated(s) && Enabled(s, e)
    ensures Dated(Apply(s, e))
  {
    StepMutex(s, e);
  }

  lemma {:induction false} DatedRuns(w: World, s: State, es: seq<Event>)
    requires Dated(s) && Legal(w, s, es)
    ensures Dated(Exec(w, s, es)) && Exec(w, s, es).cfg == s.cfg
    decreases |es|
  {
    if es != [] {
      StepDated(s, es[0]);
      DatedRuns(w, Apply(s, es[0]), es[1..]);
    }
  }

  lemma StepSettled(s: State, e: Event)
    requires Dated(s) && NobodyCanNote(s) && Enabled(s, e) && !e.Plan? && !e.Reload?
    ensures NobodyCanNote(Apply(s, e))
    ensures HandedOn(Apply(s, e)) == HandedOn(s) || Apply(s, e).core.failedAt.None?
  {
    if !e.Tick? {
      assert !CanStillNote(s.pcs[e.c]);
    }
  }

  lemma {:induction false} SettledKept(w: World, s: State, es: seq<Event>)
    requires Dated(s) && NobodyCanNote(s) && Legal(w, s, es) && RunsOut(es)
    ensures HandedOn(Exec(w, s, es)) == HandedOn(s) || Exec(w, s, es).core.failedAt.None?
    decreases |es|
  {
    if es != [] {
      assert es[0] in es;
      StepDated(s, es[0]);
      StepSettled(s, es[0]);
      SettledKept(w, Apply(s, es[0]), es[1..]);
    }
  }

  function NoteRank(pc: Pc): nat {
    match pc
    case Due(_) => 5
    case Entered(_) => 4
    case Past(_) => 3
    case Probing(_) => 2
    case Calling(_, _) => 1
    case _ => 0
  }

  /** The next step of such a call towards a rejection. */
  function Towards(c: nat, pc: Pc): Event {
    match pc
    case Due(_) => Enter(c)
    case Entered(_) => Cooldown(c)
    case Past(_) => EnsureLock(c)
    case Probing(_) => ProbeEnds(c, Failed(Auth))
    case Calling(_, _) => CallEnds(c, Failed(Auth))
    case _ => NoteLock(c)
  }

  const FAILING: World := (cmd: Cmd, tr: Transport, o: Outcome) => o.Failed?

  lemma StepTowards(s: State, c: nat)
    requires Dated(s) && (s.cfg.xml || s.cfg.json)
    requires c < |s.pcs| && CanStillNote(s.pcs[c]) && (s.held ==> s.pcs[c].Probing?)
    requires CooldownError(s.core, s.now) == NIL
    ensures var e := Towards(c, s.pcs[c]);
            Enabled(s, e) && Answers(FAILING, s, e) && Apply(s, e).now == s.now && Apply(s, e).cfg == s.cfg
            && if s.pcs[c].Noting? then Apply(s, e).core.failedAt == Some(s.now)
               else CanStillNote(Apply(s, e).pcs[c]) && NoteRank(Apply(s, e).pcs[c]) < NoteRank(s.pcs[c])
                    && Apply(s, e).core.failedAt == s.core.failedAt && Apply(s, e).core.failure == s.core.failure
                    && (Apply(s, e).held ==> Apply(s, e).pcs[c].Probing?)
  {
    assert [Auth][0] == Auth;
  }

  /** Any such call can go on to record a rejection now. */
  lemma {:induction false} NoteFollows(s: State, c: nat) returns (es: seq<Event>)
    requires Dated(s) && (s.cfg.xml || s.cfg.json)
    requires c < |s.pcs| && CanStillNote(s.pcs[c]) && (s.held ==> s.pcs[c].Probing?)
    requires CooldownError(s.core, s.now) == NIL
    ensures Legal(FAILING, s, es) && RunsOut(es) && Exec(FAILING, s, es).core.failedAt == Some(s.now)
    decreases NoteRank(s.pcs[c])
  {
    StepTowards(s, c);
    var e := Towards(c, s.pcs[c]);
    var rest: seq<Event> := [];
    if !s.pcs[c].Noting? {
      StepDated(s, e);
      rest := NoteFollows(Apply(s, e), c);
    }
    es := [e] + rest;
    assert es[1..] == rest;
  }

  /** Later, the client can hold a cooldown the reload did not hand on. */
  lemma CanChange(s: State, c: nat) returns (es: seq<Event>)
    requires Dated(s) && (s.cfg.xml || s.cfg.json) && c < |s.pcs| && CanStillNote(s.pcs[c])
    ensures Legal(FAILING, s, es) && RunsOut(es)
    ensures Exec(FAILING, s, es).core.failedAt.Some? && Exec(FAILING, s, es).core.failedAt != s.core.failedAt
  {
    var d := c;
    if s.held {
      d :| 0 <= d < |s.pcs| && s.pcs[d].Probing?;
    }
    var wait := Tick(COOLDOWN + 1);
    StepDated(s, wait);
    var rest := NoteFollows(Apply(s, wait), d);
    es := [wait] + rest;
    assert es[1..] == rest;
  }

  lemma ReachedIsDated(w: World, cfg: Config, k: nat, start: int, es: seq<Event>)
    requires Legal(w, Init(cfg, k, start), es)
    ensures Dated(Exec(w, Init(cfg, k, start), es)) && Exec(w, Init(cfg, k, start), es).cfg == cfg
  {
    DatedRuns(w, Init(cfg, k, start), es);
  }

  /** When a reload is safe. At any state a reload can find, the superseded client goes on to record no rejection
      that the reload did not hand on, whatever its planned and running calls still meet, if and only if none of
      them can still note one: all it can do to its cooldown is forget it. */
  lemma HandedOnIsFinal(w: World, cfg: Config, k: nat, start: int, es: seq<Event>)
    requires (cfg.xml || cfg.json) && Legal(w, Init(cfg, k, start), es) && !Exec(w, Init(cfg, k, start), es).held
    ensures var s := Exec(w, Init(cfg, k, start), es);
            (forall v: World, rest: seq<Event> :: Legal(v, s, rest) && RunsOut(rest) ==>
               Exec(v, s, rest).core.failedAt == s.core.failedAt || Exec(v, s, rest).core.failedAt.None?)
            <==> NobodyCanNote(s)
  {
    ReachedIsDated(w, cfg, k, start, es);
    var s := Exec(w, Init(cfg, k, start), es);
    if NobodyCanNote(s) {
      forall v: World, rest: seq<Event> | Legal(v, s, rest) && RunsOut(rest)
        ensures Exec(v, s, rest).core.failedAt == s.core.failedAt || Exec(v, s, rest).core.failedAt.None?
      {
        SettledKept(v, s, rest);
      }
    } else {
      var c :| 0 <= c < |s.pcs| && CanStillNote(s.pcs[c]);
      var rest := CanChange(s, c);
    }
  }

  // ---------------------------------------------------------------- when the new client agrees to the end

  /** A call that may still end well on a client that none can record a rejection on. */
  predicate CanStillClear(s: State, pc: Pc) {
    pc.Trying? || pc.Switching? || (pc.Noting? && pc.err == NIL) || (pc.Failing? && Alternate(s.cfg, s.core).Some?)
  }

  ghost predicate NobodyCanClear(s: State) {
    forall c :: 0 <= c < |s.pcs| ==> !CanStillClear(s, s.pcs[c])
  }

  ghost predicate Closed(s: State) {
    Dated(s) && NobodyCanNote(s) && (s.core.failedAt.None? || NobodyCanClear(s))
  }

  lemma StepClosing(s: State, e: Event)
    requires Closed(s) && Enabled(s, e) && !e.Plan? && !e.Reload?
    ensures Closed(Apply(s, e)) && HandedOn(Apply(s, e)) == HandedOn(s)
  {
    StepDated(s, e);
    StepSettled(s, e);
    if !e.Tick? {
      assert !CanStillNote(s.pcs[e.c]);
      assert s.core.failedAt.None? || !CanStillClear(s, s.pcs[e.c]);
    }
  }

  lemma {:induction false} ClosedKept(w: World, s: State, es: seq<Event>)
    requires Closed(s) && Legal(w, s, es) && RunsOut(es)
    ensures HandedOn(Exec(w, s, es)) == HandedOn(s)
    decreases |es|
  {
    if es != [] {
      assert es[0] in es;
      StepClosing(s, es[0]);
      ClosedKept(w, Apply(s, es[0]), es[1..]);
    }
  }

  function ClearRank(pc: Pc): nat {
    match pc
    case Failing(_, _) => 3
    case Trying(_, _, _) => 2
    case Switching(_, _) => 1
    case _ => 0
  }

  /** The next step of such a call towards a success. */
  function Clearing(c: nat, pc: Pc): Event {
    match pc
    case Failing(_, _) => ReprobeLock(c)
    case Trying(_, _, _) => AlternateEnds(c, Ok)
    case Switching(_, _) => SwitchLock(c)
    case _ => NoteLock(c)
  }

  lemma {:induction false} ClearFollows(s: State, c: nat) returns (es: seq<Event>)
    requires c < |s.pcs| && CanStillClear(s, s.pcs[c]) && !s.held
    ensures Legal(ANY, s, es) && RunsOut(es) && Exec(ANY, s, es).core.failedAt.None?
    decreases ClearRank(s.pcs[c])
  {
    var e := Clearing(c, s.pcs[c]);
    var rest: seq<Event> := [];
    if !s.pcs[c].Noting? {
      rest := ClearFollows(Apply(s, e), c);
    }
    es := [e] + rest;
    assert es[1..] == rest;
  }

  /** The new client's cooldown is the one its predecessor ends with, in every continuation, if and only if no
      call can still note a rejection and, where there is a cooldown, none can still end well. */
  lemma HandedOnIsExact(w: World, cfg: Config, k: nat, start: int, es: seq<Event>)
    requires (cfg.xml || cfg.json) && Legal(w, Init(cfg, k, start), es) && !Exec(w, Init(cfg, k, start), es).held
    ensures var s := Exec(w, Init(cfg, k, start), es);
            (forall v: World, rest: seq<Event> :: Legal(v, s, rest) && RunsOut(rest) ==>
               HandedOn(Exec(v, s, rest)) == HandedOn(s))
            <==> NobodyCanNote(s) && (s.core.failedAt.None? || NobodyCanClear(s))
  {
    ReachedIsDated(w, cfg, k, start, es);
    var s := Exec(w, Init(cfg, k, start), es);
    if c :| 0 <= c < |s.pcs| && CanStillNote(s.pcs[c]) {
      var rest := CanChange(s, c);
    } else if Closed(s) {
      forall v: World, rest: seq<Event> | Legal(v, s, rest) && RunsOut(rest)
        ensures HandedOn(Exec(v, s, rest)) == HandedOn(s)
      {
        ClosedKept(v, s, rest);
      }
    } else {
      var c :| 0 <= c < |s.pcs| && CanStillClear(s, s.pcs[c]);
      var rest := ClearFollows(s, c);
    }
  }

  // ---------------------------------------------------------------- what reloads at any time can cost

  /** A client and all it superseded. `current.h` is the history of the chain's newest client at every time, each
      superseded client's history counts what it met after its reload, and `strays` counts the calls that could
      still note a rejection on a client when it was superseded. */
  datatype Chain = Chain(current: State, past: seq<State>, strays: nat)

  datatype ChainEvent =
    | Passes(seconds: nat)
    | Swap
    | Newest(e: Event)
    | Superseded(i: nat, e: Event)

  const NO_HISTORY := History(0, 0, 0, None, 0, {})

  function Stray(pc: Pc): nat {
    if CanStillNote(pc) then 1 else 0
  }

  /** A reload finds the mutex free; a superseded client is in no new cycle. */
  predicate ChainEnabled(c: Chain, e: ChainEvent) {
    match e
    case Passes(_) => true
    case Swap => !c.current.held
    case Newest(x) => !x.Tick? && !x.Reload? && Enabled(c.current, x)
    case Superseded(i, x) => i < |c.past| && !x.Tick? && !x.Reload? && !x.Plan? && Enabled(c.past[i], x)
  }

  ghost predicate ChainAnswers(w: World, c: Chain, e: ChainEvent)
    requires ChainEnabled(c, e)
  {
    (e.Newest? ==> Answers(w, c.current, e.e)) && (e.Superseded? ==> Answers(w, c.past[e.i], e.e))
  }

  function Later(s: State, seconds: nat): State {
    s.(now := s.now + seconds)
  }

  /** The new client, which continues the chain's history. */
  function Successor(s: State): State {
    s.(core := HandedOn(s), pcs := seq(|s.pcs|, i => Idle))
  }

  ghost function ChainApply(c: Chain, e: ChainEvent): Chain
    requires ChainEnabled(c, e)
  {
    match e
    case Passes(d) =>
      Chain(Later(c.current, d), seq(|c.past|, i requires 0 <= i < |c.past| => Later(c.past[i], d)), c.strays)
    case Swap =>
      var s := c.current;
      Chain(Successor(s), c.past + [s.(h := NO_HISTORY)], c.strays + SumBy(s.pcs, Stray))
    case Newest(x) => c.(current := Apply(c.current, x))
    case Superseded(i, x) => c.(past := c.past[i := Apply(c.past[i], x)])
  }

  ghost predicate ChainLegal(w: World, c: Chain, es: seq<ChainEvent>)
    decreases |es|
  {
    es == [] || (ChainEnabled(c, es[0]) && ChainAnswers(w, c, es[0]) && ChainLegal(w, ChainApply(c, es[0]), es[1..]))
  }

  ghost function ChainExec(w: World, c: Chain, es: seq<ChainEvent>): Chain
    requires ChainLegal(w, c, es)
    decreases |es|
  {
    if es == [] then c else ChainExec(w, ChainApply(c, es[0]), es[1..])
  }

  function RejectionsOf(s: State): nat {
    s.h.rejections
  }

  /** All rejections the appliance has given, to the newest client and to the superseded ones. */
  ghost function Rejections(c: Chain): nat {
    c.current.h.rejections + SumBy(c.past, RejectionsOf)
  }

  /** A superseded call that can still be answered with a recorded rejection. */
  function Unanswered(pc: Pc): nat {
    if CanStillNote(pc) && !pc.Noting? then 1 else 0
  }

  /** What a superseded client has met and may still meet. */
  ghost function Load(s: State): nat {
    s.h.rejections + SumBy(s.pcs, Unanswered) + SumBy(s.pcs, Unrecorded)
  }

  /** The probe and the re-probe of one client, as far as they are spent. */
  function Spent(s: State): nat {
    Spare(s, 0)
  }

  ghost predicate ChainInv(c: Chain) {
    && Shape(c.current) && Budget(c.current)
    && (forall i :: 0 <= i < |c.past| ==> Shape(c.past[i]) && c.past[i].cfg == c.current.cfg)
    && c.current.h.rejections + SumBy(c.current.pcs, Unrecorded) + SumBy(c.past, Load)
         <= c.current.h.notes + SumBy(c.current.pcs, Unnoted) + Spent(c.current) + SumBy(c.past, Spent) + c.strays
    && c.strays <= |c.current.pcs| * |c.past|
  }

  /** One step of a superseded call: each answer is paid for by the call itself or by the probe or re-probe. */
  lemma CallLoad(w: World, s: State, e: Event)
    requires NothingSucceeds(w) && Shape(s) && Enabled(s, e) && Answers(w, s, e)
    requires !e.Tick? && !e.Reload? && !e.Plan?
    ensures var t := Apply(s, e);
            t.pcs == s.pcs[e.c := t.pcs[e.c]]
            && t.h.rejections + Unanswered(t.pcs[e.c]) + Unrecorded(t.pcs[e.c]) + Spent(s)
                 <= s.h.rejections + Unanswered(s.pcs[e.c]) + Unrecorded(s.pcs[e.c]) + Spent(t)
  {
    assert LockoutPc(s, e.c);
    assert [Auth][0] == Auth && Auth !in [Other] && Auth !in [Unsupported];
  }

  lemma StepLoad(w: World, s: State, e: Event)
    requires NothingSucceeds(w) && Shape(s) && Enabled(s, e) && Answers(w, s, e)
    requires !e.Tick? && !e.Reload? && !e.Plan?
    ensures Load(Apply(s, e)) + Spent(s) <= Load(s) + Spent(Apply(s, e))
  {
    CallLoad(w, s, e);
    SumByUpdate(s.pcs, Unanswered, e.c, Apply(s, e).pcs[e.c]);
    SumByUpdate(s.pcs, Unrecorded, e.c, Apply(s, e).pcs[e.c]);
  }

  lemma PassingKeeps(c: Chain, seconds: nat)
    requires ChainInv(c)
    ensures ChainInv(ChainApply(c, Passes(seconds)))
  {
    var t := ChainApply(c, Passes(seconds));
    SumBySame(c.past, t.past, Load);
    SumBySame(c.past, t.past, Spent);
    forall i | 0 <= i < |t.past| ensures Shape(t.past[i]) {
      LaterShape(c.past[i], seconds);
    }
    LaterShape(c.current, seconds);
  }

  lemma LaterShape(s: State, seconds: nat)
    requires Shape(s)
    ensures Shape(Later(s, seconds))
  {
    StepMutex(s, Tick(seconds));
    forall c | 0 <= c < |s.pcs| ensures LockoutPc(Later(s, seconds), c) {
      assert LockoutPc(s, c);
    }
  }

  lemma {:induction false} StrayCount(pcs: seq<Pc>)
    ensures SumBy(pcs, Stray) == SumBy(pcs, Unanswered) + SumBy(pcs, Unnoted)
  {
    if pcs != [] {
      StrayCount(pcs[1..]);
    }
  }

  lemma SuccessorFits(s: State)
    requires Shape(s) && Budget(s) && !s.held
    ensures Shape(Successor(s)) && Budget(Successor(s))
    ensures SumBy(Successor(s).pcs, Unnoted) == 0 && SumBy(Successor(s).pcs, Unrecorded) == 0
    ensures Spent(Successor(s)) == 0
  {
    SumByZero(Successor(s).pcs, Unrecorded);
    SumByZero(Successor(s).pcs, Unnoted);
    SumByZero(Successor(s).pcs, MayReject);
  }

  lemma SupersededFits(s: State)
    requires Shape(s)
    ensures var p := s.(h := NO_HISTORY);
            Shape(p) && p.cfg == s.cfg && Spent(p) == Spent(s)
            && Load(p) + SumBy(s.pcs, Unnoted) == SumBy(s.pcs, Stray) + SumBy(s.pcs, Unrecorded)
  {
    StrayCount(s.pcs);
    forall i | 0 <= i < |s.pcs| ensures LockoutPc(s.(h := NO_HISTORY), i) {
      assert LockoutPc(s, i);
    }
  }

  /** A reload moves what the superseded client may still meet from the chain's book to the client's own. */
  lemma SwapKeeps(c: Chain)
    requires ChainInv(c) && !c.current.held
    ensures ChainInv(ChainApply(c, Swap))
  {
    var s := c.current;
    var p := s.(h := NO_HISTORY);
    SuccessorFits(s);
    SupersededFits(s);
    SumByAppend(c.past, Load, p);
    SumByAppend(c.past, Spent, p);
    SumByBound(s.pcs, Stray);
    assert |s.pcs| * (|c.past| + 1) == |s.pcs| * |c.past| + |s.pcs|;
  }

  lemma NewestKeeps(w: World, c: Chain, x: Event)
    requires NothingSucceeds(w) && ChainInv(c) && ChainEnabled(c, Newest(x)) && ChainAnswers(w, c, Newest(x))
    ensures ChainInv(ChainApply(c, Newest(x)))
  {
    StepShape(w, c.current, x);
    StepBudget(w, c.current, x);
    CallRejections(w, c.current, x, 0);
    SumByUpdate(c.current.pcs, Unnoted, x.c, Apply(c.current, x).pcs[x.c]);
    SumByUpdate(c.current.pcs, Unrecorded, x.c, Apply(c.current, x).pcs[x.c]);
  }

  lemma SupersededKeeps(w: World, c: Chain, i: nat, x: Event)
    requires NothingSucceeds(w) && ChainInv(c)
    requires ChainEnabled(c, Superseded(i, x)) && ChainAnswers(w, c, Superseded(i, x))
    ensures ChainInv(ChainApply(c, Superseded(i, x)))
  {
    StepShape(w, c.past[i], x);
    StepLoad(w, c.past[i], x);
    SumByUpdate(c.past, Load, i, Apply(c.past[i], x));
    SumByUpdate(c.past, Spent, i, Apply(c.past[i], x));
  }

  lemma ChainStep(w: World, c: Chain, e: ChainEvent)
    requires NothingSucceeds(w) && ChainInv(c) && ChainEnabled(c, e) && ChainAnswers(w, c, e)
    ensures var t := ChainApply(c, e);
            ChainInv(t) && t.current.cfg == c.current.cfg && |t.current.pcs| == |c.current.pcs|
  {
    match e {
      case Passes(d) => PassingKeeps(c, d);
      case Swap => SwapKeeps(c);
      case Newest(x) => NewestKeeps(w, c, x);
      case Superseded(i, x) => SupersededKeeps(w, c, i, x);
    }
  }

  lemma {:induction false} ChainKept(w: World, c: Chain, es: seq<ChainEvent>)
    requires NothingSucceeds(w) && ChainInv(c) && ChainLegal(w, c, es)
    ensures ChainInv(ChainExec(w, c, es))
    ensures ChainExec(w, c, es).current.cfg == c.current.cfg
    ensures |ChainExec(w, c, es).current.pcs| == |c.current.pcs|
    decreases |es|
  {
    if es != [] {
      ChainStep(w, c, es[0]);
      ChainKept(w, ChainApply(c, es[0]), es[1..]);
    }
  }

  lemma {:induction false} SpentAtMost(past: seq<State>, cfg: Config)
    requires forall i :: 0 <= i < |past| ==> past[i].cfg == cfg
    ensures SumBy(past, Spent) <= if cfg == Config(true, true) then 2 * |past| else 0
  {
    if past != [] {
      SpentAtMost(past[1..], cfg);
    }
  }

  function FirstClient(cfg: Config, k: nat, start: int): Chain {
    Chain(Init(cfg, k, start), [], 0)
  }

  /** The lockout bound for reloads at any time, also in the middle of a cycle. The rejections given to the whole
      chain of clients exceed the bound of one client by at most one for each call that could still note a
      rejection when its client was superseded, which is at most k for each reload; with both transports, the
      probe and the re-probe of each client add one each. */
  lemma ChainBound(w: World, cfg: Config, k: nat, start: int, es: seq<ChainEvent>)
    requires NothingSucceeds(w) && ChainLegal(w, FirstClient(cfg, k, start), es)
    ensures var c := ChainExec(w, FirstClient(cfg, k, start), es);
            var t0 := c.current.h.firstNote;
            Rejections(c) <= (if t0.None? then k else k * (1 + (c.current.now - t0.value) / 60))
                             + c.strays + (if cfg.xml && cfg.json then 2 * (1 + |c.past|) else 0)
            && c.strays <= k * |c.past|
  {
    InitLockout(cfg, k, start);
    ChainKept(w, FirstClient(cfg, k, start), es);
    var c := ChainExec(w, FirstClient(cfg, k, start), es);
    SumByAtMost(c.past, RejectionsOf, Load);
    SpentAtMost(c.past, cfg);
    WithinBudget(c.current);
  }
}
