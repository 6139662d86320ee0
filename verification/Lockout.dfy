/** The anti-lockout bound: how many rejections a system can collect. */
module Lockout {
  import opened Prelude
  import opened Client
  import opened ClientProtocol

  /** No call succeeds; rejections and other failures may come in any mixture. */
  ghost predicate NothingSucceeds(w: World) {
    forall cmd, tr, o | w(cmd, tr, o) :: o.Failed?
  }

  /** 1 while a call is past the cooldown check and may still note a rejection. */
  function MayReject(pc: Pc): nat {
    if pc.Past? || pc.Probing? || pc.Calling? || (pc.Noting? && Auth in pc.err) then 1 else 0
  }

  /** The number of whole cooldown windows since the first rejection. */
  function Windows(t0: int, t: int): int {
    (t - t0) / COOLDOWN
  }

  lemma WindowPassed(k: nat, t0: int, last: int, now: int)
    requires t0 <= last && now >= last + COOLDOWN
    ensures k * (1 + Windows(t0, last)) + k <= k * (1 + Windows(t0, now))
  {
    var a, b := Windows(t0, last), Windows(t0, now);
    assert a + 1 <= b;
    assert k * (1 + a) + k == k * (2 + a);
    assert k * (2 + a) <= k * (1 + b);
  }

  lemma WindowGrows(k: nat, t0: int, last: int, now: int)
    requires t0 <= last <= now
    ensures k * (1 + Windows(t0, last)) <= k * (1 + Windows(t0, now))
  {
    assert Windows(t0, last) <= Windows(t0, now);
  }

  ghost predicate Budget(s: State) {
    var k, f := |s.pcs|, SumBy(s.pcs, MayReject);
    if s.core.failedAt.None? then
      s.h.notes == 0 && s.h.firstNote.None?
    else
      var last := s.core.failedAt.value;
      s.h.firstNote.Some? && s.h.firstNote.value <= last <= s.now && Auth in s.core.failure
      && s.h.notes <= k * (1 + Windows(s.h.firstNote.value, last))
      && (s.now < last + COOLDOWN ==> s.h.notes + f <= k * (1 + Windows(s.h.firstNote.value, last)))
  }

  ghost predicate LockoutPc(s: State, c: nat)
    requires c < |s.pcs|
  {
    match s.pcs[c]
    case Trying(_, _, _) => s.cfg == Config(true, true) && s.core.reprobed
    case Switching(_, _) => false
    case Noting(_, err) => err != NIL
    case _ => true
  }

  /** 1 while a re-probe may still be answered with a rejection that is never noted. */
  function Unrecorded(pc: Pc): nat {
    if pc.Trying? then 1 else 0
  }

  /** The rejections that never start a cooldown: with both transports, one of the probe and one of the
      re-probe in each client's life. */
  function Spare(s: State, reloads: nat): nat {
    if s.cfg != Config(true, true) then 0
    else 2 * reloads + (if s.core.active.Some? then 1 else 0) + (if s.core.reprobed then 1 else 0)
  }

  predicate ActiveFits(s: State) {
    s.core.active.Some? ==> Configured(s.cfg, s.core.active.value)
  }

  /** What a state looks like when nothing has succeeded. */
  ghost predicate Shape(s: State) {
    MutexOk(s) && ActiveFits(s) && forall c :: 0 <= c < |s.pcs| ==> LockoutPc(s, c)
  }

  ghost predicate LockoutInv(s: State, reloads: nat) {
    && Shape(s) && Budget(s)
    && s.h.rejections + SumBy(s.pcs, Unrecorded) <= s.h.notes + SumBy(s.pcs, Unnoted) + Spare(s, reloads)
  }

  /** The reloads of a run. */
  ghost function Reloads(es: seq<Event>): nat {
    if es == [] then 0 else (if es[0].Reload? then 1 else 0) + Reloads(es[1..])
  }

  lemma InFlight(s: State)
    ensures SumBy(s.pcs, Unnoted) <= SumBy(s.pcs, MayReject) <= |s.pcs|
  {
    SumByAtMost(s.pcs, Unnoted, MayReject);
    SumByBound(s.pcs, MayReject);
  }

  lemma StepLockoutPc(w: World, s: State, e: Event, c: nat)
    requires NothingSucceeds(w) && Shape(s) && Enabled(s, e) && Answers(w, s, e) && c < |s.pcs|
    ensures LockoutPc(Apply(s, e), c)
  {
    assert LockoutPc(s, c);
    if !e.Tick? && !e.Reload? {
      assert LockoutPc(s, e.c);
    }
  }

  lemma StepActive(w: World, s: State, e: Event)
    requires NothingSucceeds(w) && Shape(s) && Enabled(s, e) && Answers(w, s, e)
    ensures ActiveFits(Apply(s, e))
  {
    if !e.Tick? && !e.Reload? {
      assert LockoutPc(s, e.c);
    }
  }

  lemma StepShape(w: World, s: State, e: Event)
    requires NothingSucceeds(w) && Shape(s) && Enabled(s, e) && Answers(w, s, e)
    ensures Shape(Apply(s, e))
  {
    StepMutex(s, e);
    StepActive(w, s, e);
    forall c | 0 <= c < |s.pcs| ensures LockoutPc(Apply(s, e), c) {
      StepLockoutPc(w, s, e, c);
    }
  }

  /** One step of one call: each answer is accounted for by the call's own counter, a note or the spare. */
  lemma CallRejections(w: World, s: State, e: Event, reloads: nat)
    requires NothingSucceeds(w) && Shape(s) && Enabled(s, e) && Answers(w, s, e)
    requires !e.Tick? && !e.Reload?
    ensures var t := Apply(s, e);
            t.pcs == s.pcs[e.c := t.pcs[e.c]]
            && t.h.rejections + Unrecorded(t.pcs[e.c]) + s.h.notes + Unnoted(s.pcs[e.c]) + Spare(s, reloads)
                 <= s.h.rejections + Unrecorded(s.pcs[e.c]) + t.h.notes + Unnoted(t.pcs[e.c]) + Spare(t, reloads)
  {
    assert LockoutPc(s, e.c);
    assert [Auth][0] == Auth && Auth !in [Other] && Auth !in [Unsupported];
  }

  lemma StepRejections(w: World, s: State, e: Event, reloads: nat)
    requires NothingSucceeds(w) && LockoutInv(s, reloads) && Enabled(s, e) && Answers(w, s, e)
    ensures var t := Apply(s, e);
            t.h.rejections + SumBy(t.pcs, Unrecorded)
              <= t.h.notes + SumBy(t.pcs, Unnoted) + Spare(t, reloads + (if e.Reload? then 1 else 0))
  {
    if !e.Tick? && !e.Reload? {
      CallRejections(w, s, e, reloads);
      SumByUpdate(s.pcs, Unnoted, e.c, Apply(s, e).pcs[e.c]);
      SumByUpdate(s.pcs, Unrecorded, e.c, Apply(s, e).pcs[e.c]);
    }
  }

  /** Noting a rejection opens a new window only after the last one has passed. */
  lemma NoteBudget(s: State, e: Event)
    requires Budget(s) && Enabled(s, e) && e.NoteLock? && Auth in s.pcs[e.c].err
    ensures Budget(Apply(s, e))
  {
    var t := Apply(s, e);
    InFlight(s);
    SumByUpdate(s.pcs, MayReject, e.c, Idle);
    if s.core.failedAt.Some? {
      var t0, last := s.h.firstNote.value, s.core.failedAt.value;
      if s.now < last + COOLDOWN {
        WindowGrows(|s.pcs|, t0, last, s.now);
      } else {
        WindowPassed(|s.pcs|, t0, last, s.now);
      }
    } else {
      assert Windows(s.now, s.now) == 0;
    }
  }

  /** Any other step of a call leaves the record alone, and a call gets past the check only while nothing
      suppresses it. */
  lemma CallBudget(w: World, s: State, e: Event)
    requires NothingSucceeds(w) && Shape(s) && Enabled(s, e) && Answers(w, s, e)
    requires !e.Tick? && !e.Reload? && !(e.NoteLock? && Auth in s.pcs[e.c].err)
    ensures var t := Apply(s, e);
            t.pcs == s.pcs[e.c := t.pcs[e.c]] && t.now == s.now
            && t.core.failedAt == s.core.failedAt && t.core.failure == s.core.failure
            && t.h.notes == s.h.notes && t.h.firstNote == s.h.firstNote
            && (MayReject(t.pcs[e.c]) <= MayReject(s.pcs[e.c]) || !CoolingDown(s.core, s.now))
  {
    assert LockoutPc(s, e.c);
  }

  lemma StepBudget(w: World, s: State, e: Event)
    requires NothingSucceeds(w) && Shape(s) && Budget(s) && Enabled(s, e) && Answers(w, s, e)
    ensures Budget(Apply(s, e))
  {
    if e.NoteLock? && Auth in s.pcs[e.c].err {
      NoteBudget(s, e);
    } else if !e.Tick? && !e.Reload? {
      CallBudget(w, s, e);
      SumByUpdate(s.pcs, MayReject, e.c, Apply(s, e).pcs[e.c]);
    }
  }

  lemma StepLockout(w: World, s: State, e: Event, reloads: nat)
    requires NothingSucceeds(w) && LockoutInv(s, reloads) && Enabled(s, e) && Answers(w, s, e)
    ensures LockoutInv(Apply(s, e), reloads + (if e.Reload? then 1 else 0))
  {
    StepShape(w, s, e);
    StepRejections(w, s, e, reloads);
    StepBudget(w, s, e);
  }

  lemma {:induction false} LockoutKept(w: World, s: State, es: seq<Event>, reloads: nat)
    requires NothingSucceeds(w) && LockoutInv(s, reloads) && Legal(w, s, es)
    ensures LockoutInv(Exec(w, s, es), reloads + Reloads(es))
    decreases |es|
  {
    if es != [] {
      StepLockout(w, s, es[0], reloads);
      LockoutKept(w, Apply(s, es[0]), es[1..], reloads + (if es[0].Reload? then 1 else 0));
    }
  }

  lemma InitLockout(cfg: Config, k: nat, start: int)
    ensures LockoutInv(Init(cfg, k, start), 0)
  {
    SumByZero(Init(cfg, k, start).pcs, Unrecorded);
  }

  /** The notes a state can still add stay within the budget of its present window. */
  lemma WithinBudget(s: State)
    requires Budget(s)
    ensures s.h.notes + SumBy(s.pcs, Unnoted)
              <= if s.h.firstNote.None? then |s.pcs| else |s.pcs| * (1 + Windows(s.h.firstNote.value, s.now))
    ensures s.h.notes + SumBy(s.pcs, MayReject)
              <= if s.h.firstNote.None? then |s.pcs| else |s.pcs| * (1 + Windows(s.h.firstNote.value, s.now))
  {
    InFlight(s);
    if s.h.firstNote.Some? {
      var t0, last := s.h.firstNote.value, s.core.failedAt.value;
      if s.now < last + COOLDOWN {
        WindowGrows(|s.pcs|, t0, last, s.now);
      } else {
        WindowPassed(|s.pcs|, t0, last, s.now);
      }
    }
  }

  /** The lockout bound. On a client that meets no success, with at most `k` calls planned or in flight and any
      interleaving of calls, clock ticks and reloads between cycles that keep name and credentials: at most k
      rejections before the first is noted, and from the first noted at t0 on, at most k * (1 + (now - t0) / 60)
      of them. With both transports configured the probe and the re-probe of each client add one each. */
  lemma LockoutBound(w: World, cfg: Config, k: nat, start: int, es: seq<Event>)
    requires NothingSucceeds(w) && Legal(w, Init(cfg, k, start), es)
    ensures var s := Exec(w, Init(cfg, k, start), es);
            s.h.rejections <= (if s.h.firstNote.None? then k else k * (1 + (s.now - s.h.firstNote.value) / 60))
                              + (if cfg.xml && cfg.json then 2 * (1 + Reloads(es)) else 0)
  {
    var i := Init(cfg, k, start);
    InitLockout(cfg, k, start);
    LockoutKept(w, i, es, 0);
    LengthKept(w, i, es);
    WithinBudget(Exec(w, i, es));
  }

  lemma {:induction false} LengthKept(w: World, s: State, es: seq<Event>)
    requires Legal(w, s, es)
    ensures |Exec(w, s, es).pcs| == |s.pcs| && Exec(w, s, es).cfg == s.cfg
    decreases |es|
  {
    if es != [] {
      LengthKept(w, Apply(s, es[0]), es[1..]);
    }
  }

  // ---------------------------------------------------------------- login attempts

  ghost predicate AlwaysRejects(w: World) {
    forall cmd, tr, o | w(cmd, tr, o) :: o == Failed(Auth)
  }

  /** 1 while an attempt has begun whose rejection is not noted yet. */
  function Owing(pc: Pc): nat {
    if pc.Probing? || pc.Calling? || (pc.Noting? && Auth in pc.err) then 1 else 0
  }

  ghost predicate TriesInv(s: State) {
    && s.cfg == Config(false, true)
    && s.h.jsonTries == s.h.notes + SumBy(s.pcs, Owing)
    && forall c :: 0 <= c < |s.pcs| ==> !s.pcs[c].Failing? && (s.pcs[c].Calling? ==> s.pcs[c].tr.Json?)
  }

  lemma StepTries(w: World, s: State, e: Event, reloads: nat)
    requires AlwaysRejects(w) && LockoutInv(s, reloads) && TriesInv(s) && Enabled(s, e) && Answers(w, s, e)
    ensures TriesInv(Apply(s, e))
  {
    if !e.Tick? && !e.Reload? {
      assert LockoutPc(s, e.c);
      assert [Auth][0] == Auth;
      SumByUpdate(s.pcs, Owing, e.c, Apply(s, e).pcs[e.c]);
    }
  }

  lemma {:induction false} TriesKept(w: World, s: State, es: seq<Event>, reloads: nat)
    requires AlwaysRejects(w) && LockoutInv(s, reloads) && TriesInv(s) && Legal(w, s, es)
    ensures TriesInv(Exec(w, s, es))
    decreases |es|
  {
    if es != [] {
      StepLockout(w, s, es[0], reloads);
      StepTries(w, s, es[0], reloads);
      TriesKept(w, Apply(s, es[0]), es[1..], reloads + (if es[0].Reload? then 1 else 0));
    }
  }

  /** The same bound on the calls begun on the JSON transport of a JSON-only client whose appliance always
      rejects: also those that have not been answered yet. Each makes at most one login attempt, as
      SessionProtocol.LoginsPerCall says of calls that never see a success. */
  lemma LoginAttemptsBound(w: World, k: nat, start: int, es: seq<Event>)
    requires AlwaysRejects(w) && Legal(w, Init(Config(false, true), k, start), es)
    ensures var s := Exec(w, Init(Config(false, true), k, start), es);
            s.h.jsonTries <= if s.h.firstNote.None? then k else k * (1 + (s.now - s.h.firstNote.value) / 60)
  {
    var i := Init(Config(false, true), k, start);
    InitLockout(i.cfg, k, start);
    SumByZero(i.pcs, Owing);
    LockoutKept(w, i, es, 0);
    TriesKept(w, i, es, 0);
    LengthKept(w, i, es);
    var s := Exec(w, i, es);
    SumByAtMost(s.pcs, Owing, MayReject);
    WithinBudget(s);
  }

  // ---------------------------------------------------------------- two calls at once

  /** Two calls of collectSystem can both be rejected before either rejection is noted, so the factor k is
      needed: a run of two calls with two rejections at the time of the first note. */
  lemma BothCallsCanBeRejected(start: int)
    ensures exists s :: Reaches(Init(Config(true, false), 2, start), s)
              && s.h.rejections == 2 && s.h.firstNote == Some(start) && s.now == start
  {
    var i := Init(Config(true, false), 2, start);
    ReachesIsClosed(i);
    var s := TwoRejections((t: State) => Reaches(i, t), start);
  }

  /** Both calls of a cycle pass the cooldown check. */
  lemma BothPass(R: State -> bool, start: int) returns (s: State)
    requires StepClosed(R) && R(Init(Config(true, false), 2, start))
    ensures R(s) && s == Init(Config(true, false), 2, start).(pcs := [Past(Stats), Past(ListVs)])
  {
    s := Apply(Init(Config(true, false), 2, start), Plan(0, Stats));
    s := Apply(s, Plan(1, ListVs));
    s := Apply(s, Enter(0));
    s := Apply(s, Enter(1));
    s := Apply(s, Cooldown(0));
    s := Apply(s, Cooldown(1));
  }

  lemma TwoRejections(R: State -> bool, start: int) returns (s: State)
    requires StepClosed(R) && R(Init(Config(true, false), 2, start))
    ensures R(s) && s.h.rejections == 2 && s.h.firstNote == Some(start) && s.now == start
  {
    s := BothPass(R, start);
    s := Apply(s, EnsureLock(0));
    s := Apply(s, EnsureLock(1));
    assert s.pcs == [Calling(Stats, Xml), Calling(ListVs, Xml)];
    s := Apply(s, CallEnds(0, Failed(Auth)));
    s := Apply(s, NoteLock(0));
    s := Apply(s, CallEnds(1, Failed(Auth)));
  }
}
