/** What detection and the single re-probe keep over every run of concurrent calls. */
module Transports {
  import opened Prelude
  import opened Client
  import opened ClientProtocol

  /** 1 while a call is between winning the re-probe and switching. */
  function Reprobing(pc: Pc): nat {
    if pc.Trying? || pc.Switching? then 1 else 0
  }

  ghost predicate PcFits(s: State, c: nat)
    requires c < |s.pcs|
  {
    match s.pcs[c]
    case Calling(_, tr) => Configured(s.cfg, tr) && s.core.active.Some?
    case Failing(_, _) => s.core.active.Some?
    case Trying(_, alt, _) => Configured(s.cfg, alt) && s.core.active.Some?
    case Switching(_, alt) => Configured(s.cfg, alt) && s.core.active.Some?
    case _ => true
  }

  ghost predicate Stable(s: State) {
    && MutexOk(s)
    && (s.core.active.Some? ==> Configured(s.cfg, s.core.active.value))
    && (forall c :: 0 <= c < |s.pcs| ==> PcFits(s, c))
    && s.h.switches + SumBy(s.pcs, Reprobing) <= (if s.core.reprobed then 1 else 0)
  }

  lemma StepFits(s: State, e: Event, c: nat)
    requires Stable(s) && Enabled(s, e) && !e.Reload? && c < |s.pcs|
    ensures PcFits(Apply(s, e), c)
  {
    assert PcFits(s, c);
    if !e.Tick? {
      assert PcFits(s, e.c);
    }
  }

  lemma StepStable(s: State, e: Event)
    requires Stable(s) && Enabled(s, e) && !e.Reload?
    ensures Stable(Apply(s, e))
    ensures s.core.active.Some? ==> Apply(s, e).core.active.Some?
    ensures Apply(s, e).h.switches ==
              s.h.switches + (if s.core.active.Some? && Apply(s, e).core.active != s.core.active then 1 else 0)
  {
    var t := Apply(s, e);
    StepMutex(s, e);
    if !e.Tick? {
      assert PcFits(s, e.c);
      SumByUpdate(s.pcs, Reprobing, e.c, t.pcs[e.c]);
    }
    forall c | 0 <= c < |t.pcs| ensures PcFits(t, c) {
      StepFits(s, e, c);
    }
  }

  lemma {:induction false} StableRuns(w: World, s: State, es: seq<Event>)
    requires Stable(s) && Legal(w, s, es) && OneLife(es)
    ensures Stable(Exec(w, s, es))
    ensures s.core.active.Some? ==> Exec(w, s, es).core.active.Some?
    ensures Exec(w, s, es).cfg == s.cfg
    decreases |es|
  {
    if es != [] {
      StepStable(s, es[0]);
      StableRuns(w, Apply(s, es[0]), es[1..]);
    }
  }

  /** A new client satisfies the invariant. */
  lemma InitStable(cfg: Config, n: nat, now: int)
    ensures Stable(Init(cfg, n, now))
  {
    SumByZero(Init(cfg, n, now).pcs, Reprobing);
  }

  /** In every run of one client, from its first call through `before` and on through `after`: the active
      transport is configured, is never given up once detected, and changes at most once after detection,
      whatever the appliance answers. */
  lemma TransportStability(w: World, cfg: Config, n: nat, now: int, before: seq<Event>, after: seq<Event>)
    requires OneLife(before) && OneLife(after)
    requires Legal(w, Init(cfg, n, now), before) && Legal(w, Exec(w, Init(cfg, n, now), before), after)
    ensures var s := Exec(w, Init(cfg, n, now), before);
            var t := Exec(w, s, after);
            (s.core.active.Some? ==> t.core.active.Some?)
            && (t.core.active == Some(Xml) ==> cfg.xml) && (t.core.active == Some(Json) ==> cfg.json)
            && t.h.switches <= 1
  {
    InitStable(cfg, n, now);
    StableRuns(w, Init(cfg, n, now), before);
    StableRuns(w, Exec(w, Init(cfg, n, now), before), after);
  }

  // ---------------------------------------------------------------- what one answer decides

  /** What the probe decides, in every run of one client. A success settles on JSON. An unsupported or rejected
      probe falls back to XML where that is configured. Any other failure is no evidence about the appliance: the
      client stays undetected, the call goes to no other transport and ends in an error that is no rejection. */
  lemma ProbeDecides(w: World, cfg: Config, n: nat, now: int, es: seq<Event>, c: nat, o: Outcome)
    requires OneLife(es) && Legal(w, Init(cfg, n, now), es)
    requires Enabled(Exec(w, Init(cfg, n, now), es), ProbeEnds(c, o))
    ensures var s := Exec(w, Init(cfg, n, now), es);
            var t := Apply(s, ProbeEnds(c, o));
            var cmd, pc := s.pcs[c].cmd, t.pcs[c];
            cfg.json && s.core.active == None && !t.held
            && t.core.failedAt == s.core.failedAt && t.core.failure == s.core.failure
            && (forall d :: 0 <= d < |s.pcs| && d != c ==> t.pcs[d] == s.pcs[d])
            && (o == Ok ==> t.core.active == Some(Json) && pc == Noting(cmd, []))
            && (o == Failed(Other) ==> t.core.active == None && pc.Noting? && pc.err != [] && Auth !in pc.err)
            && (o == Failed(Unsupported) || o == Failed(Auth) ==>
                  if cfg.xml then t.core.active == Some(Xml) && pc == Calling(cmd, Xml)
                  else t.core.active == None && pc.Noting? && pc.err != [] && (Auth in pc.err <==> o == Failed(Auth)))
  {
    InitStable(cfg, n, now);
    StableRuns(w, Init(cfg, n, now), es);
  }

  /** An undetected client settles on a transport only on evidence: on JSON after a probe that JSON served, on XML
      after a probe that was unsupported or rejected, or where JSON is not configured. */
  lemma DetectionNeedsEvidence(w: World, cfg: Config, n: nat, now: int, es: seq<Event>, e: Event)
    requires OneLife(es) && Legal(w, Init(cfg, n, now), es)
    requires Enabled(Exec(w, Init(cfg, n, now), es), e) && !e.Reload?
    requires Exec(w, Init(cfg, n, now), es).core.active.None?
    ensures var a := Apply(Exec(w, Init(cfg, n, now), es), e).core.active;
            (a == Some(Json) ==> e.ProbeEnds? && e.o == Ok)
            && (a == Some(Xml) && cfg.json ==> e.ProbeEnds? && (e.o == Failed(Unsupported) || e.o == Failed(Auth)))
  {
    InitStable(cfg, n, now);
    StableRuns(w, Init(cfg, n, now), es);
    if !e.Tick? {
      assert PcFits(Exec(w, Init(cfg, n, now), es), e.c);
    }
  }

  /** A record is always one of a rejection. */
  lemma {:induction false} RecordsAreRejections(w: World, s: State, es: seq<Event>)
    requires (s.core.failedAt.Some? ==> Auth in s.core.failure) && Legal(w, s, es)
    ensures Exec(w, s, es).core.failedAt.Some? ==> Auth in Exec(w, s, es).core.failure
    decreases |es|
  {
    if es != [] {
      RecordsAreRejections(w, Apply(s, es[0]), es[1..]);
    }
  }

  /** The cooldown check, in every run: for sixty seconds after a recorded rejection a call ends at once, is told
      of a rejection, and asks nobody; any other call goes on. The check itself changes nothing. */
  lemma SuppressedIsTold(w: World, cfg: Config, n: nat, now: int, es: seq<Event>, c: nat)
    requires Legal(w, Init(cfg, n, now), es) && Enabled(Exec(w, Init(cfg, n, now), es), Cooldown(c))
    ensures var s := Exec(w, Init(cfg, n, now), es);
            var t := Apply(s, Cooldown(c));
            t.core == s.core && t.h == s.h
            && if s.core.failedAt.Some? && s.now - s.core.failedAt.value < 60
               then t.pcs[c] == Idle && Auth in CooldownError(s.core, s.now)
               else t.pcs[c] == Past(s.pcs[c].cmd)
  {
    RecordsAreRejections(w, Init(cfg, n, now), es);
  }

  // ---------------------------------------------------------------- JSON always rejects

  /** JSON rejects the credential whenever it is asked; XML answers as it likes. */
  ghost predicate JsonRejects(w: World) {
    forall cmd, tr, o | w(cmd, tr, o) :: tr.Json? ==> o == Failed(Auth)
  }

  ghost predicate JsonShut(s: State) {
    && MutexOk(s) && s.cfg == Config(true, true)
    && s.core.active != Some(Json)
    && (forall c :: 0 <= c < |s.pcs| ==>
          match s.pcs[c]
          case Calling(_, tr) => tr.Xml? && s.core.active.Some?
          case Failing(_, f) => f != Auth && s.core.active.Some?
          case Trying(_, alt, _) => alt.Json? && s.core.active.Some?
          case Switching(_, _) => false
          case _ => true)
    && s.h.jsonTries <= (if s.core.active.Some? || s.held then 1 else 0) + (if s.core.reprobed then 1 else 0)
  }

  lemma StepJsonShut(w: World, s: State, e: Event)
    requires JsonRejects(w) && JsonShut(s) && Enabled(s, e) && Answers(w, s, e) && !e.Reload?
    ensures JsonShut(Apply(s, e))
  {
    StepMutex(s, e);
  }

  predicate RejectedByXml(s: State, e: Event)
    requires Enabled(s, e)
  {
    e.CallEnds? && e.o == Failed(Auth) && s.pcs[e.c].tr.Xml?
  }

  /** How many XML calls of a run are answered with a rejection. */
  ghost function XmlRejections(w: World, s: State, es: seq<Event>): nat
    requires Legal(w, s, es)
    decreases |es|
  {
    if es == [] then 0 else (if RejectedByXml(s, es[0]) then 1 else 0) + XmlRejections(w, Apply(s, es[0]), es[1..])
  }

  /** Rejections noted or about to be. */
  ghost function Recorded(s: State): nat {
    s.h.notes + SumBy(s.pcs, Unnoted)
  }

  lemma StepRecorded(w: World, s: State, e: Event)
    requires JsonRejects(w) && JsonShut(s) && Enabled(s, e) && Answers(w, s, e) && !e.Reload?
    ensures Recorded(Apply(s, e)) == Recorded(s) + (if RejectedByXml(s, e) then 1 else 0)
    ensures (s.core.failedAt.Some? ==> s.h.notes > 0) ==> Apply(s, e).core.failedAt.Some? ==> Apply(s, e).h.notes > 0
  {
    if !e.Tick? {
      assert [Auth][0] == Auth && Auth !in [Other] && Auth !in [Unsupported];
      SumByUpdate(s.pcs, Unnoted, e.c, Apply(s, e).pcs[e.c]);
    }
  }

  lemma {:induction false} JsonShutRuns(w: World, s: State, es: seq<Event>)
    requires JsonRejects(w) && JsonShut(s) && Legal(w, s, es) && OneLife(es)
    requires s.core.failedAt.Some? ==> s.h.notes > 0
    ensures JsonShut(Exec(w, s, es))
    ensures Recorded(Exec(w, s, es)) == Recorded(s) + XmlRejections(w, s, es)
    ensures Exec(w, s, es).core.failedAt.Some? ==> Exec(w, s, es).h.notes > 0
    decreases |es|
  {
    if es != [] {
      StepJsonShut(w, s, es[0]);
      StepRecorded(w, s, es[0]);
      JsonShutRuns(w, Apply(s, es[0]), es[1..]);
    }
  }

  /** With both transports configured and a JSON side that always rejects the credential, whatever XML answers:
      JSON is tried at most twice in the client's whole life and never becomes active, and the rejections that
      are noted or about to be are exactly as many as XML gave, so JSON's never start or renew a cooldown. */
  lemma RejectedJsonIsTriedTwice(w: World, n: nat, now: int, es: seq<Event>)
    requires JsonRejects(w) && Legal(w, Init(Config(true, true), n, now), es) && OneLife(es)
    ensures var s := Init(Config(true, true), n, now);
            var t := Exec(w, s, es);
            t.h.jsonTries <= 2 && t.core.active != Some(Json)
            && t.h.notes + SumBy(t.pcs, Unnoted) == XmlRejections(w, s, es)
            && (t.core.failedAt.Some? ==> XmlRejections(w, s, es) > 0)
  {
    SumByZero(Init(Config(true, true), n, now).pcs, Unnoted);
    JsonShutRuns(w, Init(Config(true, true), n, now), es);
  }

  /** XML accepts the credential: it may fail, but not with a rejection. */
  ghost predicate XmlAccepts(w: World) {
    forall cmd, o | w(cmd, Xml, o) :: o != Failed(Auth)
  }

  lemma {:induction false} NoXmlRejection(w: World, s: State, es: seq<Event>)
    requires XmlAccepts(w) && Legal(w, s, es)
    ensures XmlRejections(w, s, es) == 0
    decreases |es|
  {
    if es != [] {
      NoXmlRejection(w, Apply(s, es[0]), es[1..]);
    }
  }

  /** So an XML side that accepts the credential is never suppressed on account of the JSON side. */
  lemma AcceptedXmlIsNeverSuppressed(w: World, n: nat, now: int, es: seq<Event>, later: int)
    requires JsonRejects(w) && XmlAccepts(w) && Legal(w, Init(Config(true, true), n, now), es) && OneLife(es)
    ensures CooldownError(Exec(w, Init(Config(true, true), n, now), es).core, later) == NIL
  {
    RejectedJsonIsTriedTwice(w, n, now, es);
    NoXmlRejection(w, Init(Config(true, true), n, now), es);
  }

  // ---------------------------------------------------------------- schedule independence

  /** XML always succeeds; JSON serves a command or reports it unsupported, for good. */
  ghost predicate FixedAnswers(w: World, serves: Cmd -> bool) {
    forall cmd, tr, o | w(cmd, tr, o) ::
      o == if tr.Xml? || serves(cmd) then Ok else Failed(Unsupported)
  }

  ghost predicate DetectionPc(serves: Cmd -> bool, s: State, c: nat)
    requires c < |s.pcs|
  {
    var all := serves(Stats) && serves(ListVs);
    match s.pcs[c]
    case Calling(cmd, Json) => s.core.active == Some(Json) || s.core.reprobed
    case Calling(cmd, Xml) => s.core.active == Some(Xml) && !all
    case Failing(cmd, _) => !serves(cmd) && s.core.active.Some? && (s.core.active == Some(Json) || s.core.reprobed)
    case Trying(cmd, alt, _) => alt.Xml? && !all && s.core.reprobed
    case Switching(cmd, alt) => alt.Xml? && !all && s.core.reprobed
    case Noting(cmd, err) => err == NIL && (if all then s.core.active == Some(Json)
                                            else s.core.active.Some? && (serves(cmd) || s.core.active == Some(Xml)))
    case _ => true
  }

  ghost predicate Detection(serves: Cmd -> bool, s: State) {
    var all := serves(Stats) && serves(ListVs);
    && MutexOk(s) && s.cfg == Config(true, true) && s.core.failedAt.None?
    && (forall c :: 0 <= c < |s.pcs| ==> DetectionPc(serves, s, c))
    && (all ==> !s.core.reprobed && s.core.active != Some(Xml))
    && (s.core.reprobed ==> s.core.active == Some(Xml) || (s.core.active.Some? && SumBy(s.pcs, Reprobing) > 0))
    && (s.h.ran != {} ==> s.core.active.Some?)
    && (forall cmd :: cmd in s.h.ran && !serves(cmd) ==> s.core.active == Some(Xml) || s.core.reprobed)
  }

  lemma OwnDetection(w: World, serves: Cmd -> bool, s: State, e: Event)
    requires FixedAnswers(w, serves) && Detection(serves, s) && Enabled(s, e) && Answers(w, s, e)
    requires !e.Reload? && !e.Tick?
    ensures DetectionPc(serves, Apply(s, e), e.c)
  {
    assert DetectionPc(serves, s, e.c);
    assert !s.pcs[e.c].Idle? ==> s.pcs[e.c].cmd == Stats || s.pcs[e.c].cmd == ListVs;
  }

  lemma OtherDetection(w: World, serves: Cmd -> bool, s: State, e: Event, c: nat)
    requires FixedAnswers(w, serves) && Detection(serves, s) && Enabled(s, e) && Answers(w, s, e)
    requires !e.Reload? && c < |s.pcs| && (e.Tick? || c != e.c)
    ensures DetectionPc(serves, Apply(s, e), c)
  {
    assert DetectionPc(serves, s, c);
    if !e.Tick? {
      assert DetectionPc(serves, s, e.c);
      assert !s.pcs[e.c].Idle? ==> s.pcs[e.c].cmd == Stats || s.pcs[e.c].cmd == ListVs;
    }
  }

  lemma StepDetection(w: World, serves: Cmd -> bool, s: State, e: Event)
    requires FixedAnswers(w, serves) && Detection(serves, s) && Enabled(s, e) && Answers(w, s, e) && !e.Reload?
    ensures Detection(serves, Apply(s, e))
  {
    var t := Apply(s, e);
    StepMutex(s, e);
    forall c | 0 <= c < |t.pcs| ensures DetectionPc(serves, t, c) {
      if !e.Tick? && c == e.c {
        OwnDetection(w, serves, s, e);
      } else {
        OtherDetection(w, serves, s, e, c);
      }
    }
    if !e.Tick? {
      assert DetectionPc(serves, s, e.c);
      assert !s.pcs[e.c].Idle? ==> s.pcs[e.c].cmd == Stats || s.pcs[e.c].cmd == ListVs;
      SumByUpdate(s.pcs, Reprobing, e.c, t.pcs[e.c]);
    }
  }

  lemma {:induction false} DetectionKept(w: World, serves: Cmd -> bool, s: State, es: seq<Event>)
    requires FixedAnswers(w, serves) && Detection(serves, s) && Legal(w, s, es) && OneLife(es)
    ensures Detection(serves, Exec(w, s, es))
    decreases |es|
  {
    if es != [] {
      StepDetection(w, serves, s, es[0]);
      DetectionKept(w, serves, Apply(s, es[0]), es[1..]);
    }
  }

  /** Detection does not depend on the schedule: once both commands have run and no call is in flight, the
      active transport is JSON exactly when JSON serves both commands, and XML otherwise, for any number of
      concurrent calls in any interleaving. */
  lemma ScheduleIndependence(w: World, serves: Cmd -> bool, n: nat, now: int, es: seq<Event>)
    requires FixedAnswers(w, serves) && Legal(w, Init(Config(true, true), n, now), es) && OneLife(es)
    requires Quiet(Exec(w, Init(Config(true, true), n, now), es))
    requires Exec(w, Init(Config(true, true), n, now), es).h.ran == {Stats, ListVs}
    ensures Exec(w, Init(Config(true, true), n, now), es).core.active ==
              Some(if serves(Stats) && serves(ListVs) then Json else Xml)
  {
    var s := Init(Config(true, true), n, now);
    DetectionKept(w, serves, s, es);
    var t := Exec(w, s, es);
    SumByZero(t.pcs, Reprobing);
    assert t.h.ran == {Stats, ListVs} && Detection(serves, t);
    if !serves(Stats) {
      assert Stats in t.h.ran;
    } else if !serves(ListVs) {
      assert ListVs in t.h.ran;
    } else {
      assert Stats in t.h.ran;
      assert t.core.active.value.Json?;
    }
  }

  // ---------------------------------------------------------------- progress

  function Rank(pc: Pc): nat {
    match pc
    case Idle => 0
    case Noting(_, _) => 1
    case Switching(_, _) => 2
    case Trying(_, _, _) => 3
    case Failing(_, _) => 4
    case Calling(_, _) => 5
    case Probing(_) => 6
    case Past(_) => 7
    case Entered(_) => 8
    case Due(_) => 9
  }

  /** A planned call or one in flight can step, or waits for the mutex of a probe that can. */
  lemma NobodyHangs(s: State, c: nat, o: Outcome) returns (e: Event)
    requires MutexOk(s) && c < |s.pcs| && !s.pcs[c].Idle?
    ensures Enabled(s, e) && !e.Tick? && !e.Reload? && !e.Plan?
    ensures e.c == c || (s.held && e.ProbeEnds?)
  {
    if s.held && !s.pcs[c].Calling? && !s.pcs[c].Trying? {
      var d :| 0 <= d < |s.pcs| && s.pcs[d].Probing?;
      return ProbeEnds(d, o);
    }
    match s.pcs[c] {
      case Due(_) => e := Enter(c);
      case Entered(_) => e := Cooldown(c);
      case Past(_) => e := EnsureLock(c);
      case Calling(_, _) => e := CallEnds(c, o);
      case Failing(_, _) => e := ReprobeLock(c);
      case Trying(_, _, _) => e := AlternateEnds(c, o);
      case Switching(_, _) => e := SwitchLock(c);
      case Noting(_, _) => e := NoteLock(c);
      case Probing(_) =>
    }
  }

  /** Every call ends after at most nine steps of its own, so a run that plans no new calls is bounded. */
  lemma {:induction false} CallsEnd(w: World, s: State, es: seq<Event>)
    requires Legal(w, s, es) && forall e :: e in es ==> !e.Tick? && !e.Reload? && !e.Plan?
    ensures |es| <= SumBy(s.pcs, Rank)
    decreases |es|
  {
    if es != [] {
      var t := Apply(s, es[0]);
      SumByUpdate(s.pcs, Rank, es[0].c, t.pcs[es[0].c]);
      CallsEnd(w, t, es[1..]);
    }
  }
}
