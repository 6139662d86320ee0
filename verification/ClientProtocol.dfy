/** Concurrent calls of do on one client. The client's mutex is held over the whole JSON probe and over each
    short locked section, but not over the transport calls, so those gaps are steps of their own. A cycle plans
    its calls when it takes its copy of the client set, and a planned call may begin much later. The number of
    program counters is the number of calls that can be planned or in flight. */
module ClientProtocol {
  import opened Prelude
  import opened Client

  datatype Cmd = Stats | ListVs

  datatype Pc =
    | Idle
    | Due(cmd: Cmd)
    | Entered(cmd: Cmd)
    | Past(cmd: Cmd)
    | Probing(cmd: Cmd)
    | Calling(cmd: Cmd, tr: Transport)
    | Failing(cmd: Cmd, cause: Fault)
    | Trying(cmd: Cmd, alt: Transport, cause: Fault)
    | Switching(cmd: Cmd, alt: Transport)
    | Noting(cmd: Cmd, err: Error)

  /** What has happened so far: JSON calls begun, rejections received and noted, the time of the first note,
      changes of an already active transport, and the commands that have run to an end. */
  datatype History = History(jsonTries: nat, rejections: nat, notes: nat, firstNote: Option<int>,
                             switches: nat, ran: set<Cmd>)

  datatype State = State(cfg: Config, core: Core, held: bool, now: int, pcs: seq<Pc>, h: History)

  datatype Event =
    | Tick(seconds: nat)
    | Reload
    | Plan(c: nat, cmd: Cmd)
    | Enter(c: nat)
    | Cooldown(c: nat)
    | EnsureLock(c: nat)
    | ProbeEnds(c: nat, o: Outcome)
    | CallEnds(c: nat, o: Outcome)
    | ReprobeLock(c: nat)
    | AlternateEnds(c: nat, o: Outcome)
    | SwitchLock(c: nat)
    | NoteLock(c: nat)

  function Init(cfg: Config, n: nat, now: int): State {
    State(cfg, NEW_CORE, false, now, seq(n, i => Idle), History(0, 0, 0, None, 0, {}))
  }

  predicate Enabled(s: State, e: Event) {
    match e
    case Tick(_) => true
    case Reload => forall c :: 0 <= c < |s.pcs| ==> s.pcs[c].Idle?
    case Plan(c, _) => c < |s.pcs| && s.pcs[c].Idle?
    case Enter(c) => c < |s.pcs| && s.pcs[c].Due?
    case Cooldown(c) => c < |s.pcs| && s.pcs[c].Entered? && !s.held
    case EnsureLock(c) => c < |s.pcs| && s.pcs[c].Past? && !s.held
    case ProbeEnds(c, _) => c < |s.pcs| && s.pcs[c].Probing?
    case CallEnds(c, _) => c < |s.pcs| && s.pcs[c].Calling?
    case ReprobeLock(c) => c < |s.pcs| && s.pcs[c].Failing? && !s.held
    case AlternateEnds(c, _) => c < |s.pcs| && s.pcs[c].Trying?
    case SwitchLock(c) => c < |s.pcs| && s.pcs[c].Switching? && !s.held
    case NoteLock(c) => c < |s.pcs| && s.pcs[c].Noting? && !s.held
  }

  /** 1 while a received rejection waits to be noted. */
  function Unnoted(pc: Pc): nat {
    if pc.Noting? && Auth in pc.err then 1 else 0
  }

  function Tried(h: History, tr: Transport): History {
    if tr.Json? then h.(jsonTries := h.jsonTries + 1) else h
  }

  function Answered(h: History, o: Outcome): History {
    if o == Failed(Auth) then h.(rejections := h.rejections + 1) else h
  }

  function Ran(h: History, cmd: Cmd): History {
    h.(ran := h.ran + {cmd})
  }

  /** The program counter and the history after ensureTransport answered. */
  function Directed(h: History, cmd: Cmd, e: Ensured): (Pc, History) {
    match e
    case Call(tr) => (Calling(cmd, tr), Tried(h, tr))
    case Probe => (Probing(cmd), Tried(h, Json))
    case Satisfied => (Noting(cmd, NIL), h)
    case GiveUp(err) => (Noting(cmd, err), h)
  }

  function Apply(s: State, e: Event): State
    requires Enabled(s, e)
  {
    match e
    case Tick(seconds) => s.(now := s.now + seconds)
    case Reload => s.(core := Carried(s.core, true, NEW_CORE))
    case Plan(c, cmd) => s.(pcs := s.pcs[c := Due(cmd)])
    case Enter(c) => s.(pcs := s.pcs[c := Entered(s.pcs[c].cmd)])
    case Cooldown(c) =>
      s.(pcs := s.pcs[c := if CooldownError(s.core, s.now) == NIL then Past(s.pcs[c].cmd) else Idle])
    case EnsureLock(c) =>
      var d := EnsureStart(s.cfg, s.core);
      var (pc, h) := Directed(s.h, s.pcs[c].cmd, d);
      s.(core := Activated(s.core, d), held := d.Probe?, pcs := s.pcs[c := pc], h := h)
    case ProbeEnds(c, o) =>
      var d := EnsureEnd(s.cfg, o);
      var (pc, h) := Directed(Answered(s.h, o), s.pcs[c].cmd, d);
      s.(core := Activated(s.core, d), held := false, pcs := s.pcs[c := pc], h := h)
    case CallEnds(c, o) =>
      var pc := s.pcs[c];
      s.(pcs := s.pcs[c := if o.Ok? then Noting(pc.cmd, NIL)
                           else if o.fault == Auth then Noting(pc.cmd, [Auth])
                           else Failing(pc.cmd, o.fault)],
         h := Answered(s.h, o))
    case ReprobeLock(c) =>
      var pc := s.pcs[c];
      var alt := Client.Alternate(s.cfg, s.core);
      s.(core := s.core.(reprobed := true),
         pcs := s.pcs[c := if alt.Some? then Trying(pc.cmd, alt.value, pc.cause) else Idle],
         h := if alt.Some? then Tried(s.h, alt.value) else Ran(s.h, pc.cmd))
    case AlternateEnds(c, o) =>
      var pc := s.pcs[c];
      s.(pcs := s.pcs[c := if o.Ok? then Switching(pc.cmd, pc.alt) else Idle],
         h := if o.Ok? then s.h else Ran(Answered(s.h, o), pc.cmd))
    case SwitchLock(c) =>
      var pc := s.pcs[c];
      s.(core := s.core.(active := Some(pc.alt)),
         pcs := s.pcs[c := Noting(pc.cmd, NIL)],
         h := s.h.(switches := s.h.switches + (if s.core.active.Some? && s.core.active != Some(pc.alt) then 1 else 0)))
    case NoteLock(c) =>
      var pc := s.pcs[c];
      var h := Ran(s.h, pc.cmd);
      s.(core := Noted(s.core, pc.err, s.now),
         pcs := s.pcs[c := Idle],
         h := if Auth in pc.err
              then h.(notes := h.notes + 1, firstNote := if h.firstNote.None? then Some(s.now) else h.firstNote)
              else h)
  }

  /** Which answers of the appliance a run allows, by command and transport. */
  type World = (Cmd, Transport, Outcome) -> bool

  ghost predicate Answers(w: World, s: State, e: Event)
    requires Enabled(s, e)
  {
    match e
    case ProbeEnds(c, o) => w(s.pcs[c].cmd, Json, o)
    case CallEnds(c, o) => w(s.pcs[c].cmd, s.pcs[c].tr, o)
    case AlternateEnds(c, o) => w(s.pcs[c].cmd, s.pcs[c].alt, o)
    case _ => true
  }

  ghost predicate Legal(w: World, s: State, es: seq<Event>)
    decreases |es|
  {
    es == [] || (Enabled(s, es[0]) && Answers(w, s, es[0]) && Legal(w, Apply(s, es[0]), es[1..]))
  }

  ghost function Exec(w: World, s: State, es: seq<Event>): State
    requires Legal(w, s, es)
    decreases |es|
  {
    if es == [] then s else Exec(w, Apply(s, es[0]), es[1..])
  }

  /** The life of one client: no reload replaces it. */
  ghost predicate OneLife(es: seq<Event>) {
    Reload !in es
  }

  ghost predicate Quiet(s: State) {
    forall c :: 0 <= c < |s.pcs| ==> s.pcs[c].Idle?
  }

  /** The mutex is held exactly during a probe, so there is at most one, and only of an undetected client. */
  ghost predicate MutexOk(s: State) {
    && (forall c, d :: 0 <= c < |s.pcs| && 0 <= d < |s.pcs| && s.pcs[c].Probing? && s.pcs[d].Probing? ==> c == d)
    && (forall c :: 0 <= c < |s.pcs| && s.pcs[c].Probing? ==> s.held && s.core.active.None? && s.cfg.json)
    && (s.held ==> exists c :: 0 <= c < |s.pcs| && s.pcs[c].Probing?)
  }

  lemma StepMutex(s: State, e: Event)
    requires MutexOk(s) && Enabled(s, e)
    ensures MutexOk(Apply(s, e))
  {
    var t := Apply(s, e);
    if t.held {
      if e.EnsureLock? {
        assert t.pcs[e.c].Probing?;
      } else {
        var c :| 0 <= c < |s.pcs| && s.pcs[c].Probing?;
        assert t.pcs[c].Probing?;
      }
    }
  }

  /** `R` holds of whatever a step leads to. */
  ghost predicate StepClosed(R: State -> bool) {
    forall s, e | R(s) && Enabled(s, e) :: R(Apply(s, e))
  }

  /** The calls of do after ensureTransport chose a transport, with nobody in between. */
  lemma CallIsARun(R: State -> bool, s: State, call: Outcome, alt: Outcome) returns (t: State)
    requires StepClosed(R) && R(s) && |s.pcs| > 0 && s.pcs[0].Calling? && !s.held
    ensures R(t) && !t.held && t.now == s.now && |t.pcs| == |s.pcs| && t.pcs == s.pcs[0 := t.pcs[0]]
    ensures var other := Client.Alternate(s.cfg, s.core);
            var r := s.core.(reprobed := true);
            if call.Ok? || call.fault == Auth then
              t.core == s.core && t.pcs[0] == Noting(s.pcs[0].cmd, ErrorOf(call)) && t.h.jsonTries == s.h.jsonTries
            else if other.Some? && alt.Ok? then
              t.core == r.(active := other) && t.pcs[0] == Noting(s.pcs[0].cmd, NIL)
              && t.h.jsonTries == s.h.jsonTries + (if other.value.Json? then 1 else 0)
            else
              t.core == r && t.pcs[0] == Idle
              && t.h.jsonTries == s.h.jsonTries + (if other.Some? && other.value.Json? then 1 else 0)
  {
    t := Apply(s, CallEnds(0, call));
    if t.pcs[0].Failing? {
      t := Apply(t, ReprobeLock(0));
      if t.pcs[0].Trying? {
        t := Apply(t, AlternateEnds(0, alt));
        if t.pcs[0].Switching? {
          t := Apply(t, SwitchLock(0));
        }
      }
    }
  }

  /** Where a call stands once ensureTransport answered. */
  function After(cmd: Cmd, e: Ensured): Pc {
    match e
    case Call(tr) => Calling(cmd, tr)
    case GiveUp(err) => Noting(cmd, err)
    case _ => Noting(cmd, NIL)
  }

  /** A call that passes the cooldown check and ensureTransport, with nobody in between. */
  lemma EnsureIsARun(R: State -> bool, s: State, cmd: Cmd, probe: Outcome) returns (t: State)
    requires StepClosed(R) && R(s) && |s.pcs| > 0 && s.pcs[0].Idle? && !s.held && CooldownError(s.core, s.now) == NIL
    ensures var first := EnsureStart(s.cfg, s.core);
            var e := if first.Probe? then EnsureEnd(s.cfg, probe) else first;
            R(t) && !t.held && t.now == s.now && t.cfg == s.cfg && t.core == Activated(s.core, e)
            && t.pcs == s.pcs[0 := After(cmd, e)]
            && t.h.jsonTries ==
                 s.h.jsonTries + (if first.Probe? then 1 else 0) + (if e.Call? && e.tr.Json? then 1 else 0)
  {
    t := Apply(s, Plan(0, cmd));
    t := Apply(t, Enter(0));
    t := Apply(t, Cooldown(0));
    t := Apply(t, EnsureLock(0));
    if t.pcs[0].Probing? {
      t := Apply(t, ProbeEnds(0, probe));
    }
  }

  lemma ConcludeIsARun(R: State -> bool, s: State, e: Ensured, asked: seq<Transport>, call: Outcome,
                       alt: Outcome, wait: nat)
    returns (t: State)
    requires StepClosed(R) && R(s) && |s.pcs| > 0 && !s.pcs[0].Idle? && s.pcs[0] == After(s.pcs[0].cmd, e) && !s.held
    ensures R(t) && t.pcs == s.pcs[0 := Idle] && !t.held
    ensures var r := Conclude(s.cfg, s.core, e, asked, call, alt, s.now + wait);
            t.core == r.0
            && t.h.jsonTries + multiset(asked)[Json] + (if e.Call? && e.tr.Json? then 1 else 0)
               == s.h.jsonTries + multiset(r.2)[Json]
  {
    t := s;
    if t.pcs[0].Calling? {
      t := CallIsARun(R, t, call, alt);
    }
    if t.pcs[0].Noting? {
      t := Apply(t, Tick(wait));
      t := Apply(t, NoteLock(0));
    }
  }

  /** A suppressed call changes nothing. */
  lemma SuppressedIsARun(R: State -> bool, s: State, cmd: Cmd) returns (t: State)
    requires StepClosed(R) && R(s) && |s.pcs| > 0 && s.pcs[0].Idle? && !s.held && CooldownError(s.core, s.now) != NIL
    ensures R(t) && t == s
  {
    t := Apply(s, Plan(0, cmd));
    t := Apply(t, Enter(0));
    t := Apply(t, Cooldown(0));
    assert s.pcs[0 := Due(cmd)][0 := Entered(cmd)][0 := Idle] == s.pcs;
  }

  /** `t` is `s` after a call that left `r.0` and asked the transports `r.2`. */
  ghost predicate Did(s: State, t: State, r: (Core, Error, seq<Transport>)) {
    t.pcs == s.pcs && !t.held && t.core == r.0 && t.h.jsonTries == s.h.jsonTries + multiset(r.2)[Json]
  }

  lemma PassedIsARun(R: State -> bool, s: State, cmd: Cmd, probe: Outcome, call: Outcome, alt: Outcome, wait: nat)
    returns (t: State)
    requires StepClosed(R) && R(s) && |s.pcs| > 0 && s.pcs[0].Idle? && !s.held && CooldownError(s.core, s.now) == NIL
    ensures var first := EnsureStart(s.cfg, s.core);
            var e := if first.Probe? then EnsureEnd(s.cfg, probe) else first;
            var asked := if first.Probe? then [Json] else [];
            R(t) && Did(s, t, Conclude(s.cfg, Activated(s.core, e), e, asked, call, alt, s.now + wait))
  {
    var first := EnsureStart(s.cfg, s.core);
    var e := if first.Probe? then EnsureEnd(s.cfg, probe) else first;
    var asked := if first.Probe? then [Json] else [];
    var u := EnsureIsARun(R, s, cmd, probe);
    t := ConcludeIsARun(R, u, e, asked, call, alt, wait);
    assert u.pcs[0 := Idle] == s.pcs;
    assert multiset(asked)[Json] == if first.Probe? then 1 else 0;
  }

  /** The sequential do of the class is one of the runs: from any quiet state some run of one call ends with
      the client that do leaves, having asked JSON as often as do reports. */
  lemma DoIsARun(R: State -> bool, s: State, cmd: Cmd, probe: Outcome, call: Outcome, alt: Outcome, wait: nat)
    returns (t: State)
    requires StepClosed(R) && R(s) && |s.pcs| > 0 && s.pcs[0].Idle? && !s.held
    ensures R(t) && Did(s, t, Alone(s.cfg, s.core, probe, call, alt, s.now, s.now + wait))
  {
    if CooldownError(s.core, s.now) != NIL {
      t := SuppressedIsARun(R, s, cmd);
    } else {
      t := PassedIsARun(R, s, cmd, probe, call, alt, wait);
    }
  }

  const ANY: World := (cmd, tr, o) => true

  /** Some run leads from `s` to `t`. */
  ghost predicate Reaches(s: State, t: State) {
    exists es :: Legal(ANY, s, es) && Exec(ANY, s, es) == t
  }

  lemma {:induction false} ExecAppend(s: State, es: seq<Event>, e: Event)
    requires Legal(ANY, s, es) && Enabled(Exec(ANY, s, es), e)
    ensures Legal(ANY, s, es + [e]) && Exec(ANY, s, es + [e]) == Apply(Exec(ANY, s, es), e)
    decreases |es|
  {
    if es == [] {
      assert es + [e] == [e] && [e][1..] == [];
    } else {
      assert (es + [e])[1..] == es[1..] + [e];
      ExecAppend(Apply(s, es[0]), es[1..], e);
    }
  }

  /** What a state reaches is closed under steps and contains the state. */
  lemma ReachesIsClosed(s: State)
    ensures StepClosed((t: State) => Reaches(s, t)) && Reaches(s, s)
  {
    assert Legal(ANY, s, []) && Exec(ANY, s, []) == s;
    forall t, e | Reaches(s, t) && Enabled(t, e) ensures Reaches(s, Apply(t, e)) {
      var es :| Legal(ANY, s, es) && Exec(ANY, s, es) == t;
      ExecAppend(s, es, e);
    }
  }
}
