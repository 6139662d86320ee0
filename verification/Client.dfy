/** One LoadMaster client: transport detection, the one re-probe and the credential cooldown. Every locked
    section of the source is one function here, used by the class below and by the step system. */
module Client {
  import opened Prelude
  import opened Fingerprint

  /** authFailureCooldown, in seconds. */
  const COOLDOWN := 60

  datatype Transport = Xml | Json

  /** An error is the list of faults it wraps; the empty list is a nil error. */
  type Error = seq<Fault>

  const NIL: Error := []

  /** What one transport.Do call came to. */
  datatype Outcome = Ok | Failed(fault: Fault)

  function ErrorOf(o: Outcome): Error {
    if o.Ok? then NIL else [o.fault]
  }

  /** The transports a system has credentials for. */
  datatype Config = Config(xml: bool, json: bool)

  predicate Configured(cfg: Config, tr: Transport) {
    if tr.Xml? then cfg.xml else cfg.json
  }

  /** The guarded fields; `failedAt` is None for the zero time. */
  datatype Core = Core(active: Option<Transport>, reprobed: bool, failedAt: Option<int>, failure: Error)

  const NEW_CORE := Core(None, false, None, NIL)

  /** cooldownError: the cached rejection while it is younger than the cooldown, nil otherwise. */
  function CooldownError(c: Core, now: int): Error {
    if c.failedAt.None? || now - c.failedAt.value >= COOLDOWN then NIL else Wrapped(c.failure)
  }

  /** A new error around another; it is never nil. */
  function Wrapped(e: Error): Error {
    if e == NIL then [Other] else e
  }

  predicate CoolingDown(c: Core, now: int) {
    c.failedAt.Some? && now - c.failedAt.value < COOLDOWN
  }

  /** noteAuthResult: a rejection is remembered, a success forgets it, anything else changes nothing. */
  function Noted(c: Core, err: Error, now: int): Core {
    if Auth in err then c.(failedAt := Some(now), failure := err)
    else if err == NIL then c.(failedAt := None, failure := NIL)
    else c
  }

  /** What ensureTransport tells do. */
  datatype Ensured = Call(tr: Transport) | Probe | Satisfied | GiveUp(err: Error)

  /** ensureTransport up to the JSON probe. */
  function EnsureStart(cfg: Config, c: Core): Ensured {
    if c.active.Some? then Call(c.active.value)
    else if cfg.json then Probe
    else if cfg.xml then Call(Xml)
    else GiveUp([Other])
  }

  /** ensureTransport after the JSON probe. */
  function EnsureEnd(cfg: Config, probe: Outcome): Ensured {
    if probe.Ok? then Satisfied
    else if probe.fault == Other then GiveUp([Other])
    else if cfg.xml then Call(Xml)
    else GiveUp([probe.fault])
  }

  /** The transport that ensureTransport leaves active. */
  function Activated(c: Core, e: Ensured): Core {
    match e
    case Call(tr) => c.(active := Some(tr))
    case Satisfied => c.(active := Some(Json))
    case _ => c
  }

  /** The alternate that the one re-probe may try. */
  function Alternate(cfg: Config, c: Core): Option<Transport> {
    if c.reprobed then None
    else if c.active == Some(Json) && cfg.xml then Some(Xml)
    else if c.active == Some(Xml) && cfg.json then Some(Json)
    else None
  }

  /** do for a caller that meets no other: the client it leaves, the error it returns and the transports
      that reached the appliance, given the appliance's answers to the probe, the call and the alternate and
      the times of the cooldown check and of the note. */
  function Alone(cfg: Config, c: Core, probe: Outcome, call: Outcome, alt: Outcome, start: int, end: int)
    : (Core, Error, seq<Transport>)
  {
    if CooldownError(c, start) != NIL then (c, CooldownError(c, start), []) else
      var first := EnsureStart(cfg, c);
      var e := if first.Probe? then EnsureEnd(cfg, probe) else first;
      Conclude(cfg, Activated(c, e), e, if first.Probe? then [Json] else [], call, alt, end)
  }

  /** The rest of do once ensureTransport answered `e`. */
  function Conclude(cfg: Config, c: Core, e: Ensured, asked: seq<Transport>, call: Outcome, alt: Outcome, end: int)
    : (Core, Error, seq<Transport>)
  {
    if e.GiveUp? then (Noted(c, e.err, end), e.err, asked)
    else if !e.Call? then (Noted(c, NIL, end), NIL, asked)
    else if call.Ok? || call.fault == Auth then (Noted(c, ErrorOf(call), end), ErrorOf(call), asked + [e.tr])
    else
      var other := Alternate(cfg, c);
      var r := c.(reprobed := true);
      if other.None? then (r, ErrorOf(call), asked + [e.tr])
      else if alt.Ok? then (Noted(r.(active := other), NIL, end), NIL, asked + [e.tr] + [other.value])
      else (r, ErrorOf(call) + [alt.fault], asked + [e.tr] + [other.value])
  }

  class SystemClient {
    const name: string
    const fingerprint: string
    const cfg: Config
    var active: Option<Transport>
    var reprobed: bool
    var authFailureAt: Option<int>
    var authFailureErr: Error

    function View(): Core
      reads this
    {
      Core(active, reprobed, authFailureAt, authFailureErr)
    }

    constructor (sys: System)
      ensures name == sys.name && fingerprint == Preimage(sys)
      ensures cfg == Config(sys.apiKey != "", sys.username != "" && sys.password != "")
      ensures View() == NEW_CORE
    {
      name, cfg := sys.name, Config(sys.apiKey != "", sys.username != "" && sys.password != "");
      fingerprint := Preimage(sys);
      active, reprobed, authFailureAt, authFailureErr := None, false, None, NIL;
    }

    method CheckCooldown(now: int) returns (err: Error)
      ensures err == CooldownError(View(), now)
      ensures err != NIL <==> authFailureAt.Some? && now - authFailureAt.value < 60
      ensures err != NIL && authFailureErr != NIL ==> err == authFailureErr
    {
      if authFailureAt.None? {
        return NIL;
      }
      if now - authFailureAt.value >= COOLDOWN {
        return NIL;
      }
      err := Wrapped(authFailureErr);
    }

    method NoteAuthResult(err: Error, now: int)
      modifies this`authFailureAt, this`authFailureErr
      ensures View() == Noted(old(View()), err, now)
      ensures Auth in err ==> authFailureAt == Some(now) && authFailureErr == err
      ensures err == NIL ==> authFailureAt == None && authFailureErr == NIL
      ensures err != NIL && Auth !in err ==>
                authFailureAt == old(authFailureAt) && authFailureErr == old(authFailureErr)
    {
      if Auth in err {
        authFailureAt, authFailureErr := Some(now), err;
        return;
      }
      if err == NIL {
        authFailureAt, authFailureErr := None, NIL;
      }
    }

    /** `probe` is what the JSON transport answers if it is asked. A client that has a transport uses it. One that
        has none probes JSON if it can: a success settles on JSON, an unsupported or rejected probe falls back to
        XML if that is configured, and any other failure is no evidence and leaves the client undetected. */
    method EnsureTransport(probe: Outcome) returns (e: Ensured, probed: bool)
      modifies this`active
      ensures probed <==> EnsureStart(cfg, old(View())).Probe?
      ensures e == if probed then EnsureEnd(cfg, probe) else EnsureStart(cfg, old(View()))
      ensures View() == Activated(old(View()), e)
      ensures probed <==> old(active).None? && cfg.json
      ensures old(active).Some? ==> e == Call(old(active).value) && active == old(active)
      ensures probed && probe == Ok ==> e == Satisfied && active == Some(Json)
      ensures probed && probe == Failed(Other) ==> e.GiveUp? && e.err != NIL && Auth !in e.err && active == None
      ensures probed && (probe == Failed(Unsupported) || probe == Failed(Auth)) && cfg.xml ==>
                e == Call(Xml) && active == Some(Xml)
      ensures probed && (probe == Failed(Unsupported) || probe == Failed(Auth)) && !cfg.xml ==>
                e.GiveUp? && e.err != NIL && (Auth in e.err <==> probe == Failed(Auth)) && active == None
      ensures old(active).None? && !cfg.json && cfg.xml ==> e == Call(Xml) && active == Some(Xml)
      ensures old(active).None? && !cfg.json && !cfg.xml ==>
                e.GiveUp? && e.err != NIL && Auth !in e.err && active == None
    {
      probed := false;
      if active.Some? {
        return Call(active.value), false;
      }
      var probeErr := NIL;
      if cfg.json {
        probed := true;
        if probe.Ok? {
          active := Some(Json);
          return Satisfied, true;
        }
        if probe.fault != Unsupported && probe.fault != Auth {
          return GiveUp([Other]), true;
        }
        probeErr := [probe.fault];
      }
      if cfg.xml {
        active := Some(Xml);
        return Call(Xml), probed;
      }
      e := GiveUp(if probeErr != NIL then probeErr else [Other]);
    }

    /** `alt` is what the alternate transport answers if it is asked: the configured other one, once in the
        client's life. Only its success switches the client and clears the cooldown; its failure changes nothing
        and is reported behind the cause. */
    method Reprobe(cause: Error, alt: Outcome, now: int) returns (err: Error, asked: Option<Transport>)
      modifies this
      ensures reprobed
      ensures asked == Some(Xml) <==> !old(reprobed) && old(active) == Some(Json) && cfg.xml
      ensures asked == Some(Json) <==> !old(reprobed) && old(active) == Some(Xml) && cfg.json
      ensures asked.Some? && alt == Ok ==>
                err == NIL && active == asked && authFailureAt == None && authFailureErr == NIL
      ensures asked.None? || alt.Failed? ==>
                active == old(active) && authFailureAt == old(authFailureAt) && authFailureErr == old(authFailureErr)
      ensures asked.None? ==> err == cause
      ensures asked.Some? && alt.Failed? ==> err == cause + [alt.fault]
      ensures asked == Alternate(cfg, old(View()))
      ensures var c := old(View()).(reprobed := true);
              View() == if asked.Some? && alt.Ok? then Noted(c.(active := asked), NIL, now) else c
      ensures err == if asked.None? then cause else if alt.Ok? then NIL else cause + [alt.fault]
    {
      asked := None;
      if reprobed {
        return cause, None;
      }
      reprobed := true;
      if active == Some(Json) && cfg.xml {
        asked := Some(Xml);
      } else if active == Some(Xml) && cfg.json {
        asked := Some(Json);
      }
      if asked.None? {
        return cause, asked;
      }
      if alt.Failed? {
        return cause + [alt.fault], asked;
      }
      active := asked;
      NoteAuthResult(NIL, now);
      err := NIL;
    }

    /** do, for a caller that meets no other. A suppressed call asks nobody and changes nothing. A rejection by the
        transport in use is final and recorded; any other failure of it leaves the record alone and goes to the
        re-probe. */
    method Do(probe: Outcome, call: Outcome, alt: Outcome, start: int, end: int)
      returns (err: Error, asked: seq<Transport>)
      modifies this
      ensures (View(), err, asked) == Alone(cfg, old(View()), probe, call, alt, start, end)
      ensures var suppressed := old(authFailureAt).Some? && start - old(authFailureAt).value < 60;
              if suppressed then err != NIL && asked == [] && View() == old(View())
              else
                var undetected := old(active).None? && cfg.json;
                var fallsBack := undetected && cfg.xml && (probe == Failed(Unsupported) || probe == Failed(Auth));
                var calls := old(active).Some? || fallsBack || (!cfg.json && cfg.xml);
                (undetected ==> asked != [] && asked[0] == Json)
                && (undetected && probe == Ok ==>
                      err == NIL && asked == [Json] && active == Some(Json) && authFailureAt == None)
                && (undetected && probe == Failed(Other) ==>
                      err != NIL && Auth !in err && asked == [Json] && active == None
                      && authFailureAt == old(authFailureAt))
                && (undetected && !cfg.xml && probe == Failed(Auth) ==>
                      Auth in err && asked == [Json] && active == None && authFailureAt == Some(end))
                && (calls && call == Ok ==>
                      err == NIL && authFailureAt == None && reprobed == old(reprobed)
                      && active == if old(active).Some? then old(active) else Some(Xml))
                && (calls && call == Failed(Auth) ==>
                      Auth in err && authFailureAt == Some(end) && reprobed == old(reprobed)
                      && active == if old(active).Some? then old(active) else Some(Xml))
                && (calls && call.Failed? && call.fault != Auth ==>
                      reprobed && (err == NIL ==> alt == Ok && authFailureAt == None)
                      && (err != NIL ==> call.fault in err && authFailureAt == old(authFailureAt)))
    {
      asked := [];
      var cached := CheckCooldown(start);
      if cached != NIL {
        return cached, [];
      }
      var e, probed := EnsureTransport(probe);
      if probed {
        asked := [Json];
      }
      match e {
        case GiveUp(cause) =>
          NoteAuthResult(cause, end);
          return cause, asked;
        case Satisfied =>
          NoteAuthResult(NIL, end);
          return NIL, asked;
        case Call(tr) =>
          asked := asked + [tr];
          if call.Ok? {
            NoteAuthResult(NIL, end);
            return NIL, asked;
          }
          if call.fault == Auth {
            NoteAuthResult([Auth], end);
            return [Auth], asked;
          }
          var other;
          err, other := Reprobe([call.fault], alt, end);
          if other.Some? {
            asked := asked + [other.value];
          }
        case Probe =>
      }
    }
  }

  /** A member of a client set: a system client or a test double. */
  datatype Member = Real(client: SystemClient) | Double(name: string)

  function NameOf(m: Member): string {
    if m.Real? then m.client.name else m.name
  }

  /** The last system client of that name, as the map in carryAuthCooldown ends up holding it. */
  function LastNamed(previous: seq<Member>, name: string): (r: Option<SystemClient>)
    ensures r.Some? ==> Real(r.value) in previous && r.value.name == name
    ensures r.None? ==> forall m :: m in previous && m.Real? ==> m.client.name != name
  {
    if previous == [] then None
    else
      var m := previous[|previous| - 1];
      if m.Real? && m.client.name == name then Some(m.client)
      else LastNamed(previous[..|previous| - 1], name)
  }

  /** It is the last one indeed: no later system client has the name. */
  lemma {:induction false} LastNamedIsLast(previous: seq<Member>, name: string) returns (i: nat)
    requires LastNamed(previous, name).Some?
    ensures i < |previous| && previous[i] == Real(LastNamed(previous, name).value)
    ensures forall j :: i < j < |previous| ==> !previous[j].Real? || previous[j].client.name != name
  {
    var last := |previous| - 1;
    if previous[last].Real? && previous[last].client.name == name {
      return last;
    }
    i := LastNamedIsLast(previous[..last], name);
  }

  /** The cooldown a replacement starts with: its predecessor's when name and credentials are unchanged and
      there is one, its own otherwise. */
  function Carried(prior: Core, sameTarget: bool, own: Core): Core {
    if sameTarget && prior.failedAt.Some? then own.(failedAt := prior.failedAt, failure := prior.failure) else own
  }

  /** A rebuilt client is suppressed exactly as its predecessor was when nothing that decides where which
      credential goes has changed, and not at all otherwise. */
  lemma CooldownFollowsTheCredential(prior: Core, a: System, b: System, now: int)
    ensures CooldownError(Carried(prior, Preimage(a) == Preimage(b), NEW_CORE), now) ==
              if a.(name := b.name) == b then CooldownError(prior, now) else NIL
  {
    PreimageDistinguishes(a, b);
  }

  function CarriedFrom(previous: seq<Member>, sc: SystemClient): Core
    reads sc, set m | m in previous && m.Real? :: m.client
  {
    var p := LastNamed(previous, sc.name);
    if p.Some? then Carried(p.value.View(), p.value.fingerprint == sc.fingerprint, sc.View()) else sc.View()
  }

  /** Nothing but the cooldown is carried, and that exactly from a namesake with the same credential that has one;
      every other client keeps its own. */
  lemma CarriedFromTheNamesake(previous: seq<Member>, sc: SystemClient)
    ensures var p, c := LastNamed(previous, sc.name), CarriedFrom(previous, sc);
            c.active == sc.active && c.reprobed == sc.reprobed
            && if p.Some? && p.value.fingerprint == sc.fingerprint && p.value.authFailureAt.Some?
               then c.failedAt == p.value.authFailureAt && c.failure == p.value.authFailureErr
               else c.failedAt == sc.authFailureAt && c.failure == sc.authFailureErr
  {
  }

  /** carryAuthCooldown: exactly the cooldown fields of the new set change, each as CarriedFrom says,
      whatever clients the two sets share. */
  method CarryAuthCooldown(previous: seq<Member>, next: seq<Member>)
    modifies (set m | m in next && m.Real? :: m.client)`authFailureAt
    modifies (set m | m in next && m.Real? :: m.client)`authFailureErr
    ensures forall m :: m in next && m.Real? ==> m.client.View() == old(CarriedFrom(previous, m.client))
  {
    if |previous| == 0 || |next| == 0 {
      return;
    }
    var prior: map<string, SystemClient> := map[];
    for i := 0 to |previous|
      invariant forall n :: n in prior <==> LastNamed(previous[..i], n).Some?
      invariant forall n :: n in prior ==> prior[n] == LastNamed(previous[..i], n).value
    {
      assert previous[..i + 1][..i] == previous[..i];
      if previous[i].Real? {
        prior := prior[previous[i].client.name := previous[i].client];
      }
    }
    assert previous[..|previous|] == previous;
    for i := 0 to |next|
      invariant forall m :: m in next && m.Real? ==>
                  m.client.View() == old(m.client.View()) || m.client.View() == old(CarriedFrom(previous, m.client))
      invariant forall k :: 0 <= k < i && next[k].Real? ==>
                  next[k].client.View() == old(CarriedFrom(previous, next[k].client))
      invariant forall n :: n in prior ==> prior[n].View() == old(prior[n].View())
    {
      if next[i].Real? {
        var sc := next[i].client;
        if sc.name in prior && prior[sc.name] != sc && prior[sc.name].fingerprint == sc.fingerprint {
          var p := prior[sc.name];
          if p.authFailureAt.Some? {
            sc.authFailureAt, sc.authFailureErr := p.authFailureAt, p.authFailureErr;
          }
        }
      }
    }
  }
}
