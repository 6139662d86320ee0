/** Any number of callers of the JSON transport's Do over one session. A caller runs ensure, posts, and
    on a 401 runs refresh and posts once more; every unlocked gap is a step of its own. */
module SessionProtocol {
  import opened Prelude
  import opened LoginSession

  /** Which obtain a caller is in: the first, or the one after a rejected post with generation `gen`. */
  datatype Phase = Ensure | Refresh(gen: nat)

  function Stale(ph: Phase): int {
    if ph.Ensure? then NO_GEN else ph.gen
  }

  datatype Pc =
    | Idle
    | Entering(ph: Phase)
    | Waiting(ph: Phase, attempt: nat)
    | Leading(ph: Phase, attempt: nat)
    | Ended(ph: Phase, attempt: nat, outcome: Outcome)
    | Released(ph: Phase, attempt: nat, outcome: Outcome)
    | Filled(ph: Phase, attempt: nat, outcome: Outcome)
    | Closed(ph: Phase, attempt: nat, outcome: Outcome)
    | Got(ph: Phase, token: string, gen: nat)
    | Crashed

  /** The history of one login attempt: who leads it, what its leader had seen, whether a token was
      cached when it started, and what has been made visible so far. */
  datatype Attempt = Attempt(leader: nat, stale: int, cached: bool, published: Option<Outcome>,
                             reply: Option<Reply>, closes: nat)

  datatype State = State(core: Core, attempts: seq<Attempt>, pcs: seq<Pc>)

  datatype Event =
    | Begin(c: nat)
    | Check(c: nat)
    | Wake(c: nat)
    | Finish(c: nat, outcome: Outcome)
    | Publish(c: nat)
    | Fill(c: nat)
    | Close(c: nat)
    | Leave(c: nat)
    | Post(c: nat, unauthorized: bool)

  function Init(n: nat): State {
    State(Core("", 0, None), [], seq(n, i => Idle))
  }

  predicate Enabled(s: State, e: Event) {
    e.c < |s.pcs| &&
    var pc := s.pcs[e.c];
    match e
    case Begin(_) => pc.Idle?
    case Check(_) => pc.Entering?
    case Wake(_) => pc.Waiting? && pc.attempt < |s.attempts| && s.attempts[pc.attempt].closes > 0
                    && s.attempts[pc.attempt].reply.Some?
    case Finish(_, o) => pc.Leading? && (o.Token? ==> o.token != "")
    case Publish(_) => pc.Ended? && pc.attempt < |s.attempts|
    case Fill(_) => pc.Released? && pc.attempt < |s.attempts|
    case Close(_) => pc.Filled? && pc.attempt < |s.attempts|
    case Leave(_) => pc.Closed? && pc.attempt < |s.attempts| && s.attempts[pc.attempt].reply.Some?
    case Post(_, _) => pc.Got?
  }

  /** Where a caller goes once obtain returned `r`: an error ends its Do. */
  function After(ph: Phase, r: Reply): Pc {
    if r.err.Some? then Idle else Got(ph, r.token, r.gen)
  }

  function Apply(s: State, e: Event): State
    requires Enabled(s, e)
  {
    var pc := s.pcs[e.c];
    match e
    case Begin(c) => s.(pcs := s.pcs[c := Entering(Ensure)])
    case Check(c) =>
      var d := Decide(s.core, Stale(pc.ph), |s.attempts|);
      var core := Decided(s.core, d);
      (match d
       case Use(r) => s.(pcs := s.pcs[c := After(pc.ph, r)])
       case Join(a) => s.(pcs := s.pcs[c := Waiting(pc.ph, a)])
       case Lead(a) => State(core, s.attempts + [Attempt(c, Stale(pc.ph), s.core.token != "", None, None, 0)],
                             s.pcs[c := Leading(pc.ph, a)]))
    case Wake(c) => s.(pcs := s.pcs[c := After(pc.ph, s.attempts[pc.attempt].reply.value)])
    case Finish(c, o) => s.(pcs := s.pcs[c := Ended(pc.ph, pc.attempt, o)])
    case Publish(c) =>
      State(LoginSession.Published(s.core, pc.outcome),
            s.attempts[pc.attempt := s.attempts[pc.attempt].(published := Some(pc.outcome))],
            s.pcs[c := Released(pc.ph, pc.attempt, pc.outcome)])
    case Fill(c) =>
      var reply := Some(ReplyOf(pc.outcome, pc.attempt + 1));
      s.(attempts := s.attempts[pc.attempt := s.attempts[pc.attempt].(reply := reply)],
         pcs := s.pcs[c := Filled(pc.ph, pc.attempt, pc.outcome)])
    case Close(c) =>
      s.(attempts := s.attempts[pc.attempt := s.attempts[pc.attempt].(closes := s.attempts[pc.attempt].closes + 1)],
         pcs := s.pcs[c := Closed(pc.ph, pc.attempt, pc.outcome)])
    case Leave(c) =>
      s.(pcs := s.pcs[c := if pc.outcome.Panic? then Crashed
                           else After(pc.ph, s.attempts[pc.attempt].reply.value)])
    case Post(c, unauthorized) =>
      s.(pcs := s.pcs[c := if unauthorized && pc.ph.Ensure? then Entering(Refresh(pc.gen)) else Idle])
  }

  ghost predicate Legal(s: State, es: seq<Event>)
    decreases |es|
  {
    es == [] || (Enabled(s, es[0]) && Legal(Apply(s, es[0]), es[1..]))
  }

  ghost function Exec(s: State, es: seq<Event>): State
    requires Legal(s, es)
    decreases |es|
  {
    if es == [] then s else Exec(Apply(s, es[0]), es[1..])
  }

  /** The last of the first `n` attempts that obtained a token. */
  function LastSuccess(attempts: seq<Attempt>, n: nat): (r: Option<nat>)
    requires n <= |attempts|
    ensures r.Some? ==> r.value < n && attempts[r.value].published.Some? && attempts[r.value].published.value.Token?
    ensures forall j :: (if r.Some? then r.value + 1 else 0) <= j < n ==>
              !(attempts[j].published.Some? && attempts[j].published.value.Token?)
  {
    if n == 0 then None
    else if attempts[n - 1].published.Some? && attempts[n - 1].published.value.Token? then Some(n - 1)
    else LastSuccess(attempts, n - 1)
  }

  lemma {:induction false} LastSuccessFrame(a: seq<Attempt>, b: seq<Attempt>, n: nat)
    requires n <= |a| && n <= |b|
    requires forall j :: 0 <= j < n ==> a[j].published == b[j].published
    ensures LastSuccess(a, n) == LastSuccess(b, n)
  {
    if n > 0 {
      LastSuccessFrame(a, b, n - 1);
    }
  }

  /** `tok` is the token of the latest successful attempt numbered at or below generation `n`. */
  ghost predicate TokenAt(attempts: seq<Attempt>, n: nat, tok: string) {
    n <= |attempts| &&
    var l := LastSuccess(attempts, n);
    l.Some? && attempts[l.value].published == Some(Token(tok)) && tok != ""
  }

  ghost predicate AttemptOk(s: State, i: nat)
    requires i < |s.attempts|
  {
    var a := s.attempts[i];
    a.leader < |s.pcs| && a.stale <= i && (a.cached ==> a.stale == i)
    && (a.cached <==> LastSuccess(s.attempts, i).Some?)
    && (a.published.Some? <==> i < s.core.gen)
    && var pc := s.pcs[a.leader];
    if a.published.None? then
      a.reply.None? && a.closes == 0 && (pc.Leading? || pc.Ended?) && pc.attempt == i
    else if a.reply.None? then
      a.closes == 0 && pc.Released? && pc.attempt == i
    else
      a.reply.value == ReplyOf(a.published.value, i + 1) && a.closes <= 1
      && (a.closes == 0 ==> pc.Filled? && pc.attempt == i)
  }

  ghost predicate PcOk(s: State, c: nat)
    requires c < |s.pcs|
  {
    match s.pcs[c]
    case Idle => true
    case Crashed => true
    case Entering(ph) => Stale(ph) <= s.core.gen
    case Waiting(ph, a) => a < |s.attempts| && Stale(ph) <= a
    case Leading(ph, a) => s.core.pending == Some(a) && a < |s.attempts| && s.attempts[a].leader == c && Stale(ph) <= a
    case Ended(ph, a, o) => s.core.pending == Some(a) && a < |s.attempts| && s.attempts[a].leader == c && Stale(ph) <= a
                            && (o.Token? ==> o.token != "")
    case Released(ph, a, o) => a < s.core.gen && a < |s.attempts| && s.attempts[a].leader == c && Stale(ph) <= a
                               && s.attempts[a].published == Some(o) && s.attempts[a].reply.None?
    case Filled(ph, a, o) => a < s.core.gen && a < |s.attempts| && s.attempts[a].leader == c && Stale(ph) <= a
                             && s.attempts[a].published == Some(o) && s.attempts[a].reply.Some?
                             && s.attempts[a].closes == 0
    case Closed(ph, a, o) => a < s.core.gen && a < |s.attempts| && s.attempts[a].leader == c && Stale(ph) <= a
                             && s.attempts[a].published == Some(o) && s.attempts[a].reply.Some?
                             && s.attempts[a].closes == 1
    case Got(ph, tok, g) => Stale(ph) < g <= s.core.gen && TokenAt(s.attempts, g, tok)
  }

  ghost predicate Inv(s: State) {
    && |s.attempts| == s.core.gen + (if s.core.pending.Some? then 1 else 0)
    && (s.core.pending.Some? ==> s.core.pending.value == s.core.gen)
    && (if LastSuccess(s.attempts, s.core.gen).None? then s.core.token == ""
        else TokenAt(s.attempts, s.core.gen, s.core.token))
    && (forall i :: 0 <= i < |s.attempts| ==> AttemptOk(s, i))
    && (forall i :: 0 <= i < |s.attempts| && s.attempts[i].published.Some? && s.attempts[i].published.value.Token?
                    ==> s.attempts[i].published.value.token != "")
    && (forall c :: 0 <= c < |s.pcs| ==> PcOk(s, c))
  }

  lemma InitInv(n: nat)
    ensures Inv(Init(n))
  {
  }

  lemma StepTokens(s: State, e: Event, n: nat)
    requires Inv(s) && Enabled(s, e) && n <= s.core.gen
    ensures n <= |Apply(s, e).attempts| && LastSuccess(s.attempts, n) == LastSuccess(Apply(s, e).attempts, n)
    ensures forall tok :: TokenAt(s.attempts, n, tok) ==> TokenAt(Apply(s, e).attempts, n, tok)
  {
    assert PcOk(s, e.c);
    LastSuccessFrame(s.attempts, Apply(s, e).attempts, n);
  }

  /** The attempt a leader is completing. */
  lemma StepOwnAttempt(s: State, e: Event)
    requires Inv(s) && Enabled(s, e) && (e.Publish? || e.Fill? || e.Close?)
    ensures AttemptOk(Apply(s, e), s.pcs[e.c].attempt)
  {
    assert PcOk(s, e.c);
    assert AttemptOk(s, s.pcs[e.c].attempt);
    StepTokens(s, e, s.pcs[e.c].attempt);
  }

  /** An attempt while another one is being completed. */
  lemma StepOtherAttempt(s: State, e: Event, i: nat)
    requires Inv(s) && Enabled(s, e) && i < |s.attempts|
    requires (e.Publish? || e.Fill? || e.Close?) && s.pcs[e.c].attempt != i
    ensures AttemptOk(Apply(s, e), i)
  {
    assert PcOk(s, e.c);
    assert AttemptOk(s, i);
    StepTokens(s, e, i);
  }

  /** An attempt while a caller checks or its own leader's login ends. */
  lemma StepEarlyAttempt(s: State, e: Event, i: nat)
    requires Inv(s) && Enabled(s, e) && i < |s.attempts| && (e.Check? || e.Finish?)
    ensures AttemptOk(Apply(s, e), i)
  {
    assert PcOk(s, e.c);
    assert AttemptOk(s, i);
    StepTokens(s, e, i);
  }

  /** An attempt while a caller moves on. */
  lemma StepIdleAttempt(s: State, e: Event, i: nat)
    requires Inv(s) && Enabled(s, e) && i < |s.attempts| && (e.Begin? || e.Wake? || e.Leave? || e.Post?)
    ensures AttemptOk(Apply(s, e), i)
  {
    assert PcOk(s, e.c);
    assert AttemptOk(s, i);
  }

  lemma StepAttempt(s: State, e: Event, i: nat)
    requires Inv(s) && Enabled(s, e) && i < |s.attempts|
    ensures AttemptOk(Apply(s, e), i)
  {
    if e.Publish? || e.Fill? || e.Close? {
      if s.pcs[e.c].attempt == i {
        StepOwnAttempt(s, e);
      } else {
        StepOtherAttempt(s, e, i);
      }
    } else if e.Check? || e.Finish? {
      StepEarlyAttempt(s, e, i);
    } else {
      StepIdleAttempt(s, e, i);
    }
  }

  lemma StepNewAttempt(s: State, e: Event, i: nat)
    requires Inv(s) && Enabled(s, e) && |s.attempts| <= i < |Apply(s, e).attempts|
    ensures AttemptOk(Apply(s, e), i)
  {
    assert PcOk(s, e.c);
    StepTokens(s, e, i);
  }

  lemma StepOther(s: State, e: Event, c: nat)
    requires Inv(s) && Enabled(s, e) && c < |s.pcs| && c != e.c
    ensures PcOk(Apply(s, e), c)
  {
    assert PcOk(s, c) && PcOk(s, e.c);
    if s.pcs[c].Got? {
      StepTokens(s, e, s.pcs[c].gen);
    }
  }

  /** A caller that shares a finished attempt ends with that attempt's own token. */
  lemma AfterReply(s: State, ph: Phase, a: nat)
    requires Inv(s) && a < |s.attempts| && s.attempts[a].reply.Some? && Stale(ph) <= a
    ensures a < s.core.gen
    ensures var pc := After(ph, s.attempts[a].reply.value);
            pc.Idle? || (pc.Got? && pc.gen == a + 1 && TokenAt(s.attempts, a + 1, pc.token))
  {
    assert AttemptOk(s, a);
  }

  lemma StepOwnLeader(s: State, e: Event)
    requires Inv(s) && Enabled(s, e) && (e.Finish? || e.Publish? || e.Fill? || e.Close?)
    ensures PcOk(Apply(s, e), e.c)
  {
    assert PcOk(s, e.c);
    assert AttemptOk(s, s.pcs[e.c].attempt);
  }

  lemma StepOwn(s: State, e: Event)
    requires Inv(s) && Enabled(s, e)
    ensures PcOk(Apply(s, e), e.c)
  {
    assert PcOk(s, e.c);
    if e.Wake? || e.Leave? {
      AfterReply(s, s.pcs[e.c].ph, s.pcs[e.c].attempt);
    } else if e.Finish? || e.Publish? || e.Fill? || e.Close? {
      StepOwnLeader(s, e);
    }
  }

  lemma StepInv(s: State, e: Event)
    requires Inv(s) && Enabled(s, e)
    ensures Inv(Apply(s, e))
  {
    var t := Apply(s, e);
    assert PcOk(s, e.c);
    forall i | 0 <= i < |t.attempts| ensures AttemptOk(t, i) {
      if i < |s.attempts| {
        StepAttempt(s, e, i);
      } else {
        StepNewAttempt(s, e, i);
      }
    }
    forall c | 0 <= c < |t.pcs| ensures PcOk(t, c) {
      if c == e.c {
        StepOwn(s, e);
      } else {
        StepOther(s, e, c);
      }
    }
    StepTokens(s, e, s.core.gen);
  }

  /** The states of the runs: every interleaving of `n` callers from a cold session. */
  ghost predicate Reachable(n: nat, s: State) {
    exists es :: Legal(Init(n), es) && Exec(Init(n), es) == s
  }

  lemma {:induction false} ExecInv(s: State, es: seq<Event>)
    requires Inv(s) && Legal(s, es)
    ensures Inv(Exec(s, es))
    decreases |es|
  {
    if es != [] {
      StepInv(s, es[0]);
      ExecInv(Apply(s, es[0]), es[1..]);
    }
  }

  lemma ReachableInv(n: nat, s: State)
    requires Reachable(n, s)
    ensures Inv(s)
  {
    var es :| Legal(Init(n), es) && Exec(Init(n), es) == s;
    InitInv(n);
    ExecInv(Init(n), es);
  }

  lemma {:induction false} ExecAppend(s: State, es: seq<Event>, e: Event)
    requires Legal(s, es) && Enabled(Exec(s, es), e)
    ensures Legal(s, es + [e]) && Exec(s, es + [e]) == Apply(Exec(s, es), e)
    decreases |es|
  {
    if es == [] {
      assert es + [e] == [e] && [e][1..] == [];
    } else {
      assert (es + [e])[1..] == es[1..] + [e];
      ExecAppend(Apply(s, es[0]), es[1..], e);
    }
  }

  lemma TakeStep(n: nat, s: State, e: Event)
    requires Reachable(n, s) && Enabled(s, e)
    ensures Reachable(n, Apply(s, e))
  {
    var es :| Legal(Init(n), es) && Exec(Init(n), es) == s;
    ExecAppend(Init(n), es, e);
  }

  predicate Running(pc: Pc) { pc.Leading? || pc.Ended? }

  /** Single flight, in every interleaving: attempts are numbered by the generation they will publish, at
      most one runs, and each one's `done` is closed at most once, only after its reply is complete and
      the session no longer points at it; once no caller is inside Do, each has been closed exactly once.
      A panicking attempt is no exception. */
  lemma SingleFlight(n: nat, s: State)
    requires Reachable(n, s)
    ensures |s.attempts| == s.core.gen + (if s.core.pending.Some? then 1 else 0)
    ensures forall c, d :: 0 <= c < |s.pcs| && 0 <= d < |s.pcs| && Running(s.pcs[c]) && Running(s.pcs[d]) ==> c == d
    ensures s.core.pending.Some? ==>
              s.core.pending.value < |s.attempts|
              && s.attempts[s.core.pending.value].leader < |s.pcs|
              && Running(s.pcs[s.attempts[s.core.pending.value].leader])
    ensures forall i :: 0 <= i < |s.attempts| ==> s.attempts[i].closes <= 1
    ensures forall i :: 0 <= i < |s.attempts| && s.attempts[i].closes == 1 ==>
              s.attempts[i].published.Some? && s.core.pending != Some(i) && s.attempts[i].reply.Some?
              && s.attempts[i].reply.value.gen == i + 1
              && Tells(s.attempts[i].reply.value, s.attempts[i].published.value)
    ensures (forall c :: 0 <= c < |s.pcs| ==> s.pcs[c].Idle? || s.pcs[c].Crashed?) ==>
              forall i :: 0 <= i < |s.attempts| ==> s.attempts[i].closes == 1
  {
    ReachableInv(n, s);
    forall c, d | 0 <= c < |s.pcs| && 0 <= d < |s.pcs| && Running(s.pcs[c]) && Running(s.pcs[d]) ensures c == d {
      assert PcOk(s, c) && PcOk(s, d);
    }
    forall i | 0 <= i < |s.attempts|
      ensures s.attempts[i].closes <= 1
      ensures s.attempts[i].closes == 1 ==>
                s.attempts[i].published.Some? && s.core.pending != Some(i) && s.attempts[i].reply.Some?
                && s.attempts[i].reply.value.gen == i + 1
                && Tells(s.attempts[i].reply.value, s.attempts[i].published.value)
      ensures s.attempts[i].leader < |s.pcs|
      ensures s.attempts[i].closes == 0 ==>
                !s.pcs[s.attempts[i].leader].Idle? && !s.pcs[s.attempts[i].leader].Crashed?
    {
      assert AttemptOk(s, i);
    }
    if s.core.pending.Some? {
      assert AttemptOk(s, s.core.pending.value);
    }
  }

  /** Stampede collapse: while a token is cached, the callers that ever present one generation start at
      most one attempt between them; ensure starts none; and an attempt starts from a cold session exactly
      when every attempt before it failed. */
  lemma StampedeCollapse(n: nat, s: State)
    requires Reachable(n, s)
    ensures forall i, j :: 0 <= i < |s.attempts| && 0 <= j < |s.attempts|
                           && s.attempts[i].cached && s.attempts[j].cached && s.attempts[i].stale == s.attempts[j].stale
                           ==> i == j
    ensures forall i :: 0 <= i < |s.attempts| && s.attempts[i].cached ==> s.attempts[i].stale != NO_GEN
    ensures forall i :: 0 <= i < |s.attempts| ==>
              (!s.attempts[i].cached <==>
                forall j :: 0 <= j < i ==> s.attempts[j].published.Some? && !s.attempts[j].published.value.Token?)
  {
    ReachableInv(n, s);
    forall i | 0 <= i < |s.attempts|
      ensures s.attempts[i].cached ==> s.attempts[i].stale == i
      ensures !s.attempts[i].cached <==>
                forall j :: 0 <= j < i ==> s.attempts[j].published.Some? && !s.attempts[j].published.value.Token?
    {
      assert AttemptOk(s, i);
      forall j | 0 <= j < i ensures s.attempts[j].published.Some? {
        assert AttemptOk(s, j);
      }
    }
  }

  /** The number the class gives a new attempt, its generation, is the number the run gives it. */
  lemma CheckAgreesWithClass(n: nat, s: State, c: nat)
    requires Reachable(n, s) && Enabled(s, Check(c))
    ensures Decide(s.core, Stale(s.pcs[c].ph), |s.attempts|) == Decide(s.core, Stale(s.pcs[c].ph), s.core.gen)
    ensures Apply(s, Check(c)).core == Decided(s.core, Decide(s.core, Stale(s.pcs[c].ph), s.core.gen))
  {
    ReachableInv(n, s);
  }

  /** A cached token is never lost again. */
  lemma TokenStays(n: nat, s: State, e: Event)
    requires Reachable(n, s) && Enabled(s, e) && s.core.token != ""
    ensures Apply(s, e).core.token != ""
  {
    ReachableInv(n, s);
    assert PcOk(s, e.c);
  }

  /** Some attempt numbered above `from` and at most `to` succeeded. */
  ghost predicate SucceededIn(s: State, from: int, to: int) {
    exists j :: 0 <= j < |s.attempts| && from < j + 1 <= to
                && s.attempts[j].published.Some? && s.attempts[j].published.value.Token?
  }

  /** What a caller holds after obtain: a generation strictly above the one it presented, and the token of
      the latest successful attempt numbered at or below that generation. That token is itself newer than
      the presented generation exactly when some attempt in between succeeded. */
  lemma Freshness(n: nat, s: State, c: nat)
    requires Reachable(n, s) && c < |s.pcs| && s.pcs[c].Got?
    ensures var pc := s.pcs[c];
            Stale(pc.ph) < pc.gen <= s.core.gen <= |s.attempts| && TokenAt(s.attempts, pc.gen, pc.token)
            && (LastSuccess(s.attempts, pc.gen).value + 1 > Stale(pc.ph) <==> SucceededIn(s, Stale(pc.ph), pc.gen))
  {
    ReachableInv(n, s);
    assert PcOk(s, c);
    var l := LastSuccess(s.attempts, s.pcs[c].gen).value;
    if l + 1 > Stale(s.pcs[c].ph) {
      assert SucceededIn(s, Stale(s.pcs[c].ph), s.pcs[c].gen);
    }
  }

  /** A shared reply carries the token of its own generation. */
  lemma SharedTokenIsNew(n: nat, s: State, e: Event)
    requires Reachable(n, s) && Enabled(s, e) && (e.Wake? || e.Leave?) && Apply(s, e).pcs[e.c].Got?
    ensures var g := Apply(s, e).pcs[e.c].gen;
            0 < g <= |s.attempts| && LastSuccess(s.attempts, g) == Some(g - 1)
  {
    ReachableInv(n, s);
    assert PcOk(s, e.c);
    AfterReply(s, s.pcs[e.c].ph, s.pcs[e.c].attempt);
    assert AttemptOk(s, s.pcs[e.c].attempt);
  }

  /** What a waiter that wakes or a leader that leaves has in hand is the end of the attempt it shared, as the
      attempt itself ended: the token it obtained, or its own error, so a rejected login reads as a rejection to
      every caller that shared it and nothing else does. */
  lemma SharedOutcome(n: nat, s: State, e: Event)
    requires Reachable(n, s) && Enabled(s, e) && (e.Wake? || e.Leave?)
    ensures var pc, a := s.pcs[e.c], s.pcs[e.c].attempt;
            a < |s.attempts| && s.attempts[a].published.Some? && s.attempts[a].reply.Some?
            && var o, r, then' := s.attempts[a].published.value, s.attempts[a].reply.value, Apply(s, e).pcs[e.c];
            (o.Token? ==> r.err == None && then' == Got(pc.ph, o.token, a + 1))
            && (o.Error? ==> r.err == Some(o.fault) && then' == Idle)
            && (o.Panic? ==> r.err.Some? && r.err != Some(Auth) && then' == if e.Leave? then Crashed else Idle)
  {
    ReachableInv(n, s);
    assert PcOk(s, e.c);
    assert AttemptOk(s, s.pcs[e.c].attempt);
  }

  /** The cached branch hands out the token of the latest successful attempt. It is newer than the presented
      generation exactly when some attempt in between succeeded; a refresh is otherwise handed the token of the
      very attempt whose token it saw rejected. */
  lemma CachedTokenIsNew(n: nat, s: State, c: nat)
    requires Reachable(n, s) && Enabled(s, Check(c)) && Decide(s.core, Stale(s.pcs[c].ph), |s.attempts|).Use?
    ensures var ph, g := s.pcs[c].ph, s.core.gen;
            Stale(ph) < g && Apply(s, Check(c)).pcs[c] == Got(ph, s.core.token, g)
            && TokenAt(s.attempts, g, s.core.token)
            && (LastSuccess(s.attempts, g).value + 1 > Stale(ph) <==> SucceededIn(s, Stale(ph), g))
            && (ph.Refresh? ==>
                  (LastSuccess(s.attempts, g) == LastSuccess(s.attempts, ph.gen) <==> !SucceededIn(s, ph.gen, g)))
  {
    ReachableInv(n, s);
    assert PcOk(s, c);
    var l := LastSuccess(s.attempts, s.core.gen).value;
    if l + 1 > Stale(s.pcs[c].ph) {
      assert SucceededIn(s, Stale(s.pcs[c].ph), s.core.gen);
    }
  }

  /** `R` holds of whatever a step leads to. */
  ghost predicate StepClosed(R: State -> bool) {
    forall s, e | R(s) && Enabled(s, e) :: R(Apply(s, e))
  }

  /** An attempt run to its end with nobody in between. */
  lemma CompleteLogin(R: State -> bool, s: State, c: nat, o: Outcome) returns (t: State)
    requires StepClosed(R) && R(s) && c < |s.pcs| && s.pcs[c].Leading? && s.pcs[c].attempt < |s.attempts|
    requires o.Token? ==> o.token != ""
    ensures R(t)
    ensures var a := s.pcs[c].attempt;
            var r := ReplyOf(o, a + 1);
            t == State(LoginSession.Published(s.core, o),
                       s.attempts[a := s.attempts[a].(published := Some(o), reply := Some(r),
                                                      closes := s.attempts[a].closes + 1)],
                       s.pcs[c := if o.Panic? then Crashed else After(s.pcs[c].ph, r)])
  {
    t := Apply(s, Finish(c, o));
    t := Apply(t, Publish(c));
    t := Apply(t, Fill(c));
    t := Apply(t, Close(c));
    t := Apply(t, Leave(c));
  }

  /** The session after a first login by caller 0. */
  function FirstLogin(ok: Outcome): Attempt {
    Attempt(0, NO_GEN, false, Some(ok), Some(ReplyOf(ok, 1)), 1)
  }

  /** Caller 0 logs in from the cold session. */
  lemma LoggedIn(R: State -> bool) returns (s: State)
    requires StepClosed(R) && R(Init(2))
    ensures R(s) && s == State(Core("t", 1, None), [FirstLogin(Token("t"))], [Got(Ensure, "t", 1), Idle])
  {
    s := Apply(Init(2), Begin(0));
    s := Apply(s, Check(0));
    s := CompleteLogin(R, s, 0, Token("t"));
  }

  /** Caller 1 picks up the token, then caller 0 sees it rejected and leads a second attempt. */
  lemma SecondLogin(R: State -> bool, s: State) returns (t: State)
    requires StepClosed(R) && R(s)
    requires s == State(Core("t", 1, None), [FirstLogin(Token("t"))], [Got(Ensure, "t", 1), Idle])
    ensures R(t) && t == State(Core("t", 1, Some(1)), [FirstLogin(Token("t")), Attempt(0, 1, true, None, None, 0)],
                               [Leading(Refresh(1), 1), Got(Ensure, "t", 1)])
  {
    t := Apply(s, Begin(1));
    t := Apply(t, Check(1));
    t := Apply(t, Post(0, true));
    t := Apply(t, Check(0));
  }

  lemma LateRefresh(R: State -> bool) returns (s: State)
    requires StepClosed(R) && R(Init(2))
    ensures R(s) && |s.pcs| == 2 && s.pcs[1] == Got(Refresh(1), "t", 2)
    ensures |s.attempts| == 2 && LastSuccess(s.attempts, 2) == Some(0)
  {
    var no := Error(Auth);
    s := LoggedIn(R);
    s := SecondLogin(R, s);
    s := CompleteLogin(R, s, 0, no);
    assert s == State(Core("t", 2, None),
                      [FirstLogin(Token("t")), Attempt(0, 1, true, Some(no), Some(ReplyOf(no, 2)), 1)],
                      [Idle, Got(Ensure, "t", 1)]);
    s := Apply(s, Post(1, true));
    s := Apply(s, Check(1));
    assert LastSuccess(s.attempts, 1) == Some(0);
  }

  /** refresh does not always return a token newer than the rejected one: after another caller's failed
      login, a late caller that presents generation 1 is handed generation 2 with the token of attempt 1. */
  lemma RefreshMayReturnTheRejectedToken()
    ensures exists s: State :: Reachable(2, s) && |s.pcs| == 2 && s.pcs[1] == Got(Refresh(1), "t", 2)
              && |s.attempts| == 2 && LastSuccess(s.attempts, 2) == Some(0)
  {
    var R := (s: State) => Reachable(2, s);
    assert Legal(Init(2), []) && Exec(Init(2), []) == Init(2);
    forall s, e | R(s) && Enabled(s, e) ensures R(Apply(s, e)) {
      TakeStep(2, s, e);
    }
    var s := LateRefresh(R);
  }

  /** The steps a caller still has before its Do ends. */
  function PhaseRank(ph: Phase): nat {
    if ph.Ensure? then 8 else 1
  }

  function Rank(pc: Pc): nat {
    match pc
    case Idle => 0
    case Crashed => 0
    case Got(ph, _, _) => PhaseRank(ph)
    case Closed(ph, _, _) => PhaseRank(ph) + 1
    case Waiting(ph, _) => PhaseRank(ph) + 1
    case Filled(ph, _, _) => PhaseRank(ph) + 2
    case Released(ph, _, _) => PhaseRank(ph) + 3
    case Ended(ph, _, _) => PhaseRank(ph) + 4
    case Leading(ph, _) => PhaseRank(ph) + 5
    case Entering(ph) => PhaseRank(ph) + 6
  }

  ghost function Work(s: State): nat {
    SumBy(s.pcs, Rank)
  }

  /** A caller inside Do can always step, or waits for an attempt whose leader can: nobody hangs, not even
      behind an attempt that panicked. */
  lemma NobodyHangs(n: nat, s: State, c: nat) returns (e: Event)
    requires Reachable(n, s) && c < |s.pcs| && !s.pcs[c].Idle? && !s.pcs[c].Crashed?
    ensures Enabled(s, e) && !e.Begin?
    ensures e.c == c || (s.pcs[c].Waiting? && s.pcs[c].attempt < |s.attempts|
                         && s.attempts[s.pcs[c].attempt].leader == e.c)
  {
    ReachableInv(n, s);
    assert PcOk(s, c);
    var w := c;
    if s.pcs[c].Waiting? {
      assert AttemptOk(s, s.pcs[c].attempt);
      if s.attempts[s.pcs[c].attempt].closes > 0 {
        return Wake(c);
      }
      w := s.attempts[s.pcs[c].attempt].leader;
      assert PcOk(s, w);
    }
    match s.pcs[w] {
      case Entering(_) => e := Check(w);
      case Leading(_, _) => e := Finish(w, Panic);
      case Ended(_, _, _) => e := Publish(w);
      case Released(_, _, _) => e := Fill(w);
      case Filled(_, _, _) => e := Close(w);
      case Closed(_, _, _) => e := Leave(w);
      case Got(_, _, _) => e := Post(w, false);
    }
  }

  lemma StepWork(s: State, e: Event)
    requires Inv(s) && Enabled(s, e) && !e.Begin?
    ensures Work(Apply(s, e)) < Work(s)
  {
    var t := Apply(s, e);
    assert PcOk(s, e.c);
    SumByUpdate(s.pcs, Rank, e.c, t.pcs[e.c]);
    assert t.pcs == s.pcs[e.c := t.pcs[e.c]];
  }

  /** Every step of a started Do uses up work, so without new calls every run ends. */
  lemma {:induction false} RunsEnd(s: State, es: seq<Event>)
    requires Inv(s) && Legal(s, es) && forall e :: e in es ==> !e.Begin?
    ensures |es| <= Work(s)
    decreases |es|
  {
    if es != [] {
      StepInv(s, es[0]);
      StepWork(s, es[0]);
      RunsEnd(Apply(s, es[0]), es[1..]);
    }
  }

  // ---------------------------------------------------------------- logins per call of Do

  /** The calls of Do begun in a run. */
  ghost function Begins(es: seq<Event>): nat {
    if es == [] then 0 else (if es[0].Begin? then 1 else 0) + Begins(es[1..])
  }

  /** The posts a run saw rejected with a 401. */
  ghost function Rejected(es: seq<Event>): nat {
    if es == [] then 0 else (if es[0].Post? && es[0].unauthorized then 1 else 0) + Rejected(es[1..])
  }

  function MayLead(pc: Pc): nat {
    if pc.Entering? then 1 else 0
  }

  lemma StepPaid(s: State, e: Event)
    requires Inv(s) && Enabled(s, e)
    ensures |Apply(s, e).attempts| + SumBy(Apply(s, e).pcs, MayLead)
         <= |s.attempts| + SumBy(s.pcs, MayLead) + (if e.Begin? || (e.Post? && e.unauthorized) then 1 else 0)
  {
    var t := Apply(s, e);
    assert PcOk(s, e.c);
    SumByUpdate(s.pcs, MayLead, e.c, t.pcs[e.c]);
    assert t.pcs == s.pcs[e.c := t.pcs[e.c]];
  }

  /** Every attempt is paid for by the call of Do it serves or by a rejected post. */
  lemma {:induction false} AttemptsPaid(s: State, es: seq<Event>)
    requires Inv(s) && Legal(s, es)
    ensures |Exec(s, es).attempts| + SumBy(Exec(s, es).pcs, MayLead)
         <= |s.attempts| + SumBy(s.pcs, MayLead) + Begins(es) + Rejected(es)
    decreases |es|
  {
    if es != [] {
      StepPaid(s, es[0]);
      StepInv(s, es[0]);
      AttemptsPaid(Apply(s, es[0]), es[1..]);
    }
  }

  /** The attempts a caller's Do may still start. */
  function Credit(pc: Pc): nat {
    if pc.Entering? then (if pc.ph.Ensure? then 2 else 1)
    else if !pc.Idle? && !pc.Crashed? && pc.ph.Ensure? then 1 else 0
  }

  lemma StepCredit(s: State, e: Event)
    requires Inv(s) && Enabled(s, e)
    ensures |Apply(s, e).attempts| + SumBy(Apply(s, e).pcs, Credit)
         <= |s.attempts| + SumBy(s.pcs, Credit) + (if e.Begin? then 2 else 0)
  {
    var t := Apply(s, e);
    assert PcOk(s, e.c);
    SumByUpdate(s.pcs, Credit, e.c, t.pcs[e.c]);
    assert t.pcs == s.pcs[e.c := t.pcs[e.c]];
  }

  lemma {:induction false} CreditSpent(s: State, es: seq<Event>)
    requires Inv(s) && Legal(s, es)
    ensures |Exec(s, es).attempts| + SumBy(Exec(s, es).pcs, Credit)
         <= |s.attempts| + SumBy(s.pcs, Credit) + 2 * Begins(es)
    decreases |es|
  {
    if es != [] {
      StepCredit(s, es[0]);
      StepInv(s, es[0]);
      CreditSpent(Apply(s, es[0]), es[1..]);
    }
  }

  ghost predicate AnySuccess(s: State) {
    exists j :: 0 <= j < |s.attempts| && s.attempts[j].published.Some? && s.attempts[j].published.value.Token?
  }

  /** Success is never forgotten. */
  lemma {:induction false} SuccessStays(s: State, es: seq<Event>)
    requires Inv(s) && Legal(s, es) && AnySuccess(s)
    ensures AnySuccess(Exec(s, es))
    decreases |es|
  {
    if es != [] {
      var t := Apply(s, es[0]);
      var j :| 0 <= j < |s.attempts| && s.attempts[j].published.Some? && s.attempts[j].published.value.Token?;
      assert PcOk(s, es[0].c);
      assert AttemptOk(s, j);
      assert j < |t.attempts| && t.attempts[j].published == s.attempts[j].published;
      StepInv(s, es[0]);
      SuccessStays(t, es[1..]);
    }
  }

  /** A run without a successful attempt posts nothing. */
  lemma {:induction false} NoPostWithoutSuccess(s: State, es: seq<Event>)
    requires Inv(s) && Legal(s, es) && !AnySuccess(Exec(s, es))
    ensures Rejected(es) == 0
    decreases |es|
  {
    if es != [] {
      if es[0].Post? {
        assert PcOk(s, es[0].c);
        SuccessStays(s, es);
      }
      StepInv(s, es[0]);
      NoPostWithoutSuccess(Apply(s, es[0]), es[1..]);
    }
  }

  /** Logins per call: over any run from a cold session there are at most two attempts for each call of Do, at
      most one for each call of Do and each rejected post, and while no attempt has succeeded at most one for
      each call of Do. */
  lemma LoginsPerCall(n: nat, es: seq<Event>)
    requires Legal(Init(n), es)
    ensures var t := Exec(Init(n), es);
            t.core.gen <= |t.attempts| <= Begins(es) + Rejected(es)
            && |t.attempts| <= 2 * Begins(es)
            && (!AnySuccess(t) ==> |t.attempts| <= Begins(es))
  {
    InitInv(n);
    ExecInv(Init(n), es);
    SumByZero(Init(n).pcs, MayLead);
    SumByZero(Init(n).pcs, Credit);
    CreditSpent(Init(n), es);
    AttemptsPaid(Init(n), es);
    if !AnySuccess(Exec(Init(n), es)) {
      NoPostWithoutSuccess(Init(n), es);
    }
  }
}
