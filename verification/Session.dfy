/** The JSON session and its two locked sections: the check every caller of obtain starts with and the
    publication that ends every login attempt. */
module LoginSession {
  import opened Prelude

  /** The staleness a caller passes when it never obtained a generation. */
  const NO_GEN := -1

  /** How one call of the attempt function ends. */
  datatype Outcome = Token(token: string) | Error(fault: Fault) | Panic

  /** What obtain hands back: the token, its generation and the error, if any. */
  datatype Reply = Reply(token: string, gen: nat, err: Option<Fault>)

  /** The guarded fields; `pending` is the number of the attempt in flight. */
  datatype Core = Core(token: string, gen: nat, pending: Option<nat>)

  datatype Decision = Use(reply: Reply) | Join(attempt: nat) | Lead(attempt: nat)

  /** The first locked section. `next` is the number a new attempt would get. */
  function Decide(c: Core, staleGen: int, next: nat): Decision {
    if c.gen != staleGen && c.token != "" then Use(Reply(c.token, c.gen, None))
    else if c.pending.Some? then Join(c.pending.value)
    else Lead(next)
  }

  function Decided(c: Core, d: Decision): Core {
    if d.Lead? then c.(pending := Some(d.attempt)) else c
  }

  /** The locked section of the deferred publication. */
  function Published(c: Core, o: Outcome): Core {
    Core(if o.Token? then o.token else c.token, c.gen + 1, None)
  }

  /** The fields of the finished attempt; a recovered panic reads as an ordinary login error. */
  function ReplyOf(o: Outcome, newGen: nat): Reply {
    match o
    case Token(t) => Reply(t, newGen, None)
    case Error(f) => Reply("", newGen, Some(f))
    case Panic => Reply("", newGen, Some(Other))
  }

  /** A reply that tells how its attempt ended: its token, its own error, or after a panic an error that no caller
      can take for a rejected credential. */
  predicate Tells(r: Reply, o: Outcome) {
    (o.Token? ==> r.err == None && r.token == o.token)
    && (o.Error? ==> r.err == Some(o.fault) && r.token == "")
    && (o.Panic? ==> r.err.Some? && r.err != Some(Auth) && r.token == "")
  }

  class LoginAttempt {
    const number: nat
    var done: bool
    var token: string
    var gen: nat
    var err: Option<Fault>

    constructor (number: nat)
      ensures this.number == number && !done
    {
      this.number := number;
      done, token, gen, err := false, "", 0, None;
    }

    function Contents(): Reply
      reads this
    {
      Reply(token, gen, err)
    }
  }

  class Session {
    var token: string
    var gen: nat
    var pending: LoginAttempt?

    function View(): Core
      reads this
    {
      Core(token, gen, if pending == null then None else Some(pending.number))
    }

    constructor ()
      ensures View() == Core("", 0, None)
    {
      token, gen, pending := "", 0, null;
    }

    /** The locked check of obtain: `p` is the attempt to wait for or to lead. A cached token of another
        generation is used as it is; otherwise the pending attempt is joined, and a new one is led only when
        there is none. Token and generation never change here. */
    method Check(staleGen: int) returns (d: Decision, p: LoginAttempt?)
      modifies this
      ensures d == Decide(old(View()), staleGen, old(gen))
      ensures View() == Decided(old(View()), d)
      ensures token == old(token) && gen == old(gen)
      ensures old(gen) != staleGen && old(token) != "" ==>
                d == Use(Reply(old(token), old(gen), None)) && p == null && pending == old(pending)
      ensures (old(gen) == staleGen || old(token) == "") && old(pending) != null ==>
                p == pending == old(pending) && d == Join(p.number)
      ensures (old(gen) == staleGen || old(token) == "") && old(pending) == null ==>
                p == pending && fresh(p) && !p.done && p.number == old(gen) && d == Lead(p.number)
    {
      if gen != staleGen && token != "" {
        return Use(Reply(token, gen, None)), null;
      }
      if pending != null {
        return Join(pending.number), pending;
      }
      p := new LoginAttempt(gen);
      pending := p;
      d := Lead(p.number);
    }

    /** The deferred end of an attempt: publish under the lock, fill the attempt, then close it. The waiters get
        the attempt's own token or its own error; a panic reads as an error that is no rejection. */
    method Publish(p: LoginAttempt, o: Outcome)
      requires !p.done
      modifies this, p
      ensures View() == Published(old(View()), o)
      ensures gen == old(gen) + 1 && pending == null
      ensures token == if o.Token? then o.token else old(token)
      ensures p.done && p.gen == gen && Tells(p.Contents(), o)
      ensures p.Contents() == ReplyOf(o, gen)
    {
      gen := gen + 1;
      if o.Token? {
        token := o.token;
      }
      var newGen := gen;
      pending := null;
      p.token := if o.Token? then o.token else "";
      p.gen := newGen;
      p.err := if o.Token? then None else if o.Error? then Some(o.fault) else Some(Other);
      p.done := true;
    }

    /** obtain as one caller sees it while no other is inside: the attempt runs exactly when there is
        nothing usable, moves the generation by one, and never discards a working token. */
    method Obtain(staleGen: int, attempt: Outcome) returns (r: Reply, ran: bool)
      requires pending == null
      requires attempt.Token? ==> attempt.token != ""
      modifies this
      ensures pending == null
      ensures ran <==> old(gen) == staleGen || old(token) == ""
      ensures !ran ==> View() == old(View()) && r == Reply(token, gen, None)
      ensures ran ==> r.gen == gen == old(gen) + 1 && Tells(r, attempt)
      ensures token == if ran && attempt.Token? then attempt.token else old(token)
      ensures r.err == None ==> r.token == token != ""
      ensures staleGen <= old(gen) ==> staleGen < gen
    {
      var d, p := Check(staleGen);
      if d.Use? {
        return d.reply, false;
      }
      Publish(p, attempt);
      r, ran := p.Contents(), true;
    }
  }
}
