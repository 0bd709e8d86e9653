/**
 One call of the mqweb client from end to end: session, guarded round trip, at most one
 re-login and a second round trip. Other calls use the breaker and the session between any two
 of its regions; the call follows the session machine of `Ltpa` step by step.
 */
module GuardedCall {
  import opened Options
  import opened Breaker
  import Ltpa
  import opened RoundTrip

  datatype Inputs = Inputs(
    script: nat -> nat -> Attempt,      // what the network does in each trip
    tokenRejected: bool,                // a 401 carries the token classifier
    reply: nat -> Ltpa.LoginReply,      // the answers to the two logins
    clock: nat -> int,
    outside: nat -> seq<Breaker.Event>, // what other calls do to the breaker before a trip,
    during: nat -> Meanwhile,           // to breaker and session during it,
    between: nat -> seq<Ltpa.Action>)   // and to the session outside the trips

  datatype Outcome = LoginFailed | Ended(exit: Exit)

  /* ---------- one trip ---------- */

  // Trip number n from breaker state s: turned away, or decided by its script.
  ghost predicate TripIs(cfg: Config, s: State, p: Policy, x: Inputs, n: nat, exit: Exit, sent: nat) {
    if Admits(cfg, Breaker.Run(cfg, s, x.outside(n)), x.clock(2 * n))
    then exit != CircuitOpen && exists decided :: Decided(p, x.script(n), decided, exit, sent)
    else exit == CircuitOpen && sent == 0
  }

  // The breaker after it.
  ghost function AfterTrip(cfg: Config, s: State, x: Inputs, n: nat, exit: Exit): State {
    Breaker.Run(cfg, Breaker.Run(cfg, s, x.outside(n)), Events(x.clock(2 * n), x.during(n).breaker, exit, x.clock(2 * n + 1)))
  }

  method Trip(b: CircuitBreaker, auth: Auth, r: nat, ghost q: Ltpa.Request, p: Policy, x: Inputs, n: nat)
    returns (exit: Exit, wire: seq<Ltpa.Cookies>, ghost q': Ltpa.Request)
    requires Where(auth, r, q) && q.pc.Sends?
    modifies b, Objects(auth)
    ensures TripIs(b.cfg, old(b.View()), p, x, n, exit, |wire|)
    ensures b.View() == AfterTrip(b.cfg, old(b.View()), x, n, exit)
    ensures auth.Some? ==> AllCarry(wire)
    ensures Where(auth, r, q') && LeftAt(q, exit, q')
  {
    RoundTrip.Others(b, x.outside(n));
    var decided;
    exit, wire, decided, q' := RoundTrip.RoundTrip(b, auth, r, q, p, x.script(n), x.during(n), x.clock(2 * n), x.clock(2 * n + 1));
  }

  /* ---------- the whole call ---------- */

  // What a whole call did: its trips in order with the cookies of every request sent, and its
  // entries into the login region, before the first trip and after a rejected token.
  datatype Record = Record(exits: seq<Exit>, wires: seq<seq<Ltpa.Cookies>>, first: Option<Ltpa.Try>, again: Option<Ltpa.Try>)

  function Logins(d: Record): nat {
    Ltpa.Contacted(d.first) + Ltpa.Contacted(d.again)
  }

  // The first trip came back as a 401 that rejects the token.
  predicate Rejects(d: Record, x: Inputs) {
    d.exits != [] && d.exits[0] == Returned(401) && x.tokenRejected
  }

  predicate FailsAt(login: Option<Ltpa.Try>) {
    login.Some? && Ltpa.Fails(login.value)
  }

  // Exactly what a call with a session does: it fails before the first trip iff the first login
  // does; it logs in again iff the first trip was rejected; it makes the second trip iff it
  // logged in again without failing; and it ends as its last trip did, unless a login failed.
  predicate Exact(d: Record, outcome: Outcome, x: Inputs) {
    && (d.exits == [] <==> FailsAt(d.first))
    && (d.again.Some? <==> Rejects(d, x))
    && (|d.exits| == 2 <==> d.again.Some? && !FailsAt(d.again))
    && |d.exits| <= 2
    && outcome == (if FailsAt(d.first) || FailsAt(d.again) || d.exits == [] then LoginFailed else Ended(d.exits[|d.exits|-1]))
  }

  // Its trips, one after the other over the same breaker.
  ghost predicate TripsAre(cfg: Config, s: State, p: Policy, x: Inputs, d: Record) {
    && |d.wires| == |d.exits| <= 2
    && (d.exits != [] ==> TripIs(cfg, s, p, x, 0, d.exits[0], |d.wires[0]|))
    && (|d.exits| == 2 ==> TripIs(cfg, AfterTrip(cfg, s, x, 0, d.exits[0]), p, x, 1, d.exits[1], |d.wires[1]|))
  }

  predicate AllCookied(d: Record) {
    forall i :: 0 <= i < |d.wires| ==> AllCarry(d.wires[i])
  }

  // The first trip is over. A rejected token is logged in again, and the call made again.
  method AfterFirst(b: CircuitBreaker, a: Ltpa.LtpaAuthenticator, r: nat, ghost q: Ltpa.Request, p: Policy, x: Inputs,
                    token: nat, d: Record)
    returns (outcome: Outcome, d': Record)
    requires |d.exits| == |d.wires| == 1 && AllCookied(d) && d.again.None? && !FailsAt(d.first)
    requires a.At(r, q) && q.logins == Logins(d) && q.trips == 1
    requires if d.exits[0].Returned? then q.pc.OnWire? && q.pc.seen == token && !q.pc.second else q.pc.Idle?
    modifies b, a
    ensures Exact(d', outcome, x) && AllCookied(d') && d'.first == d.first
    ensures d'.again.Some? ==> d'.again.value.seen == token && d'.again.value.reply == x.reply(1)
    ensures |d'.wires| == |d'.exits| && d'.exits[..1] == d.exits && d'.wires[..1] == d.wires
    ensures |d'.exits| == 2 ==> TripIs(b.cfg, old(b.View()), p, x, 1, d'.exits[1], |d'.wires[1]|)
    ensures a.At(r, Ltpa.Request(Ltpa.Idle, Logins(d'), |d'.exits|))
  {
    var exit, auth := d.exits[0], Some(a);
    if exit != Returned(401) || !x.tokenRejected {
      if exit.Returned? {
        Answered(auth, r, q, Ltpa.Answered);
      }
      return Ended(exit), d;
    }
    Answered(auth, r, q, Ltpa.TokenRejected);
    ghost var rejected := q.(pc := Ltpa.Rejected(q.pc.seen, q.pc.sent, q.pc.at));
    var login := a.LogInAgain(r, rejected, token, x.between(3), x.reply(1));
    d' := d.(again := Some(login));
    if Ltpa.Fails(login) {
      return LoginFailed, d';
    }
    var wire;
    ghost var q2;
    exit, wire, q2 := Trip(b, auth, r, Ltpa.Request(Ltpa.Sends(token, true), Logins(d'), 2), p, x, 1);
    if exit.Returned? {
      Answered(auth, r, q2, Ltpa.Answered);
    }
    return Ended(exit), d'.(exits := d.exits + [exit], wires := d.wires + [wire]);
  }

  // A call with a session does exactly what `Exact` says.
  method CallWithSession(b: CircuitBreaker, a: Ltpa.LtpaAuthenticator, r: nat, p: Policy, x: Inputs)
    returns (outcome: Outcome, d: Record)
    requires a.Valid() && Ltpa.PcOf(a.world, r).Idle?
    modifies b, a
    ensures TripsAre(b.cfg, old(b.View()), p, x, d)
    ensures Exact(d, outcome, x) && AllCookied(d)
    ensures a.At(r, Ltpa.Request(Ltpa.Idle, Logins(d), |d.exits|))
    ensures x.between(0) == [] ==> (d.first.None? <==> old(a.cookies) != [])
  {
    var token, login := a.EnsureLoggedIn(r, x.between, x.reply(0));
    if token.None? {
      return LoginFailed, Record([], [], login, None);
    }
    var exit, wire;
    ghost var q;
    exit, wire, q := Trip(b, Some(a), r, Ltpa.Request(Ltpa.Sends(token.value, false), Ltpa.Contacted(login), 1), p, x, 0);
    var one := Record([exit], [wire], login, None);
    outcome, d := AfterFirst(b, a, r, q, p, x, token.value, one);
    assert d.exits[0] == d.exits[..1][0] == exit && d.wires[0] == d.wires[..1][0] == wire;
  }

  // The whole call, whatever others do meanwhile. With a session the session machine counts
  // the same logins and trips, and every request carries a session cookie; without one the
  // call is one trip.
  method RoundTripWithReauth(b: CircuitBreaker, auth: Auth, r: nat, p: Policy, x: Inputs)
    returns (outcome: Outcome, d: Record)
    requires auth.Some? ==> auth.value.Valid() && Ltpa.PcOf(auth.value.world, r).Idle?
    modifies b, Objects(auth)
    ensures TripsAre(b.cfg, old(b.View()), p, x, d)
    ensures auth.None? ==> |d.exits| == 1 && outcome == Ended(d.exits[0]) && d.first.None? && d.again.None?
    ensures auth.Some? ==> Exact(d, outcome, x) && AllCookied(d)
    ensures auth.Some? ==> auth.value.At(r, Ltpa.Request(Ltpa.Idle, Logins(d), |d.exits|))
    ensures auth.Some? && x.between(0) == [] ==> (d.first.None? <==> old(auth.value.cookies) != [])
  {
    if auth.Some? {
      outcome, d := CallWithSession(b, auth.value, r, p, x);
    } else {
      var exit, wire;
      ghost var q;
      exit, wire, q := Trip(b, auth, r, Ltpa.Request(Ltpa.Sends(0, false), 0, 1), p, x, 0);
      outcome, d := Ended(exit), Record([exit], [wire], None, None);
    }
  }

  /* ---------- what follows ---------- */

  function Budget(p: Policy): nat {
    if 0 < p.maxAttempts then p.maxAttempts else 0
  }

  function Sent(wires: seq<seq<Ltpa.Cookies>>): nat {
    if wires == [] then 0 else Sent(wires[..|wires|-1]) + |wires[|wires|-1]|
  }

  lemma TripBounded(cfg: Config, s: State, p: Policy, x: Inputs, n: nat, exit: Exit, sent: nat)
    requires TripIs(cfg, s, p, x, n, exit, sent)
    ensures sent <= Budget(p)
    ensures exit.Returned? ==> exit.status != 429 && exit.status < 500
  {
    if exit != CircuitOpen && 0 < p.maxAttempts {
      var decided :| Decided(p, x.script(n), decided, exit, sent);
      DecidedMeans(p, x.script(n), decided, exit, sent);
    }
  }

  // A call sends at most twice the attempts of one trip, contacts the login endpoint at most
  // twice, and never returns a 429 or a 5xx.
  lemma CallBounded(cfg: Config, s: State, p: Policy, x: Inputs, d: Record)
    requires TripsAre(cfg, s, p, x, d)
    ensures Sent(d.wires) <= |d.exits| * Budget(p) <= 2 * Budget(p) && Logins(d) <= 2
    ensures forall i :: 0 <= i < |d.exits| && d.exits[i].Returned? ==> d.exits[i].status != 429 && d.exits[i].status < 500
  {
    if d.exits != [] {
      TripBounded(cfg, s, p, x, 0, d.exits[0], |d.wires[0]|);
      assert d.wires[..1][..0] == [];
    }
    if |d.exits| == 2 {
      TripBounded(cfg, AfterTrip(cfg, s, x, 0, d.exits[0]), p, x, 1, d.exits[1], |d.wires[1]|);
      assert Sent(d.wires) == Sent(d.wires[..1]) + |d.wires[1]|;
    }
  }
}
