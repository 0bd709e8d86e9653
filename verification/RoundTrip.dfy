/**
 One guarded mqweb request: breaker admission, the retry loop in which every attempt attaches
 the session's cookies, and the exponential backoff between attempts. What the network does is
 a script indexed by attempt; other calls use the breaker and the session meanwhile.
 */
module RoundTrip {
  import opened Options
  import opened Breaker
  import Ltpa

  const TOO_MANY_REQUESTS := 429
  const INTERNAL_SERVER_ERROR := 500

  datatype Reply =
    | Response(status: int)
    | NetError(cancelled: bool, certRejected: bool) // cancelled: the request context was done

  // backoffAborted: the context ended during the sleep before this attempt.
  datatype Attempt = Attempt(backoffAborted: bool, buildFails: bool, reply: Reply)

  datatype Policy = Policy(maxAttempts: int, clientCert: bool)

  datatype Exit =
    | CircuitOpen
    | BackoffAborted
    | BuildFailed
    | RequestAborted
    | CertRejected
    | Returned(status: int)
    | ServerBusy(status: int)
    | NetworkDown
    | NeverTried

  predicate IsRetryable(status: int) {
    status == TOO_MANY_REQUESTS || status >= INTERNAL_SERVER_ERROR
  }

  // Attempt i ends the call by itself: the loop cannot go on to attempt i+1.
  predicate Stops(p: Policy, a: Attempt, i: nat) {
    || (0 < i && a.backoffAborted)
    || a.buildFails
    || (match a.reply
        case Response(status) => !IsRetryable(status)
        case NetError(cancelled, certRejected) => cancelled || (p.clientCert && certRejected))
  }

  predicate ReachesNetwork(a: Attempt, i: nat) {
    !(0 < i && a.backoffAborted) && !a.buildFails
  }

  // How a call whose deciding attempt is number i ends.
  function ExitOf(p: Policy, a: Attempt, i: nat): (e: Exit)
    ensures e.Returned? ==> e.status != 429 && e.status < 500
    ensures e.ServerBusy? ==> e.status == 429 || e.status >= 500
  {
    if 0 < i && a.backoffAborted then BackoffAborted
    else if a.buildFails then BuildFailed
    else match a.reply
      case Response(status) => if IsRetryable(status) then ServerBusy(status) else Returned(status)
      case NetError(cancelled, certRejected) =>
        if cancelled then RequestAborted
        else if p.clientCert && certRejected then CertRejected
        else NetworkDown
  }

  // What the breaker is told when the call ends.
  function Recorded(e: Exit, at: int): seq<Event> {
    match e
    case Returned(_) => [Success]
    case CertRejected => [Failure(at)]
    case ServerBusy(_) => [Failure(at)]
    case NetworkDown => [Failure(at)]
    case NeverTried => [Failure(at)]
    case _ => []
  }

  ghost predicate UnrecordedExit(e: Exit) {
    e.BackoffAborted? || e.BuildFailed? || e.RequestAborted?
  }

  /* ---------- the session, if there is one ---------- */

  // None for authentication that needs no session.
  type Auth = Option<Ltpa.LtpaAuthenticator>

  ghost function Objects(auth: Auth): set<object> {
    if auth.Some? then {auth.value} else {}
  }

  // How far request r has got in the session machine.
  ghost predicate Where(auth: Auth, r: nat, q: Ltpa.Request)
    reads Objects(auth)
  {
    auth.Some? ==> auth.value.At(r, q)
  }

  // Builds the request of one attempt.
  method Build(auth: Auth, r: nat, ghost q: Ltpa.Request, others: seq<Ltpa.Action>)
    returns (cookies: Ltpa.Cookies, ghost q': Ltpa.Request)
    requires Where(auth, r, q) && q.pc.Sends?
    modifies Objects(auth)
    ensures Where(auth, r, q') && q'.pc.OnWire?
    ensures q == q'.(pc := Ltpa.Sends(q'.pc.seen, q'.pc.second))
    ensures auth.Some? ==> cookies != []
  {
    cookies := [];
    if auth.Some? {
      cookies := auth.value.Send(r, q, others);
      ghost var at :| auth.value.At(r, q.(pc := Ltpa.OnWire(q.pc.seen, q.pc.second, cookies, at)));
      q' := q.(pc := Ltpa.OnWire(q.pc.seen, q.pc.second, cookies, at));
    } else {
      q' := q.(pc := Ltpa.OnWire(q.pc.seen, q.pc.second, [], 0));
    }
  }

  // The attempt has been answered, or has failed.
  method Answered(auth: Auth, r: nat, ghost q: Ltpa.Request, answer: Ltpa.Answer)
    requires Where(auth, r, q) && q.pc.OnWire?
    modifies Objects(auth)
    ensures Where(auth, r, q.(pc := AfterReply(q.pc, answer)))
  {
    if auth.Some? {
      auth.value.Took(Ltpa.Reply(r, answer));
    }
  }

  function AfterReply(pc: Ltpa.Pc, answer: Ltpa.Answer): Ltpa.Pc
    requires pc.OnWire?
  {
    match answer
    case Retried => Ltpa.Sends(pc.seen, pc.second)
    case Answered => Ltpa.Idle
    case TokenRejected => if pc.second then Ltpa.Idle else Ltpa.Rejected(pc.seen, pc.sent, pc.at)
  }

  // The trip ends before another attempt goes out.
  method GaveUp(auth: Auth, r: nat, ghost q: Ltpa.Request)
    requires Where(auth, r, q) && q.pc.Sends?
    modifies Objects(auth)
    ensures Where(auth, r, q.(pc := Ltpa.Idle))
  {
    if auth.Some? {
      auth.value.Took(Ltpa.GiveUp(r));
    }
  }

  /* ---------- the trip ---------- */

  // What other calls do while a trip is under way: to the breaker between its admission and
  // its outcome, and to the session before each attempt.
  datatype Meanwhile = Meanwhile(breaker: seq<Event>, session: nat -> seq<Ltpa.Action>)

  method Others(b: CircuitBreaker, events: seq<Event>)
    modifies b
    ensures b.View() == Run(b.cfg, old(b.View()), events)
  {
    for i := 0 to |events|
      invariant b.View() == Run(b.cfg, old(b.View()), events[..i])
    {
      assert events[..i + 1][..i] == events[..i];
      match events[i] {
        case Request(now) => var _ := b.BeforeRequest(now);
        case Success => b.RecordSuccess();
        case Failure(now) => b.RecordFailure(now);
      }
    }
    assert events[..|events|] == events;
  }

  // The breaker's events from the admission of a call to its end; a call that is not admitted
  // has none of its own in between.
  function Events(start: int, meanwhile: seq<Event>, exit: Exit, end: int): seq<Event> {
    [Request(start)] + (if exit == CircuitOpen then [] else meanwhile) + Recorded(exit, end)
  }

  // `decided` is the number of the deciding attempt: the first one that stops the loop, or
  // the last allowed one. Requests sent and the result follow from it.
  ghost predicate Decided(p: Policy, script: nat -> Attempt, decided: nat, exit: Exit, sent: nat) {
    if p.maxAttempts <= 0 then exit == NeverTried && sent == 0
    else
      && decided < p.maxAttempts
      && (forall i: nat :: i < decided ==> !Stops(p, script(i), i))
      && (Stops(p, script(decided), decided) || decided == p.maxAttempts - 1)
      && exit == ExitOf(p, script(decided), decided)
      && sent == if ReachesNetwork(script(decided), decided) then decided + 1 else decided
  }

  // In the words of HTTP: before the deciding attempt every response was a 429 or a 5xx and
  // every other attempt a plain network error; a call gives up on those only at its last
  // attempt; and what is returned is the deciding attempt's response, never a 429 or a 5xx.
  lemma DecidedMeans(p: Policy, script: nat -> Attempt, decided: nat, exit: Exit, sent: nat)
    requires Decided(p, script, decided, exit, sent) && 0 < p.maxAttempts
    ensures forall i: nat :: i < decided ==>
      && !script(i).buildFails && !(0 < i && script(i).backoffAborted)
      && match script(i).reply
         case Response(status) => status == 429 || status >= 500
         case NetError(cancelled, certRejected) => !cancelled && !(p.clientCert && certRejected)
    ensures exit.ServerBusy? || exit.NetworkDown? ==> decided == p.maxAttempts - 1
    ensures exit.Returned? ==> script(decided).reply == Response(exit.status) && exit.status != 429 && exit.status < 500
    ensures exit.ServerBusy? ==> script(decided).reply == Response(exit.status) && (exit.status == 429 || exit.status >= 500)
    ensures sent <= p.maxAttempts
  {
    forall i: nat | i < decided
      ensures !script(i).buildFails && !(0 < i && script(i).backoffAborted)
      ensures match script(i).reply
              case Response(status) => status == 429 || status >= 500
              case NetError(cancelled, certRejected) => !cancelled && !(p.clientCert && certRejected)
    {
      assert !Stops(p, script(i), i);
    }
  }

  // A response is still to be classified; after anything else the request is over.
  ghost predicate LeftAt(q: Ltpa.Request, exit: Exit, q': Ltpa.Request)
    requires q.pc.Sends?
  {
    && q'.logins == q.logins && q'.trips == q.trips
    && if exit.Returned? then q'.pc.OnWire? && q'.pc.seen == q.pc.seen && q'.pc.second == q.pc.second else q'.pc.Idle?
  }

  predicate AllCarry(wire: seq<Ltpa.Cookies>) {
    forall i :: 0 <= i < |wire| ==> wire[i] != []
  }

  // How attempt i ends the call, if it does; the last one always does.
  function Verdict(p: Policy, a: Attempt, i: nat, last: bool): Option<Exit> {
    if Stops(p, a, i) || (last && a.reply.Response?) then Some(ExitOf(p, a, i)) else None
  }

  // Building the request of one attempt, sending it and looking at the reply; None if the loop
  // goes on, or is over with network errors only.
  method TryOnce(auth: Auth, r: nat, ghost q: Ltpa.Request, p: Policy, a: Attempt, i: nat, last: bool, others: seq<Ltpa.Action>)
    returns (sent: seq<Ltpa.Cookies>, verdict: Option<Exit>, ghost q': Ltpa.Request)
    requires Where(auth, r, q) && q.pc.Sends?
    modifies Objects(auth)
    ensures verdict == Verdict(p, a, i, last) && |sent| == if ReachesNetwork(a, i) then 1 else 0
    ensures auth.Some? ==> AllCarry(sent)
    ensures Where(auth, r, q') && if verdict.Some? then LeftAt(q, verdict.value, q') else q' == q
  {
    if (0 < i && a.backoffAborted) || a.buildFails {
      GaveUp(auth, r, q);
      return [], Some(if 0 < i && a.backoffAborted then BackoffAborted else BuildFailed), q.(pc := Ltpa.Idle);
    }
    var cookies;
    cookies, q' := Build(auth, r, q, others);
    sent := [cookies];
    match a.reply {
      case NetError(cancelled, certRejected) =>
        verdict := if cancelled then Some(RequestAborted)
                   else if p.clientCert && certRejected then Some(CertRejected)
                   else None;
      case Response(status) =>
        if !IsRetryable(status) {
          return sent, Some(Returned(status)), q';
        }
        verdict := if last then Some(ServerBusy(status)) else None;
    }
    Answered(auth, r, q', if verdict.Some? then Ltpa.Answered else Ltpa.Retried);
    q' := if verdict.Some? then q.(pc := Ltpa.Idle) else q;
  }

  // The loop ran out of attempts.
  lemma RanOut(p: Policy, script: nat -> Attempt, attempts: nat)
    requires (p.maxAttempts <= 0 && attempts == 0) || attempts == p.maxAttempts
    requires forall i: nat :: i < attempts ==> Verdict(p, script(i), i, i + 1 >= p.maxAttempts).None?
    ensures Decided(p, script, if 0 < attempts then attempts - 1 else 0, if 0 < attempts then NetworkDown else NeverTried, attempts)
  {
    if 0 < attempts {
      assert Verdict(p, script(attempts - 1), attempts - 1, true).None?;
    }
  }

  // Or was stopped by one.
  lemma Stopped(p: Policy, script: nat -> Attempt, attempt: nat, exit: Exit)
    requires attempt < p.maxAttempts && Verdict(p, script(attempt), attempt, attempt + 1 >= p.maxAttempts) == Some(exit)
    requires forall i: nat :: i < attempt ==> Verdict(p, script(i), i, i + 1 >= p.maxAttempts).None?
    ensures Decided(p, script, attempt, exit, if ReachesNetwork(script(attempt), attempt) then attempt + 1 else attempt)
  {
    forall i: nat | i < attempt
      ensures !Stops(p, script(i), i)
    {
      assert Verdict(p, script(i), i, i + 1 >= p.maxAttempts).None?;
    }
  }

  // The retry loop of an admitted call. `wire` has the cookies of every request sent.
  method Attempts(auth: Auth, r: nat, ghost q: Ltpa.Request, p: Policy, script: nat -> Attempt,
                  others: nat -> seq<Ltpa.Action>)
    returns (exit: Exit, wire: seq<Ltpa.Cookies>, decided: nat, ghost q': Ltpa.Request)
    requires Where(auth, r, q) && q.pc.Sends?
    modifies Objects(auth)
    ensures Decided(p, script, decided, exit, |wire|)
    ensures auth.Some? ==> AllCarry(wire)
    ensures Where(auth, r, q') && LeftAt(q, exit, q')
    ensures exit != CircuitOpen
  {
    wire, decided := [], 0;
    var attempt := 0;
    while attempt < p.maxAttempts
      invariant 0 <= attempt && (attempt <= p.maxAttempts || p.maxAttempts <= 0 == attempt)
      invariant forall i: nat :: i < attempt ==> Verdict(p, script(i), i, i + 1 >= p.maxAttempts).None?
      invariant |wire| == attempt && (auth.Some? ==> AllCarry(wire))
      invariant Where(auth, r, q)
    {
      var sent, verdict;
      sent, verdict, q' := TryOnce(auth, r, q, p, script(attempt), attempt, attempt + 1 >= p.maxAttempts, others(attempt));
      wire := wire + sent;
      if verdict.Some? {
        Stopped(p, script, attempt, verdict.value);
        return verdict.value, wire, attempt, q';
      }
      attempt := attempt + 1;
    }
    GaveUp(auth, r, q);
    RanOut(p, script, attempt);
    exit, q' := if 0 < attempt then NetworkDown else NeverTried, q.(pc := Ltpa.Idle);
    decided := if 0 < attempt then attempt - 1 else 0;
  }

  // What an admitted call tells the breaker at its end.
  method Record(b: CircuitBreaker, exit: Exit, end: int)
    modifies b
    ensures b.View() == AfterOutcome(b.cfg, old(b.View()), Recorded(exit, end))
  {
    match exit {
      case Returned(_) => b.RecordSuccess();
      case CertRejected => b.RecordFailure(end);
      case ServerBusy(_) => b.RecordFailure(end);
      case NetworkDown => b.RecordFailure(end);
      case NeverTried => b.RecordFailure(end);
      case _ =>
    }
  }

  // The whole trip, whatever other calls do meanwhile; with a session no request goes out
  // without a cookie.
  method RoundTrip(b: CircuitBreaker, auth: Auth, r: nat, ghost q: Ltpa.Request, p: Policy, script: nat -> Attempt,
                   others: Meanwhile, start: int, end: int)
    returns (exit: Exit, wire: seq<Ltpa.Cookies>, decided: nat, ghost q': Ltpa.Request)
    requires Where(auth, r, q) && q.pc.Sends?
    modifies b, Objects(auth)
    ensures if Admits(b.cfg, old(b.View()), start) then exit != CircuitOpen && Decided(p, script, decided, exit, |wire|)
            else exit == CircuitOpen && wire == []
    ensures b.View() == Run(b.cfg, old(b.View()), Events(start, others.breaker, exit, end))
    ensures auth.Some? ==> AllCarry(wire)
    ensures Where(auth, r, q') && LeftAt(q, exit, q')
  {
    ghost var s := b.View();
    wire, decided := [], 0;
    var admitted := b.BeforeRequest(start);
    if !admitted {
      GaveUp(auth, r, q);
      exit, q' := CircuitOpen, q.(pc := Ltpa.Idle);
    } else {
      Others(b, others.breaker);
      exit, wire, decided, q' := Attempts(auth, r, q, p, script, others.session);
      Record(b, exit, end);
    }
    EventsRun(b.cfg, s, start, others.breaker, exit, end);
  }

  lemma {:induction false} RunSum(cfg: Config, s: State, a: seq<Event>, c: seq<Event>)
    ensures Run(cfg, s, a + c) == Run(cfg, Run(cfg, s, a), c)
    decreases |c|
  {
    if c == [] {
      assert a + c == a;
    } else {
      assert (a + c)[..|a + c|-1] == a + c[..|c|-1];
      RunSum(cfg, s, a, c[..|c|-1]);
    }
  }

  lemma RunOne(cfg: Config, s: State, e: Event)
    ensures Run(cfg, s, [e]) == Step(cfg, s, e)
  {
    assert [e][..0] == [];
  }

  // The breaker after the outcome is recorded, if it is.
  function AfterOutcome(cfg: Config, s: State, outcome: seq<Event>): State {
    if outcome == [] then s else Step(cfg, s, outcome[0])
  }

  // The events of a call, one by one.
  lemma EventsRun(cfg: Config, s: State, start: int, meanwhile: seq<Event>, exit: Exit, end: int)
    ensures Run(cfg, s, Events(start, meanwhile, exit, end)) ==
      AfterOutcome(cfg, Run(cfg, Step(cfg, s, Request(start)), if exit == CircuitOpen then [] else meanwhile), Recorded(exit, end))
  {
    var rest := if exit == CircuitOpen then [] else meanwhile;
    RunOne(cfg, s, Request(start));
    RunSum(cfg, s, [Request(start)], rest);
    RunSum(cfg, s, [Request(start)] + rest, Recorded(exit, end));
    if Recorded(exit, end) != [] {
      RunOne(cfg, Run(cfg, s, [Request(start)] + rest), Recorded(exit, end)[0]);
    }
  }

  ghost predicate RequestsOnly(events: seq<Event>) {
    forall i :: 0 <= i < |events| ==> events[i].Request?
  }

  // While a probe is out, requests change nothing.
  lemma {:induction false} ProbeShutsOut(cfg: Config, s: State, events: seq<Event>)
    requires s.phase == HalfOpen && s.probe && RequestsOnly(events)
    ensures Run(cfg, s, events) == s
  {
    if events != [] {
      ProbeShutsOut(cfg, s, events[..|events|-1]);
    }
  }

  // The probe of an open breaker, while no other call records an outcome: closed again exactly
  // when a response is returned, still half-open exactly for the three exits that record
  // nothing, open again otherwise.
  lemma ProbePhase(cfg: Config, s: State, start: int, meanwhile: seq<Event>, exit: Exit, end: int)
    requires s.phase == Open && Admits(cfg, s, start) && exit != CircuitOpen && RequestsOnly(meanwhile)
    ensures var x := Run(cfg, s, Events(start, meanwhile, exit, end));
            && (x.phase == Closed <==> exit.Returned?)
            && (x.phase == HalfOpen <==> UnrecordedExit(exit)) && (x.phase == HalfOpen ==> x.probe)
            && (x.phase == Open ==> x.openedAt == end)
  {
    EventsRun(cfg, s, start, meanwhile, exit, end);
    ProbeShutsOut(cfg, Step(cfg, s, Request(start)), meanwhile);
  }

  lemma OpensAgain(cfg: Config, s: Breaker.System)
    requires s.b.phase != HalfOpen
    ensures !ShutForever(cfg, s)
  {
    var call := Call(s.b.openedAt + cfg.openTimeout);
    assert Admitted(cfg, s, call);
    var run := [call];
    assert run[0] == call && run[1..] == [];
    assert LegalRun(cfg, Next(cfg, s, call), run[1..]);
    assert LegalRun(cfg, s, run);
    assert AdmitsSomeCall(cfg, s, run);
  }

  // A probe that ends without recording, with nothing else in flight, shuts the connection
  // off for ever; every other way of ending leaves a breaker that can admit again.
  lemma UnrecordedProbeIsFinal(cfg: Config, s: State, start: int, meanwhile: seq<Event>, exit: Exit, end: int)
    requires cfg.Valid() && s.phase == Open && Admits(cfg, s, start) && exit != CircuitOpen && RequestsOnly(meanwhile)
    ensures ShutForever(cfg, System(Run(cfg, s, Events(start, meanwhile, exit, end)), 0)) <==> UnrecordedExit(exit)
  {
    var x := System(Run(cfg, s, Events(start, meanwhile, exit, end)), 0);
    ProbePhase(cfg, s, start, meanwhile, exit, end);
    if UnrecordedExit(exit) {
      HalfOpenShutIffNoCallInFlight(cfg, x);
    } else {
      OpensAgain(cfg, x);
    }
  }

  /* ---------- backoff, in 64-bit nanoseconds ---------- */

  const TWO63: int := 0x8000_0000_0000_0000
  const TWO64: int := 0x1_0000_0000_0000_0000

  // Two's-complement wrap-around of a 64-bit product.
  function Wrap64(x: int): int {
    var m := x % TWO64;
    if m < TWO63 then m else m - TWO64
  }

  function Pow2(n: nat): nat {
    if n == 0 then 1 else 2 * Pow2(n - 1)
  }

  function Min(a: int, b: int): int {
    if a <= b then a else b
  }

  // The loop of retryPolicy.backoff from its i-th doubling on.
  function Doubling(d: int, max: int, steps: nat): int
    decreases steps
  {
    if steps == 0 then d
    else if Wrap64(d * 2) >= max then max
    else Doubling(Wrap64(d * 2), max, steps - 1)
  }

  function Backoff(initial: int, max: int, attempt: int): int {
    if attempt <= 0 then initial else Doubling(initial, max, attempt - 1)
  }

  method ComputeBackoff(initial: int, max: int, attempt: int) returns (d: int)
    ensures d == Backoff(initial, max, attempt)
  {
    if attempt <= 0 {
      return initial;
    }
    d := initial;
    var i := 1;
    while i < attempt
      invariant 1 <= i <= attempt
      invariant Doubling(d, max, attempt - i) == Backoff(initial, max, attempt)
    {
      d := Wrap64(d * 2);
      if d >= max {
        return max;
      }
      i := i + 1;
    }
  }

  // The largest value the loop ever computes, in unbounded arithmetic: it stops doubling at
  // the first value that reaches max.
  ghost function Peak(d: int, max: int): int
    requires 0 < d
    decreases max - d
  {
    if 2 * d >= max then 2 * d else Peak(2 * d, max)
  }

  lemma {:induction false} PeakAtLeastDouble(d: int, max: int)
    requires 0 < d
    ensures 2 * d <= Peak(d, max)
    decreases max - d
  {
    if 2 * d < max {
      PeakAtLeastDouble(2 * d, max);
    }
  }

  // Doubling with a cap, below overflow, is the closed form min(d * 2^steps, max).
  lemma {:induction false} DoublingIsMin(d: int, max: int, steps: nat)
    requires 0 < d && Peak(d, max) < TWO63 && (d <= max || 0 < steps)
    ensures Doubling(d, max, steps) == Min(d * Pow2(steps), max)
    decreases steps
  {
    if 0 < steps {
      PeakAtLeastDouble(d, max);
      assert Wrap64(d * 2) == 2 * d;
      assert d * Pow2(steps) == 2 * d * Pow2(steps - 1);
      if 2 * d >= max {
        assert 2 * d * Pow2(steps - 1) >= 2 * d by { Pow2Positive(steps - 1); }
      } else {
        DoublingIsMin(2 * d, max, steps - 1);
      }
    }
  }

  lemma {:induction false} Pow2Positive(n: nat)
    ensures Pow2(n) >= 1
  {
    if 0 < n {
      Pow2Positive(n - 1);
    }
  }

  // The number of doublings after which an overflowing loop holds a negative duration.
  lemma {:induction false} OverflowGoesNegative(d: int, max: int) returns (steps: nat)
    requires 0 < d < TWO63 && 0 < max < TWO63 && Peak(d, max) >= TWO63
    ensures Doubling(d, max, steps) < 0
    decreases max - d
  {
    if 2 * d >= TWO63 {
      assert Wrap64(d * 2) == 2 * d - TWO64;
      assert Doubling(2 * d - TWO64, max, 0) == 2 * d - TWO64;
      steps := 1;
    } else {
      var rest := OverflowGoesNegative(2 * d, max);
      assert Wrap64(d * 2) == 2 * d;
      steps := rest + 1;
    }
  }

  // The documented schedule min(initial * 2^(n-1), max) holds for every attempt exactly when
  // the initial delay is within the cap and the last doubling fits 64 bits.
  lemma BackoffIsCappedDoubling(initial: int, max: int)
    requires 0 < initial < TWO63 && 0 < max < TWO63
    ensures (forall n: nat :: 0 < n ==> Backoff(initial, max, n) == Min(initial * Pow2(n - 1), max))
            <==> initial <= max && Peak(initial, max) < TWO63
  {
    if initial <= max && Peak(initial, max) < TWO63 {
      forall n: nat | 0 < n
        ensures Backoff(initial, max, n) == Min(initial * Pow2(n - 1), max)
      {
        DoublingIsMin(initial, max, n - 1);
      }
    } else if Peak(initial, max) >= TWO63 {
      var steps := OverflowGoesNegative(initial, max);
      Pow2Positive(steps);
      assert initial * Pow2(steps) >= initial;
      assert Backoff(initial, max, steps + 1) != Min(initial * Pow2(steps + 1 - 1), max);
    } else {
      assert Backoff(initial, max, 1) == initial != Min(initial * Pow2(1 - 1), max);
    }
  }

  // For caps up to 2^62 ns the only overflowing setting is initial == max == 2^62.
  lemma BackoffFitsBelowCap(initial: int, max: int)
    requires 0 < initial <= max <= TWO63 / 2
    ensures Peak(initial, max) < TWO63 <==> initial < TWO63 / 2
    decreases max - initial
  {
    if 2 * initial < max {
      BackoffFitsBelowCap(2 * initial, max);
    }
  }
}
