/**
 The per-connection circuit breaker. `CircuitBreaker` is the object the mqweb client
 mutates; `State` and `Step` are its value-level specification, and the lemmas compare
 runs of `Step` with definitions that only look at the history of events.
 */
module Breaker {

  const DEFAULT_FAILURE_THRESHOLD := 5
  const DEFAULT_OPEN_TIMEOUT := 30_000_000_000 // nanoseconds

  datatype Phase = Closed | Open | HalfOpen

  datatype Config = Config(threshold: int, openTimeout: int) {
    predicate Valid() {
      0 < threshold && 0 < openTimeout
    }

    // Non-positive settings fall back to the defaults.
    function Defaulted(): (c: Config)
      ensures c.Valid()
      ensures Valid() ==> c == this
      ensures threshold <= 0 ==> c.threshold == 5
      ensures openTimeout <= 0 ==> c.openTimeout == 30 * 1_000_000_000
    {
      Config(if threshold <= 0 then DEFAULT_FAILURE_THRESHOLD else threshold,
             if openTimeout <= 0 then DEFAULT_OPEN_TIMEOUT else openTimeout)
    }
  }

  datatype State = State(phase: Phase, fails: nat, openedAt: int, probe: bool)

  // What the breaker sees: a call asking for admission, or the recorded outcome of an
  // earlier call. The clock reading is part of the event.
  datatype Event = Request(now: int) | Success | Failure(now: int)

  const Initial := State(Closed, 0, 0, false)

  predicate Admits(cfg: Config, s: State, now: int) {
    match s.phase
    case Closed => true
    case Open => now - s.openedAt >= cfg.openTimeout
    case HalfOpen => !s.probe
  }

  function Step(cfg: Config, s: State, e: Event): State {
    match e
    case Request(now) =>
      if s.phase.Closed? || !Admits(cfg, s, now) then s
      else s.(phase := HalfOpen, probe := true)
    case Success => s.(phase := Closed, fails := 0, probe := false)
    case Failure(now) =>
      if s.phase.HalfOpen? then State(Open, s.fails, now, false)
      else if s.fails + 1 >= cfg.threshold then State(Open, s.fails + 1, now, false)
      else State(s.phase, s.fails + 1, s.openedAt, false)
  }

  class CircuitBreaker {
    const cfg: Config
    var phase: Phase
    var consecutiveFails: nat
    var openedAt: int
    var probeInFlight: bool

    ghost function View(): State
      reads this
    {
      State(phase, consecutiveFails, openedAt, probeInFlight)
    }

    constructor (settings: Config)
      ensures cfg == settings.Defaulted() && cfg.Valid()
      ensures View() == Initial
    {
      cfg := settings.Defaulted();
      phase, consecutiveFails, openedAt, probeInFlight := Closed, 0, 0, false;
    }

    method BeforeRequest(now: int) returns (admitted: bool)
      modifies this
      ensures admitted == Admits(cfg, old(View()), now)
      ensures View() == Step(cfg, old(View()), Request(now))
    {
      match phase
      case Closed =>
        admitted := true;
      case Open =>
        if now - openedAt < cfg.openTimeout {
          return false;
        }
        phase := HalfOpen;
        probeInFlight := true;
        admitted := true;
      case HalfOpen =>
        if probeInFlight {
          return false;
        }
        probeInFlight := true;
        admitted := true;
    }

    method RecordSuccess()
      modifies this
      ensures View() == Step(cfg, old(View()), Success)
    {
      consecutiveFails := 0;
      probeInFlight := false;
      phase := Closed;
    }

    method RecordFailure(now: int)
      modifies this
      ensures View() == Step(cfg, old(View()), Failure(now))
    {
      probeInFlight := false;
      if phase == HalfOpen {
        phase := Open;
        openedAt := now;
        return;
      }
      consecutiveFails := consecutiveFails + 1;
      if consecutiveFails >= cfg.threshold {
        phase := Open;
        openedAt := now;
      }
    }
  }

  /* ---------- the breaker refines its history ---------- */

  ghost function Run(cfg: Config, s: State, trace: seq<Event>): State {
    if trace == [] then s else Step(cfg, Run(cfg, s, trace[..|trace|-1]), trace[|trace|-1])
  }

  // Failures recorded since the last recorded success.
  ghost function FailureRun(trace: seq<Event>): nat {
    if trace == [] then 0 else
    var before := trace[..|trace|-1];
    match trace[|trace|-1]
    case Request(_) => FailureRun(before)
    case Success => 0
    case Failure(_) => FailureRun(before) + 1
  }

  // Clock reading of the most recent failure (zero when there was none).
  ghost function LastFailureAt(trace: seq<Event>): int {
    if trace == [] then 0 else
    match trace[|trace|-1]
    case Failure(now) => now
    case _ => LastFailureAt(trace[..|trace|-1])
  }

  // Some request since the last outcome came at least an open-timeout after the last failure.
  ghost predicate Probed(cfg: Config, trace: seq<Event>) {
    trace != [] && trace[|trace|-1].Request? &&
    var before := trace[..|trace|-1];
    (Probed(cfg, before) || trace[|trace|-1].now - LastFailureAt(before) >= cfg.openTimeout)
  }

  ghost function PhaseByHistory(cfg: Config, trace: seq<Event>): Phase {
    if FailureRun(trace) < cfg.threshold then Closed
    else if Probed(cfg, trace) then HalfOpen
    else Open
  }

  ghost predicate AdmitsByHistory(cfg: Config, trace: seq<Event>, now: int) {
    FailureRun(trace) < cfg.threshold ||
    (!Probed(cfg, trace) && now - LastFailureAt(trace) >= cfg.openTimeout)
  }

  lemma {:induction false} RefinesHistory(cfg: Config, trace: seq<Event>)
    requires cfg.Valid()
    ensures var s := Run(cfg, Initial, trace);
            && s.phase == PhaseByHistory(cfg, trace)
            && (s.probe <==> s.phase == HalfOpen)
            && (s.phase == Closed ==> s.fails == FailureRun(trace))
            && (s.phase != Closed ==> s.openedAt == LastFailureAt(trace) && s.fails >= cfg.threshold)
  {
    if trace != [] {
      RefinesHistory(cfg, trace[..|trace|-1]);
    }
  }

  // The admission decision after any history, said without the breaker's fields.
  lemma AdmissionByHistory(cfg: Config, trace: seq<Event>, now: int)
    requires cfg.Valid()
    ensures Admits(cfg, Run(cfg, Initial, trace), now) <==> AdmitsByHistory(cfg, trace, now)
  {
    RefinesHistory(cfg, trace);
  }

  /* ---------- one admission per half-open episode ---------- */

  ghost function PhaseAt(cfg: Config, trace: seq<Event>, k: nat): Phase
    requires k <= |trace|
  {
    Run(cfg, Initial, trace[..k]).phase
  }

  ghost predicate AdmittedAt(cfg: Config, trace: seq<Event>, k: nat)
    requires k < |trace|
  {
    trace[k].Request? && Admits(cfg, Run(cfg, Initial, trace[..k]), trace[k].now)
  }

  // Phases i+1..j are half-open and phase i is not: event i is the admitted probe and no
  // event of the episode after it is admitted.
  lemma HalfOpenEpisodeAdmitsOne(cfg: Config, trace: seq<Event>, i: nat, j: nat)
    requires cfg.Valid() && i < j <= |trace|
    requires PhaseAt(cfg, trace, i) != HalfOpen
    requires forall k :: i < k <= j ==> PhaseAt(cfg, trace, k) == HalfOpen
    ensures AdmittedAt(cfg, trace, i)
    ensures forall k :: i < k < j ==> trace[k].Request? && !AdmittedAt(cfg, trace, k)
    ensures j < |trace| ==> !AdmittedAt(cfg, trace, j)
  {
    forall k | i <= k < j
      ensures PhaseAt(cfg, trace, k + 1) == Step(cfg, Run(cfg, Initial, trace[..k]), trace[k]).phase
    {
      assert trace[..k + 1][..k] == trace[..k];
    }
    forall k | i < k <= j
      ensures Run(cfg, Initial, trace[..k]).probe
    {
      assert PhaseAt(cfg, trace, k) == HalfOpen;
      RefinesHistory(cfg, trace[..k]);
    }
    assert PhaseAt(cfg, trace, i + 1) == HalfOpen;
    forall k | i < k < j
      ensures trace[k].Request? && !AdmittedAt(cfg, trace, k)
    {
      assert PhaseAt(cfg, trace, k + 1) == HalfOpen;
    }
  }

  /* ---------- rate bound while failing ---------- */

  ghost function Admissions(cfg: Config, s: State, trace: seq<Event>): nat {
    if trace == [] then 0 else
    var before := trace[..|trace|-1];
    var last := trace[|trace|-1];
    Admissions(cfg, s, before) +
    if last.Request? && Admits(cfg, Run(cfg, s, before), last.now) then 1 else 0
  }

  // Clock readings never go back, start no earlier than t0 and end no later than t.
  ghost predicate ClockBetween(t0: int, trace: seq<Event>, t: int) {
    if trace == [] then t0 <= t else
    var last := trace[|trace|-1];
    var before := trace[..|trace|-1];
    if last.Success? then ClockBetween(t0, before, t)
    else last.now <= t && ClockBetween(t0, before, last.now)
  }

  ghost predicate SuccessFree(trace: seq<Event>) {
    forall i :: 0 <= i < |trace| ==> !trace[i].Success?
  }

  lemma {:induction false} OpenStretch(cfg: Config, s: State, trace: seq<Event>, t: int)
    requires cfg.Valid() && s.phase == Open && !s.probe && s.fails >= cfg.threshold
    requires SuccessFree(trace) && ClockBetween(s.openedAt, trace, t)
    ensures Admissions(cfg, s, trace) * cfg.openTimeout <= t - s.openedAt
    ensures var r := Run(cfg, s, trace);
            && r.phase != Closed && (r.probe <==> r.phase == HalfOpen)
            && r.fails >= cfg.threshold && r.openedAt <= t
            && (r.phase == Open ==> Admissions(cfg, s, trace) * cfg.openTimeout <= r.openedAt - s.openedAt)
  {
    if trace != [] {
      var before, last := trace[..|trace|-1], trace[|trace|-1];
      OpenStretch(cfg, s, before, last.now);
      var r, n := Run(cfg, s, before), Admissions(cfg, s, before);
      if last.Request? && Admits(cfg, r, last.now) {
        assert (n + 1) * cfg.openTimeout == n * cfg.openTimeout + cfg.openTimeout;
      }
    }
  }

  // Whatever happened before, once the breaker is open at t0 a success-free stretch with n
  // admissions by time t has lasted n open-timeouts, even when failures of calls admitted
  // before it opened keep arriving late.
  lemma RateBound(cfg: Config, past: seq<Event>, trace: seq<Event>, t: int)
    requires cfg.Valid() && Run(cfg, Initial, past).phase == Open
    requires SuccessFree(trace) && ClockBetween(Run(cfg, Initial, past).openedAt, trace, t)
    ensures var s := Run(cfg, Initial, past);
            Admissions(cfg, s, trace) * cfg.openTimeout <= t - s.openedAt
  {
    RefinesHistory(cfg, past);
    OpenStretch(cfg, Run(cfg, Initial, past), trace, t);
  }

  /* ---------- leaving half-open needs an outcome ---------- */

  // The breaker together with the calls it admitted that have not ended yet.
  datatype System = System(b: State, inFlight: nat)

  datatype Action =
    | Call(now: int)      // a call asks for admission
    | EndSuccess          // an admitted call ends and records success
    | EndFailure(at: int) // an admitted call ends and records failure
    | EndUnrecorded       // an admitted call ends and records nothing

  ghost predicate Legal(s: System, a: Action) {
    a.Call? || 0 < s.inFlight
  }

  ghost predicate Admitted(cfg: Config, s: System, a: Action) {
    a.Call? && Admits(cfg, s.b, a.now)
  }

  ghost function Next(cfg: Config, s: System, a: Action): System
    requires Legal(s, a)
  {
    match a
    case Call(now) =>
      System(Step(cfg, s.b, Request(now)), if Admits(cfg, s.b, now) then s.inFlight + 1 else s.inFlight)
    case EndSuccess => System(Step(cfg, s.b, Success), s.inFlight - 1)
    case EndFailure(at) => System(Step(cfg, s.b, Failure(at)), s.inFlight - 1)
    case EndUnrecorded => System(s.b, s.inFlight - 1)
  }

  ghost predicate LegalRun(cfg: Config, s: System, run: seq<Action>)
    decreases |run|
  {
    run == [] || (Legal(s, run[0]) && LegalRun(cfg, Next(cfg, s, run[0]), run[1..]))
  }

  ghost predicate AdmitsSomeCall(cfg: Config, s: System, run: seq<Action>)
    requires LegalRun(cfg, s, run)
    decreases |run|
  {
    run != [] && (Admitted(cfg, s, run[0]) || AdmitsSomeCall(cfg, Next(cfg, s, run[0]), run[1..]))
  }

  // No continuation, at any clock value, gets another call admitted.
  ghost predicate ShutForever(cfg: Config, s: System) {
    forall run :: LegalRun(cfg, s, run) ==> !AdmitsSomeCall(cfg, s, run)
  }

  lemma {:induction false} IdleHalfOpenRejects(cfg: Config, s: System, run: seq<Action>)
    requires s.b.phase == HalfOpen && s.b.probe && s.inFlight == 0 && LegalRun(cfg, s, run)
    ensures !AdmitsSomeCall(cfg, s, run)
  {
    if run != [] {
      IdleHalfOpenRejects(cfg, s, run[1..]);
    }
  }

  // A half-open breaker is shut for ever exactly when no call it admitted is still running:
  // only a recorded outcome leaves half-open, and only an admitted call can record one.
  lemma HalfOpenShutIffNoCallInFlight(cfg: Config, s: System)
    requires s.b.phase == HalfOpen && s.b.probe
    ensures ShutForever(cfg, s) <==> s.inFlight == 0
  {
    if 0 < s.inFlight {
      var s1 := Next(cfg, s, EndSuccess);
      var run: seq<Action> := [EndSuccess, Call(0)];
      assert run[0] == EndSuccess && run[1..] == [Call(0)];
      assert Admitted(cfg, s1, Call(0));
      assert LegalRun(cfg, s1, run[1..]) && AdmitsSomeCall(cfg, s1, run[1..]);
      assert LegalRun(cfg, s, run);
      assert AdmitsSomeCall(cfg, s, run);
    } else {
      forall run | LegalRun(cfg, s, run)
        ensures !AdmitsSomeCall(cfg, s, run)
      {
        IdleHalfOpenRejects(cfg, s, run);
      }
    }
  }
}
