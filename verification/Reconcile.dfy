/**
 Runs of the workload controller. The API server is a history of object versions; writes are
 optimistic (they succeed only against the latest version) and may fail or lose their
 acknowledgement. The controller's cache lags behind by any amount but never goes back, and
 the cache is where passes read and where watch events come from. Users, other controllers and
 the queue manager act between any two steps of a pass. One pass runs at a time for the key.
 */
module Reconcile {
  import opened Options
  import opened Workload

  datatype Version = Live(obj: Obj) | Gone(uid: nat)

  datatype Err = Transient | Terminal | Unclassified

  datatype Patch = Patch(reason: Reason, observe: bool)

  // What follows a successful status write.
  datatype Then = EndQuiet | EndRequeue | ThenRemoveFinalizer | ThenDeleteMq

  datatype Pc =
    | Idle
    | ReadConn
    | GetClient
    | AddFinalizer
    | ObserveMq
    | Define(observed: Option<nat>)
    | WriteStatus(patch: Patch, after: Then)
    | DeleteMq
    | RemoveFinalizer

  // `start` is the version the pass read; `copy` its working copy, equal to version `base`.
  datatype Worker = Worker(pc: Pc, start: nat, base: nat, copy: Obj)

  // DEFINE or SET commands sent, with the object and the MQ state they were decided on, and
  // MQ deletions that succeeded.
  datatype MqOp = Defined(obj: Obj, observed: Option<nat>) | Removed(uid: nat)

  datatype World = World(
    history: seq<Version>,
    seen: nat,    // how far the controller's cache has got
    queued: bool, // the key is in the work queue, or will be when a timer or backoff ends
    mq: Option<nat>,
    log: seq<MqOp>,
    w: Worker)

  datatype ConnResult = ConnMissing(err: Err) | ConnNotReady | ConnReady

  datatype WriteOutcome = Acknowledged | Refused | Lost // Lost: applied, but an error is returned

  datatype Action =
    // the environment
    | Create(template: Obj)
    | EditSpec(suspend: bool, orphanPolicy: bool, adoption: Adoption, spec: nat)
    | EditMeta(forceOrphan: bool, observeOnly: bool, requestedAt: nat, foreign: bool)
    | DeleteObject
    | SetMq(mq: Option<nat>)
    | Deliver // the cache advances by one version
    | Enqueue // a timer fires or the connection's readiness changes
    // the pass
    | Begin(getFails: bool)
    | ConnRead(conn: ConnResult)
    | ClientBuilt(clientErr: Option<Err>, formatErr: Option<Err>)
    | Observed(getErr: Option<Err>)
    | DefineDone(defineErr: Option<Err>, effect: Option<nat>)
    | DeleteDone(deleteErr: Option<Err>, removed: bool)
    | Write(outcome: WriteOutcome)

  function Uid(v: Version): nat {
    match v
    case Live(o) => o.uid
    case Gone(u) => u
  }

  // An object that is being deleted and has no finalizers left is gone.
  function Persisted(o: Obj): Version {
    if o.deleting && !o.finalizer && !o.foreign then Gone(o.uid) else Live(o)
  }

  // workloadReconcilePredicates on one watch event.
  predicate Accepts(a: Version, b: Version) {
    match (a, b)
    case (Live(x), Live(y)) =>
      x.generation != y.generation || x.requestedAt != y.requestedAt
      || x.deleting != y.deleting || x.finalizer != y.finalizer || x.foreign != y.foreign
    case (Gone(_), Gone(_)) => false
    case (_, _) => true
  }

  predicate Sane(s: World) {
    s.seen < |s.history|
  }

  function Latest(s: World): Version
    requires Sane(s)
  {
    s.history[|s.history| - 1]
  }

  function Appended(s: World, v: Version): World {
    s.(history := s.history + [v])
  }

  function Ended(s: World, requeue: bool): World {
    s.(w := s.w.(pc := Idle), queued := s.queued || requeue)
  }

  function At(s: World, pc: Pc): World {
    s.(w := s.w.(pc := pc))
  }

  /* ---------- the environment ---------- */

  function Created(uid: nat, t: Obj): Obj {
    t.(uid := uid, generation := 1, deleting := false, observedGen := 0, reason := Unset, reasonGen := 0)
  }

  function EnvStep(s: World, a: Action): (s': World)
    requires Sane(s)
    ensures s.history <= s'.history && s.seen <= s'.seen < |s'.history|
  {
    match (a, Latest(s))
    case (Create(t), Gone(u)) => Appended(s, Live(Created(u + 1, t)))
    case (EditSpec(suspend, orphanPolicy, adoption, spec), Live(x)) =>
      Appended(s, Live(x.(generation := x.generation + 1, suspend := suspend, orphanPolicy := orphanPolicy,
                          adoption := adoption, spec := spec)))
    case (EditMeta(forceOrphan, observeOnly, requestedAt, foreign), Live(x)) =>
      Appended(s, Persisted(x.(forceOrphan := forceOrphan, observeOnly := observeOnly, requestedAt := requestedAt,
                               foreign := foreign && (x.foreign || !x.deleting))))
    case (DeleteObject, Live(x)) =>
      if x.deleting then s
      else if x.finalizer || x.foreign then Appended(s, Live(x.(deleting := true, generation := x.generation + 1)))
      else Appended(s, Gone(x.uid))
    case (SetMq(mq), _) => s.(mq := mq)
    case (Deliver, _) =>
      if s.seen + 1 < |s.history| then
        s.(seen := s.seen + 1, queued := s.queued || Accepts(s.history[s.seen], s.history[s.seen + 1]))
      else s
    case (Enqueue, _) => s.(queued := true)
    case (_, _) => s
  }

  /* ---------- the pass ---------- */

  // setSyncedError: terminal errors end quietly, all others are retried.
  function OnError(e: Err): Pc {
    match e
    case Terminal => WriteStatus(Patch(TerminalError, false), EndQuiet)
    case _ => WriteStatus(Patch(OtherError, false), EndRequeue)
  }

  const Waiting := WriteStatus(Patch(Progressing, false), EndRequeue)

  function Dispatch(o: Obj): Pc {
    if o.suspend then (if AlreadySuspended(o) then Idle else WriteStatus(Patch(Suspended, false), EndQuiet))
    else if !o.deleting then ReadConn
    else if !o.finalizer then Idle
    else if OrphanRequested(o) then WriteStatus(Patch(Orphaned, false), ThenRemoveFinalizer)
    else ReadConn
  }

  function BeginStep(s: World, getFails: bool): World
    requires Sane(s)
  {
    if !s.w.pc.Idle? || !s.queued then s
    else if getFails then s
    else match s.history[s.seen]
      case Gone(_) => s.(queued := false)
      case Live(o) => s.(queued := false, w := Worker(Dispatch(o), s.seen, s.seen, o))
  }

  // Where a pass goes after a call, told from the object and the result alone.
  function AfterConn(q: Obj, conn: ConnResult): Pc {
    match conn
    case ConnMissing(e) => if q.deleting then Waiting else OnError(e)
    case ConnNotReady => Waiting
    case ConnReady => GetClient
  }

  function AfterClient(q: Obj, clientErr: Option<Err>, formatErr: Option<Err>): Pc {
    if q.deleting then (if clientErr.Some? then Waiting else WriteStatus(Patch(Deleting, false), ThenDeleteMq))
    else if clientErr.Some? then OnError(clientErr.value)
    else if !q.finalizer then AddFinalizer
    else if formatErr.Some? then OnError(formatErr.value)
    else ObserveMq
  }

  // `drifts(spec, observed)` is the comparison of desired and observed MQ state.
  function AfterObserve(kind: Kind, drifts: (nat, nat) -> bool, q: Obj, observed: Option<nat>, getErr: Option<Err>): Pc {
    if getErr.Some? then OnError(getErr.value)
    else
      match Decide(kind, q, observed.Some?, observed.Some? && drifts(q.spec, observed.value))
      case Blocked => WriteStatus(Patch(AdoptionBlocked, false), EndRequeue)
      case Apply => Define(observed)
      case ReportDrift => WriteStatus(Patch(DriftDetected, false), EndRequeue)
      case InSync => WriteStatus(Patch(Available, true), EndRequeue)
  }

  function AfterDefine(defineErr: Option<Err>): Pc {
    if defineErr.Some? then OnError(defineErr.value) else WriteStatus(Patch(Available, true), EndRequeue)
  }

  function AfterDelete(deleteErr: Option<Err>): Pc {
    if deleteErr.Some? then OnError(deleteErr.value) else RemoveFinalizer
  }

  function ConnStep(s: World, conn: ConnResult): World {
    At(s, AfterConn(s.w.copy, conn))
  }

  function ClientStep(s: World, clientErr: Option<Err>, formatErr: Option<Err>): World {
    At(s, AfterClient(s.w.copy, clientErr, formatErr))
  }

  function ObserveStep(s: World, kind: Kind, drifts: (nat, nat) -> bool, getErr: Option<Err>): World {
    At(s, AfterObserve(kind, drifts, s.w.copy, s.mq, getErr))
  }

  // A failed DEFINE may or may not have taken effect; a successful one leaves an object.
  function DefineStep(s: World, observed: Option<nat>, defineErr: Option<Err>, effect: Option<nat>): World {
    var s1 := s.(log := s.log + [Defined(s.w.copy, observed)],
                 mq := if effect.Some? then effect else if defineErr.None? then Some(s.w.copy.spec) else s.mq);
    At(s1, AfterDefine(defineErr))
  }

  function DeleteStep(s: World, deleteErr: Option<Err>, removed: bool): World {
    var s1 := match deleteErr
      case Some(_) => s.(mq := if removed then None else s.mq)
      case None => s.(mq := None, log := s.log + [Removed(s.w.copy.uid)]);
    At(s1, AfterDelete(deleteErr))
  }

  // One optimistic write of `o`; on acknowledgement the working copy is refreshed.
  function WriteStep(s: World, o: Obj, outcome: WriteOutcome, pc: Pc, requeue: bool): (s': World)
    ensures s.history <= s'.history && s'.seen == s.seen
  {
    if outcome.Refused? || s.w.base + 1 != |s.history| then Ended(s, true)
    else
      var s1 := Appended(s, Persisted(o));
      if outcome.Lost? then Ended(s1, true)
      else s1.(w := Worker(pc, s.w.start, |s.history|, o), queued := s.queued || requeue)
  }

  function Patched(o: Obj, p: Patch): Obj {
    o.(reason := p.reason, reasonGen := o.generation, observedGen := if p.observe then o.generation else o.observedGen)
  }

  function AfterStatus(t: Then): Pc {
    match t
    case ThenRemoveFinalizer => RemoveFinalizer
    case ThenDeleteMq => DeleteMq
    case _ => Idle
  }

  function WriteAny(s: World, outcome: WriteOutcome): (s': World)
    ensures s.history <= s'.history && s'.seen == s.seen
  {
    match s.w.pc
    case WriteStatus(patch, t) => WriteStep(s, Patched(s.w.copy, patch), outcome, AfterStatus(t), t == EndRequeue)
    case AddFinalizer => WriteStep(s, s.w.copy.(finalizer := true), outcome, Idle, false)
    case RemoveFinalizer => WriteStep(s, s.w.copy.(finalizer := false), outcome, Idle, false)
    case _ => s
  }

  function PassStep(s: World, kind: Kind, drifts: (nat, nat) -> bool, a: Action): (s': World)
    requires Sane(s)
    ensures s.history <= s'.history && s'.seen == s.seen
  {
    match (a, s.w.pc)
    case (Begin(getFails), _) => BeginStep(s, getFails)
    case (ConnRead(conn), ReadConn) => ConnStep(s, conn)
    case (ClientBuilt(clientErr, formatErr), GetClient) => ClientStep(s, clientErr, formatErr)
    case (Observed(getErr), ObserveMq) => ObserveStep(s, kind, drifts, getErr)
    case (DefineDone(defineErr, effect), Define(observed)) => DefineStep(s, observed, defineErr, effect)
    case (DeleteDone(deleteErr, removed), DeleteMq) => DeleteStep(s, deleteErr, removed)
    case (Write(outcome), _) => WriteAny(s, outcome)
    case (_, _) => s
  }

  predicate IsEnv(a: Action) {
    a.Create? || a.EditSpec? || a.EditMeta? || a.DeleteObject? || a.SetMq? || a.Deliver? || a.Enqueue?
  }

  function Next(s: World, kind: Kind, drifts: (nat, nat) -> bool, a: Action): (s': World)
    requires Sane(s)
    ensures Sane(s') && s.history <= s'.history && s.seen <= s'.seen
  {
    if IsEnv(a) then EnvStep(s, a) else PassStep(s, kind, drifts, a)
  }

  ghost predicate Initial(s: World) {
    s.history == [Gone(0)] && s.seen == 0 && !s.queued && s.log == [] && s.w.pc == Idle
  }

  ghost function Run(s: World, kind: Kind, drifts: (nat, nat) -> bool, actions: seq<Action>): (s': World)
    requires Sane(s)
    ensures Sane(s') && s.history <= s'.history
  {
    if actions == [] then s
    else Next(Run(s, kind, drifts, actions[..|actions|-1]), kind, drifts, actions[|actions|-1])
  }

  lemma RunOneMore(s: World, kind: Kind, drifts: (nat, nat) -> bool, actions: seq<Action>, a: Action)
    requires Sane(s)
    ensures Run(s, kind, drifts, actions + [a]) == Next(Run(s, kind, drifts, actions), kind, drifts, a)
  {
    assert (actions + [a])[..|actions|] == actions;
  }

  lemma {:induction false} RunOn(s: World, kind: Kind, drifts: (nat, nat) -> bool, a: seq<Action>, b: seq<Action>)
    requires Sane(s)
    ensures Run(s, kind, drifts, a + b) == Run(Run(s, kind, drifts, a), kind, drifts, b)
    decreases |b|
  {
    if b == [] {
      assert a + b == a;
    } else {
      assert (a + b)[..|a + b|-1] == a + b[..|b|-1];
      RunOn(s, kind, drifts, a, b[..|b|-1]);
    }
  }
}
