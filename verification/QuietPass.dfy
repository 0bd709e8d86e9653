/**
 One reconcile pass that nobody disturbs, told from what it read and what its calls returned:
 every branch of the pass, and what it leaves in MQ, in the API server and in the queue.
 */
module QuietPass {
  import opened Options
  import opened Workload
  import opened Reconcile

  // What the pass meets: interference before its i-th call, and the results of the calls.
  datatype Inputs = Inputs(
    env: nat -> seq<Action>,
    getFails: bool,
    conn: ConnResult,
    clientErr: Option<Err>,
    formatErr: Option<Err>,
    getErr: Option<Err>,
    defineErr: Option<Err>,
    effect: Option<nat>,
    deleteErr: Option<Err>,
    removed: bool,
    outcome: nat -> WriteOutcome)
  {
    ghost predicate Valid() {
      forall i: nat :: OnlyEnv(env(i))
    }

    // Nobody interferes while the pass runs.
    ghost predicate Quiet() {
      forall i: nat :: env(i) == []
    }
  }

  ghost predicate OnlyEnv(actions: seq<Action>) {
    forall j :: 0 <= j < |actions| ==> IsEnv(actions[j])
  }

  /* ---------- the pass as one run of the machine ---------- */

  // Every call a pass may make, in order. The machine ignores those that are not due.
  function Approach(x: Inputs): seq<Action> {
    [ConnRead(x.conn), ClientBuilt(x.clientErr, x.formatErr)]
  }

  function Command(x: Inputs): seq<Action> {
    [Observed(x.getErr), DefineDone(x.defineErr, x.effect)]
  }

  function Conclusion(x: Inputs): seq<Action> {
    [Write(x.outcome(0)), DeleteDone(x.deleteErr, x.removed), Write(x.outcome(1))]
  }

  // After the object has been read.
  function Rest(x: Inputs): seq<Action> {
    Approach(x) + (Command(x) + Conclusion(x))
  }

  function Script(x: Inputs): seq<Action> {
    [Begin(x.getFails)] + Rest(x)
  }

  // The same as functions: up to the client, to the command, and to the end.
  ghost function Approached(s: World, kind: Kind, drifts: (nat, nat) -> bool, x: Inputs): World
    requires Sane(s)
  {
    Next(Next(s, kind, drifts, ConnRead(x.conn)), kind, drifts, ClientBuilt(x.clientErr, x.formatErr))
  }

  ghost function Commanded(s: World, kind: Kind, drifts: (nat, nat) -> bool, x: Inputs): World
    requires Sane(s)
  {
    Next(Next(s, kind, drifts, Observed(x.getErr)), kind, drifts, DefineDone(x.defineErr, x.effect))
  }

  ghost function Concluded(s: World, kind: Kind, drifts: (nat, nat) -> bool, x: Inputs): World
    requires Sane(s)
  {
    Next(Next(Next(s, kind, drifts, Write(x.outcome(0))), kind, drifts, DeleteDone(x.deleteErr, x.removed)),
         kind, drifts, Write(x.outcome(1)))
  }

  ghost function Passed(s: World, kind: Kind, drifts: (nat, nat) -> bool, x: Inputs): World
    requires Sane(s)
  {
    Concluded(Commanded(Approached(Next(s, kind, drifts, Begin(x.getFails)), kind, drifts, x), kind, drifts, x), kind, drifts, x)
  }

  lemma RunTwo(s: World, kind: Kind, drifts: (nat, nat) -> bool, a: Action, b: Action)
    requires Sane(s)
    ensures Run(s, kind, drifts, [a, b]) == Next(Next(s, kind, drifts, a), kind, drifts, b)
  {
    RunOneMore(s, kind, drifts, [], a);
    RunOneMore(s, kind, drifts, [a], b);
    assert [] + [a] == [a] && [a] + [b] == [a, b];
  }

  lemma RunsBegin(s: World, kind: Kind, drifts: (nat, nat) -> bool, x: Inputs)
    requires Sane(s)
    ensures Run(s, kind, drifts, [Begin(x.getFails)]) == Next(s, kind, drifts, Begin(x.getFails))
  {
    RunOneMore(s, kind, drifts, [], Begin(x.getFails));
    assert [] + [Begin(x.getFails)] == [Begin(x.getFails)];
  }

  lemma RunsConclusion(s: World, kind: Kind, drifts: (nat, nat) -> bool, x: Inputs)
    requires Sane(s)
    ensures Run(s, kind, drifts, Conclusion(x)) == Concluded(s, kind, drifts, x)
  {
    var a := Conclusion(x);
    RunTwo(s, kind, drifts, a[0], a[1]);
    assert a == [a[0], a[1]] + [a[2]];
    RunOneMore(s, kind, drifts, [a[0], a[1]], a[2]);
  }

  lemma PassedIsRun(s: World, kind: Kind, drifts: (nat, nat) -> bool, x: Inputs)
    requires Sane(s)
    ensures Passed(s, kind, drifts, x) == Run(s, kind, drifts, Script(x))
  {
    var begun := Next(s, kind, drifts, Begin(x.getFails));
    var near := Approached(begun, kind, drifts, x);
    var done := Commanded(near, kind, drifts, x);
    RunsBegin(s, kind, drifts, x);
    RunTwo(begun, kind, drifts, Approach(x)[0], Approach(x)[1]);
    RunTwo(near, kind, drifts, Command(x)[0], Command(x)[1]);
    RunsConclusion(done, kind, drifts, x);
    RunOn(s, kind, drifts, [Begin(x.getFails)], Rest(x));
    RunOn(begun, kind, drifts, Approach(x), Command(x) + Conclusion(x));
    RunOn(near, kind, drifts, Command(x), Conclusion(x));
  }

  // Stretches that are not due change nothing.
  lemma NothingToApproach(s: World, kind: Kind, drifts: (nat, nat) -> bool, x: Inputs)
    requires Sane(s) && !s.w.pc.ReadConn? && !s.w.pc.GetClient?
    ensures Approached(s, kind, drifts, x) == s
  {
  }

  lemma NothingToCommand(s: World, kind: Kind, drifts: (nat, nat) -> bool, x: Inputs)
    requires Sane(s) && !s.w.pc.ObserveMq? && !s.w.pc.Define?
    ensures Commanded(s, kind, drifts, x) == s
  {
  }

  lemma NothingToConclude(s: World, kind: Kind, drifts: (nat, nat) -> bool, x: Inputs)
    requires Sane(s) && s.w.pc.Idle?
    ensures Concluded(s, kind, drifts, x) == s
  {
  }

  // A write after which the pass is over.
  lemma LastWrite(s: World, kind: Kind, drifts: (nat, nat) -> bool, x: Inputs)
    requires Sane(s) && WriteAny(s, x.outcome(0)).w.pc.Idle?
    ensures Concluded(s, kind, drifts, x) == WriteAny(s, x.outcome(0))
  {
  }

  /* ---------- the code's way through the script ---------- */

  // Where nothing is left to approach or command.
  lemma SkipsToConclusion(s: World, kind: Kind, drifts: (nat, nat) -> bool, x: Inputs)
    requires Sane(s) && !s.w.pc.ReadConn? && !s.w.pc.GetClient? && !s.w.pc.ObserveMq? && !s.w.pc.Define?
    ensures Run(s, kind, drifts, Rest(x)) == Run(s, kind, drifts, Conclusion(x))
    ensures Run(s, kind, drifts, Command(x) + Conclusion(x)) == Run(s, kind, drifts, Conclusion(x))
  {
    NothingToApproach(s, kind, drifts, x);
    NothingToCommand(s, kind, drifts, x);
    RunTwo(s, kind, drifts, Approach(x)[0], Approach(x)[1]);
    RunTwo(s, kind, drifts, Command(x)[0], Command(x)[1]);
    RunOn(s, kind, drifts, Approach(x), Command(x) + Conclusion(x));
    RunOn(s, kind, drifts, Command(x), Conclusion(x));
  }

  lemma EndsWithWrite(s: World, kind: Kind, drifts: (nat, nat) -> bool, x: Inputs, t: World)
    requires Sane(s) && t == WriteAny(s, x.outcome(0)) && t.w.pc.Idle?
    ensures Run(s, kind, drifts, Conclusion(x)) == t
  {
    RunsConclusion(s, kind, drifts, x);
    LastWrite(s, kind, drifts, x);
  }

  lemma EndsAlready(s: World, kind: Kind, drifts: (nat, nat) -> bool, x: Inputs)
    requires Sane(s) && s.w.pc.Idle?
    ensures Run(s, kind, drifts, Conclusion(x)) == s
  {
    RunsConclusion(s, kind, drifts, x);
    NothingToConclude(s, kind, drifts, x);
  }

  lemma EndsWithTwoWrites(s: World, kind: Kind, drifts: (nat, nat) -> bool, x: Inputs, s1: World, t: World)
    requires Sane(s) && s1 == WriteAny(s, x.outcome(0)) && s1.w.pc.RemoveFinalizer? && t == WriteAny(s1, x.outcome(1))
    ensures Run(s, kind, drifts, Conclusion(x)) == t
  {
    RunsConclusion(s, kind, drifts, x);
  }

  lemma EndsWithDeletion(s: World, kind: Kind, drifts: (nat, nat) -> bool, x: Inputs, s1: World, s2: World, t: World)
    requires Sane(s) && s1 == WriteAny(s, x.outcome(0)) && Sane(s1)
    requires s2 == Next(s1, kind, drifts, DeleteDone(x.deleteErr, x.removed)) && t == WriteAny(s2, x.outcome(1))
    ensures Run(s, kind, drifts, Conclusion(x)) == t
  {
    RunsConclusion(s, kind, drifts, x);
  }

  // The approach may end at the connection.
  lemma ApproachEnds(s: World, kind: Kind, drifts: (nat, nat) -> bool, x: Inputs, t: World)
    requires Sane(s) && t == Next(s, kind, drifts, ConnRead(x.conn)) && !t.w.pc.GetClient?
    ensures Run(s, kind, drifts, Rest(x)) == Run(t, kind, drifts, Command(x) + Conclusion(x))
  {
    RunTwo(s, kind, drifts, Approach(x)[0], Approach(x)[1]);
    assert Next(t, kind, drifts, Approach(x)[1]) == t;
    RunOn(s, kind, drifts, Approach(x), Command(x) + Conclusion(x));
  }

  lemma ApproachGoesOn(s: World, kind: Kind, drifts: (nat, nat) -> bool, x: Inputs, s1: World, t: World)
    requires Sane(s) && s1 == Next(s, kind, drifts, ConnRead(x.conn))
    requires t == Next(s1, kind, drifts, ClientBuilt(x.clientErr, x.formatErr))
    ensures Run(s, kind, drifts, Rest(x)) == Run(t, kind, drifts, Command(x) + Conclusion(x))
  {
    RunTwo(s, kind, drifts, Approach(x)[0], Approach(x)[1]);
    RunOn(s, kind, drifts, Approach(x), Command(x) + Conclusion(x));
  }

  lemma NoCommand(s: World, kind: Kind, drifts: (nat, nat) -> bool, x: Inputs, t: World)
    requires Sane(s) && t == Next(s, kind, drifts, Observed(x.getErr)) && !t.w.pc.Define?
    ensures Run(s, kind, drifts, Command(x) + Conclusion(x)) == Run(t, kind, drifts, Conclusion(x))
  {
    RunTwo(s, kind, drifts, Command(x)[0], Command(x)[1]);
    assert Next(t, kind, drifts, Command(x)[1]) == t;
    RunOn(s, kind, drifts, Command(x), Conclusion(x));
  }

  lemma OneCommand(s: World, kind: Kind, drifts: (nat, nat) -> bool, x: Inputs, s1: World, t: World)
    requires Sane(s) && s1 == Next(s, kind, drifts, Observed(x.getErr))
    requires t == Next(s1, kind, drifts, DefineDone(x.defineErr, x.effect))
    ensures Run(s, kind, drifts, Command(x) + Conclusion(x)) == Run(t, kind, drifts, Conclusion(x))
  {
    RunTwo(s, kind, drifts, Command(x)[0], Command(x)[1]);
    RunOn(s, kind, drifts, Command(x), Conclusion(x));
  }

  /* ---------- what it leaves ---------- */

  // The key is queued, nothing runs, and the cache has seen everything.
  ghost predicate Ready(s: World, o: Obj) {
    && Sane(s) && s.w.pc.Idle? && s.queued && s.seen == |s.history| - 1
    && Latest(s) == Live(o) && Persisted(o) == Live(o)
  }

  // The reads and writes of the pass succeed.
  predicate Smooth(x: Inputs) {
    !x.getFails && x.outcome(0) == Acknowledged && x.outcome(1) == Acknowledged
  }

  // A finished pass: the versions it added, the commands it sent, the MQ object after it, and
  // whether another pass was asked for.
  ghost predicate Leaves(s: World, t: World, added: seq<Version>, sent: seq<MqOp>, mq: Option<nat>, queued: bool) {
    && t.w.pc.Idle? && t.seen == s.seen && t.history == s.history + added && t.log == s.log + sent
    && t.mq == mq && t.queued == queued
  }

  function Condition(o: Obj, reason: Reason): Obj {
    o.(reason := reason, reasonGen := o.generation)
  }

  function ErrorReason(e: Err): Reason {
    if e == Terminal then TerminalError else OtherError
  }

  // The pass has read o and stands at pc.
  function Working(s: World, o: Obj, pc: Pc): World {
    s.(queued := false, w := Worker(pc, s.seen, s.seen, o))
  }

  lemma BeginIs(s: World, kind: Kind, drifts: (nat, nat) -> bool, x: Inputs, o: Obj)
    requires Ready(s, o) && Smooth(x)
    ensures Next(s, kind, drifts, Begin(x.getFails)) == Working(s, o, Dispatch(o))
  {
  }

  lemma ApproachIs(s: World, kind: Kind, drifts: (nat, nat) -> bool, x: Inputs, o: Obj)
    requires Sane(s)
    ensures Approached(Working(s, o, ReadConn), kind, drifts, x) ==
            Working(s, o, if x.conn.ConnReady? then AfterClient(o, x.clientErr, x.formatErr) else AfterConn(o, x.conn))
  {
  }

  lemma CommandIs(s: World, kind: Kind, drifts: (nat, nat) -> bool, x: Inputs, o: Obj)
    requires Sane(s)
    ensures Commanded(Working(s, o, ObserveMq), kind, drifts, x) ==
            var pc := AfterObserve(kind, drifts, o, s.mq, x.getErr);
            if pc.Define? then DefineStep(Working(s, o, pc), pc.observed, x.defineErr, x.effect) else Working(s, o, pc)
  {
  }

  // Writing a condition that ends the pass.
  lemma ReportIs(s: World, kind: Kind, drifts: (nat, nat) -> bool, x: Inputs, o: Obj, patch: Patch, last: Then)
    requires Sane(s) && s.seen == |s.history| - 1 && Persisted(o) == Live(o) && Smooth(x)
    requires last == EndQuiet || last == EndRequeue
    ensures Leaves(s, Concluded(Working(s, o, WriteStatus(patch, last)), kind, drifts, x),
                   [Live(Patched(o, patch))], [], s.mq, last == EndRequeue)
  {
    LastWrite(Working(s, o, WriteStatus(patch, last)), kind, drifts, x);
  }

  // A pass that has nothing to command.
  lemma UncommandedIs(s: World, kind: Kind, drifts: (nat, nat) -> bool, x: Inputs, o: Obj, pc: Pc)
    requires Ready(s, o) && Smooth(x) && !pc.ObserveMq? && !pc.Define? && !pc.ReadConn? && !pc.GetClient?
    requires || Dispatch(o) == pc
             || (Dispatch(o) == ReadConn
                 && pc == if x.conn.ConnReady? then AfterClient(o, x.clientErr, x.formatErr) else AfterConn(o, x.conn))
    ensures Passed(s, kind, drifts, x) == Concluded(Working(s, o, pc), kind, drifts, x)
  {
    BeginIs(s, kind, drifts, x, o);
    if Dispatch(o) == ReadConn {
      ApproachIs(s, kind, drifts, x, o);
    } else {
      NothingToApproach(Working(s, o, pc), kind, drifts, x);
    }
    NothingToCommand(Working(s, o, pc), kind, drifts, x);
  }

  // A suspended resource is reported once, and nothing is asked of MQ.
  lemma SuspendedPass(s: World, kind: Kind, drifts: (nat, nat) -> bool, x: Inputs, o: Obj)
    requires Ready(s, o) && Smooth(x) && o.suspend
    ensures Leaves(s, Passed(s, kind, drifts, x),
                   if o.reason == Suspended && o.reasonGen == o.generation then [] else [Live(Condition(o, Suspended))],
                   [], s.mq, false)
  {
    UncommandedIs(s, kind, drifts, x, o, Dispatch(o));
    if AlreadySuspended(o) {
      NothingToConclude(Working(s, o, Idle), kind, drifts, x);
    } else {
      ReportIs(s, kind, drifts, x, o, Patch(Suspended, false), EndQuiet);
    }
  }

  // A deletion that is no longer ours to finish.
  lemma ForeignDeletionPass(s: World, kind: Kind, drifts: (nat, nat) -> bool, x: Inputs, o: Obj)
    requires Ready(s, o) && Smooth(x) && !o.suspend && o.deleting && !o.finalizer
    ensures Leaves(s, Passed(s, kind, drifts, x), [], [], s.mq, false)
  {
    UncommandedIs(s, kind, drifts, x, o, Dispatch(o));
    NothingToConclude(Working(s, o, Idle), kind, drifts, x);
  }

  // What removing the finalizer leaves of a deleted resource.
  function Released(o: Obj): Version {
    if o.foreign then Live(o.(finalizer := false)) else Gone(o.uid)
  }

  // A first condition, after which the pass goes on.
  lemma FirstWriteIs(s: World, o: Obj, reason: Reason, last: Then)
    requires Sane(s) && s.seen == |s.history| - 1 && o.finalizer
    ensures var q := Condition(o, reason);
            last != EndRequeue ==>
            WriteAny(Working(s, o, WriteStatus(Patch(reason, false), last)), Acknowledged) ==
            s.(history := s.history + [Live(q)], queued := false, w := Worker(AfterStatus(last), s.seen, |s.history|, q))
  {
  }

  // The last write of a deletion.
  lemma FinalizerGoes(s: World, q: Obj, start: nat)
    requires q.deleting && s.history != [] && s.w == Worker(RemoveFinalizer, start, |s.history| - 1, q)
    ensures WriteAny(s, Acknowledged) ==
            s.(history := s.history + [Released(q)], w := Worker(Idle, start, |s.history|, q.(finalizer := false)))
  {
  }

  // What happens in MQ between the two writes.
  lemma DeletionIs(s: World, kind: Kind, drifts: (nat, nat) -> bool, x: Inputs)
    requires Sane(s) && (s.w.pc.RemoveFinalizer? || (s.w.pc.DeleteMq? && x.deleteErr.None?))
    ensures Next(s, kind, drifts, DeleteDone(x.deleteErr, x.removed)) ==
            if s.w.pc.DeleteMq? then s.(mq := None, log := s.log + [Removed(s.w.copy.uid)], w := s.w.(pc := RemoveFinalizer)) else s
  {
  }

  // A condition, something in MQ, and the finalizer.
  lemma FinalWritesAre(s: World, kind: Kind, drifts: (nat, nat) -> bool, x: Inputs, o: Obj, reason: Reason, last: Then)
    requires Sane(s) && s.seen == |s.history| - 1 && Smooth(x) && o.deleting && o.finalizer
    requires last == ThenRemoveFinalizer || (last == ThenDeleteMq && x.deleteErr.None?)
    ensures var q := Condition(o, reason);
            Leaves(s, Concluded(Working(s, o, WriteStatus(Patch(reason, false), last)), kind, drifts, x),
                   [Live(q), Released(q)], if last == ThenDeleteMq then [Removed(o.uid)] else [],
                   if last == ThenDeleteMq then None else s.mq, false)
  {
    var q := Condition(o, reason);
    var s1 := s.(history := s.history + [Live(q)], queued := false, w := Worker(AfterStatus(last), s.seen, |s.history|, q));
    FirstWriteIs(s, o, reason, last);
    DeletionIs(s1, kind, drifts, x);
    FinalizerGoes(Next(s1, kind, drifts, DeleteDone(x.deleteErr, x.removed)), q, s.seen);
    assert s1.history + [Released(q)] == s.history + [Live(q), Released(q)];
  }

  // An orphan request gives the MQ object up untouched; either request is enough.
  lemma OrphanedPass(s: World, kind: Kind, drifts: (nat, nat) -> bool, x: Inputs, o: Obj)
    requires Ready(s, o) && Smooth(x) && !o.suspend && o.deleting && o.finalizer && (o.forceOrphan || o.orphanPolicy)
    ensures var q := Condition(o, Orphaned); Leaves(s, Passed(s, kind, drifts, x), [Live(q), Released(q)], [], s.mq, false)
  {
    UncommandedIs(s, kind, drifts, x, o, Dispatch(o));
    FinalWritesAre(s, kind, drifts, x, o, Orphaned, ThenRemoveFinalizer);
  }

  predicate ToBeDeleted(o: Obj) {
    !o.suspend && o.deleting && o.finalizer && !o.forceOrphan && !o.orphanPolicy
  }

  // Otherwise the MQ object is deleted, and then the finalizer goes.
  lemma DeletedPass(s: World, kind: Kind, drifts: (nat, nat) -> bool, x: Inputs, o: Obj)
    requires Ready(s, o) && Smooth(x) && ToBeDeleted(o) && x.conn.ConnReady? && x.clientErr.None? && x.deleteErr.None?
    ensures var q := Condition(o, Deleting);
            Leaves(s, Passed(s, kind, drifts, x), [Live(q), Released(q)], [Removed(o.uid)], None, false)
  {
    UncommandedIs(s, kind, drifts, x, o, WriteStatus(Patch(Deleting, false), ThenDeleteMq));
    FinalWritesAre(s, kind, drifts, x, o, Deleting, ThenDeleteMq);
  }

  lemma ErrorIsWritten(s: World, q: Obj, start: nat, e: Err)
    requires q.finalizer && s.history != [] && s.w == Worker(OnError(e), start, |s.history| - 1, q)
    ensures var t := WriteAny(s, Acknowledged);
            && t.w.pc.Idle? && t.history == s.history + [Live(Condition(q, ErrorReason(e)))]
            && t == s.(history := t.history, queued := s.queued || e != Terminal, w := t.w)
  {
  }

  lemma RefusedIs(s: World, kind: Kind, drifts: (nat, nat) -> bool, x: Inputs, o: Obj, e: Err)
    requires Sane(s) && s.seen == |s.history| - 1 && Smooth(x) && o.deleting && o.finalizer && x.deleteErr == Some(e)
    ensures var q := Condition(o, Deleting);
            Leaves(s, Concluded(Working(s, o, WriteStatus(Patch(Deleting, false), ThenDeleteMq)), kind, drifts, x),
                   [Live(q), Live(Condition(q, ErrorReason(e)))], [], if x.removed then None else s.mq, e != Terminal)
  {
    var q := Condition(o, Deleting);
    var s1 := s.(history := s.history + [Live(q)], queued := false, w := Worker(DeleteMq, s.seen, |s.history|, q));
    FirstWriteIs(s, o, Deleting, ThenDeleteMq);
    var s2 := s1.(mq := if x.removed then None else s.mq, w := s1.w.(pc := OnError(e)));
    assert Next(s1, kind, drifts, DeleteDone(x.deleteErr, x.removed)) == s2;
    ErrorIsWritten(s2, q, s.seen, e);
    assert s1.history + [Live(Condition(q, ErrorReason(e)))] == s.history + [Live(q), Live(Condition(q, ErrorReason(e)))];
  }

  // If MQ refuses, the finalizer stays and the error is reported.
  lemma DeleteFailedPass(s: World, kind: Kind, drifts: (nat, nat) -> bool, x: Inputs, o: Obj)
    requires Ready(s, o) && Smooth(x) && ToBeDeleted(o) && x.conn.ConnReady? && x.clientErr.None? && x.deleteErr.Some?
    ensures var q, e := Condition(o, Deleting), x.deleteErr.value;
            Leaves(s, Passed(s, kind, drifts, x), [Live(q), Live(Condition(q, ErrorReason(e)))], [],
                   if x.removed then None else s.mq, e != Terminal)
  {
    UncommandedIs(s, kind, drifts, x, o, WriteStatus(Patch(Deleting, false), ThenDeleteMq));
    RefusedIs(s, kind, drifts, x, o, x.deleteErr.value);
  }

  // Without a usable connection a deletion waits; so does a live resource whose connection is
  // not ready.
  lemma WaitingPass(s: World, kind: Kind, drifts: (nat, nat) -> bool, x: Inputs, o: Obj)
    requires Ready(s, o) && Smooth(x)
    requires || (ToBeDeleted(o) && (!x.conn.ConnReady? || x.clientErr.Some?))
             || (!o.suspend && !o.deleting && x.conn.ConnNotReady?)
    ensures Leaves(s, Passed(s, kind, drifts, x), [Live(Condition(o, Progressing))], [], s.mq, true)
  {
    UncommandedIs(s, kind, drifts, x, o, Waiting);
    ReportIs(s, kind, drifts, x, o, Patch(Progressing, false), EndRequeue);
  }

  // The error a live pass meets before it has looked at MQ. The format is known to be wrong
  // only once the finalizer is on.
  function EarlyError(o: Obj, x: Inputs): Option<Err> {
    if x.conn.ConnMissing? then Some(x.conn.err)
    else if x.clientErr.Some? then x.clientErr
    else if o.finalizer then x.formatErr
    else None
  }

  lemma EarlyErrorPass(s: World, kind: Kind, drifts: (nat, nat) -> bool, x: Inputs, o: Obj)
    requires Ready(s, o) && Smooth(x) && !o.suspend && !o.deleting && !x.conn.ConnNotReady? && EarlyError(o, x).Some?
    ensures var e := EarlyError(o, x).value;
            Leaves(s, Passed(s, kind, drifts, x), [Live(Condition(o, ErrorReason(e)))], [], s.mq, e != Terminal)
  {
    var e := EarlyError(o, x).value;
    UncommandedIs(s, kind, drifts, x, o, OnError(e));
    ReportIs(s, kind, drifts, x, o, Patch(ErrorReason(e), false), if e == Terminal then EndQuiet else EndRequeue);
  }

  lemma FinalizerIsAdded(s: World, o: Obj)
    requires Sane(s) && s.seen == |s.history| - 1 && !o.deleting
    ensures var q := o.(finalizer := true);
            WriteAny(Working(s, o, AddFinalizer), Acknowledged) ==
            s.(history := s.history + [Live(q)], queued := false, w := Worker(Idle, s.seen, |s.history|, q))
  {
  }

  // Before anything else the finalizer is put on.
  lemma FinalizerPass(s: World, kind: Kind, drifts: (nat, nat) -> bool, x: Inputs, o: Obj)
    requires Ready(s, o) && Smooth(x) && !o.suspend && !o.deleting && !o.finalizer && x.conn.ConnReady? && x.clientErr.None?
    ensures Leaves(s, Passed(s, kind, drifts, x), [Live(o.(finalizer := true))], [], s.mq, false)
  {
    UncommandedIs(s, kind, drifts, x, o, AddFinalizer);
    FinalizerIsAdded(s, o);
    LastWrite(Working(s, o, AddFinalizer), kind, drifts, x);
  }

  /* ---------- a pass that looks at MQ ---------- */

  ghost predicate Looks(s: World, x: Inputs, o: Obj) {
    && Ready(s, o) && Smooth(x) && !o.suspend && !o.deleting && o.finalizer
    && x.conn.ConnReady? && x.clientErr.None? && x.formatErr.None?
  }

  lemma LookedIs(s: World, kind: Kind, drifts: (nat, nat) -> bool, x: Inputs, o: Obj)
    requires Looks(s, x, o)
    ensures var pc := AfterObserve(kind, drifts, o, s.mq, x.getErr);
            Passed(s, kind, drifts, x) ==
            Concluded(if pc.Define? then DefineStep(Working(s, o, pc), pc.observed, x.defineErr, x.effect) else Working(s, o, pc),
                      kind, drifts, x)
  {
    BeginIs(s, kind, drifts, x, o);
    ApproachIs(s, kind, drifts, x, o);
    CommandIs(s, kind, drifts, x, o);
  }

  lemma UnreadablePass(s: World, kind: Kind, drifts: (nat, nat) -> bool, x: Inputs, o: Obj)
    requires Looks(s, x, o) && x.getErr.Some?
    ensures var e := x.getErr.value;
            Leaves(s, Passed(s, kind, drifts, x), [Live(Condition(o, ErrorReason(e)))], [], s.mq, e != Terminal)
  {
    var e := x.getErr.value;
    LookedIs(s, kind, drifts, x, o);
    ReportIs(s, kind, drifts, x, o, Patch(ErrorReason(e), false), if e == Terminal then EndQuiet else EndRequeue);
  }

  // The object is missing or drifts.
  ghost predicate Unsatisfied(drifts: (nat, nat) -> bool, o: Obj, mq: Option<nat>) {
    mq.None? || drifts(o.spec, mq.value)
  }

  // An object is there before the first sync that the policy does not let the resource have.
  ghost predicate Forbidden(drifts: (nat, nat) -> bool, o: Obj, mq: Option<nat>) {
    && o.observedGen == 0 && mq.Some?
    && (o.adoption == FailIfExists || (o.adoption == AdoptIfMatching && drifts(o.spec, mq.value)))
  }

  // What a pass that looks at MQ reports, unless it sends a command.
  ghost function Finding(kind: Kind, drifts: (nat, nat) -> bool, o: Obj, mq: Option<nat>): Reason {
    if Forbidden(drifts, o, mq) && !(kind == AttributeKind && o.observeOnly) then AdoptionBlocked
    else if Unsatisfied(drifts, o, mq) then DriftDetected
    else Available
  }

  // A command is sent exactly when the object is missing or drifts, the resource is not
  // observe-only and its policy lets it.
  ghost predicate Commands(drifts: (nat, nat) -> bool, o: Obj, mq: Option<nat>) {
    Unsatisfied(drifts, o, mq) && !o.observeOnly && !Forbidden(drifts, o, mq)
  }

  // A resource found in sync, or brought there, counts as synced at its generation.
  function Synced(o: Obj): Obj {
    Condition(o, Available).(observedGen := o.generation)
  }

  lemma FindingIs(kind: Kind, drifts: (nat, nat) -> bool, o: Obj, mq: Option<nat>)
    ensures AfterObserve(kind, drifts, o, mq, None) ==
      if Commands(drifts, o, mq) then Define(mq)
      else var reason := Finding(kind, drifts, o, mq); WriteStatus(Patch(reason, reason == Available), EndRequeue)
  {
  }

  lemma ReportedPass(s: World, kind: Kind, drifts: (nat, nat) -> bool, x: Inputs, o: Obj)
    requires Looks(s, x, o) && x.getErr.None? && !Commands(drifts, o, s.mq)
    ensures var reason := Finding(kind, drifts, o, s.mq);
            Leaves(s, Passed(s, kind, drifts, x), [Live(if reason == Available then Synced(o) else Condition(o, reason))],
                   [], s.mq, true)
  {
    var reason := Finding(kind, drifts, o, s.mq);
    LookedIs(s, kind, drifts, x, o);
    FindingIs(kind, drifts, o, s.mq);
    ReportIs(s, kind, drifts, x, o, Patch(reason, reason == Available), EndRequeue);
  }

  // What a command leaves in MQ.
  function Commanding(o: Obj, mq: Option<nat>, x: Inputs): Option<nat> {
    if x.effect.Some? then x.effect else if x.defineErr.None? then Some(o.spec) else mq
  }

  lemma DefineIs(s: World, o: Obj, observed: Option<nat>, x: Inputs)
    ensures DefineStep(Working(s, o, Define(observed)), observed, x.defineErr, x.effect) ==
            Working(s.(log := s.log + [Defined(o, observed)], mq := Commanding(o, s.mq, x)), o, AfterDefine(x.defineErr))
  {
  }

  // The report after a command.
  lemma DefinedReport(s: World, kind: Kind, drifts: (nat, nat) -> bool, x: Inputs, o: Obj)
    requires Sane(s) && s.seen == |s.history| - 1 && Persisted(o) == Live(o) && Smooth(x)
    ensures Leaves(s, Concluded(Working(s, o, AfterDefine(x.defineErr)), kind, drifts, x),
                   [Live(if x.defineErr.Some? then Condition(o, ErrorReason(x.defineErr.value)) else Synced(o))],
                   [], s.mq, x.defineErr != Some(Terminal))
  {
    match x.defineErr
    case Some(e) => ReportIs(s, kind, drifts, x, o, Patch(ErrorReason(e), false), if e == Terminal then EndQuiet else EndRequeue);
    case None => ReportIs(s, kind, drifts, x, o, Patch(Available, true), EndRequeue);
  }

  lemma CommandingPass(s: World, kind: Kind, drifts: (nat, nat) -> bool, x: Inputs, o: Obj)
    requires Looks(s, x, o) && x.getErr.None? && Commands(drifts, o, s.mq)
    ensures Leaves(s, Passed(s, kind, drifts, x),
                   [Live(if x.defineErr.Some? then Condition(o, ErrorReason(x.defineErr.value)) else Synced(o))],
                   [Defined(o, s.mq)], Commanding(o, s.mq, x), x.defineErr != Some(Terminal))
  {
    LookedIs(s, kind, drifts, x, o);
    FindingIs(kind, drifts, o, s.mq);
    DefineIs(s, o, s.mq, x);
    var s1 := s.(log := s.log + [Defined(o, s.mq)], mq := Commanding(o, s.mq, x));
    DefinedReport(s1, kind, drifts, x, o);
  }
}
