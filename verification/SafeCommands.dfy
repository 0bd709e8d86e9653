/**
 Over every run: each MQ command was justified by a version of the resource that existed, and
 an MQ object that adoption protects is never redefined.
 */
module SafeCommands {
  import opened Options
  import opened Workload
  import opened Reconcile
  import opened NoLeak

  /* ---------- every command is justified ---------- */

  ghost predicate Drifted(drifts: (nat, nat) -> bool, o: Obj, observed: Option<nat>) {
    observed.Some? && drifts(o.spec, observed.value)
  }

  // A DEFINE was decided on a version that was neither suspended, deleting nor observe-only,
  // carried the finalizer, needed an update and was not blocked by its adoption policy. A
  // deletion was decided on a version being deleted without an orphan request.
  ghost predicate Justified(h: seq<Version>, drifts: (nat, nat) -> bool, op: MqOp) {
    match op
    case Defined(o, observed) =>
      && Live(o) in h && !o.suspend && !o.deleting && o.finalizer && !o.observeOnly
      && (observed.None? || Drifted(drifts, o, observed))
      && !AdoptionBlocks(o.adoption, FirstAdoption(o), observed.Some?, observed.None? || Drifted(drifts, o, observed))
    case Removed(u) =>
      exists o :: Live(o) in h && o.uid == u && o.deleting && !o.suspend && !o.forceOrphan && !o.orphanPolicy
  }

  ghost predicate HeadsForDelete(w: Worker) {
    w.copy.deleting && (w.pc.ReadConn? || w.pc.GetClient? || w.pc.DeleteMq? || (w.pc.WriteStatus? && w.pc.after.ThenDeleteMq?))
  }

  // What the pass has established on its working copy.
  ghost predicate PlanOk(w: Worker, drifts: (nat, nat) -> bool) {
    && (HeadsForDelete(w) ==> !OrphanRequested(w.copy))
    && (w.pc.Define? ==>
          && !w.copy.observeOnly
          && (w.pc.observed.None? || Drifted(drifts, w.copy, w.pc.observed))
          && !AdoptionBlocks(w.copy.adoption, FirstAdoption(w.copy), w.pc.observed.Some?,
                             w.pc.observed.None? || Drifted(drifts, w.copy, w.pc.observed)))
  }

  lemma ObservePlan(s: World, kind: Kind, drifts: (nat, nat) -> bool, getErr: Option<Err>)
    ensures PlanOk(ObserveStep(s, kind, drifts, getErr).w, drifts)
  {
  }

  lemma WritePlan(s: World, drifts: (nat, nat) -> bool, outcome: WriteOutcome)
    requires Sane(s) && PcOk(s) && PlanOk(s.w, drifts)
    ensures PlanOk(WriteAny(s, outcome).w, drifts)
  {
  }

  lemma OtherPlan(s: World, kind: Kind, drifts: (nat, nat) -> bool, a: Action)
    requires Sane(s) && PcOk(s) && PlanOk(s.w, drifts) && !IsEnv(a) && !a.Write? && !(a.Observed? && s.w.pc.ObserveMq?)
    ensures PlanOk(PassStep(s, kind, drifts, a).w, drifts)
  {
  }

  lemma PlanKept(s: World, kind: Kind, drifts: (nat, nat) -> bool, a: Action)
    requires Sane(s) && PcOk(s) && PlanOk(s.w, drifts)
    ensures PlanOk(Next(s, kind, drifts, a).w, drifts)
  {
    if IsEnv(a) {
      EnvKeepsWorker(s, a);
    } else if a.Observed? && s.w.pc.ObserveMq? {
      ObservePlan(s, kind, drifts, a.getErr);
    } else if a.Write? {
      WritePlan(s, drifts, a.outcome);
    } else {
      OtherPlan(s, kind, drifts, a);
    }
  }

  ghost predicate LogJustified(s: World, drifts: (nat, nat) -> bool) {
    forall i :: 0 <= i < |s.log| ==> Justified(s.history, drifts, s.log[i])
  }

  lemma JustifiedPersists(h: seq<Version>, g: seq<Version>, drifts: (nat, nat) -> bool, op: MqOp)
    requires Justified(h, drifts, op) && h <= g
    ensures Justified(g, drifts, op)
  {
    if op.Removed? {
      var o :| Live(o) in h && o.uid == op.uid && o.deleting && !o.suspend && !o.forceOrphan && !o.orphanPolicy;
      assert Live(o) in g;
    }
  }

  // What one step can add to the log.
  lemma LogMoves(s: World, kind: Kind, drifts: (nat, nat) -> bool, a: Action)
    requires Sane(s)
    ensures var s' := Next(s, kind, drifts, a);
            || s'.log == s.log
            || (s.w.pc.Define? && s'.log == s.log + [Defined(s.w.copy, s.w.pc.observed)])
            || (s.w.pc.DeleteMq? && s'.log == s.log + [Removed(s.w.copy.uid)])
  {
  }

  lemma PlannedCommandJustified(s: World, drifts: (nat, nat) -> bool)
    requires Sane(s) && PcOk(s) && PlanOk(s.w, drifts)
    ensures s.w.pc.Define? ==> Justified(s.history, drifts, Defined(s.w.copy, s.w.pc.observed))
    ensures s.w.pc.DeleteMq? ==> Justified(s.history, drifts, Removed(s.w.copy.uid))
  {
    if !s.w.pc.Idle? {
      assert Live(s.w.copy) in s.history;
    }
  }

  lemma {:induction false} CommandsJustified(s: World, kind: Kind, drifts: (nat, nat) -> bool, actions: seq<Action>)
    requires Initial(s)
    ensures LogJustified(Run(s, kind, drifts, actions), drifts)
    ensures PlanOk(Run(s, kind, drifts, actions).w, drifts)
  {
    if actions != [] {
      var t, a := Run(s, kind, drifts, actions[..|actions|-1]), actions[|actions|-1];
      CommandsJustified(s, kind, drifts, actions[..|actions|-1]);
      RunKeepsInv(s, kind, drifts, actions[..|actions|-1]);
      PlanKept(t, kind, drifts, a);
      LogMoves(t, kind, drifts, a);
      PlannedCommandJustified(t, drifts);
      var t' := Next(t, kind, drifts, a);
      forall i | 0 <= i < |t'.log|
        ensures Justified(t'.history, drifts, t'.log[i])
      {
        JustifiedPersists(t.history, t'.history, drifts, t'.log[i]);
      }
    }
  }

  /* ---------- adoption protects an object that was there before ---------- */

  // The version cannot take over the existing object. Where observe-only is tested before
  // the policy, it protects the object exactly while the object drifts.
  ghost predicate Refuses(kind: Kind, drifts: (nat, nat) -> bool, o: Obj, mq: nat) {
    if kind == AttributeKind && o.observeOnly then drifts(o.spec, mq)
    else o.adoption == FailIfExists || (drifts(o.spec, mq) && (o.adoption == AdoptIfMatching || o.observeOnly))
  }

  // Neither a command nor a report of being in sync is under way.
  ghost predicate Passive(pc: Pc) {
    !pc.Define? && (pc.WriteStatus? ==> !pc.patch.observe)
  }

  // What a pass does with an object it finds before its first sync, exactly.
  lemma StaysPassiveIff(s: World, kind: Kind, drifts: (nat, nat) -> bool)
    requires s.mq.Some? && FirstAdoption(s.w.copy)
    ensures Passive(ObserveStep(s, kind, drifts, None).w.pc) <==> Refuses(kind, drifts, s.w.copy, s.mq.value)
  {
  }

  // A version on which a pass gets as far as looking at MQ.
  predicate Active(o: Obj) {
    !o.suspend && !o.deleting && o.finalizer
  }

  // An MQ object is there and refused by every active version that a pass can still act on:
  // the one the running pass read, or the cached one, and all later ones.
  ghost predicate Protected(s: World, kind: Kind, drifts: (nat, nat) -> bool) {
    forall i :: Floor(s) <= i < |s.history| && s.history[i].Live? && Active(s.history[i].obj) ==>
      s.mq.Some? && Refuses(kind, drifts, s.history[i].obj, s.mq.value)
  }

  // The same, all along a run from where `before` has led.
  ghost predicate ProtectedAlong(s: World, kind: Kind, drifts: (nat, nat) -> bool, before: seq<Action>, actions: seq<Action>)
    requires Sane(s)
  {
    forall k :: 0 <= k <= |actions| ==> Protected(Run(s, kind, drifts, before + actions[..k]), kind, drifts)
  }

  // None of the versions that a pass can still act on counts as synced. Earlier versions and
  // earlier incarnations may.
  ghost predicate Unsynced(s: World) {
    && Passive(s.w.pc)
    && (forall i :: Floor(s) <= i < |s.history| && s.history[i].Live? ==> FirstAdoption(s.history[i].obj))
  }

  lemma ObserveStaysPassive(s: World, kind: Kind, drifts: (nat, nat) -> bool, getErr: Option<Err>)
    requires s.mq.Some? && FirstAdoption(s.w.copy) && Refuses(kind, drifts, s.w.copy, s.mq.value)
    ensures Passive(ObserveStep(s, kind, drifts, getErr).w.pc)
  {
    StaysPassiveIff(s, kind, drifts);
  }

  lemma OthersStayPassive(s: World, kind: Kind, drifts: (nat, nat) -> bool, a: Action)
    requires Sane(s) && Passive(s.w.pc) && !(a.Observed? && s.w.pc.ObserveMq?) && !IsEnv(a)
    ensures Passive(PassStep(s, kind, drifts, a).w.pc)
  {
  }

  lemma StaysPassive(s: World, kind: Kind, drifts: (nat, nat) -> bool, a: Action)
    requires Sane(s) && PcOk(s) && Unsynced(s) && Protected(s, kind, drifts)
    ensures Passive(Next(s, kind, drifts, a).w.pc)
  {
    if IsEnv(a) {
      EnvKeepsWorker(s, a);
    } else if a.Observed? && s.w.pc.ObserveMq? {
      assert s.history[s.w.base] == Live(s.w.copy) && Active(s.w.copy);
      ObserveStaysPassive(s, kind, drifts, a.getErr);
    } else {
      OthersStayPassive(s, kind, drifts, a);
    }
  }

  lemma EnvKeepsWorker(s: World, a: Action)
    requires Sane(s)
    ensures EnvStep(s, a).w == s.w && EnvStep(s, a).log == s.log
  {
  }

  // The versions that can still be acted on only move forward.
  lemma FloorGrows(s: World, kind: Kind, drifts: (nat, nat) -> bool, a: Action)
    requires Sane(s) && PcOk(s)
    ensures Floor(s) <= Floor(Next(s, kind, drifts, a)) && Floor(s) < |s.history|
  {
    if IsEnv(a) {
      EnvKeepsWorker(s, a);
    }
  }

  // At most one version is added, and it is one of these.
  ghost predicate Grows(h: seq<Version>, g: seq<Version>, ok: Obj -> bool) {
    g == h || (|g| == |h| + 1 && g[..|h|] == h && (g[|h|].Live? ==> ok(g[|h|].obj)))
  }

  lemma GrownAre(h: seq<Version>, g: seq<Version>, ok: Obj -> bool, from: nat, to: nat)
    requires Grows(h, g, ok) && from <= to && forall i :: from <= i < |h| && h[i].Live? ==> ok(h[i].obj)
    ensures forall i :: to <= i < |g| && g[i].Live? ==> ok(g[i].obj)
  {
    forall i | to <= i < |g| && g[i].Live?
      ensures ok(g[i].obj)
    {
      if i < |h| {
        assert g[i] == h[i];
      }
    }
  }

  // What a pass writes short of being in sync does not lead out of these objects.
  ghost predicate Closed(ok: Obj -> bool) {
    && (forall o, p: Patch :: ok(o) && !p.observe ==> ok(Patched(o, p)))
    && (forall o, b :: ok(o) ==> ok(WithFinalizer(o, b)))
  }

  function WithFinalizer(o: Obj, finalizer: bool): Obj {
    o.(finalizer := finalizer)
  }

  lemma EnvVersionUnsynced(s: World, a: Action)
    requires Sane(s) && (Latest(s).Live? ==> FirstAdoption(Latest(s).obj))
    ensures Grows(s.history, EnvStep(s, a).history, FirstAdoption)
  {
  }

  lemma OnlyWritesAddVersions(s: World, kind: Kind, drifts: (nat, nat) -> bool, a: Action)
    requires Sane(s) && !a.Write?
    ensures PassStep(s, kind, drifts, a).history == s.history
  {
  }

  lemma WriteGrows(s: World, o: Obj, outcome: WriteOutcome, pc: Pc, requeue: bool, ok: Obj -> bool)
    requires ok(o)
    ensures Grows(s.history, WriteStep(s, o, outcome, pc, requeue).history, ok)
  {
  }

  lemma PassGrows(s: World, kind: Kind, drifts: (nat, nat) -> bool, a: Action, ok: Obj -> bool)
    requires Sane(s) && !IsEnv(a) && Closed(ok) && (s.w.pc.Idle? || ok(s.w.copy)) && Passive(s.w.pc)
    ensures Grows(s.history, PassStep(s, kind, drifts, a).history, ok)
  {
    if !a.Write? {
      OnlyWritesAddVersions(s, kind, drifts, a);
    } else {
      match s.w.pc
      case WriteStatus(patch, t) =>
        WriteGrows(s, Patched(s.w.copy, patch), a.outcome, AfterStatus(t), t == EndRequeue, ok);
      case AddFinalizer => WriteGrows(s, WithFinalizer(s.w.copy, true), a.outcome, Idle, false, ok);
      case RemoveFinalizer => WriteGrows(s, WithFinalizer(s.w.copy, false), a.outcome, Idle, false, ok);
      case _ =>
    }
  }

  lemma VersionStaysUnsynced(s: World, kind: Kind, drifts: (nat, nat) -> bool, a: Action)
    requires Sane(s) && PcOk(s) && Unsynced(s)
    ensures Grows(s.history, Next(s, kind, drifts, a).history, FirstAdoption)
  {
    assert Floor(s) <= |s.history| - 1;
    if !s.w.pc.Idle? {
      assert s.history[s.w.base] == Live(s.w.copy);
    }
    if IsEnv(a) {
      EnvVersionUnsynced(s, a);
    } else {
      PassGrows(s, kind, drifts, a, FirstAdoption);
    }
  }

  lemma StaysUnsynced(s: World, kind: Kind, drifts: (nat, nat) -> bool, a: Action)
    requires Sane(s) && PcOk(s) && Unsynced(s) && Protected(s, kind, drifts)
    ensures Unsynced(Next(s, kind, drifts, a))
  {
    StaysPassive(s, kind, drifts, a);
    VersionStaysUnsynced(s, kind, drifts, a);
    FloorGrows(s, kind, drifts, a);
    var s' := Next(s, kind, drifts, a);
    GrownAre(s.history, s'.history, FirstAdoption, Floor(s), Floor(s'));
  }

  // The commands from the n-th on redefine nothing.
  ghost predicate NoDefineFrom(log: seq<MqOp>, n: nat) {
    n <= |log| && forall i :: n <= i < |log| ==> !log[i].Defined?
  }

  lemma NoDefineAdded(s: World, kind: Kind, drifts: (nat, nat) -> bool, a: Action, n: nat)
    requires Sane(s) && Passive(s.w.pc) && NoDefineFrom(s.log, n)
    ensures NoDefineFrom(Next(s, kind, drifts, a).log, n)
  {
    LogMoves(s, kind, drifts, a);
  }

  // From any reachable state in which nothing a pass can still act on is synced: while an MQ
  // object is there and each of those versions that is active refuses it, no command redefines
  // it and none of them becomes synced. Earlier incarnations may have been synced, the object
  // may have appeared at any time, and edits go on all the while.
  lemma {:induction false} ProtectedObjectNeverRedefined(
    s: World, kind: Kind, drifts: (nat, nat) -> bool, before: seq<Action>, actions: seq<Action>)
    requires Initial(s) && Unsynced(Run(s, kind, drifts, before))
    requires ProtectedAlong(s, kind, drifts, before, actions)
    ensures Unsynced(Run(s, kind, drifts, before + actions))
    ensures NoDefineFrom(Run(s, kind, drifts, before + actions).log, |Run(s, kind, drifts, before).log|)
    decreases |actions|
  {
    if actions == [] {
      assert before + actions == before;
    } else {
      var most, a := actions[..|actions|-1], actions[|actions|-1];
      assert before + actions == before + most + [a];
      ProtectedPrefix(s, kind, drifts, before, actions);
      ProtectedObjectNeverRedefined(s, kind, drifts, before, most);
      UnsyncedStep(s, kind, drifts, before + most, a, |Run(s, kind, drifts, before).log|);
    }
  }

  lemma UnsyncedStep(s: World, kind: Kind, drifts: (nat, nat) -> bool, most: seq<Action>, a: Action, n: nat)
    requires Initial(s) && Unsynced(Run(s, kind, drifts, most)) && Protected(Run(s, kind, drifts, most), kind, drifts)
    requires NoDefineFrom(Run(s, kind, drifts, most).log, n)
    ensures Unsynced(Run(s, kind, drifts, most + [a])) && NoDefineFrom(Run(s, kind, drifts, most + [a]).log, n)
  {
    RunKeepsInv(s, kind, drifts, most);
    StaysUnsynced(Run(s, kind, drifts, most), kind, drifts, a);
    NoDefineAdded(Run(s, kind, drifts, most), kind, drifts, a, n);
    RunOneMore(s, kind, drifts, most, a);
  }

  lemma ProtectedPrefix(s: World, kind: Kind, drifts: (nat, nat) -> bool, before: seq<Action>, actions: seq<Action>)
    requires Sane(s) && actions != [] && ProtectedAlong(s, kind, drifts, before, actions)
    ensures var most := actions[..|actions|-1];
            ProtectedAlong(s, kind, drifts, before, most) && Protected(Run(s, kind, drifts, before + most), kind, drifts)
  {
    var most := actions[..|actions|-1];
    assert forall k :: 0 <= k <= |most| ==> most[..k] == actions[..k];
    assert actions[..|most|] == most;
  }
}
