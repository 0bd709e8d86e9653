/**
 Over every run: no command defines an MQ object whose resource lacks the persisted finalizer,
 and a resource that is gone without an orphan request left no MQ object behind.
 */
module NoLeak {
  import opened Options
  import opened Workload
  import opened Reconcile

  /* ---------- what the history of versions keeps ---------- */

  // b may come after a: uids never go back, and within one incarnation deletion is final,
  // generations only grow and a generation fixes the spec.
  ghost predicate Follows(a: Version, b: Version) {
    && Uid(a) <= Uid(b)
    && (b.Live? ==> Persisted(b.obj) == b)
    && (Uid(a) == Uid(b) && a.Gone? ==> b.Gone?)
    && (Uid(a) == Uid(b) && a.Live? && b.Live? ==>
          && (a.obj.deleting ==> b.obj.deleting)
          && a.obj.generation <= b.obj.generation
          && (a.obj.generation == b.obj.generation ==>
                a.obj.suspend == b.obj.suspend && a.obj.spec == b.obj.spec
                && a.obj.orphanPolicy == b.obj.orphanPolicy && a.obj.adoption == b.obj.adoption))
  }

  ghost predicate Chain(h: seq<Version>) {
    forall i, j :: 0 <= i <= j < |h| ==> Follows(h[i], h[j])
  }

  lemma ChainGrows(h: seq<Version>, v: Version)
    requires Chain(h) && 0 < |h| && Follows(h[|h|-1], v) && Follows(v, v)
    ensures Chain(h + [v])
  {
    var g := h + [v];
    forall i, j | 0 <= i <= j < |g|
      ensures Follows(g[i], g[j])
    {
      if j == |h| && i < |h| {
        assert Follows(h[i], h[|h|-1]);
      }
    }
  }

  /* ---------- the finalizer outlives every version that a pass may still act on ---------- */

  ghost predicate Kept(v: Version, last: Version) {
    v.Live? && !v.obj.deleting && v.obj.finalizer ==> last.Live? && last.obj.uid == v.obj.uid && last.obj.finalizer
  }

  ghost predicate KeptFrom(h: seq<Version>, from: nat) {
    forall k :: from <= k < |h| ==> Kept(h[k], h[|h|-1])
  }

  ghost function Floor(s: World): nat {
    if s.w.pc.Idle? then s.seen else s.w.start
  }

  // A version on which a pass gives the MQ object up: being deleted with the finalizer still
  // on, not suspended, and asking to be orphaned. A request withdrawn before is not enough.
  ghost predicate GivesUp(o: Obj) {
    o.deleting && o.finalizer && !o.suspend && (o.forceOrphan || o.orphanPolicy)
  }

  ghost predicate OrphanEver(h: seq<Version>, u: nat) {
    exists k :: 0 <= k < |h| && h[k].Live? && h[k].obj.uid == u && GivesUp(h[k].obj)
  }

  // Some DEFINE for incarnation u has no successful deletion after it.
  ghost predicate Uncovered(log: seq<MqOp>, u: nat) {
    log != [] &&
    match log[|log|-1]
    case Defined(o, _) => o.uid == u || Uncovered(log[..|log|-1], u)
    case Removed(v) => v != u && Uncovered(log[..|log|-1], u)
  }

  /* ---------- where a pass can be ---------- */

  ghost predicate PcOk(s: World)
    requires Sane(s)
  {
    var w := s.w;
    !w.pc.Idle? ==>
      && w.start <= s.seen && w.start <= w.base < |s.history|
      && s.history[w.base] == Live(w.copy)
      && s.history[w.start].Live? && s.history[w.start].obj.uid == w.copy.uid
      && (!w.copy.deleting ==> w.base == w.start)
      && (w.copy.deleting && !w.copy.suspend ==> w.copy.finalizer && s.history[w.start].obj.deleting)
      && (w.pc.WriteStatus? && w.pc.patch.reason == Suspended ==> w.copy.suspend && w.pc.after == EndQuiet)
      && (!(w.pc.WriteStatus? && w.pc.patch.reason == Suspended) ==> !w.copy.suspend)
      && (w.pc.AddFinalizer? ==> !w.copy.deleting && !w.copy.finalizer)
      && (w.pc.ObserveMq? || w.pc.Define? ==> !w.copy.deleting && w.copy.finalizer)
      && (w.pc.DeleteMq? || w.pc.RemoveFinalizer? ==> w.copy.deleting)
      && (w.pc.WriteStatus? && (w.pc.after.ThenRemoveFinalizer? || w.pc.after.ThenDeleteMq?) ==> w.copy.deleting)
      && (w.pc.WriteStatus? && w.pc.after.ThenRemoveFinalizer? ==> OrphanEver(s.history, w.copy.uid))
      && (w.pc.RemoveFinalizer? ==> OrphanEver(s.history, w.copy.uid) || !Uncovered(s.log, w.copy.uid))
  }

  ghost predicate Covered(s: World)
    requires Sane(s)
  {
    forall u: nat :: Uncovered(s.log, u) ==>
      OrphanEver(s.history, u) || (Latest(s).Live? && Latest(s).obj.uid == u && Latest(s).obj.finalizer)
  }

  ghost predicate Inv(s: World) {
    && Sane(s)
    && Chain(s.history)
    && KeptFrom(s.history, Floor(s))
    && PcOk(s)
    && Covered(s)
  }

  /* ---------- preservation ---------- */

  // Appending a version that keeps the latest incarnation and its finalizer.
  lemma AppendKeeps(s: World, s': World, v: Version)
    requires Inv(s) && s'.history == s.history + [v] && Follows(Latest(s), v) && Follows(v, v)
    requires Latest(s).Live? && Latest(s).obj.finalizer ==>
               v.Live? && v.obj.uid == Latest(s).obj.uid && v.obj.finalizer
    requires Sane(s') && Floor(s) <= Floor(s') && s'.log == s.log
    ensures Chain(s'.history) && KeptFrom(s'.history, Floor(s')) && Covered(s')
  {
    ChainGrows(s.history, v);
    forall k | Floor(s') <= k < |s'.history|
      ensures Kept(s'.history[k], v)
    {
      if k < |s.history| {
        assert Kept(s.history[k], Latest(s));
      }
    }
    forall u: nat | Uncovered(s'.log, u)
      ensures OrphanEver(s'.history, u) || (v.Live? && v.obj.uid == u && v.obj.finalizer)
    {
      if OrphanEver(s.history, u) {
        OrphanPersists(s.history, v, u);
      }
    }
  }

  lemma OrphanPersists(h: seq<Version>, v: Version, u: nat)
    requires OrphanEver(h, u)
    ensures OrphanEver(h + [v], u)
  {
    var k :| 0 <= k < |h| && h[k].Live? && h[k].obj.uid == u && GivesUp(h[k].obj);
    assert (h + [v])[k] == h[k];
  }

  lemma WorkerKeptByAppend(s: World, s': World, v: Version)
    requires Inv(s) && s'.history == s.history + [v] && s'.w == s.w && s'.seen == s.seen && s'.log == s.log
    ensures PcOk(s')
  {
    if !s.w.pc.Idle? && OrphanEver(s.history, s.w.copy.uid) {
      OrphanPersists(s.history, v, s.w.copy.uid);
    }
  }

  // The environment leaves the pass alone and appends at most one version, which keeps the
  // incarnation and its finalizer.
  lemma EnvFollows(s: World, a: Action)
    requires Sane(s) && Follows(Latest(s), Latest(s))
    ensures var s' := EnvStep(s, a);
            && s'.w == s.w && s'.log == s.log
            && (s'.history == s.history
                || (|s'.history| == |s.history| + 1 && s'.seen == s.seen && Inherits(Latest(s), s'.history[|s.history|])))
  {
  }

  ghost predicate Inherits(x: Version, v: Version) {
    && Follows(x, v) && Follows(v, v)
    && (x.Live? && x.obj.finalizer ==> v.Live? && v.obj.uid == x.obj.uid && v.obj.finalizer)
  }

  lemma EnvPreserves(s: World, a: Action)
    requires Inv(s)
    ensures Inv(EnvStep(s, a))
  {
    var s' := EnvStep(s, a);
    assert Follows(Latest(s), Latest(s));
    EnvFollows(s, a);
    if |s'.history| > |s.history| {
      var v := s'.history[|s.history|];
      assert s'.history == s.history + [v];
      AppendKeeps(s, s', v);
      WorkerKeptByAppend(s, s', v);
    }
  }

  // Steps that only move the pass: nothing else changes.
  lemma MoveKeeps(s: World, s': World)
    requires Inv(s) && s'.history == s.history && s'.seen == s.seen && s'.log == s.log && PcOk(s')
    requires Floor(s) <= Floor(s')
    ensures Inv(s')
  {
  }

  lemma BeginPreserves(s: World, getFails: bool)
    requires Inv(s)
    ensures Inv(BeginStep(s, getFails))
  {
    var s' := BeginStep(s, getFails);
    if s'.w != s.w {
      var o := s.history[s.seen].obj;
      assert GivesUp(o) ==> OrphanEver(s.history, o.uid);
      MoveKeeps(s, s');
    }
  }

  lemma ConnPreserves(s: World, conn: ConnResult)
    requires Inv(s) && s.w.pc.ReadConn?
    ensures Inv(ConnStep(s, conn))
  {
    MoveKeeps(s, ConnStep(s, conn));
  }

  lemma ClientPreserves(s: World, clientErr: Option<Err>, formatErr: Option<Err>)
    requires Inv(s) && s.w.pc.GetClient?
    ensures Inv(ClientStep(s, clientErr, formatErr))
  {
    MoveKeeps(s, ClientStep(s, clientErr, formatErr));
  }

  lemma ObservePreserves(s: World, kind: Kind, drifts: (nat, nat) -> bool, getErr: Option<Err>)
    requires Inv(s) && s.w.pc.ObserveMq?
    ensures Inv(ObserveStep(s, kind, drifts, getErr))
  {
    MoveKeeps(s, ObserveStep(s, kind, drifts, getErr));
  }

  // The command goes out for the latest incarnation, which still has the finalizer.
  lemma DefinePreserves(s: World, observed: Option<nat>, defineErr: Option<Err>, effect: Option<nat>)
    requires Inv(s) && s.w.pc == Define(observed)
    ensures Inv(DefineStep(s, observed, defineErr, effect))
  {
    var s' := DefineStep(s, observed, defineErr, effect);
    assert Kept(s.history[s.w.start], Latest(s));
    assert s'.log[..|s.log|] == s.log;
  }

  lemma DeletePreserves(s: World, deleteErr: Option<Err>, removed: bool)
    requires Inv(s) && s.w.pc.DeleteMq?
    ensures Inv(DeleteStep(s, deleteErr, removed))
  {
    var s' := DeleteStep(s, deleteErr, removed);
    if deleteErr.None? {
      assert s'.log[..|s.log|] == s.log;
    }
  }

  // A refused write ends the pass.
  lemma RefusedPreserves(s: World)
    requires Inv(s)
    ensures Inv(Ended(s, true))
  {
    MoveKeeps(s, Ended(s, true));
  }

  lemma StatusWritePreserves(s: World, outcome: WriteOutcome)
    requires Inv(s) && s.w.pc.WriteStatus? && !outcome.Refused? && s.w.base + 1 == |s.history|
    ensures Inv(WriteAny(s, outcome))
  {
    var s' := WriteAny(s, outcome);
    var o := Patched(s.w.copy, s.w.pc.patch);
    assert Latest(s) == Live(s.w.copy) && Follows(Latest(s), Latest(s));
    AppendKeeps(s, s', Live(o));
    if OrphanEver(s.history, s.w.copy.uid) {
      OrphanPersists(s.history, Live(o), s.w.copy.uid);
    }
  }

  lemma AddFinalizerPreserves(s: World, outcome: WriteOutcome)
    requires Inv(s) && s.w.pc.AddFinalizer? && !outcome.Refused? && s.w.base + 1 == |s.history|
    ensures Inv(WriteAny(s, outcome))
  {
    var s' := WriteAny(s, outcome);
    assert Latest(s) == Live(s.w.copy) && Follows(Latest(s), Latest(s));
    AppendKeeps(s, s', Live(s.w.copy.(finalizer := true)));
  }

  // Removing the finalizer: every version a later pass can read is a deleting one.
  lemma RemoveFinalizerPreserves(s: World, outcome: WriteOutcome)
    requires Inv(s) && s.w.pc.RemoveFinalizer? && !outcome.Refused? && s.w.base + 1 == |s.history|
    ensures Inv(WriteAny(s, outcome))
  {
    var s' := WriteAny(s, outcome);
    var u, v := s.w.copy.uid, Persisted(s.w.copy.(finalizer := false));
    assert Latest(s) == Live(s.w.copy) && Follows(Latest(s), Latest(s));
    ChainGrows(s.history, v);
    assert s'.history == s.history + [v];
    forall k | s'.seen <= k < |s'.history|
      ensures Kept(s'.history[k], v)
    {
      if k < |s.history| {
        assert Follows(s.history[s.w.start], s.history[k]) && Follows(s.history[k], Latest(s));
      }
    }
    forall x: nat | Uncovered(s'.log, x)
      ensures OrphanEver(s'.history, x)
    {
      assert OrphanEver(s.history, x);
      OrphanPersists(s.history, v, x);
    }
  }

  lemma Preserved(s: World, kind: Kind, drifts: (nat, nat) -> bool, a: Action)
    requires Inv(s)
    ensures Inv(Next(s, kind, drifts, a))
  {
    if IsEnv(a) {
      EnvPreserves(s, a);
    } else {
      match (a, s.w.pc)
      case (Begin(getFails), _) => BeginPreserves(s, getFails);
      case (DefineDone(e, effect), Define(observed)) => DefinePreserves(s, observed, e, effect);
      case (DeleteDone(e, removed), DeleteMq) => DeletePreserves(s, e, removed);
      case (Write(outcome), pc) =>
        if pc.WriteStatus? || pc.AddFinalizer? || pc.RemoveFinalizer? {
          WritePreserves(s, outcome);
        }
      case (ConnRead(conn), ReadConn) => ConnPreserves(s, conn);
      case (ClientBuilt(clientErr, formatErr), GetClient) => ClientPreserves(s, clientErr, formatErr);
      case (Observed(getErr), ObserveMq) => ObservePreserves(s, kind, drifts, getErr);
      case (_, _) =>
    }
  }

  lemma WritePreserves(s: World, outcome: WriteOutcome)
    requires Inv(s) && (s.w.pc.WriteStatus? || s.w.pc.AddFinalizer? || s.w.pc.RemoveFinalizer?)
    ensures Inv(WriteAny(s, outcome))
  {
    if outcome.Refused? || s.w.base + 1 != |s.history| {
      RefusedPreserves(s);
    } else if s.w.pc.WriteStatus? {
      StatusWritePreserves(s, outcome);
    } else if s.w.pc.AddFinalizer? {
      AddFinalizerPreserves(s, outcome);
    } else {
      RemoveFinalizerPreserves(s, outcome);
    }
  }

  lemma {:induction false} RunKeepsInv(s: World, kind: Kind, drifts: (nat, nat) -> bool, actions: seq<Action>)
    requires Initial(s)
    ensures Inv(Run(s, kind, drifts, actions))
  {
    if actions != [] {
      RunKeepsInv(s, kind, drifts, actions[..|actions|-1]);
      Preserved(Run(s, kind, drifts, actions[..|actions|-1]), kind, drifts, actions[|actions|-1]);
    }
  }

  /* ---------- the theorems ---------- */

  lemma DefiningHasFinalizer(t: World)
    requires Inv(t) && t.w.pc.Define?
    ensures Latest(t).Live? && Latest(t).obj.uid == t.w.copy.uid && Latest(t).obj.finalizer
  {
    assert Kept(t.history[t.w.start], Latest(t));
  }

  // Whenever a pass is about to send its command, the resource it acts for is the current
  // incarnation and its finalizer is persisted, however stale the pass's copy is.
  lemma DefineOnlyWithFinalizer(s: World, kind: Kind, drifts: (nat, nat) -> bool, actions: seq<Action>)
    requires Initial(s) && Run(s, kind, drifts, actions).w.pc.Define?
    ensures var t := Run(s, kind, drifts, actions);
            Latest(t).Live? && Latest(t).obj.uid == t.w.copy.uid && Latest(t).obj.finalizer
  {
    RunKeepsInv(s, kind, drifts, actions);
    DefiningHasFinalizer(Run(s, kind, drifts, actions));
  }

  lemma {:induction false} CoveredMeansRemovedLater(log: seq<MqOp>, u: nat, i: nat)
    requires !Uncovered(log, u) && i < |log| && log[i].Defined? && log[i].obj.uid == u
    ensures exists j :: i < j < |log| && log[j] == Removed(u)
  {
    if log[|log|-1] != Removed(u) {
      var before := log[..|log|-1];
      CoveredMeansRemovedLater(before, u, i);
      var j :| i < j < |before| && before[j] == Removed(u);
      assert log[j] == Removed(u);
    } else {
      assert i < |log|-1 < |log| && log[|log|-1] == Removed(u);
    }
  }

  // In every run, with stale reads, conflicts, lost acknowledgements and MQ failures anywhere:
  // if incarnation u is gone and no version of it asked to be orphaned while it was being
  // deleted, every DEFINE sent for it was followed by a successful deletion.
  lemma GoneMeansDeleted(s: World, kind: Kind, drifts: (nat, nat) -> bool, actions: seq<Action>, u: nat, i: nat)
    requires Initial(s)
    requires var t := Run(s, kind, drifts, actions);
             && (Latest(t) == Gone(u) || u < Uid(Latest(t))) && !OrphanEver(t.history, u)
             && i < |t.log| && t.log[i].Defined? && t.log[i].obj.uid == u
    ensures var t := Run(s, kind, drifts, actions);
            exists j :: i < j < |t.log| && t.log[j] == Removed(u)
  {
    RunKeepsInv(s, kind, drifts, actions);
    CoveredMeansRemovedLater(Run(s, kind, drifts, actions).log, u, i);
  }
}
