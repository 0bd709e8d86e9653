/**
 Over every run: a pass never ends with the resource unsynced and nothing left to trigger
 another pass.
 */
module NoWedge {
  import opened Workload
  import opened Reconcile
  import opened NoLeak

  // States in which no further pass is owed: gone, deletion no longer ours to finish,
  // suspended, or a terminal error reported for this very generation.
  ghost predicate Resting(v: Version) {
    v.Live? ==>
      || (v.obj.deleting && !v.obj.finalizer)
      || (v.obj.suspend && AlreadySuspended(v.obj))
      || (v.obj.reason == TerminalError && v.obj.reasonGen == v.obj.generation)
  }

  // Some event past version `from` passes the watch predicate.
  ghost predicate Changed(h: seq<Version>, from: nat) {
    exists j :: from < j < |h| && Accepts(h[j-1], h[j])
  }

  // The ends of a pass that write nothing.
  ghost predicate SilentlyDone(v: Version) {
    v.Live? ==> (v.obj.deleting && !v.obj.finalizer) || (v.obj.suspend && AlreadySuspended(v.obj))
  }

  // An event the predicate rejects does not undo a Suspended condition.
  ghost predicate SuspendStable(h: seq<Version>) {
    forall k :: 0 < k < |h| && h[k-1].Live? && h[k].Live? && !Accepts(h[k-1], h[k]) ==>
      (h[k-1].obj.suspend && AlreadySuspended(h[k-1].obj) ==> h[k].obj.suspend && AlreadySuspended(h[k].obj))
  }

  ghost predicate QuietEnds(w: Worker) {
    && (w.pc.WriteStatus? && w.pc.after == EndQuiet ==> w.pc.patch.reason == Suspended || w.pc.patch.reason == TerminalError)
    && (w.pc.WriteStatus? && w.pc.patch.reason == Suspended ==> !AlreadySuspended(w.copy))
  }

  ghost predicate Owed(s: World)
    requires Sane(s)
  {
    if s.w.pc.Idle? then s.queued || Changed(s.history, s.seen) || Resting(Latest(s))
    else Changed(s.history, s.w.start) ==> s.queued || Changed(s.history, s.seen)
  }

  ghost predicate Steady(s: World) {
    && Sane(s) && SuspendStable(s.history) && QuietEnds(s.w) && Owed(s)
  }

  lemma {:induction false} SilentlyDonePersists(h: seq<Version>, from: nat, to: nat)
    requires from <= to < |h| && SuspendStable(h)
    requires forall j :: from < j <= to ==> !Accepts(h[j-1], h[j])
    requires SilentlyDone(h[from])
    ensures SilentlyDone(h[to])
  {
    if from < to {
      SilentlyDonePersists(h, from, to - 1);
      assert !Accepts(h[to-1], h[to]);
    }
  }

  lemma AppendChanged(h: seq<Version>, v: Version, from: nat)
    requires from < |h|
    ensures Changed(h + [v], from) <==> Changed(h, from) || Accepts(h[|h|-1], v)
  {
    var g := h + [v];
    if Changed(h, from) {
      var j :| from < j < |h| && Accepts(h[j-1], h[j]);
      assert g[j-1] == h[j-1] && g[j] == h[j];
    }
    if Accepts(h[|h|-1], v) {
      assert g[|h|-1] == h[|h|-1] && g[|h|] == v;
      assert Accepts(g[|h|-1], g[|h|]);
    }
    if Changed(g, from) {
      var j :| from < j < |g| && Accepts(g[j-1], g[j]);
      if j < |h| {
        assert Accepts(h[j-1], h[j]);
      }
    }
  }

  lemma SuspendStableGrows(h: seq<Version>, v: Version)
    requires SuspendStable(h) && 0 < |h|
    requires h[|h|-1].Live? && v.Live? && h[|h|-1].obj.suspend && AlreadySuspended(h[|h|-1].obj) && !Accepts(h[|h|-1], v)
             ==> v.obj.suspend && AlreadySuspended(v.obj)
    ensures SuspendStable(h + [v])
  {
  }

  // A new version while the pass, if any, stays where it is.
  lemma AppendOwed(s: World, s': World, v: Version)
    requires Sane(s) && Sane(s') && Owed(s) && (!s.w.pc.Idle? ==> s.w.start < |s.history|)
    requires s'.history == s.history + [v] && s'.seen == s.seen && s'.queued == s.queued && s'.w == s.w
    requires Resting(Latest(s)) ==> Accepts(Latest(s), v) || Resting(v)
    ensures Owed(s')
  {
    AppendChanged(s.history, v, s.seen);
    if !s.w.pc.Idle? {
      AppendChanged(s.history, v, s.w.start);
    }
  }

  lemma EnvKeeps(s: World, a: Action)
    requires Steady(s) && IsEnv(a) && PcOk(s)
    ensures Steady(EnvStep(s, a))
  {
    var s' := EnvStep(s, a);
    if |s'.history| > |s.history| {
      var v := s'.history[|s.history|];
      assert s'.history == s.history + [v];
      SuspendStableGrows(s.history, v);
      AppendOwed(s, s', v);
    } else if a.Deliver? && s'.seen != s.seen {
      DeliverOwed(s.history, s.seen, s.queued);
    }
  }

  // Moving the cache on by one either queues the key or leaves the accepted event ahead.
  lemma DeliverOwed(h: seq<Version>, seen: nat, queued: bool)
    requires seen + 1 < |h|
    ensures queued || Changed(h, seen) ==> queued || Accepts(h[seen], h[seen + 1]) || Changed(h, seen + 1)
  {
    if Changed(h, seen) {
      var j :| seen < j < |h| && Accepts(h[j-1], h[j]);
      if j != seen + 1 {
        assert seen + 1 < j < |h| && Accepts(h[j-1], h[j]);
      }
    }
  }

  lemma BeginKeeps(s: World, getFails: bool)
    requires Steady(s)
    ensures Steady(BeginStep(s, getFails))
  {
    var s' := BeginStep(s, getFails);
    if s.w.pc.Idle? && s.queued && !getFails && s'.w.pc.Idle? && !Changed(s.history, s.seen) {
      SilentlyDonePersists(s.history, s.seen, |s.history| - 1);
    }
  }

  lemma InsideKeeps(s: World, kind: Kind, drifts: (nat, nat) -> bool, a: Action)
    requires Steady(s) && !IsEnv(a) && !a.Begin? && !a.Write?
    ensures Steady(PassStep(s, kind, drifts, a))
  {
    var s' := PassStep(s, kind, drifts, a);
    assert s'.history == s.history && s'.seen == s.seen && s'.queued == s.queued;
    assert s'.w == s.w || (s'.w == s.w.(pc := s'.w.pc) && !s.w.pc.Idle? && !s'.w.pc.Idle? && QuietEnds(s'.w));
  }

  // An acknowledged write that ends the pass: the retry is queued, the finalizer event is
  // ahead of the cache, or the condition just written is a resting one.
  lemma AcknowledgedOwed(s: World, s': World, v: Version)
    requires Sane(s) && Sane(s') && PcOk(s) && !s.w.pc.Idle? && QuietEnds(s.w) && Owed(s)
    requires s.w.base + 1 == |s.history| && s' == WriteAny(s, Acknowledged)
    requires s'.history == s.history + [v]
    ensures Owed(s')
  {
    assert Latest(s) == Live(s.w.copy);
    AppendChanged(s.history, v, s.seen);
    AppendChanged(s.history, v, s.w.start);
  }

  lemma WriteKeeps(s: World, outcome: WriteOutcome)
    requires Steady(s) && PcOk(s)
    ensures Steady(WriteAny(s, outcome))
  {
    var s' := WriteAny(s, outcome);
    if s'.history != s.history {
      var v := Latest(s');
      assert Latest(s) == Live(s.w.copy) && s'.history == s.history + [v];
      SuspendStableGrows(s.history, v);
      if outcome == Acknowledged {
        AcknowledgedOwed(s, s', v);
      }
    }
  }

  lemma PassKeeps(s: World, kind: Kind, drifts: (nat, nat) -> bool, a: Action)
    requires Steady(s) && PcOk(s) && !IsEnv(a)
    ensures Steady(PassStep(s, kind, drifts, a))
  {
    match a
    case Begin(getFails) => BeginKeeps(s, getFails);
    case Write(outcome) => WriteKeeps(s, outcome);
    case _ => InsideKeeps(s, kind, drifts, a);
  }

  lemma StepKeeps(s: World, kind: Kind, drifts: (nat, nat) -> bool, a: Action)
    requires Steady(s) && NoLeak.Inv(s)
    ensures Steady(Next(s, kind, drifts, a))
  {
    if IsEnv(a) {
      EnvKeeps(s, a);
    } else {
      PassKeeps(s, kind, drifts, a);
    }
  }

  lemma {:induction false} RunKeepsSteady(s: World, kind: Kind, drifts: (nat, nat) -> bool, actions: seq<Action>)
    requires Initial(s)
    ensures Steady(Run(s, kind, drifts, actions))
  {
    if actions != [] {
      RunKeepsSteady(s, kind, drifts, actions[..|actions|-1]);
      RunKeepsInv(s, kind, drifts, actions[..|actions|-1]);
      StepKeeps(Run(s, kind, drifts, actions[..|actions|-1]), kind, drifts, actions[|actions|-1]);
    }
  }

  // Whenever no pass is running: another one is queued, or a watch event that will queue one
  // is on its way, or the resource is in a resting state.
  lemma {:induction false} NoSilentWedge(s: World, kind: Kind, drifts: (nat, nat) -> bool, actions: seq<Action>)
    requires Initial(s) && Run(s, kind, drifts, actions).w.pc.Idle?
    ensures var t := Run(s, kind, drifts, actions);
            t.queued || Changed(t.history, t.seen) || Resting(Latest(t))
  {
    RunKeepsSteady(s, kind, drifts, actions);
  }

  // A spec edit leaves any resting state: it puts an accepted event ahead of the cache.
  lemma SpecEditWakes(s: World, a: Action)
    requires Sane(s) && Latest(s).Live? && a.EditSpec?
    ensures Changed(EnvStep(s, a).history, EnvStep(s, a).seen)
  {
    AppendChanged(s.history, Latest(EnvStep(s, a)), s.seen);
  }

  // So do a new requested-at annotation and a deletion.
  lemma RequestWakes(s: World, a: Action)
    requires Sane(s) && Latest(s).Live?
    requires (a.EditMeta? && a.requestedAt != Latest(s).obj.requestedAt) || (a.DeleteObject? && !Latest(s).obj.deleting)
    ensures Changed(EnvStep(s, a).history, EnvStep(s, a).seen)
  {
    AppendChanged(s.history, Latest(EnvStep(s, a)), s.seen);
  }

  // But a pass does not wake itself by the conditions it writes: no event ahead of the cache is
  // accepted that was not there before.
  lemma ConditionDoesNotWake(s: World, outcome: WriteOutcome)
    requires Sane(s) && PcOk(s) && s.w.pc.WriteStatus? && Persisted(s.w.copy) == Live(s.w.copy)
    ensures Changed(WriteAny(s, outcome).history, s.seen) <==> Changed(s.history, s.seen)
  {
    var s' := WriteAny(s, outcome);
    if s'.history != s.history {
      AppendChanged(s.history, Latest(s'), s.seen);
    }
  }

  ghost function Deliveries(n: nat): seq<Action> {
    seq(n, _ => Deliver)
  }

  // An accepted event ahead of the cache queues the key once the cache has caught up.
  lemma {:induction false} DeliveryQueues(s: World, kind: Kind, drifts: (nat, nat) -> bool)
    requires Sane(s) && Changed(s.history, s.seen)
    ensures exists n: nat :: Run(s, kind, drifts, Deliveries(n)).queued
    decreases |s.history| - s.seen
  {
    var s1 := EnvStep(s, Deliver);
    if s1.queued {
      DeliverFirst(s, kind, drifts, 0);
      assert Run(s, kind, drifts, Deliveries(1)).queued;
    } else {
      DeliverOwed(s.history, s.seen, s.queued);
      DeliveryQueues(s1, kind, drifts);
      var n: nat :| Run(s1, kind, drifts, Deliveries(n)).queued;
      DeliverFirst(s, kind, drifts, n);
      assert Run(s, kind, drifts, Deliveries(n + 1)).queued;
    }
  }

  lemma LastDelivery(s: World, kind: Kind, drifts: (nat, nat) -> bool, n: nat)
    requires Sane(s)
    ensures Run(s, kind, drifts, Deliveries(n + 1)) == Next(Run(s, kind, drifts, Deliveries(n)), kind, drifts, Deliver)
  {
    assert Deliveries(n + 1)[..n] == Deliveries(n);
  }

  lemma {:induction false} DeliverFirst(s: World, kind: Kind, drifts: (nat, nat) -> bool, n: nat)
    requires Sane(s)
    ensures Run(s, kind, drifts, Deliveries(n + 1)) == Run(EnvStep(s, Deliver), kind, drifts, Deliveries(n))
  {
    LastDelivery(s, kind, drifts, n);
    if 0 < n {
      DeliverFirst(s, kind, drifts, n - 1);
      LastDelivery(EnvStep(s, Deliver), kind, drifts, n - 1);
    }
  }
}
