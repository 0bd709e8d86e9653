/**
 Exactly when adoption spares an MQ object that was there before the resource's first sync.
 */
module AdoptionExact {
  import opened Options
  import opened Workload
  import opened Reconcile
  import opened NoLeak
  import opened SafeCommands
  import opened AdoptionBypass

  // Passes, deliveries and timers, with nobody else touching the resource or the MQ object.
  predicate Undisturbed(a: Action) {
    !a.Create? && !a.EditSpec? && !a.EditMeta? && !a.DeleteObject? && !a.SetMq?
  }

  predicate AllUndisturbed(actions: seq<Action>) {
    forall i :: 0 <= i < |actions| ==> Undisturbed(actions[i])
  }

  // No command has redefined the object since, and no version since counts as synced.
  ghost predicate Spared(s: World, t: World) {
    && NoDefineFrom(t.log, |s.log|)
    && (forall i :: |s.history| <= i < |t.history| && t.history[i].Live? ==> FirstAdoption(t.history[i].obj))
  }

  // An idle controller that has seen everything, before the first sync of an existing resource
  // and with an MQ object there.
  ghost predicate BeforeFirstSync(s: World, o: Obj, m: nat) {
    && s.w.pc.Idle? && s.history != [] && s.seen == |s.history| - 1 && Latest(s) == Live(o)
    && FirstAdoption(o) && s.mq == Some(m)
  }

  /* ---------- what refuses stays as it is ---------- */

  // The same as far as adoption is concerned, and not synced.
  predicate Like(o: Obj, x: Obj) {
    && x.suspend == o.suspend && x.deleting == o.deleting && x.spec == o.spec && x.adoption == o.adoption
    && x.observeOnly == o.observeOnly && FirstAdoption(x)
  }

  // All versions from the n-th on are like o, and unless o is being deleted MQ is as it was.
  ghost predicate Frozen(s: World, o: Obj, m: nat, n: nat) {
    && Passive(s.w.pc) && n <= Floor(s)
    && (forall i :: n <= i < |s.history| && s.history[i].Live? ==> Like(o, s.history[i].obj))
    && (o.deleting || s.mq == Some(m))
  }

  ghost predicate Holds(kind: Kind, drifts: (nat, nat) -> bool, o: Obj, m: nat) {
    o.suspend || o.deleting || Refuses(kind, drifts, o, m)
  }

  lemma FrozenProtects(s: World, kind: Kind, drifts: (nat, nat) -> bool, o: Obj, m: nat, n: nat)
    requires Frozen(s, o, m, n) && Holds(kind, drifts, o, m)
    ensures Unsynced(s) && Protected(s, kind, drifts)
  {
  }

  lemma UndisturbedEnv(s: World, a: Action)
    requires Sane(s) && IsEnv(a) && Undisturbed(a)
    ensures EnvStep(s, a).history == s.history && EnvStep(s, a).mq == s.mq
  {
  }

  lemma FrozenGrows(s: World, kind: Kind, drifts: (nat, nat) -> bool, a: Action, o: Obj, m: nat, n: nat)
    requires Sane(s) && PcOk(s) && Frozen(s, o, m, n) && Undisturbed(a)
    ensures Grows(s.history, Next(s, kind, drifts, a).history, x => Like(o, x))
  {
    if IsEnv(a) {
      UndisturbedEnv(s, a);
    } else {
      if !s.w.pc.Idle? {
        assert s.history[s.w.base] == Live(s.w.copy);
      }
      PassGrows(s, kind, drifts, a, x => Like(o, x));
    }
  }

  lemma FrozenMq(s: World, kind: Kind, drifts: (nat, nat) -> bool, a: Action, o: Obj, m: nat, n: nat)
    requires Sane(s) && PcOk(s) && Frozen(s, o, m, n) && Undisturbed(a)
    ensures o.deleting || Next(s, kind, drifts, a).mq == Some(m)
  {
    if IsEnv(a) {
      UndisturbedEnv(s, a);
    } else if s.w.pc.DeleteMq? {
      assert s.history[s.w.base] == Live(s.w.copy);
    }
  }

  lemma FrozenStep(s: World, kind: Kind, drifts: (nat, nat) -> bool, a: Action, o: Obj, m: nat, n: nat)
    requires Sane(s) && PcOk(s) && Frozen(s, o, m, n) && Undisturbed(a) && Holds(kind, drifts, o, m)
    ensures Frozen(Next(s, kind, drifts, a), o, m, n)
  {
    FrozenProtects(s, kind, drifts, o, m, n);
    StaysPassive(s, kind, drifts, a);
    FloorGrows(s, kind, drifts, a);
    FrozenMq(s, kind, drifts, a, o, m, n);
    FrozenGrows(s, kind, drifts, a, o, m, n);
    GrownAre(s.history, Next(s, kind, drifts, a).history, x => Like(o, x), n, n);
  }

  lemma FrozenAtFirst(s: World, o: Obj, m: nat)
    requires BeforeFirstSync(s, o, m)
    ensures Frozen(s, o, m, |s.history| - 1)
  {
  }

  ghost predicate StillFrozen(t: World, u: World, o: Obj, m: nat)
    requires Sane(t)
  {
    Frozen(u, o, m, |t.history| - 1) && NoDefineFrom(u.log, |t.log|)
  }

  lemma FrozenMore(t: World, u: World, kind: Kind, drifts: (nat, nat) -> bool, a: Action, o: Obj, m: nat)
    requires Sane(t) && Inv(u) && StillFrozen(t, u, o, m) && Undisturbed(a) && Holds(kind, drifts, o, m)
    ensures StillFrozen(t, Next(u, kind, drifts, a), o, m)
  {
    FrozenStep(u, kind, drifts, a, o, m, |t.history| - 1);
    NoDefineAdded(u, kind, drifts, a, |t.log|);
  }

  lemma {:induction false} FrozenRun(s: World, kind: Kind, drifts: (nat, nat) -> bool, before: seq<Action>, actions: seq<Action>,
                                     o: Obj, m: nat)
    requires Initial(s) && BeforeFirstSync(Run(s, kind, drifts, before), o, m)
    requires AllUndisturbed(actions) && Holds(kind, drifts, o, m)
    ensures StillFrozen(Run(s, kind, drifts, before), Run(s, kind, drifts, before + actions), o, m)
    decreases |actions|
  {
    var t := Run(s, kind, drifts, before);
    if actions == [] {
      assert before + actions == before;
      FrozenAtFirst(t, o, m);
    } else {
      var most, a := actions[..|actions|-1], actions[|actions|-1];
      assert before + actions == before + most + [a];
      FrozenRun(s, kind, drifts, before, most, o, m);
      RunKeepsInv(s, kind, drifts, before + most);
      FrozenMore(t, Run(s, kind, drifts, before + most), kind, drifts, a, o, m);
      RunOneMore(s, kind, drifts, before + most, a);
    }
  }

  /* ---------- what does not refuse is taken over ---------- */

  predicate Numbered(o: Obj) {
    0 < o.generation
  }

  lemma EnvNumbers(s: World, a: Action)
    requires Sane(s) && (Latest(s).Live? ==> Numbered(Latest(s).obj))
    ensures Grows(s.history, EnvStep(s, a).history, Numbered)
  {
  }

  lemma PassNumbers(s: World, kind: Kind, drifts: (nat, nat) -> bool, a: Action)
    requires Sane(s) && !IsEnv(a) && (s.w.pc.Idle? || Numbered(s.w.copy))
    ensures Grows(s.history, PassStep(s, kind, drifts, a).history, Numbered)
  {
    if !a.Write? {
      OnlyWritesAddVersions(s, kind, drifts, a);
    } else {
      match s.w.pc
      case WriteStatus(patch, t) =>
        WriteGrows(s, Patched(s.w.copy, patch), a.outcome, AfterStatus(t), t == EndRequeue, Numbered);
      case AddFinalizer => WriteGrows(s, WithFinalizer(s.w.copy, true), a.outcome, Idle, false, Numbered);
      case RemoveFinalizer => WriteGrows(s, WithFinalizer(s.w.copy, false), a.outcome, Idle, false, Numbered);
      case _ =>
    }
  }

  ghost predicate AllNumbered(h: seq<Version>) {
    forall i :: 0 <= i < |h| && h[i].Live? ==> Numbered(h[i].obj)
  }

  lemma NumberedStep(s: World, kind: Kind, drifts: (nat, nat) -> bool, a: Action)
    requires Sane(s) && PcOk(s) && AllNumbered(s.history)
    ensures AllNumbered(Next(s, kind, drifts, a).history)
  {
    if IsEnv(a) {
      EnvNumbers(s, a);
    } else {
      if !s.w.pc.Idle? {
        assert s.history[s.w.base] == Live(s.w.copy);
      }
      PassNumbers(s, kind, drifts, a);
    }
    GrownAre(s.history, Next(s, kind, drifts, a).history, Numbered, 0, 0);
  }

  // Generations start at one.
  lemma {:induction false} RunNumbers(s: World, kind: Kind, drifts: (nat, nat) -> bool, actions: seq<Action>)
    requires Initial(s)
    ensures AllNumbered(Run(s, kind, drifts, actions).history)
  {
    if actions != [] {
      RunNumbers(s, kind, drifts, actions[..|actions|-1]);
      RunKeepsInv(s, kind, drifts, actions[..|actions|-1]);
      NumberedStep(Run(s, kind, drifts, actions[..|actions|-1]), kind, drifts, actions[|actions|-1]);
    }
  }

  // One pass over an active version that does not refuse issues a command or reports a sync.
  lemma TakesOver(s: World, kind: Kind, drifts: (nat, nat) -> bool, o: Obj, m: nat) returns (actions: seq<Action>)
    requires BeforeFirstSync(s, o, m) && s.queued && Active(o) && Numbered(o) && !Refuses(kind, drifts, o, m)
    ensures AllUndisturbed(actions)
    ensures var t := Run(s, kind, drifts, actions);
            t.log == s.log + [Defined(o, Some(m))] || t.history == s.history + [Live(Patched(o, Patch(Available, true)))]
  {
    if drifts(o.spec, m) {
      ThirdPassIs(s, kind, drifts, o);
      actions := ThirdPass;
    } else {
      SecondPassIs(s, kind, drifts, o);
      actions := SecondPass;
    }
  }

  lemma EnqueueIs(s: World, kind: Kind, drifts: (nat, nat) -> bool)
    requires Sane(s)
    ensures Run(s, kind, drifts, [Enqueue]) == s.(queued := true)
  {
    RunOne(s, kind, drifts, Enqueue);
  }

  // To where the resource has its finalizer and the key is queued.
  lemma GetsActive(s: World, kind: Kind, drifts: (nat, nat) -> bool, o: Obj, m: nat) returns (actions: seq<Action>, t: World)
    requires BeforeFirstSync(s, o, m) && !o.suspend && !o.deleting
    ensures AllUndisturbed(actions) && t == Run(s, kind, drifts, actions) && t.log == s.log && s.history <= t.history
    ensures BeforeFirstSync(t, WithFinalizer(o, true), m) && t.queued
  {
    t := s.(queued := true);
    EnqueueIs(s, kind, drifts);
    actions := [Enqueue];
    if !o.finalizer {
      FirstPassIs(t, kind, drifts, o);
      var u := Rest(t, t.history + [Live(WithFinalizer(o, true))], Worker(Idle, t.seen, |t.history|, WithFinalizer(o, true)));
      Stretches(s, kind, drifts, actions, t, FirstPass, u);
      actions, t := actions + FirstPass, u;
    }
  }

  lemma NotSpared(s: World, kind: Kind, drifts: (nat, nat) -> bool, o: Obj, m: nat) returns (actions: seq<Action>)
    requires BeforeFirstSync(s, o, m) && Numbered(o) && !Holds(kind, drifts, o, m)
    ensures AllUndisturbed(actions) && !Spared(s, Run(s, kind, drifts, actions))
  {
    var first, t := GetsActive(s, kind, drifts, o, m);
    var o' := WithFinalizer(o, true);
    var pass := TakesOver(t, kind, drifts, o', m);
    RunOn(s, kind, drifts, first, pass);
    actions := first + pass;
    var u := Run(s, kind, drifts, actions);
    if u.log == t.log + [Defined(o', Some(m))] {
      assert u.log[|s.log|].Defined?;
    } else {
      assert u.history[|t.history|] == Live(Patched(o', Patch(Available, true)));
    }
  }

  /* ---------- exactly ---------- */

  ghost predicate AlwaysSpared(s: World, kind: Kind, drifts: (nat, nat) -> bool)
    requires Sane(s)
  {
    forall actions :: AllUndisturbed(actions) ==> Spared(s, Run(s, kind, drifts, actions))
  }

  // In any reachable state before the first sync: if nobody else interferes, no continuation
  // redefines the MQ object or counts as a sync with it exactly when the resource is
  // suspended, being deleted, or refuses the object. This can be told from the resource.
  lemma AlwaysSparedIff(s: World, kind: Kind, drifts: (nat, nat) -> bool, before: seq<Action>, o: Obj, m: nat)
    requires Initial(s) && BeforeFirstSync(Run(s, kind, drifts, before), o, m)
    ensures AlwaysSpared(Run(s, kind, drifts, before), kind, drifts) <==>
      o.suspend || o.deleting || Refuses(kind, drifts, o, m)
  {
    var t := Run(s, kind, drifts, before);
    if Holds(kind, drifts, o, m) {
      forall actions | AllUndisturbed(actions)
        ensures Spared(t, Run(t, kind, drifts, actions))
      {
        FrozenRun(s, kind, drifts, before, actions, o, m);
        RunOn(s, kind, drifts, before, actions);
      }
    } else {
      RunNumbers(s, kind, drifts, before);
      assert t.history[|t.history| - 1] == Live(o);
      var actions := NotSpared(t, kind, drifts, o, m);
    }
  }
}
