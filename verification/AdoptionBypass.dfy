/**
 A run in which an MQ object that was there first is redefined although the resource's adoption
 policy forbids it, because the resource was observe-only at first.
 */
module AdoptionBypass {
  import opened Options
  import opened Workload
  import opened Reconcile

  lemma RunOne(s: World, kind: Kind, drifts: (nat, nat) -> bool, a: Action)
    requires Sane(s)
    ensures Run(s, kind, drifts, [a]) == Next(s, kind, drifts, a)
  {
    assert [a][..0] == [];
  }

  // A pass up to the point where it has its client.
  const Approach: seq<Action> := [Begin(false), ConnRead(ConnReady), ClientBuilt(None, None)]

  function Approached(s: World, o: Obj): World {
    s.(queued := false, w := Worker(if o.finalizer then ObserveMq else AddFinalizer, s.seen, s.seen, o))
  }

  lemma ApproachIs(s: World, kind: Kind, drifts: (nat, nat) -> bool, o: Obj)
    requires Sane(s) && s.queued && s.w.pc.Idle? && s.history[s.seen] == Live(o) && !o.suspend && !o.deleting
    ensures Run(s, kind, drifts, Approach) == Approached(s, o)
  {
    var s1 := Next(s, kind, drifts, Begin(false));
    var s2 := Next(s1, kind, drifts, ConnRead(ConnReady));
    assert s2 == s.(queued := false, w := Worker(GetClient, s.seen, s.seen, o));
    assert Approach[..2][..1] == Approach[..1] && Approach[..1][..0] == [];
    assert Run(s, kind, drifts, []) == s;
    assert Run(s, kind, drifts, Approach[..1]) == s1;
    assert Run(s, kind, drifts, Approach[..2]) == s2;
  }

  lemma RunTwo(s: World, kind: Kind, drifts: (nat, nat) -> bool, a: Action, b: Action)
    requires Sane(s)
    ensures Run(s, kind, drifts, [a, b]) == Next(Next(s, kind, drifts, a), kind, drifts, b)
  {
    assert [a, b][..1] == [a];
    RunOne(s, kind, drifts, a);
  }

  // Two steps with the state between them, and two stretches.
  lemma TwoSteps(s: World, kind: Kind, drifts: (nat, nat) -> bool, a: Action, s1: World, b: Action, s2: World)
    requires Sane(s) && Sane(s1) && Next(s, kind, drifts, a) == s1 && Next(s1, kind, drifts, b) == s2
    ensures Run(s, kind, drifts, [a, b]) == s2
  {
    RunTwo(s, kind, drifts, a, b);
  }

  lemma Stretches(s: World, kind: Kind, drifts: (nat, nat) -> bool, a: seq<Action>, s1: World, b: seq<Action>, s2: World)
    requires Sane(s) && Sane(s1) && Run(s, kind, drifts, a) == s1 && Run(s1, kind, drifts, b) == s2
    ensures Run(s, kind, drifts, a + b) == s2
  {
    RunOn(s, kind, drifts, a, b);
  }

  // The four versions of the resource in the run below.
  function Version1(t: Obj): Obj { Created(1, t) }
  function Version2(t: Obj): Obj { Version1(t).(finalizer := true) }
  function Version3(t: Obj): Obj { Patched(Version2(t), Patch(Available, true)) }
  function Version4(t: Obj): Obj { Version3(t).(observeOnly := false) }

  // The world between two passes: an idle controller that has seen everything.
  function Rest(s: World, history: seq<Version>, w: Worker): World
    requires history != []
  {
    s.(history := history, seen := |history| - 1, queued := true, w := w)
  }

  // Single steps.
  lemma DeliverIs(s: World, kind: Kind, drifts: (nat, nat) -> bool)
    requires s.seen + 1 < |s.history|
    ensures Next(s, kind, drifts, Deliver) ==
            s.(seen := s.seen + 1, queued := s.queued || Accepts(s.history[s.seen], s.history[s.seen + 1]))
  {
  }

  lemma CreateIs(s: World, kind: Kind, drifts: (nat, nat) -> bool, t: Obj)
    requires Initial(s)
    ensures Next(s, kind, drifts, Create(t)) == s.(history := [Gone(0), Live(Version1(t))])
  {
  }

  lemma FinalizerLands(s: World, kind: Kind, drifts: (nat, nat) -> bool, o: Obj)
    requires Sane(s) && s.w == Worker(AddFinalizer, s.seen, s.seen, o) && s.seen + 1 == |s.history| && !o.deleting
    ensures var o' := o.(finalizer := true);
            Next(s, kind, drifts, Write(Acknowledged)) ==
            s.(history := s.history + [Live(o')], w := Worker(Idle, s.seen, |s.history|, o'))
  {
  }

  lemma AvailableLands(s: World, kind: Kind, drifts: (nat, nat) -> bool, o: Obj)
    requires Sane(s) && s.w == Worker(WriteStatus(Patch(Available, true), EndRequeue), s.seen, s.seen, o)
    requires s.seen + 1 == |s.history| && !o.deleting
    ensures var o' := Patched(o, Patch(Available, true));
            Next(s, kind, drifts, Write(Acknowledged)) ==
            s.(history := s.history + [Live(o')], queued := true, w := Worker(Idle, s.seen, |s.history|, o'))
  {
  }

  lemma ObserveIs(s: World, kind: Kind, drifts: (nat, nat) -> bool)
    requires Sane(s) && s.w.pc.ObserveMq?
    ensures Next(s, kind, drifts, Observed(None)) == At(s, AfterObserve(kind, drifts, s.w.copy, s.mq, None))
  {
  }

  lemma LiftIs(s: World, kind: Kind, drifts: (nat, nat) -> bool, o: Obj)
    requires Sane(s) && Latest(s) == Live(o) && !o.deleting
    ensures Next(s, kind, drifts, EditMeta(o.forceOrphan, false, o.requestedAt, o.foreign)) ==
            Appended(s, Live(o.(observeOnly := false)))
  {
  }

  lemma SetMqIs(s: World, kind: Kind, drifts: (nat, nat) -> bool, m: nat)
    requires Sane(s)
    ensures Next(s, kind, drifts, SetMq(Some(m))) == s.(mq := Some(m))
  {
  }

  lemma DefineIs(s: World, kind: Kind, drifts: (nat, nat) -> bool, observed: Option<nat>)
    requires Sane(s) && s.w.pc == Define(observed)
    ensures Next(s, kind, drifts, DefineDone(None, None)).log == s.log + [Defined(s.w.copy, observed)]
  {
  }

  // Stretches of the run.
  lemma CreatedIsSeen(s: World, kind: Kind, drifts: (nat, nat) -> bool, t: Obj)
    requires Initial(s)
    ensures Run(s, kind, drifts, [Create(t), Deliver]) == Rest(s, [Gone(0), Live(Version1(t))], s.w)
  {
    var s1 := s.(history := [Gone(0), Live(Version1(t))]);
    CreateIs(s, kind, drifts, t);
    DeliverIs(s1, kind, drifts);
    TwoSteps(s, kind, drifts, Create(t), s1, Deliver, Rest(s, [Gone(0), Live(Version1(t))], s.w));
  }

  lemma FinalizerDelivered(s: World, kind: Kind, drifts: (nat, nat) -> bool, o: Obj, w: Worker)
    requires Sane(s) && s.seen + 1 == |s.history| && Latest(s) == Live(o) && !o.finalizer
    ensures var h := s.history + [Live(o.(finalizer := true))];
            Next(s.(history := h, w := w), kind, drifts, Deliver) == Rest(s, h, w)
  {
    var h := s.history + [Live(o.(finalizer := true))];
    assert h[s.seen] == Live(o) && Accepts(h[s.seen], h[s.seen + 1]);
    DeliverIs(s.(history := h, w := w), kind, drifts);
  }

  lemma FinalizerIsSeen(s: World, kind: Kind, drifts: (nat, nat) -> bool, o: Obj)
    requires Sane(s) && s.w == Worker(AddFinalizer, s.seen, s.seen, o) && s.seen + 1 == |s.history|
    requires Latest(s) == Live(o) && !o.deleting && !o.finalizer
    ensures var o' := o.(finalizer := true);
            Run(s, kind, drifts, [Write(Acknowledged), Deliver]) ==
            Rest(s, s.history + [Live(o')], Worker(Idle, s.seen, |s.history|, o'))
  {
    var o' := o.(finalizer := true);
    var w := Worker(Idle, s.seen, |s.history|, o');
    var s1 := s.(history := s.history + [Live(o')], w := w);
    FinalizerLands(s, kind, drifts, o);
    FinalizerDelivered(s, kind, drifts, o, w);
    TwoSteps(s, kind, drifts, Write(Acknowledged), s1, Deliver, Rest(s, s.history + [Live(o')], w));
  }

  const InSyncReport := WriteStatus(Patch(Available, true), EndRequeue)

  // A pass that finds a matching object reports it available, which counts as synced.
  lemma MatchIsReported(s: World, kind: Kind, drifts: (nat, nat) -> bool, o: Obj)
    requires Sane(s) && s.w == Worker(ObserveMq, s.seen, s.seen, o) && s.seen + 1 == |s.history|
    requires !o.deleting && AfterObserve(kind, drifts, o, s.mq, None) == InSyncReport
    ensures Run(s, kind, drifts, [Observed(None), Write(Acknowledged)]) == Synced(s, o)
  {
    var s1 := At(s, InSyncReport);
    ObserveIs(s, kind, drifts);
    AvailableLands(s1, kind, drifts, o);
    TwoSteps(s, kind, drifts, Observed(None), s1, Write(Acknowledged), Synced(s, o));
  }

  function Synced(s: World, o: Obj): World {
    var o' := Patched(o, Patch(Available, true));
    s.(history := s.history + [Live(o')], queued := true, w := Worker(Idle, s.seen, |s.history|, o'))
  }

  function Meanwhile(o: Obj, m: nat): seq<Action> {
    [EditMeta(o.forceOrphan, false, o.requestedAt, o.foreign), SetMq(Some(m))] + [Deliver, Deliver]
  }

  // Observe-only is lifted, the MQ object drifts, and the controller sees it all.
  lemma LiftedAndDrifted(s: World, kind: Kind, drifts: (nat, nat) -> bool, o: Obj, m: nat)
    requires Sane(s) && s.queued && s.seen + 2 == |s.history| && Latest(s) == Live(o) && !o.deleting
    ensures Run(s, kind, drifts, Meanwhile(o, m)) ==
            Rest(s, s.history + [Live(o.(observeOnly := false))], s.w).(mq := Some(m))
  {
    var edit := EditMeta(o.forceOrphan, false, o.requestedAt, o.foreign);
    var s1 := Appended(s, Live(o.(observeOnly := false)));
    var s2 := s1.(mq := Some(m));
    var s3 := s2.(seen := s.seen + 1);
    var s4 := Rest(s, s.history + [Live(o.(observeOnly := false))], s.w).(mq := Some(m));
    LiftIs(s, kind, drifts, o);
    SetMqIs(s1, kind, drifts, m);
    TwoSteps(s, kind, drifts, edit, s1, SetMq(Some(m)), s2);
    DeliverIs(s2, kind, drifts);
    DeliverIs(s3, kind, drifts);
    TwoSteps(s2, kind, drifts, Deliver, s3, Deliver, s4);
    Stretches(s, kind, drifts, [edit, SetMq(Some(m))], s2, [Deliver, Deliver], s4);
  }

  lemma DriftIsApplied(s: World, kind: Kind, drifts: (nat, nat) -> bool, o: Obj)
    requires Sane(s) && s.w == Worker(ObserveMq, s.seen, s.seen, o)
    requires AfterObserve(kind, drifts, o, s.mq, None) == Define(s.mq)
    ensures Run(s, kind, drifts, [Observed(None), DefineDone(None, None)]).log == s.log + [Defined(o, s.mq)]
  {
    var s1 := At(s, Define(s.mq));
    ObserveIs(s, kind, drifts);
    DefineIs(s1, kind, drifts, s.mq);
    TwoSteps(s, kind, drifts, Observed(None), s1, DefineDone(None, None), Next(s1, kind, drifts, DefineDone(None, None)));
  }

  const FirstPass: seq<Action> := Approach + [Write(Acknowledged), Deliver]
  const SecondPass: seq<Action> := Approach + [Observed(None), Write(Acknowledged)]
  const ThirdPass: seq<Action> := Approach + [Observed(None), DefineDone(None, None)]

  // The first pass adds the finalizer.
  lemma FirstPassIs(s: World, kind: Kind, drifts: (nat, nat) -> bool, o: Obj)
    requires Sane(s) && s.queued && s.w.pc.Idle? && s.seen + 1 == |s.history| && Latest(s) == Live(o)
    requires !o.suspend && !o.deleting && !o.finalizer
    ensures var o' := o.(finalizer := true);
            Run(s, kind, drifts, FirstPass) == Rest(s, s.history + [Live(o')], Worker(Idle, s.seen, |s.history|, o'))
  {
    var o' := o.(finalizer := true);
    ApproachIs(s, kind, drifts, o);
    FinalizerIsSeen(Approached(s, o), kind, drifts, o);
    Stretches(s, kind, drifts, Approach, Approached(s, o), [Write(Acknowledged), Deliver],
              Rest(s, s.history + [Live(o')], Worker(Idle, s.seen, |s.history|, o')));
  }

  lemma SecondPassIs(s: World, kind: Kind, drifts: (nat, nat) -> bool, o: Obj)
    requires Sane(s) && s.queued && s.w.pc.Idle? && s.seen + 1 == |s.history| && Latest(s) == Live(o)
    requires !o.suspend && !o.deleting && o.finalizer && AfterObserve(kind, drifts, o, s.mq, None) == InSyncReport
    ensures Run(s, kind, drifts, SecondPass) == Synced(s, o)
  {
    ApproachIs(s, kind, drifts, o);
    MatchIsReported(Approached(s, o), kind, drifts, o);
    Stretches(s, kind, drifts, Approach, Approached(s, o), [Observed(None), Write(Acknowledged)], Synced(s, o));
  }

  lemma ThirdPassIs(s: World, kind: Kind, drifts: (nat, nat) -> bool, o: Obj)
    requires Sane(s) && s.queued && s.w.pc.Idle? && s.seen + 1 == |s.history| && Latest(s) == Live(o)
    requires !o.suspend && !o.deleting && o.finalizer && AfterObserve(kind, drifts, o, s.mq, None) == Define(s.mq)
    ensures Run(s, kind, drifts, ThirdPass).log == s.log + [Defined(o, s.mq)]
  {
    ApproachIs(s, kind, drifts, o);
    DriftIsApplied(Approached(s, o), kind, drifts, o);
    RunOn(s, kind, drifts, Approach, [Observed(None), DefineDone(None, None)]);
  }

  function Bypass(t: Obj, m: nat): seq<Action> {
    [Create(t), Deliver] + FirstPass + SecondPass + Meanwhile(Version3(t), m) + ThirdPass
  }

  // After its second pass the resource counts as synced, though its policy was never asked.
  lemma BypassSynced(s: World, drifts: (nat, nat) -> bool, t: Obj) returns (u: World)
    requires Initial(s) && s.mq.Some? && !drifts(t.spec, s.mq.value)
    requires t.observeOnly && !t.suspend && !t.finalizer
    ensures u == Run(s, AttributeKind, drifts, [Create(t), Deliver] + FirstPass + SecondPass)
    ensures u.history == [Gone(0), Live(Version1(t)), Live(Version2(t)), Live(Version3(t))]
    ensures u.seen == 2 && u.queued && u.w.pc.Idle? && u.log == [] && u.mq == s.mq
  {
    var a := Rest(s, [Gone(0), Live(Version1(t))], s.w);
    var b := Rest(a, a.history + [Live(Version2(t))], Worker(Idle, 1, 2, Version2(t)));
    u := Synced(b, Version2(t));
    CreatedIsSeen(s, AttributeKind, drifts, t);
    FirstPassIs(a, AttributeKind, drifts, Version1(t));
    SecondPassIs(b, AttributeKind, drifts, Version2(t));
    Stretches(s, AttributeKind, drifts, [Create(t), Deliver], a, FirstPass, b);
    Stretches(s, AttributeKind, drifts, [Create(t), Deliver] + FirstPass, b, SecondPass, u);
  }

  // A matching observe-only resource does not refuse. A family of runs, under any adoption
  // policy: an object was there first, the resource is created observe-only and found to
  // match; then observe-only is lifted and the object drifts, and the next pass redefines it.
  lemma ObserveOnlyBypassesAdoption(s: World, drifts: (nat, nat) -> bool, t: Obj, m: nat)
    requires Initial(s) && s.mq.Some? && !drifts(t.spec, s.mq.value) && drifts(t.spec, m)
    requires t.observeOnly && !t.suspend && !t.finalizer
    ensures Run(s, AttributeKind, drifts, Bypass(t, m)).log == [Defined(Version4(t), Some(m))]
    ensures Version4(t).adoption == t.adoption && !Version4(t).observeOnly
  {
    var before := [Create(t), Deliver] + FirstPass + SecondPass;
    var u := BypassSynced(s, drifts, t);
    var v := Rest(u, u.history + [Live(Version4(t))], u.w).(mq := Some(m));
    LiftedAndDrifted(u, AttributeKind, drifts, Version3(t), m);
    Stretches(s, AttributeKind, drifts, before, u, Meanwhile(Version3(t), m), v);
    ThirdPassIs(v, AttributeKind, drifts, Version4(t));
    RunOn(s, AttributeKind, drifts, before + Meanwhile(Version3(t), m), ThirdPass);
  }
}
