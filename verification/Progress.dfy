/**
 Over every run: what the controller still owes is done, once the cache has caught up and the
 calls of one pass succeed. Nothing but deliveries and passes is needed for it.
 */
module Progress {
  import opened Options
  import opened Workload
  import opened Reconcile
  import opened NoLeak
  import opened NoWedge
  import opened QuietPass

  /* ---------- the cache catches up ---------- */

  function CaughtUp(s: World, queued: bool): World
    requires Sane(s)
  {
    s.(seen := |s.history| - 1, queued := queued)
  }

  ghost function Behind(s: World): nat
    requires Sane(s)
  {
    |s.history| - 1 - s.seen
  }

  lemma NothingAhead(s: World)
    requires Sane(s) && s.seen == |s.history| - 1
    ensures !Changed(s.history, s.seen)
  {
  }

  lemma ChangedAhead(h: seq<Version>, seen: nat)
    requires seen + 1 < |h|
    ensures Changed(h, seen) <==> Accepts(h[seen], h[seen + 1]) || Changed(h, seen + 1)
  {
    DeliverOwed(h, seen, false);
    if Accepts(h[seen], h[seen + 1]) {
      assert seen < seen + 1 < |h| && Accepts(h[seen + 1 - 1], h[seen + 1]);
    }
  }

  ghost predicate Owing(s: World)
    requires Sane(s)
  {
    s.queued || Changed(s.history, s.seen)
  }

  lemma OwingStays(s: World)
    requires Sane(s) && s.seen + 1 < |s.history|
    ensures var s1 := EnvStep(s, Deliver);
            && s1 == s.(seen := s.seen + 1, queued := s1.queued)
            && (Owing(s1) <==> Owing(s))
  {
    ChangedAhead(s.history, s.seen);
  }

  // Delivering everything queues the key exactly if it was queued or an accepted event was
  // ahead, and changes nothing else.
  lemma {:induction false} DeliveredIs(s: World, kind: Kind, drifts: (nat, nat) -> bool)
    requires Sane(s)
    ensures Run(s, kind, drifts, Deliveries(Behind(s))) == CaughtUp(s, Owing(s))
    decreases Behind(s)
  {
    if s.seen + 1 == |s.history| {
      NothingAhead(s);
    } else {
      var s1 := EnvStep(s, Deliver);
      OwingStays(s);
      DeliveredIs(s1, kind, drifts);
      DeliverFirst(s, kind, drifts, Behind(s) - 1);
      SameCaughtUp(s, s1);
    }
  }

  lemma SameCaughtUp(s: World, s1: World)
    requires Sane(s) && s1 == s.(seen := s.seen + 1, queued := s1.queued) && Sane(s1) && (Owing(s1) <==> Owing(s))
    ensures CaughtUp(s1, Owing(s1)) == CaughtUp(s, Owing(s)) && Behind(s1) == Behind(s) - 1
  {
  }

  lemma StoredIsPersisted(s: World, kind: Kind, drifts: (nat, nat) -> bool, actions: seq<Action>, o: Obj)
    requires Initial(s) && Latest(Run(s, kind, drifts, actions)) == Live(o)
    ensures Persisted(o) == Live(o)
  {
    RunKeepsInv(s, kind, drifts, actions);
    var h := Run(s, kind, drifts, actions).history;
    assert Follows(h[|h|-1], h[|h|-1]);
  }

  lemma ReadyOnceDelivered(u: World, o: Obj)
    requires Sane(u) && u.w.pc.Idle? && Latest(u) == Live(o) && Persisted(o) == Live(o)
    ensures Ready(CaughtUp(u, true), o)
  {
  }

  // A resource that does not rest is ready for a pass once everything is delivered.
  lemma GetsReady(s: World, kind: Kind, drifts: (nat, nat) -> bool, before: seq<Action>, o: Obj) returns (t: World)
    requires Initial(s) && Run(s, kind, drifts, before).w.pc.Idle?
    requires Latest(Run(s, kind, drifts, before)) == Live(o) && !Resting(Live(o))
    ensures var u := Run(s, kind, drifts, before);
            && t == Run(u, kind, drifts, Deliveries(Behind(u))) && Ready(t, o)
            && t.history == u.history && t.log == u.log && t.mq == u.mq
  {
    var u := Run(s, kind, drifts, before);
    NoSilentWedge(s, kind, drifts, before);
    DeliveredIs(u, kind, drifts);
    StoredIsPersisted(s, kind, drifts, before, o);
    ReadyOnceDelivered(u, o);
    t := CaughtUp(u, true);
  }

  // From every reachable state in which no pass runs, one pass after the deliveries: what it
  // leaves is what an undisturbed pass over the latest version leaves.
  lemma OnePassLater(s: World, kind: Kind, drifts: (nat, nat) -> bool, before: seq<Action>, x: Inputs, o: Obj) returns (t: World)
    requires Initial(s) && Run(s, kind, drifts, before).w.pc.Idle?
    requires Latest(Run(s, kind, drifts, before)) == Live(o) && !Resting(Live(o))
    ensures var u := Run(s, kind, drifts, before);
            && Ready(t, o) && t.history == u.history && t.log == u.log && t.mq == u.mq
            && Run(u, kind, drifts, Deliveries(Behind(u)) + Script(x)) == Passed(t, kind, drifts, x)
  {
    var u := Run(s, kind, drifts, before);
    t := GetsReady(s, kind, drifts, before, o);
    PassedIsRun(t, kind, drifts, x);
    RunOn(u, kind, drifts, Deliveries(Behind(u)), Script(x));
  }

  /* ---------- deletions are finished ---------- */

  // A deletion that is ours to finish is finished by the next pass whose calls succeed, from
  // every reachable state in which no pass runs: the MQ object is deleted, unless either orphan
  // request spares it, and the finalizer goes. The one exception waits for an edit: a terminal
  // error reported for this very generation.
  lemma DeletionFinishes(s: World, kind: Kind, drifts: (nat, nat) -> bool, before: seq<Action>, x: Inputs, o: Obj)
    requires Initial(s) && Run(s, kind, drifts, before).w.pc.Idle?
    requires Latest(Run(s, kind, drifts, before)) == Live(o) && o.deleting && o.finalizer && !o.suspend
    requires !(o.reason == TerminalError && o.reasonGen == o.generation)
    requires Smooth(x) && x.conn.ConnReady? && x.clientErr.None? && x.deleteErr.None?
    ensures var u := Run(s, kind, drifts, before);
            var t := Run(u, kind, drifts, Deliveries(Behind(u)) + Script(x));
            var spared := o.forceOrphan || o.orphanPolicy;
            && t.w.pc.Idle? && Latest(t) == Released(Condition(o, if spared then Orphaned else Deleting))
            && t.log == u.log + (if spared then [] else [Removed(o.uid)])
            && t.mq == if spared then u.mq else None
  {
    var t := OnePassLater(s, kind, drifts, before, x, o);
    if o.forceOrphan || o.orphanPolicy {
      OrphanedPass(t, kind, drifts, x, o);
    } else {
      DeletedPass(t, kind, drifts, x, o);
    }
  }

  /* ---------- and live resources are synced ---------- */

  // MQ holds what the resource asks for, by a command exactly if it did not before.
  ghost predicate Satisfied(s: World, t: World, drifts: (nat, nat) -> bool, o: Obj)
    requires Sane(t)
  {
    && t.w.pc.Idle? && Latest(t) == Live(Synced(o)) && !Unsatisfied(drifts, o, t.mq)
    && (if Unsatisfied(drifts, o, s.mq) then t.mq == Some(o.spec) && t.log == s.log + [Defined(o, s.mq)]
        else t.mq == s.mq && t.log == s.log)
  }

  lemma SatisfyingPass(s: World, kind: Kind, drifts: (nat, nat) -> bool, x: Inputs, o: Obj)
    requires Looks(s, x, o) && x.getErr.None? && x.defineErr.None? && x.effect.None? && !drifts(o.spec, o.spec)
    requires !o.observeOnly && !Forbidden(drifts, o, s.mq)
    ensures Satisfied(s, Passed(s, kind, drifts, x), drifts, o)
  {
    if Commands(drifts, o, s.mq) {
      CommandingPass(s, kind, drifts, x, o);
    } else {
      ReportedPass(s, kind, drifts, x, o);
    }
  }

  // A live resource with its finalizer is synced by the next pass whose calls succeed, unless
  // it only observes or its policy forbids. The comparison is assumed to accept what a DEFINE
  // of the spec leaves.
  lemma SyncFinishes(s: World, kind: Kind, drifts: (nat, nat) -> bool, before: seq<Action>, x: Inputs, o: Obj)
    requires Initial(s) && Run(s, kind, drifts, before).w.pc.Idle?
    requires Latest(Run(s, kind, drifts, before)) == Live(o) && !o.deleting && o.finalizer && !o.suspend
    requires !(o.reason == TerminalError && o.reasonGen == o.generation)
    requires Smooth(x) && x.conn.ConnReady? && x.clientErr.None? && x.formatErr.None? && x.getErr.None?
    requires x.defineErr.None? && x.effect.None? && !drifts(o.spec, o.spec)
    requires !o.observeOnly && !Forbidden(drifts, o, Run(s, kind, drifts, before).mq)
    ensures var u := Run(s, kind, drifts, before);
            Satisfied(u, Run(u, kind, drifts, Deliveries(Behind(u)) + Script(x)), drifts, o)
  {
    var t := OnePassLater(s, kind, drifts, before, x, o);
    SatisfyingPass(t, kind, drifts, x, o);
  }
}
