/**
 One reconcile pass as the controllers run it: straight-line code that edits the object it
 read and writes it back, with the environment acting before every call it makes. The pass
 follows the state machine of `Reconcile` step by step, so what holds in every run of the
 machine holds of the code.
 */
module ReconcilePass {
  import opened Options
  import opened Workload
  import opened Reconcile
  import opened QuietPass
  import NoWedge

  lemma EnvSparesPass(s: World, a: Action)
    requires Sane(s)
    ensures EnvStep(s, a).w == s.w && (s.queued ==> EnvStep(s, a).queued)
  {
  }

  // The object a write is about to store, and where the pass goes on once it is stored.
  function Edited(w: Worker): Obj {
    match w.pc
    case WriteStatus(patch, _) => Patched(w.copy, patch)
    case AddFinalizer => w.copy.(finalizer := true)
    case RemoveFinalizer => w.copy.(finalizer := false)
    case _ => w.copy
  }

  function AfterWrite(pc: Pc): Pc {
    match pc
    case WriteStatus(_, t) => AfterStatus(t)
    case _ => Idle
  }

  predicate Writes(pc: Pc) {
    pc.WriteStatus? || pc.AddFinalizer? || pc.RemoveFinalizer?
  }

  predicate Lands(s: World, outcome: WriteOutcome) {
    outcome.Acknowledged? && s.w.base + 1 == |s.history|
  }

  lemma WriteIs(s: World, outcome: WriteOutcome)
    requires Writes(s.w.pc)
    ensures var t := WriteAny(s, outcome);
            if Lands(s, outcome) then
              t.w.pc == AfterWrite(s.w.pc) && t.w.copy == Edited(s.w)
              && (s.w.pc.WriteStatus? && s.w.pc.after == EndRequeue ==> t.queued)
            else t.w.pc.Idle? && t.queued
  {
  }

  class Reconciler {
    const kind: Kind
    const drifts: (nat, nat) -> bool
    ghost const begin: World
    var trace: seq<Action>
    var world: World
    var q: Obj // the object the pass works on

    constructor (kind: Kind, drifts: (nat, nat) -> bool, world: World, q: Obj)
      requires Sane(world) && world.w.pc.Idle?
      ensures this.kind == kind && this.drifts == drifts && this.world == world && begin == world && trace == []
      ensures Valid()
    {
      this.kind, this.drifts, this.world, this.q := kind, drifts, world, q;
      begin, trace := world, [];
    }

    // The world is what the steps taken so far made of it.
    ghost predicate OnTrack()
      reads this
    {
      Sane(begin) && Sane(world) && world == Run(begin, kind, drifts, trace)
    }

    // And an unfinished pass works on the machine's copy.
    ghost predicate Valid()
      reads this
    {
      OnTrack() && (!world.w.pc.Idle? ==> q == world.w.copy)
    }

    ghost predicate Finished(requeue: bool)
      reads this
    {
      OnTrack() && world.w.pc.Idle? && (requeue ==> world.queued)
    }

    method Interfere(actions: seq<Action>)
      requires OnTrack() && OnlyEnv(actions)
      modifies this`world, this`trace
      ensures OnTrack() && old(trace) <= trace
      ensures world.w == old(world.w) && (old(world.queued) ==> world.queued)
      ensures actions == [] ==> world == old(world)
    {
      for j := 0 to |actions|
        invariant OnTrack() && old(trace) <= trace
        invariant world.w == old(world.w) && (old(world.queued) ==> world.queued)
        invariant j == 0 ==> world == old(world)
      {
        EnvSparesPass(world, actions[j]);
        RunOneMore(begin, kind, drifts, trace, actions[j]);
        trace := trace + [actions[j]];
        world := Next(world, kind, drifts, actions[j]);
      }
    }

    method Step(a: Action)
      requires OnTrack() && !IsEnv(a)
      modifies this`world, this`trace
      ensures OnTrack() && old(trace) <= trace
      ensures world == PassStep(old(world), kind, drifts, a)
    {
      RunOneMore(begin, kind, drifts, trace, a);
      trace := trace + [a];
      world := Next(world, kind, drifts, a);
    }

    // The calls a pass makes, each with interference before it. The
    // machine goes where the result sends it.
    method ReadConnection(env: seq<Action>, conn: ConnResult)
      requires Valid() && OnlyEnv(env) && world.w.pc.ReadConn?
      modifies this`world, this`trace
      ensures Valid() && old(trace) <= trace && world.w.pc == AfterConn(q, conn)
      ensures env == [] ==> world == Next(old(world), kind, drifts, ConnRead(conn))
    {
      Interfere(env);
      Step(ConnRead(conn));
    }

    method ForConnection(env: seq<Action>, clientErr: Option<Err>, formatErr: Option<Err>)
      requires Valid() && OnlyEnv(env) && world.w.pc.GetClient?
      modifies this`world, this`trace
      ensures Valid() && old(trace) <= trace && world.w.pc == AfterClient(q, clientErr, formatErr)
      ensures env == [] ==> world == Next(old(world), kind, drifts, ClientBuilt(clientErr, formatErr))
    {
      Interfere(env);
      Step(ClientBuilt(clientErr, formatErr));
    }

    method GetObject(env: seq<Action>, getErr: Option<Err>) returns (observed: Option<nat>)
      requires Valid() && OnlyEnv(env) && world.w.pc.ObserveMq?
      modifies this`world, this`trace
      ensures Valid() && old(trace) <= trace && world.w.pc == AfterObserve(kind, drifts, q, observed, getErr)
      ensures env == [] ==> world == Next(old(world), kind, drifts, Observed(getErr))
    {
      Interfere(env);
      observed := world.mq;
      Step(Observed(getErr));
    }

    method DefineObject(env: seq<Action>, defineErr: Option<Err>, effect: Option<nat>)
      requires Valid() && OnlyEnv(env) && world.w.pc.Define?
      modifies this`world, this`trace
      ensures Valid() && old(trace) <= trace && world.w.pc == AfterDefine(defineErr)
      ensures env == [] ==> world == Next(old(world), kind, drifts, DefineDone(defineErr, effect))
    {
      Interfere(env);
      Step(DefineDone(defineErr, effect));
    }

    method DeleteObjectFromMq(env: seq<Action>, deleteErr: Option<Err>, removed: bool)
      requires Valid() && OnlyEnv(env) && world.w.pc.DeleteMq?
      modifies this`world, this`trace
      ensures Valid() && old(trace) <= trace && world.w.pc == AfterDelete(deleteErr)
      ensures env == [] ==> world == Next(old(world), kind, drifts, DeleteDone(deleteErr, removed))
    {
      Interfere(env);
      Step(DeleteDone(deleteErr, removed));
    }

    // One optimistic write of the object as edited.
    method Store(env: seq<Action>, outcome: WriteOutcome) returns (ok: bool)
      requires OnTrack() && OnlyEnv(env) && Writes(world.w.pc) && q == Edited(world.w)
      modifies this`world, this`trace
      ensures Valid() && old(trace) <= trace
      ensures !ok ==> Finished(true)
      ensures ok ==> world.w.pc == AfterWrite(old(world.w.pc))
      ensures ok && old(world.w.pc).WriteStatus? && old(world.w.pc).after == EndRequeue ==> world.queued
      ensures env == [] ==> world == WriteAny(old(world), outcome)
    {
      Interfere(env);
      ok := Lands(world, outcome);
      WriteIs(world, outcome);
      Step(Write(outcome));
    }

    // patchSyncedStatus: edits the condition and writes the status.
    method PatchSynced(patch: Patch, env: seq<Action>, outcome: WriteOutcome) returns (ok: bool)
      requires Valid() && OnlyEnv(env) && world.w.pc.WriteStatus? && world.w.pc.patch == patch
      modifies this
      ensures Valid() && old(trace) <= trace
      ensures !ok ==> Finished(true)
      ensures ok ==> q == Patched(old(q), patch) && world.w.pc == AfterStatus(old(world.w.pc).after)
      ensures ok && old(world.w.pc).after == EndRequeue ==> world.queued
      ensures env == [] ==> world == WriteAny(old(world), outcome)
    {
      q := q.(reason := patch.reason, reasonGen := q.generation);
      if patch.observe {
        q := q.(observedGen := q.generation);
      }
      ok := Store(env, outcome);
    }

    // Everything that reports a condition and asks for another pass after a delay.
    method Report(patch: Patch, env: seq<Action>, outcome: WriteOutcome) returns (requeue: bool)
      requires Valid() && OnlyEnv(env) && world.w.pc == WriteStatus(patch, EndRequeue)
      modifies this
      ensures Finished(requeue) && requeue && old(trace) <= trace
      ensures env == [] ==> world == WriteAny(old(world), outcome)
    {
      var ok := PatchSynced(patch, env, outcome);
      return true;
    }

    method SetSyncedError(e: Err, env: seq<Action>, outcome: WriteOutcome) returns (requeue: bool)
      requires Valid() && OnlyEnv(env) && world.w.pc == OnError(e)
      modifies this
      ensures Finished(requeue) && old(trace) <= trace
      ensures !requeue ==> e.Terminal?
      ensures env == [] ==> world == WriteAny(old(world), outcome)
    {
      var retry := !e.Terminal?;
      var ok := PatchSynced(Patch(if e.Terminal? then TerminalError else OtherError, false), env, outcome);
      return !ok || retry;
    }

    // From here on: undisturbed, the code takes the steps of the script.
    ghost predicate Followed(s: World, x: Inputs, actions: seq<Action>)
      requires Sane(s)
      reads this
    {
      x.Quiet() ==> world == Run(s, kind, drifts, actions)
    }

    method ReconcileSuspended(x: Inputs) returns (requeue: bool)
      requires Valid() && x.Valid() && q.suspend && world.w.pc == Dispatch(q)
      modifies this
      ensures Finished(requeue) && old(trace) <= trace
      ensures Followed(old(world), x, Conclusion(x))
    {
      if AlreadySuspended(q) {
        EndsAlready(world, kind, drifts, x);
        return false;
      }
      var ok := PatchSynced(Patch(Suspended, false), x.env(3), x.outcome(0));
      if x.Quiet() {
        EndsWithWrite(old(world), kind, drifts, x, world);
      }
      return !ok;
    }

    method OrphanFinalize(x: Inputs) returns (requeue: bool)
      requires Valid() && x.Valid() && world.w.pc == WriteStatus(Patch(Orphaned, false), ThenRemoveFinalizer)
      modifies this
      ensures Finished(requeue) && old(trace) <= trace
      ensures Followed(old(world), x, Conclusion(x))
    {
      var ok := PatchSynced(Patch(Orphaned, false), x.env(3), x.outcome(0));
      if !ok {
        if x.Quiet() {
          EndsWithWrite(old(world), kind, drifts, x, world);
        }
        return true;
      }
      ghost var s1 := world;
      q := q.(finalizer := false);
      ok := Store(x.env(4), x.outcome(1));
      if x.Quiet() {
        EndsWithTwoWrites(old(world), kind, drifts, x, s1, world);
      }
      return !ok;
    }

    method HandleDeletion(x: Inputs) returns (requeue: bool)
      requires Valid() && x.Valid() && world.w.pc == WriteStatus(Patch(Deleting, false), ThenDeleteMq)
      modifies this
      ensures Finished(requeue) && old(trace) <= trace
      ensures Followed(old(world), x, Conclusion(x))
    {
      var ok := PatchSynced(Patch(Deleting, false), x.env(3), x.outcome(0));
      if !ok {
        if x.Quiet() {
          EndsWithWrite(old(world), kind, drifts, x, world);
        }
        return true;
      }
      ghost var s1 := world;
      DeleteObjectFromMq(x.env(4), x.deleteErr, x.removed);
      ghost var s2 := world;
      if x.deleteErr.Some? {
        requeue := SetSyncedError(x.deleteErr.value, x.env(5), x.outcome(1));
      } else {
        q := q.(finalizer := false);
        ok := Store(x.env(5), x.outcome(1));
        requeue := !ok;
      }
      if x.Quiet() {
        EndsWithDeletion(old(world), kind, drifts, x, s1, s2, world);
      }
    }

    method ReconcileDeletion(x: Inputs) returns (requeue: bool)
      requires Valid() && x.Valid() && !q.suspend && q.deleting && world.w.pc == Dispatch(q)
      modifies this
      ensures Finished(requeue) && old(trace) <= trace
      ensures Followed(old(world), x, Rest(x))
    {
      if !q.finalizer {
        SkipsToConclusion(world, kind, drifts, x);
        EndsAlready(world, kind, drifts, x);
        return false;
      }
      if OrphanRequested(q) {
        SkipsToConclusion(world, kind, drifts, x);
        requeue := OrphanFinalize(x);
        return;
      }
      ReadConnection(x.env(1), x.conn);
      ghost var s1 := world;
      if !x.conn.ConnReady? {
        requeue := Report(Patch(Progressing, false), x.env(3), x.outcome(0));
        if x.Quiet() {
          ApproachEnds(old(world), kind, drifts, x, s1);
          SkipsToConclusion(s1, kind, drifts, x);
          EndsWithWrite(s1, kind, drifts, x, world);
        }
        return;
      }
      ForConnection(x.env(2), x.clientErr, x.formatErr);
      ghost var s2 := world;
      if x.clientErr.Some? {
        requeue := Report(Patch(Progressing, false), x.env(3), x.outcome(0));
        if x.Quiet() {
          EndsWithWrite(s2, kind, drifts, x, world);
        }
      } else {
        requeue := HandleDeletion(x);
      }
      if x.Quiet() {
        ApproachGoesOn(old(world), kind, drifts, x, s1, s2);
        SkipsToConclusion(s2, kind, drifts, x);
      }
    }

    // What the controller does about an object it has looked at, short of a command.
    method ReportFinding(d: Decision, x: Inputs) returns (requeue: bool)
      requires Valid() && x.Valid() && d != Apply
      requires world.w.pc == WriteStatus(match d case Blocked => Patch(AdoptionBlocked, false)
                                                case ReportDrift => Patch(DriftDetected, false)
                                                case _ => Patch(Available, true), EndRequeue)
      modifies this
      ensures Finished(requeue) && old(trace) <= trace
      ensures Followed(old(world), x, Conclusion(x))
    {
      match d {
        case Blocked =>
          requeue := Report(Patch(AdoptionBlocked, false), x.env(4), x.outcome(0));
        case ReportDrift =>
          requeue := Report(Patch(DriftDetected, false), x.env(4), x.outcome(0));
        case InSync =>
          requeue := Report(Patch(Available, true), x.env(4), x.outcome(0));
      }
      if x.Quiet() {
        EndsWithWrite(old(world), kind, drifts, x, world);
      }
    }

    method ReportDefined(x: Inputs) returns (requeue: bool)
      requires Valid() && x.Valid() && world.w.pc == AfterDefine(x.defineErr)
      modifies this
      ensures Finished(requeue) && old(trace) <= trace
      ensures Followed(old(world), x, Conclusion(x))
    {
      if x.defineErr.Some? {
        requeue := SetSyncedError(x.defineErr.value, x.env(5), x.outcome(0));
      } else {
        requeue := Report(Patch(Available, true), x.env(5), x.outcome(0));
      }
      if x.Quiet() {
        EndsWithWrite(old(world), kind, drifts, x, world);
      }
    }

    // ensureQueue and its fellows, then the condition that reports the outcome.
    method EnsureObject(x: Inputs) returns (requeue: bool)
      requires Valid() && x.Valid() && world.w.pc == ObserveMq
      modifies this
      ensures Finished(requeue) && old(trace) <= trace
      ensures Followed(old(world), x, Command(x) + Conclusion(x))
    {
      var observed := GetObject(x.env(3), x.getErr);
      ghost var s1 := world;
      if x.getErr.Some? {
        requeue := SetSyncedError(x.getErr.value, x.env(4), x.outcome(0));
        if x.Quiet() {
          NoCommand(old(world), kind, drifts, x, s1);
          EndsWithWrite(s1, kind, drifts, x, world);
        }
        return;
      }
      var d := Decide(kind, q, observed.Some?, observed.Some? && drifts(q.spec, observed.value));
      if d != Apply {
        requeue := ReportFinding(d, x);
        if x.Quiet() {
          NoCommand(old(world), kind, drifts, x, s1);
        }
      } else {
        DefineObject(x.env(4), x.defineErr, x.effect);
        ghost var s2 := world;
        requeue := ReportDefined(x);
        if x.Quiet() {
          OneCommand(old(world), kind, drifts, x, s1, s2);
        }
      }
    }

    // A live resource whose client is at hand.
    method EnsureSynced(x: Inputs) returns (requeue: bool)
      requires Valid() && x.Valid() && !q.deleting && world.w.pc == AfterClient(q, x.clientErr, x.formatErr)
      modifies this
      ensures Finished(requeue) && old(trace) <= trace
      ensures Followed(old(world), x, Command(x) + Conclusion(x))
    {
      if x.clientErr.None? && q.finalizer && x.formatErr.None? {
        requeue := EnsureObject(x);
        return;
      }
      SkipsToConclusion(world, kind, drifts, x);
      if x.clientErr.Some? {
        requeue := SetSyncedError(x.clientErr.value, x.env(3), x.outcome(0));
      } else if !q.finalizer {
        q := q.(finalizer := true);
        var ok := Store(x.env(3), x.outcome(0));
        requeue := !ok;
      } else {
        requeue := SetSyncedError(x.formatErr.value, x.env(3), x.outcome(0));
      }
      if x.Quiet() {
        EndsWithWrite(old(world), kind, drifts, x, world);
      }
    }

    method ReconcileLive(x: Inputs) returns (requeue: bool)
      requires Valid() && x.Valid() && !q.suspend && !q.deleting && world.w.pc == Dispatch(q)
      modifies this
      ensures Finished(requeue) && old(trace) <= trace
      ensures Followed(old(world), x, Rest(x))
    {
      ReadConnection(x.env(1), x.conn);
      ghost var s1 := world;
      if x.conn.ConnReady? {
        ForConnection(x.env(2), x.clientErr, x.formatErr);
        ghost var s2 := world;
        requeue := EnsureSynced(x);
        if x.Quiet() {
          ApproachGoesOn(old(world), kind, drifts, x, s1, s2);
        }
        return;
      }
      if x.conn.ConnMissing? {
        requeue := SetSyncedError(x.conn.err, x.env(3), x.outcome(0));
      } else {
        requeue := Report(Patch(Progressing, false), x.env(3), x.outcome(0));
      }
      if x.Quiet() {
        ApproachEnds(old(world), kind, drifts, x, s1);
        SkipsToConclusion(s1, kind, drifts, x);
        EndsWithWrite(s1, kind, drifts, x, world);
      }
    }

    // The object has been read.
    method ReconcileFound(x: Inputs) returns (requeue: bool)
      requires Valid() && x.Valid() && world.w.pc == Dispatch(q)
      modifies this
      ensures Finished(requeue) && old(trace) <= trace
      ensures Followed(old(world), x, Rest(x))
    {
      if q.suspend {
        SkipsToConclusion(world, kind, drifts, x);
        requeue := ReconcileSuspended(x);
      } else if q.deleting {
        requeue := ReconcileDeletion(x);
      } else {
        requeue := ReconcileLive(x);
      }
    }

    // The pass, for a key taken from the queue: it runs to its end, every step it takes is a
    // step of the machine, and a requested requeue is not lost. Undisturbed, it is the run of
    // the script.
    method RunPass(x: Inputs) returns (requeue: bool)
      requires Valid() && x.Valid() && world.w.pc.Idle? && world.queued
      modifies this
      ensures Finished(requeue) && old(trace) <= trace
      ensures Followed(old(world), x, Script(x))
    {
      Interfere(x.env(0));
      var found := world.history[world.seen];
      Step(Begin(x.getFails));
      if x.Quiet() {
        RunsBegin(old(world), kind, drifts, x);
        RunOn(old(world), kind, drifts, [Begin(x.getFails)], Rest(x));
      }
      if x.getFails || found.Gone? {
        SkipsToConclusion(world, kind, drifts, x);
        EndsAlready(world, kind, drifts, x);
        return x.getFails;
      }
      q := found.obj;
      requeue := ReconcileFound(x);
    }

    // Hence, from a fresh start, the pass leaves nothing undone without a trigger.
    method Reconcile(x: Inputs) returns (requeue: bool)
      requires Valid() && x.Valid() && world.w.pc.Idle? && world.queued
      modifies this
      ensures Finished(requeue) && old(trace) <= trace
      ensures Followed(old(world), x, Script(x))
      ensures Initial(begin) ==> world.queued || NoWedge.Changed(world.history, world.seen) || NoWedge.Resting(Latest(world))
    {
      requeue := RunPass(x);
      if Initial(begin) {
        NoWedge.NoSilentWedge(begin, kind, drifts, trace);
      }
    }
  }
}
