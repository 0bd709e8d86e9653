/**
 The display-capability cache of a client: which extra attributes of a local queue mqweb can
 DISPLAY is asked once per attribute and remembered, with any number of callers at work.
 */
module ProbeCache {
  import opened Options
  import opened Parameters
  import Convergence

  type Cache = map<string, bool>

  // The candidates mqweb can display, in the order they are listed.
  function Displayable(candidates: seq<string>, can: string -> bool): seq<string> {
    if candidates == [] then []
    else
      var last := candidates[|candidates|-1];
      Displayable(candidates[..|candidates|-1], can) + if can(last) then [last] else []
  }

  lemma {:induction false} DisplayableIff(candidates: seq<string>, can: string -> bool, k: string)
    ensures k in Displayable(candidates, can) <==> k in candidates && can(k)
  {
    if candidates != [] {
      DisplayableIff(candidates[..|candidates|-1], can, k);
      assert candidates == candidates[..|candidates|-1] + [candidates[|candidates|-1]];
    }
  }

  // The attributes always displayed, those to be probed, and what mqweb can display.
  datatype Setup = Setup(base: seq<string>, candidates: seq<string>, can: string -> bool) {
    function Resolved(): seq<string> {
      base + Displayable(candidates, can)
    }
  }

  function LocalSetup(can: string -> bool): Setup {
    Setup(BASE_LOCAL, PROBED_CANDIDATES, can)
  }

  lemma DisplayableSnoc(candidates: seq<string>, can: string -> bool, i: nat)
    requires i < |candidates|
    ensures Displayable(candidates[..i + 1], can) ==
      Displayable(candidates[..i], can) + if can(candidates[i]) then [candidates[i]] else []
  {
    assert candidates[..i + 1][..i] == candidates[..i];
  }

  // The resolved list is what DISPLAY of a local queue asks for and drift detection compares.
  lemma ResolvedIsDisplayed(can: string -> bool)
    ensures var kind := LocalQueue(Displayable(PROBED_CANDIDATES, can));
            LocalSetup(can).Resolved() == DisplayParameters(kind) && Convergence.ValidKind(kind)
  {
    var probed := Displayable(PROBED_CANDIDATES, can);
    forall i | 0 <= i < |probed|
      ensures probed[i] in PROBED_CANDIDATES
    {
      DisplayableIff(PROBED_CANDIDATES, can, probed[i]);
    }
  }

  // By name: the five that are always displayed, and those of the six candidates that can be.
  lemma ResolvedNames(can: string -> bool, k: string)
    ensures k in LocalSetup(can).Resolved() <==>
      || k == "maxdepth" || k == "descr" || k == "defpsist" || k == "get" || k == "put"
      || (can(k) && (k == "share" || k == "defopts" || k == "bothresh" || k == "boqname" || k == "usage" || k == "maxmsglen"))
  {
    DisplayableIff(PROBED_CANDIDATES, can, k);
  }

  /* ---------- the two locked regions ---------- */

  function Cached(cache: Cache, attr: string): Option<bool> {
    if attr in cache then Some(cache[attr]) else None
  }

  function Remembered(cache: Cache, attr: string, displayable: bool): Cache {
    cache[attr := displayable]
  }

  /* ---------- any number of callers ---------- */

  // Where a caller is: about to look attribute `i` up, about to ask mqweb for it, about to
  // store the answer, or finished. `warm` tells that every answer was cached when it began.
  datatype Pc = Looking | Asking | Storing(displayable: bool) | Done | GivenUp
  datatype Caller = Caller(pc: Pc, i: nat, list: seq<string>, requests: nat, warm: bool)
  datatype System = System(cache: Cache, callers: seq<Caller>)

  // Asking may fail; an answer is what mqweb is able to do.
  datatype Action = Begin | Advance(c: nat, ok: bool)

  predicate Full(candidates: seq<string>, cache: Cache) {
    forall j :: 0 <= j < |candidates| ==> candidates[j] in cache
  }

  function Taken(p: Setup, caller: Caller, displayable: bool): Caller
    requires caller.i < |p.candidates|
  {
    var attr := p.candidates[caller.i];
    caller.(
      pc := if caller.i + 1 == |p.candidates| then Done else Looking,
      i := caller.i + 1,
      list := caller.list + if displayable then [attr] else [])
  }

  function Started(p: Setup, cache: Cache): Caller {
    Caller(if p.candidates == [] then Done else Looking, 0, p.base, 0, Full(p.candidates, cache))
  }

  function StepCaller(p: Setup, cache: Cache, caller: Caller, ok: bool): (Cache, Caller) {
    if caller.i >= |p.candidates| then (cache, caller)
    else
      var attr := p.candidates[caller.i];
      match caller.pc
      case Looking =>
        (match Cached(cache, attr)
         case Some(displayable) => (cache, Taken(p, caller, displayable))
         case None => (cache, caller.(pc := Asking)))
      case Asking =>
        var asked := caller.(requests := caller.requests + 1);
        (cache, asked.(pc := if ok then Storing(p.can(attr)) else GivenUp))
      case Storing(displayable) => (Remembered(cache, attr, displayable), Taken(p, caller, displayable))
      case _ => (cache, caller)
  }

  function Next(p: Setup, s: System, a: Action): System {
    match a
    case Begin => s.(callers := s.callers + [Started(p, s.cache)])
    case Advance(c, ok) =>
      if c >= |s.callers| then s
      else
        var (cache, caller) := StepCaller(p, s.cache, s.callers[c], ok);
        System(cache, s.callers[c := caller])
  }

  function Run(p: Setup, actions: seq<Action>): System {
    if actions == [] then System(map[], []) else Next(p, Run(p, actions[..|actions|-1]), actions[|actions|-1])
  }

  // The cache knows only the truth; a caller has the right list so far, and everything it has
  // passed is cached; a warm caller has asked nothing.
  predicate CallerOk(p: Setup, cache: Cache, caller: Caller) {
    && caller.i <= |p.candidates|
    && (caller.pc == Done <==> caller.i == |p.candidates|)
    && caller.list == p.base + Displayable(p.candidates[..caller.i], p.can)
    && (forall j :: 0 <= j < caller.i ==> p.candidates[j] in cache)
    && (caller.pc.Storing? ==> caller.pc.displayable == p.can(p.candidates[caller.i]))
    && (caller.warm ==> Full(p.candidates, cache) && caller.requests == 0 && (caller.pc == Looking || caller.pc == Done))
  }

  ghost predicate Truthful(p: Setup, cache: Cache) {
    forall k :: k in cache ==> cache[k] == p.can(k)
  }

  ghost predicate Inv(p: Setup, s: System) {
    Truthful(p, s.cache) && forall c :: 0 <= c < |s.callers| ==> CallerOk(p, s.cache, s.callers[c])
  }

  ghost predicate Grows(a: Cache, b: Cache) {
    forall k :: k in a ==> k in b
  }

  lemma TakenOk(p: Setup, cache: Cache, caller: Caller, displayable: bool)
    requires CallerOk(p, cache, caller) && caller.i < |p.candidates|
    requires p.candidates[caller.i] in cache && displayable == p.can(p.candidates[caller.i])
    ensures CallerOk(p, cache, Taken(p, caller, displayable))
  {
    DisplayableSnoc(p.candidates, p.can, caller.i);
  }

  lemma StepKeepsCaller(p: Setup, cache: Cache, caller: Caller, ok: bool)
    requires Truthful(p, cache) && CallerOk(p, cache, caller)
    ensures var (cache', caller') := StepCaller(p, cache, caller, ok);
            Truthful(p, cache') && Grows(cache, cache') && CallerOk(p, cache', caller')
  {
    if caller.i < |p.candidates| {
      var attr := p.candidates[caller.i];
      if caller.pc == Looking && attr in cache {
        TakenOk(p, cache, caller, cache[attr]);
      } else if caller.pc.Storing? {
        var cache' := cache[attr := caller.pc.displayable];
        GrowthKeepsCaller(p, cache, cache', caller);
        TakenOk(p, cache', caller, caller.pc.displayable);
      }
    }
  }

  lemma GrowthKeepsCaller(p: Setup, cache: Cache, cache': Cache, caller: Caller)
    requires Grows(cache, cache') && CallerOk(p, cache, caller)
    ensures CallerOk(p, cache', caller)
  {
  }

  lemma NextKeepsInv(p: Setup, s: System, a: Action)
    requires Inv(p, s)
    ensures Inv(p, Next(p, s, a)) && Grows(s.cache, Next(p, s, a).cache)
  {
    match a
    case Begin =>
      assert p.candidates[..0] == [];
    case Advance(c, ok) =>
      if c < |s.callers| {
        StepKeepsCaller(p, s.cache, s.callers[c], ok);
        var s' := Next(p, s, a);
        forall d | 0 <= d < |s'.callers|
          ensures CallerOk(p, s'.cache, s'.callers[d])
        {
          if d != c {
            GrowthKeepsCaller(p, s.cache, s'.cache, s.callers[d]);
          }
        }
      }
  }

  lemma {:induction false} RunKeepsInv(p: Setup, actions: seq<Action>)
    ensures Inv(p, Run(p, actions))
  {
    if actions != [] {
      RunKeepsInv(p, actions[..|actions|-1]);
      NextKeepsInv(p, Run(p, actions[..|actions|-1]), actions[|actions|-1]);
    }
  }

  // Every caller that finishes has the one right list; once one has, every later caller gets
  // the same list without a single request, and cannot fail.
  lemma Agreement(p: Setup, actions: seq<Action>, c: nat)
    requires c < |Run(p, actions).callers|
    ensures var caller := Run(p, actions).callers[c];
            && (caller.pc == Done ==> caller.list == p.Resolved())
            && (caller.warm ==> caller.requests == 0 && caller.pc != GivenUp)
  {
    RunKeepsInv(p, actions);
    assert p.candidates[..|p.candidates|] == p.candidates;
  }

  lemma {:induction false} CacheGrowsAlong(p: Setup, actions: seq<Action>, more: seq<Action>)
    ensures Grows(Run(p, actions).cache, Run(p, actions + more).cache)
    decreases |more|
  {
    if more == [] {
      assert actions + more == actions;
    } else {
      var before := more[..|more|-1];
      assert (actions + more)[..|actions + more|-1] == actions + before;
      CacheGrowsAlong(p, actions, before);
      RunKeepsInv(p, actions + before);
      NextKeepsInv(p, Run(p, actions + before), more[|more|-1]);
    }
  }

  // Once any caller has finished, every caller that begins at any later time finds every
  // answer cached.
  lemma WarmAfterFirst(p: Setup, actions: seq<Action>, c: nat, more: seq<Action>)
    requires c < |Run(p, actions).callers| && Run(p, actions).callers[c].pc == Done
    ensures var s := Run(p, actions + more); Next(p, s, Begin).callers[|s.callers|].warm
  {
    RunKeepsInv(p, actions);
    CacheGrowsAlong(p, actions, more);
  }

  /* ---------- the code of one caller ---------- */

  class DisplayProbe {
    var cache: Cache

    constructor ()
      ensures cache == map[]
    {
      cache := map[];
    }

    method LookUp(attr: string) returns (displayable: Option<bool>)
      ensures displayable == Cached(cache, attr)
    {
      if attr in cache {
        return Some(cache[attr]);
      }
      return None;
    }

    method Remember(attr: string, displayable: bool)
      modifies this
      ensures cache == Remembered(old(cache), attr, displayable)
    {
      cache := cache[attr := displayable];
    }

    // What other callers store meanwhile.
    method Others(p: Setup, more: Cache)
      requires Truthful(p, cache) && Truthful(p, more)
      modifies this
      ensures Truthful(p, cache) && Grows(old(cache), cache)
    {
      cache := cache + more;
    }

    // The lock is released while mqweb is asked. `me` is the caller of the state machine that
    // this code follows; `ok` tells whether mqweb answers, `others` what happens before each
    // region.
    method ProbeCached(p: Setup, attr: string, ok: bool, others: (Cache, Cache), ghost me: Caller)
      returns (displayable: Option<bool>, requests: nat, ghost me': Caller)
      requires Truthful(p, cache) && Truthful(p, others.0) && Truthful(p, others.1)
      requires CallerOk(p, cache, me) && me.pc == Looking && me.i < |p.candidates| && attr == p.candidates[me.i]
      modifies this
      ensures Truthful(p, cache) && Grows(old(cache), cache) && CallerOk(p, cache, me')
      ensures me'.requests == me.requests + requests && me'.warm == me.warm && requests <= 1
      ensures if displayable.Some? then me' == Taken(p, me, displayable.value).(requests := me'.requests)
              else me'.pc == GivenUp
      ensures displayable.None? ==> !ok
    {
      Others(p, others.0);
      GrowthKeepsCaller(p, old(cache), cache, me);
      StepKeepsCaller(p, cache, me, ok);
      displayable := LookUp(attr);
      me' := StepCaller(p, cache, me, ok).1;
      if displayable.Some? {
        return displayable, 0, me';
      }
      StepKeepsCaller(p, cache, me', ok);
      me' := StepCaller(p, cache, me', ok).1;
      if !ok {
        return None, 1, me';
      }
      ghost var asked := cache;
      Others(p, others.1);
      GrowthKeepsCaller(p, asked, cache, me');
      StepKeepsCaller(p, cache, me', ok);
      me' := StepCaller(p, cache, me', ok).1;
      Remember(attr, p.can(attr));
      return Some(p.can(attr)), 1, me';
    }

    // The loop is one caller of the state machine from start to end: a list it returns is the
    // right one, and with a full cache it asks nothing and does not fail.
    method Resolve(p: Setup, ok: nat -> bool, others: nat -> (Cache, Cache))
      returns (list: Option<seq<string>>, requests: nat)
      requires Truthful(p, cache) && forall i :: Truthful(p, others(i).0) && Truthful(p, others(i).1)
      modifies this
      ensures Truthful(p, cache) && Grows(old(cache), cache)
      ensures list.Some? ==> list.value == p.Resolved() && Full(p.candidates, cache)
      ensures Full(p.candidates, old(cache)) ==> list.Some? && requests == 0
      ensures (forall i :: ok(i)) ==> list.Some?
      ensures requests <= |p.candidates|
    {
      ghost var me := Started(p, cache);
      assert p.candidates[..0] == [];
      var base := p.base;
      requests := 0;
      for i := 0 to |p.candidates|
        invariant Truthful(p, cache) && Grows(old(cache), cache) && CallerOk(p, cache, me)
        invariant me.i == i && me.pc == (if i == |p.candidates| then Done else Looking)
        invariant me.list == base && me.requests == requests && me.warm == Full(p.candidates, old(cache))
        invariant requests <= i
      {
        var displayable, asked;
        displayable, asked, me := ProbeCached(p, p.candidates[i], ok(i), others(i), me);
        requests := requests + asked;
        if displayable.None? {
          return None, requests;
        }
        if displayable.value {
          base := base + [p.candidates[i]];
        }
      }
      assert p.candidates[..|p.candidates|] == p.candidates;
      return Some(base), requests;
    }
  }
}
