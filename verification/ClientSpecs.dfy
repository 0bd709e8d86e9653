/**
 Whether a lookup is handed a client that was built for the caller's own spec: exactly when no
 two specs that are looked up agree on all that a cache entry tells about them.
 */
module ClientSpecs {
  import opened Options
  import opened ClientCache

  /* ---------- when every caller gets its own ---------- */

  // All that a cache entry tells about the spec it was built for. Versions belong to one
  // Secret, so a fingerprint tells the Secrets' names too; it does not tell the rest.
  predicate SameIdentity(x: Conn, y: Conn) {
    x.key == y.key && x.generation == y.generation && x.cred == y.cred && x.ca == y.ca
  }

  // Every lookup that has returned got a client built for its own spec.
  ghost predicate OwnSpecs(s: System) {
    forall c :: c in s.calls && s.calls[c].Get? && s.calls[c].pc.Returned? ==>
      s.calls[c].pc.admin < |s.pool.clients| && s.pool.clients[s.calls[c].pc.admin].conn == s.calls[c].conn
  }

  ghost predicate BuiltByCall(calls: map<nat, Call>, conn: Conn) {
    exists c :: c in calls && calls[c].Get? && calls[c].conn == conn
  }

  ghost predicate ClientsBuilt(s: System) {
    forall id :: 0 <= id < |s.pool.clients| ==> BuiltByCall(s.calls, s.pool.clients[id].conn)
  }

  lemma CallKeepsConn(st: Store, p: Pool, c: nat, call: Call, fail: bool)
    requires Sized(p)
    ensures var r := StepCall(st, p, c, call, fail);
            && (call.Get? <==> r.1.Get?) && (call.Get? ==> r.1.conn == call.conn)
            && (r.0.clients == p.clients || (call.Get? && exists credRV, caRV :: r.0.clients == p.clients + [Client(call.conn, credRV, caRV)]))
  {
    if call.Get? && call.pc.Create? && !fail {
      assert StepCall(st, p, c, call, fail).0.clients == p.clients + [Client(call.conn, call.pc.credRV, call.pc.caRV)];
    }
  }

  lemma NextClientsBuilt(s: System, a: Action)
    requires Sized(s.pool) && ClientsBuilt(s)
    ensures ClientsBuilt(Next(s, a))
  {
    var s' := Next(s, a);
    if a.Advance? && a.c in s.calls {
      CallKeepsConn(s.store, s.pool, a.c, s.calls[a.c], a.fail);
    }
    forall id | 0 <= id < |s'.pool.clients|
      ensures BuiltByCall(s'.calls, s'.pool.clients[id].conn)
    {
      if id < |s.pool.clients| {
        assert BuiltByCall(s.calls, s.pool.clients[id].conn);
        var c :| c in s.calls && s.calls[c].Get? && s.calls[c].conn == s.pool.clients[id].conn;
        assert c in s'.calls && s'.calls[c].Get? && s'.calls[c].conn == s'.pool.clients[id].conn;
      } else {
        assert a.c in s'.calls && s'.calls[a.c].Get? && s'.calls[a.c].conn == s'.pool.clients[id].conn;
      }
    }
  }

  lemma {:induction false} RunClientsBuilt(actions: seq<Action>)
    ensures ClientsBuilt(Run(actions))
  {
    if actions != [] {
      RunClientsBuilt(actions[..|actions|-1]);
      NextClientsBuilt(Run(actions[..|actions|-1]), actions[|actions|-1]);
    }
  }

  lemma ReturnedClientHasCallersSpec(actions: seq<Action>, c: nat)
    requires c in Run(actions).calls && Run(actions).calls[c].Get? && Run(actions).calls[c].pc.Returned?
    requires var s := Run(actions);
             forall d :: d in s.calls && s.calls[d].Get? && SameIdentity(s.calls[d].conn, s.calls[c].conn) ==>
               s.calls[d].conn == s.calls[c].conn
    ensures var s := Run(actions);
            s.calls[c].pc.admin < |s.pool.clients| && s.pool.clients[s.calls[c].pc.admin].conn == s.calls[c].conn
  {
    ReturnedClientIsFresh(actions, c);
    RunClientsBuilt(actions);
    var s := Run(actions);
    var conn := s.pool.clients[s.calls[c].pc.admin].conn;
    assert BuiltByCall(s.calls, conn);
    var d :| d in s.calls && s.calls[d].Get? && s.calls[d].conn == conn;
  }

  // All lookups of a run are for these specs.
  ghost predicate LooksUp(actions: seq<Action>, specs: iset<Conn>) {
    forall i :: 0 <= i < |actions| && actions[i].BeginGet? ==> actions[i].conn in specs
  }

  lemma {:induction false} CallsAreFor(actions: seq<Action>, specs: iset<Conn>, c: nat)
    requires LooksUp(actions, specs) && c in Run(actions).calls && Run(actions).calls[c].Get?
    ensures Run(actions).calls[c].conn in specs
  {
    var s, a := Run(actions[..|actions|-1]), actions[|actions|-1];
    if a.Advance? && a.c in s.calls {
      CallKeepsConn(s.store, s.pool, a.c, s.calls[a.c], a.fail);
    }
    if c in s.calls {
      CallsAreFor(actions[..|actions|-1], specs, c);
    }
  }

  /* ---------- runs in which they were not ---------- */

  ghost predicate IsAt(s: System, c: nat, conn: Conn, pc: Pc) {
    c in s.calls && s.calls[c].Get? && s.calls[c].conn == conn && s.calls[c].pc == pc
  }

  // Only call c has moved, and the Secrets and the cache are as they were.
  ghost predicate OnlyMoved(s: System, t: System, c: nat) {
    && t.store == s.store && t.pool.cache == s.pool.cache && s.pool.clients <= t.pool.clients
    && (forall d :: d in s.calls ==> d in t.calls)
    && (forall d :: d in t.calls && d != c ==> d in s.calls && t.calls[d] == s.calls[d])
  }

  lemma MovedOnly(s: System, p: Pool, c: nat, call: Call)
    requires p.cache == s.pool.cache && s.pool.clients <= p.clients
    ensures OnlyMoved(s, System(s.store, p, s.calls[c := call]), c)
  {
  }

  lemma BeginIs(actions: seq<Action>, c: nat, conn: Conn)
    requires c !in Run(actions).calls
    ensures var s := Run(actions);
            Run(actions + [BeginGet(c, conn)]) == System(s.store, s.pool, s.calls[c := Get(conn, CurrentFloor(s.store, conn), FpCred)])
  {
    RunSnoc(actions, BeginGet(c, conn));
  }

  // A run goes on from another one, with lookups of these specs only.
  ghost predicate GoesOn(actions: seq<Action>, more: seq<Action>, specs: iset<Conn>) {
    actions <= more && LooksUp(more, specs)
  }

  // Up to where it publishes, a step of a lookup leaves the cache alone.
  lemma Moves(s: System, c: nat)
    requires Sized(s.pool) && c in s.calls && s.calls[c].Get? && !s.calls[c].pc.Publish?
    ensures var r := StepCall(s.store, s.pool, c, s.calls[c], false); OnlyMoved(s, System(s.store, r.0, s.calls[c := r.1]), c)
  {
    var r := StepCall(s.store, s.pool, c, s.calls[c], false);
    MovedOnly(s, r.0, c, r.1);
  }

  lemma OnlyMovedTwice(s: System, t: System, u: System, c: nat)
    requires OnlyMoved(s, t, c) && OnlyMoved(t, u, c)
    ensures OnlyMoved(s, u, c)
  {
  }

  // One step of a lookup that reads a Secret.
  lemma ReadStep(actions: seq<Action>, c: nat, conn: Conn, pc: Pc, specs: iset<Conn>) returns (more: seq<Action>)
    requires LooksUp(actions, specs) && IsAt(Run(actions), c, conn, pc)
    requires Due(conn, pc).Some? && Due(conn, pc).value in Run(actions).store.secrets
    ensures GoesOn(actions, more, specs) && OnlyMoved(Run(actions), Run(more), c)
    ensures Run(more).pool == Run(actions).pool
    ensures IsAt(Run(more), c, conn, AfterRead(conn, pc, Some(Run(actions).store.secrets[Due(conn, pc).value])))
  {
    more := actions + [Advance(c, false)];
    AdvanceIs(actions, c, false);
    Moves(Run(actions), c);
  }

  lemma ReadsFingerprint(actions: seq<Action>, c: nat, conn: Conn, specs: iset<Conn>) returns (more: seq<Action>)
    requires LooksUp(actions, specs) && IsAt(Run(actions), c, conn, FpCred) && Readable(Run(actions).store, conn)
    ensures GoesOn(actions, more, specs) && OnlyMoved(Run(actions), Run(more), c)
    ensures Run(more).pool == Run(actions).pool
    ensures IsAt(Run(more), c, conn, Look(Current(Run(actions).store, conn)))
  {
    var a1 := ReadStep(actions, c, conn, FpCred, specs);
    more := a1;
    if conn.ca.Some? {
      more := ReadStep(a1, c, conn, FpCa(Run(actions).store.secrets[conn.cred]), specs);
      OnlyMovedTwice(Run(actions), Run(a1), Run(more), c);
    }
  }

  lemma ReadsConfig(actions: seq<Action>, c: nat, conn: Conn, fp: Fingerprint, specs: iset<Conn>) returns (more: seq<Action>)
    requires LooksUp(actions, specs) && IsAt(Run(actions), c, conn, CfgCred(fp)) && Readable(Run(actions).store, conn)
    ensures GoesOn(actions, more, specs) && OnlyMoved(Run(actions), Run(more), c)
    ensures Run(more).pool == Run(actions).pool
    ensures var now := Current(Run(actions).store, conn); IsAt(Run(more), c, conn, Create(fp, now.credRV, now.caRV))
  {
    var a1 := ReadStep(actions, c, conn, CfgCred(fp), specs);
    more := a1;
    if conn.ca.Some? {
      more := ReadStep(a1, c, conn, CfgCa(fp, Run(actions).store.secrets[conn.cred]), specs);
      OnlyMovedTwice(Run(actions), Run(a1), Run(more), c);
    }
  }

  // A look at the cache.
  lemma LooksAtCache(actions: seq<Action>, c: nat, conn: Conn, fp: Fingerprint, specs: iset<Conn>) returns (more: seq<Action>)
    requires LooksUp(actions, specs) && IsAt(Run(actions), c, conn, Look(fp))
    ensures GoesOn(actions, more, specs) && OnlyMoved(Run(actions), Run(more), c) && Run(more).pool == Run(actions).pool
    ensures match Hit(Run(actions).pool.cache, conn.key, fp)
            case Some(admin) => IsAt(Run(more), c, conn, Returned(fp, admin))
            case None => IsAt(Run(more), c, conn, CfgCred(fp))
  {
    more := actions + [Advance(c, false)];
    AdvanceIs(actions, c, false);
    Moves(Run(actions), c);
  }

  lemma Builds(actions: seq<Action>, c: nat, conn: Conn, fp: Fingerprint, credRV: nat, caRV: nat, specs: iset<Conn>)
    returns (more: seq<Action>)
    requires LooksUp(actions, specs) && IsAt(Run(actions), c, conn, Create(fp, credRV, caRV))
    ensures GoesOn(actions, more, specs) && OnlyMoved(Run(actions), Run(more), c)
    ensures IsAt(Run(more), c, conn, Publish(fp, |Run(actions).pool.clients|))
  {
    more := actions + [Advance(c, false)];
    AdvanceIs(actions, c, false);
    Moves(Run(actions), c);
  }

  lemma Begins(actions: seq<Action>, c: nat, conn: Conn, specs: iset<Conn>) returns (more: seq<Action>)
    requires LooksUp(actions, specs) && c !in Run(actions).calls && conn in specs
    ensures GoesOn(actions, more, specs) && OnlyMoved(Run(actions), Run(more), c) && Run(more).pool == Run(actions).pool
    ensures IsAt(Run(more), c, conn, FpCred)
  {
    more := actions + [BeginGet(c, conn)];
    BeginIs(actions, c, conn);
    var s := Run(actions);
    MovedOnly(s, s.pool, c, Get(conn, CurrentFloor(s.store, conn), FpCred));
  }

  // With nothing cached under its key, a lookup gets to where it is about to publish.
  lemma GetsToPublish(actions: seq<Action>, c: nat, conn: Conn, specs: iset<Conn>) returns (more: seq<Action>, built: nat)
    requires LooksUp(actions, specs) && conn in specs && c !in Run(actions).calls
    requires Readable(Run(actions).store, conn) && conn.key !in Run(actions).pool.cache
    ensures GoesOn(actions, more, specs) && OnlyMoved(Run(actions), Run(more), c)
    ensures IsAt(Run(more), c, conn, Publish(Current(Run(actions).store, conn), built))
  {
    var now := Current(Run(actions).store, conn);
    var a1 := Begins(actions, c, conn, specs);
    var a2 := ReadsFingerprint(a1, c, conn, specs);
    var a3 := LooksAtCache(a2, c, conn, now, specs);
    var a4 := ReadsConfig(a3, c, conn, now, specs);
    more := Builds(a4, c, conn, now, now.credRV, now.caRV, specs);
    built := |Run(a4).pool.clients|;
  }

  lemma BeginReleaseIs(actions: seq<Action>, c: nat, key: string)
    requires c !in Run(actions).calls
    ensures var s := Run(actions);
            Run(actions + [BeginRelease(c, key)]) == System(s.store, s.pool, s.calls[c := Release(key, Evicting)])
  {
    RunSnoc(actions, BeginRelease(c, key));
  }

  lemma NothingToEvict(s: System, c: nat, key: string)
    requires Sized(s.pool) && c in s.calls && s.calls[c] == Release(key, Evicting) && key !in s.pool.cache
    ensures Next(s, Advance(c, false)) == System(s.store, s.pool, s.calls[c := Release(key, Released)])
  {
  }

  // The connection is released meanwhile, and there is nothing to evict yet.
  lemma ReleasedTooEarly(actions: seq<Action>, c: nat, key: string, specs: iset<Conn>) returns (more: seq<Action>)
    requires LooksUp(actions, specs) && c !in Run(actions).calls && key !in Run(actions).pool.cache
    ensures GoesOn(actions, more, specs) && OnlyMoved(Run(actions), Run(more), c) && Run(more).pool == Run(actions).pool
    ensures c in Run(more).calls && Run(more).calls[c] == Release(key, Released)
  {
    var s := Run(actions);
    var a1 := actions + [BeginRelease(c, key)];
    BeginReleaseIs(actions, c, key);
    more := a1 + [Advance(c, false)];
    RunSnoc(a1, Advance(c, false));
    NothingToEvict(Run(a1), c, key);
    assert s.calls[c := Release(key, Evicting)][c := Release(key, Released)] == s.calls[c := Release(key, Released)];
    MovedOnly(s, s.pool, c, Release(key, Released));
  }

  lemma PublishesLate(actions: seq<Action>, c: nat, conn: Conn, fp: Fingerprint, built: nat, specs: iset<Conn>)
    returns (more: seq<Action>)
    requires LooksUp(actions, specs) && IsAt(Run(actions), c, conn, Publish(fp, built))
    requires conn.key !in Run(actions).pool.cache
    ensures GoesOn(actions, more, specs) && Run(more).store == Run(actions).store
    ensures Run(more).calls.Keys == Run(actions).calls.Keys && Run(more).pool.clients == Run(actions).pool.clients
    ensures built < |Run(actions).pool.clients| && Run(actions).pool.clients[built].conn == conn
    ensures Hit(Run(more).pool.cache, conn.key, fp) == Some(built)
  {
    more := actions + [Advance(c, false)];
    AdvanceIs(actions, c, false);
    RunFresh(actions);
    assert CallFresh(Run(actions).store, Run(actions).pool.clients, Run(actions).calls[c]);
  }

  // Whenever a lookup is about to publish and nothing is cached under its key (its connection
  // was deleted and released meanwhile), a recreated connection of the same identity and
  // unchanged Secrets is handed that lookup's client, whatever else the new spec says.
  lemma LatePublishServesRecreatedConnection(actions: seq<Action>, c: nat, conn: Conn, built: nat, d: nat,
                                             recreated: Conn, specs: iset<Conn>) returns (more: seq<Action>)
    requires LooksUp(actions, specs) && recreated in specs && d !in Run(actions).calls && SameIdentity(conn, recreated)
    requires Readable(Run(actions).store, conn) && conn.key !in Run(actions).pool.cache
    requires IsAt(Run(actions), c, conn, Publish(Current(Run(actions).store, conn), built))
    ensures GoesOn(actions, more, specs) && built < |Run(more).pool.clients| && Run(more).pool.clients[built].conn == conn
    ensures IsAt(Run(more), d, recreated, Returned(Current(Run(actions).store, conn), built))
  {
    var now := Current(Run(actions).store, conn);
    var a1 := PublishesLate(actions, c, conn, now, built, specs);
    var a2 := Begins(a1, d, recreated, specs);
    var a3 := ReadsFingerprint(a2, d, recreated, specs);
    more := LooksAtCache(a3, d, recreated, now, specs);
  }

  lemma SecretsExist(conn: Conn, specs: iset<Conn>) returns (actions: seq<Action>)
    ensures LooksUp(actions, specs) && Readable(Run(actions).store, conn)
    ensures Run(actions).pool == Start.pool && Run(actions).calls == map[]
  {
    RunSnoc([], Rotate(conn.cred));
    actions := [] + [Rotate(conn.cred)];
    if conn.ca.Some? {
      RunSnoc(actions, Rotate(conn.ca.value));
      actions := actions + [Rotate(conn.ca.value)];
    }
  }

  // From the start: one spec is looked up, released before its client is published, and
  // recreated as the other, which is handed the first one's client.
  lemma OneServesAnother(x: Conn, y: Conn, specs: iset<Conn>) returns (actions: seq<Action>)
    requires x in specs && y in specs && SameIdentity(x, y) && x != y
    ensures LooksUp(actions, specs) && !OwnSpecs(Run(actions))
  {
    var a1 := SecretsExist(x, specs);
    var a2, built := GetsToPublish(a1, 0, x, specs);
    var a3 := ReleasedTooEarly(a2, 1, x.key, specs);
    actions := LatePublishServesRecreatedConnection(a3, 0, x, built, 2, y, specs);
  }

  ghost predicate AlwaysOwnSpecs(specs: iset<Conn>) {
    forall actions :: LooksUp(actions, specs) ==> OwnSpecs(Run(actions))
  }

  // For any specs that may be looked up: in every run over them every lookup gets a client
  // built for its own spec exactly when no two of them agree on key, generation and Secrets.
  // Deleting and recreating a connection restarts its generation, so this is not automatic.
  lemma AlwaysOwnSpecsIff(specs: iset<Conn>)
    ensures AlwaysOwnSpecs(specs) <==> forall x, y :: x in specs && y in specs && SameIdentity(x, y) ==> x == y
  {
    if x, y :| x in specs && y in specs && SameIdentity(x, y) && x != y {
      var actions := OneServesAnother(x, y, specs);
    } else {
      forall actions | LooksUp(actions, specs)
        ensures OwnSpecs(Run(actions))
      {
        ApartSpecsAreOwn(actions, specs);
      }
    }
  }

  lemma ApartSpecsAreOwn(actions: seq<Action>, specs: iset<Conn>)
    requires LooksUp(actions, specs) && forall x, y :: x in specs && y in specs && SameIdentity(x, y) ==> x == y
    ensures OwnSpecs(Run(actions))
  {
    var s := Run(actions);
    forall c | c in s.calls && s.calls[c].Get?
      ensures s.calls[c].conn in specs
    {
      CallsAreFor(actions, specs, c);
    }
    forall c | c in s.calls && s.calls[c].Get? && s.calls[c].pc.Returned?
      ensures s.calls[c].pc.admin < |s.pool.clients| && s.pool.clients[s.calls[c].pc.admin].conn == s.calls[c].conn
    {
      ReturnedClientHasCallersSpec(actions, c);
    }
  }
}
