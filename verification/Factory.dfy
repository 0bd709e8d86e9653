/**
 The client factory as it is coded: the locked object, and the lookups and releases that use it,
 proved to follow the machine of `ClientCache` step by step.
 */
module Factory {
  import opened Options
  import opened ClientCache

  // What a call meets: what others do before its i-th step, and whether that step fails.
  datatype Inputs = Inputs(others: nat -> seq<Action>, fail: nat -> bool) {
    // Nobody else acts, and no step fails on its own account.
    ghost predicate Smooth() {
      forall i: nat :: others(i) == [] && !fail(i)
    }
  }

  predicate NotBy(c: nat, a: Action) {
    !(a.Advance? && a.c == c)
  }

  // Others never move a call, nor forget a client.
  lemma OthersSpareCall(s: System, a: Action, c: nat)
    requires Conserved(s) && c in s.calls && NotBy(c, a)
    ensures c in Next(s, a).calls && Next(s, a).calls[c] == s.calls[c]
  {
  }

  class ClientFactory {
    var cache: Cache
    var world: System // the Secrets, the clients and the calls in progress
    ghost var trace: seq<Action>

    constructor ()
      ensures Valid() && cache == map[] && trace == []
    {
      cache, world, trace := map[], Start, [];
    }

    // The cache is that of the world, which is what the steps taken so far made of it.
    ghost predicate Valid()
      reads this
    {
      world == Run(trace) && world.pool.cache == cache
    }

    ghost predicate At(c: nat, conn: Conn, pc: Pc)
      reads this
    {
      Valid() && c in world.calls && world.calls[c].Get? && world.calls[c].conn == conn && world.calls[c].pc == pc
    }

    ghost predicate Undisturbed(s: System)
      reads this
    {
      world.store == s.store && world.pool == s.pool
    }

    method Lookup(key: string, fp: Fingerprint) returns (hit: Option<nat>)
      ensures hit == Hit(cache, key, fp)
      ensures hit.Some? <==> key in cache && cache[key].fp == fp
      ensures hit.Some? ==> hit.value == cache[key].admin
    {
      if key in cache && cache[key].fp == fp {
        return Some(cache[key].admin);
      }
      return None;
    }

    method Publish(key: string, fp: Fingerprint, built: nat) returns (admin: nat, closed: Option<nat>)
      modifies this`cache
      ensures Publication(cache, admin, closed) == PublishRegion(old(cache), key, fp, built)
      ensures key in cache && cache[key] == Entry(admin, fp) && cache - {key} == old(cache) - {key}
      ensures if key in old(cache) && old(cache)[key].fp == fp then admin == old(cache)[key].admin && closed == Some(built)
              else admin == built && closed == if key in old(cache) then Some(old(cache)[key].admin) else None
    {
      closed := None;
      if key in cache {
        if cache[key].fp == fp {
          return cache[key].admin, Some(built);
        }
        closed := Some(cache[key].admin);
      }
      cache := cache[key := Entry(built, fp)];
      admin := built;
    }

    method Evict(key: string) returns (evicted: Option<nat>)
      modifies this`cache
      ensures Eviction(cache, evicted) == EvictRegion(old(cache), key)
      ensures cache == old(cache) - {key}
      ensures evicted == if key in old(cache) then Some(old(cache)[key].admin) else None
    {
      evicted := None;
      if key in cache {
        evicted := Some(cache[key].admin);
        cache := cache - {key};
      }
    }

    // Other calls and Secret changes, before a step of call c.
    method Others(c: nat, actions: seq<Action>)
      requires Valid() && c in world.calls
      modifies this
      ensures Valid() && c in world.calls && world.calls[c] == old(world).calls[c]
      ensures actions == [] ==> cache == old(cache) && world == old(world)
    {
      for i := 0 to |actions|
        invariant Valid() && c in world.calls && world.calls[c] == old(world).calls[c]
        invariant i == 0 ==> cache == old(cache) && world == old(world)
      {
        if NotBy(c, actions[i]) {
          OthersSpareCall(world, actions[i], c);
          RunSnoc(trace, actions[i]);
          trace := trace + [actions[i]];
          world := Next(world, actions[i]);
          cache := world.pool.cache;
        }
      }
    }

    // The step of the machine that the code has just taken.
    method Advanced(c: nat, failed: bool)
      requires Conserved(world) && world == Run(trace) && c in world.calls
      requires StepCall(world.store, world.pool, c, world.calls[c], failed).0.cache == cache
      modifies this`world, this`trace
      ensures Valid() && c in world.calls
      ensures world.calls[c] == StepCall(old(world).store, old(world).pool, c, old(world).calls[c], failed).1
      ensures world == Next(old(world), Advance(c, failed))
    {
      AdvanceIs(trace, c, failed);
      trace := trace + [Advance(c, failed)];
      world := Next(world, Advance(c, failed));
    }

    // A Get of the Secret that is due; None is an error.
    // A step that leaves the pool alone.
    method Moved(c: nat, conn: Conn, ghost pc: Pc, ghost pc': Pc, failed: bool)
      requires At(c, conn, pc) && StepGet(world.store, world.pool, c, conn, pc, failed) == (world.pool, pc')
      modifies this`world, this`trace
      ensures At(c, conn, pc') && Undisturbed(old(world))
    {
      Advanced(c, failed);
    }

    method ReadSecret(c: nat, conn: Conn, ghost pc: Pc, name: string, others: seq<Action>, fail: bool)
      returns (version: Option<nat>)
      requires At(c, conn, pc) && Due(conn, pc) == Some(name)
      modifies this
      ensures At(c, conn, AfterRead(conn, pc, version))
      ensures others == [] ==> version == VersionRead(old(world).store, Some(name), fail) && Undisturbed(old(world))
    {
      Others(c, others);
      version := VersionRead(world.store, Some(name), fail);
      ReadIs(world.store, world.pool, c, conn, pc, name, fail);
      Moved(c, conn, pc, AfterRead(conn, pc, version), fail);
    }

    // cacheFingerprint; None is an error.
    method ReadFingerprint(c: nat, conn: Conn, x: Inputs) returns (fp: Option<Fingerprint>)
      requires At(c, conn, FpCred)
      modifies this
      ensures fp.Some? ==> At(c, conn, Look(fp.value))
      ensures fp.None? ==> At(c, conn, Failed)
      ensures x.Smooth() && Readable(old(world).store, conn) ==> fp == Some(Current(old(world).store, conn)) && Undisturbed(old(world))
    {
      var credRV := ReadSecret(c, conn, FpCred, conn.cred, x.others(0), x.fail(0));
      if credRV.None? {
        return None;
      }
      if conn.ca.None? {
        return Some(Fingerprint(conn.generation, credRV.value, 0));
      }
      var caRV := ReadSecret(c, conn, FpCa(credRV.value), conn.ca.value, x.others(1), x.fail(1));
      if caRV.None? {
        return None;
      }
      return Some(Fingerprint(conn.generation, credRV.value, caRV.value));
    }

    // buildConfig: the versions the client will be built from; None is an error.
    method BuildConfig(c: nat, conn: Conn, fp: Fingerprint, x: Inputs) returns (cfg: Option<(nat, nat)>)
      requires At(c, conn, CfgCred(fp))
      modifies this
      ensures cfg.Some? ==> At(c, conn, Create(fp, cfg.value.0, cfg.value.1))
      ensures cfg.None? ==> At(c, conn, Failed)
      ensures x.Smooth() && Readable(old(world).store, conn) ==> cfg.Some? && Undisturbed(old(world))
    {
      var credRV := ReadSecret(c, conn, CfgCred(fp), conn.cred, x.others(3), x.fail(3));
      if credRV.None? {
        return None;
      }
      if conn.ca.None? {
        return Some((credRV.value, 0));
      }
      var caRV := ReadSecret(c, conn, CfgCa(fp, credRV.value), conn.ca.value, x.others(4), x.fail(4));
      if caRV.None? {
        return None;
      }
      return Some((credRV.value, caRV.value));
    }

    method CreateClient(c: nat, conn: Conn, fp: Fingerprint, cfg: (nat, nat), x: Inputs) returns (built: Option<nat>)
      requires At(c, conn, Create(fp, cfg.0, cfg.1))
      modifies this
      ensures built.Some? ==> At(c, conn, Pc.Publish(fp, built.value))
      ensures built.None? ==> At(c, conn, Failed)
      ensures x.Smooth() ==> built == Some(|old(world).pool.clients|) && cache == old(cache)
    {
      Others(c, x.others(5));
      built := if x.fail(5) then None else Some(|world.pool.clients|);
      Advanced(c, x.fail(5));
    }

    // The second locked region.
    method PublishBuilt(c: nat, conn: Conn, fp: Fingerprint, built: nat, x: Inputs) returns (admin: nat)
      requires At(c, conn, Pc.Publish(fp, built))
      modifies this
      ensures At(c, conn, Returned(fp, admin))
      ensures x.Smooth() && !Matches(old(cache), conn.key, fp) ==> admin == built
    {
      Others(c, x.others(6));
      BuiltIsKnown(world, c, conn, fp, built);
      ghost var closed;
      PublishIs(world.store, world.pool, c, conn, fp, built);
      admin, closed := Publish(conn.key, fp, built);
      Advanced(c, false);
    }

    // The first locked region.
    method LookUpCached(c: nat, conn: Conn, fp: Fingerprint, x: Inputs) returns (admin: Option<nat>)
      requires At(c, conn, Look(fp))
      modifies this
      ensures At(c, conn, if admin.Some? then Returned(fp, admin.value) else CfgCred(fp))
      ensures x.Smooth() ==> admin == Hit(old(cache), conn.key, fp) && Undisturbed(old(world))
    {
      Others(c, x.others(2));
      admin := Lookup(conn.key, fp);
      Moved(c, conn, Look(fp), if admin.Some? then Returned(fp, admin.value) else CfgCred(fp), false);
    }

    // A miss: build and publish.
    method BuildAndPublish(c: nat, conn: Conn, fp: Fingerprint, x: Inputs) returns (admin: Option<nat>)
      requires At(c, conn, CfgCred(fp))
      modifies this
      ensures At(c, conn, if admin.Some? then Returned(fp, admin.value) else Failed)
      ensures x.Smooth() && Readable(old(world).store, conn) && !Matches(old(cache), conn.key, fp) ==>
        admin == Some(|old(world).pool.clients|)
    {
      var cfg := BuildConfig(c, conn, fp, x);
      if cfg.None? {
        return None;
      }
      var built := CreateClient(c, conn, fp, cfg.value, x);
      if built.None? {
        return None;
      }
      var got := PublishBuilt(c, conn, fp, built.value, x);
      return Some(got);
    }

    // A lookup follows the machine to its end, whatever others do between its steps; so the
    // client it returns is no older than the Secrets current when it began. Undisturbed, with
    // Secrets that can be read, it returns the cached client of their versions or a new one.
    method ForConnection(c: nat, conn: Conn, x: Inputs) returns (admin: Option<nat>)
      requires At(c, conn, FpCred)
      modifies this
      ensures Valid() && c in world.calls && world.calls[c].Get? && world.calls[c].conn == conn
      ensures admin.Some? ==>
        && world.calls[c].pc.Returned? && world.calls[c].pc.admin == admin.value < |world.pool.clients|
        && AtLeastAsNew(world.pool.clients[admin.value], conn, world.calls[c].pc.fp)
        && NoOlder(world.pool.clients[admin.value], world.calls[c].floor)
      ensures admin.None? ==> world.calls[c].pc == Failed
      ensures x.Smooth() && Readable(old(world).store, conn) ==>
        admin == var hit := Hit(old(cache), conn.key, Current(old(world).store, conn));
                 if hit.Some? then hit else Some(|old(world).pool.clients|)
    {
      var fp := ReadFingerprint(c, conn, x);
      if fp.None? {
        return None;
      }
      admin := LookUpCached(c, conn, fp.value, x);
      if admin.None? {
        admin := BuildAndPublish(c, conn, fp.value, x);
      }
      if admin.Some? {
        ReturnedClientIsFresh(trace, c);
      }
    }

    method CloseEvicted(c: nat, key: string, id: nat, others: seq<Action>)
      requires Valid() && c in world.calls && world.calls[c] == Release(key, Closing(id))
      modifies this
      ensures Valid() && c in world.calls && world.calls[c] == Release(key, Released)
      ensures ClosedForGood(world, id)
    {
      Others(c, others);
      ClosingStep(world, c, key, id);
      Advanced(c, false);
    }

    // A release follows the machine to its end: the client it took out of the cache, which is
    // whatever was there under its key, has been closed once and is under no key.
    method ReleaseConnection(c: nat, key: string, x: Inputs) returns (evicted: Option<nat>)
      requires Valid() && c in world.calls && world.calls[c] == Release(key, Evicting)
      modifies this
      ensures Valid() && c in world.calls && world.calls[c] == Release(key, Released)
      ensures evicted.Some? ==> ClosedForGood(world, evicted.value)
      ensures x.others(0) == [] ==> evicted == if key in old(cache) then Some(old(cache)[key].admin) else None
    {
      Others(c, x.others(0));
      evicted := Evict(key);
      Advanced(c, false);
      if evicted.Some? {
        CloseEvicted(c, key, evicted.value, x.others(1));
      }
    }
  }

  lemma ReadIs(st: Store, p: Pool, c: nat, conn: Conn, pc: Pc, name: string, fail: bool)
    requires Sized(p) && Due(conn, pc) == Some(name)
    ensures StepGet(st, p, c, conn, pc, fail) == (p, AfterRead(conn, pc, VersionRead(st, Some(name), fail)))
  {
  }

  lemma PublishIs(st: Store, p: Pool, c: nat, conn: Conn, fp: Fingerprint, built: nat)
    requires Sized(p) && built < |p.clients|
    ensures var r, x := StepGet(st, p, c, conn, Publish(fp, built), false), PublishRegion(p.cache, conn.key, fp, built);
            r.0.cache == x.cache && r.1 == Returned(fp, x.admin)
  {
  }

  lemma BuiltIsKnown(s: System, c: nat, conn: Conn, fp: Fingerprint, built: nat)
    requires Conserved(s) && c in s.calls && s.calls[c].Get? && s.calls[c].pc == Publish(fp, built)
    ensures built < |s.pool.clients|
  {
    assert CallOk(s.pool, c, s.calls[c]);
  }
}
