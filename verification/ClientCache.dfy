/**
 The cache of mqweb clients, one per QueueManagerConnection. A lookup fingerprints the
 connection (its generation and the resource versions of its Secrets), consults the cache,
 and on a miss reads the Secrets again, builds a client outside the lock and publishes it.
 `System` interleaves any number of lookups, releases and Secret changes over the locked regions.
 */
module ClientCache {
  import opened Options

  // Resource versions are the API server's revision numbers: positive, never reused, and
  // growing. Zero stands for "no CA Secret".
  datatype Conn = Conn(key: string, generation: nat, cred: string, ca: Option<string>, endpoint: string)
  datatype Fingerprint = Fingerprint(generation: nat, credRV: nat, caRV: nat)
  datatype Entry = Entry(admin: nat, fp: Fingerprint)
  type Cache = map<string, Entry>

  /* ---------- the locked regions ---------- */

  predicate Matches(cache: Cache, key: string, fp: Fingerprint) {
    key in cache && cache[key].fp == fp
  }

  // First region of a lookup.
  function Hit(cache: Cache, key: string, fp: Fingerprint): Option<nat> {
    if Matches(cache, key, fp) then Some(cache[key].admin) else None
  }

  // Second region: the cache it leaves, the client the caller gets, and the client whose idle
  // connections are closed.
  datatype Publication = Publication(cache: Cache, admin: nat, closed: Option<nat>)

  function PublishRegion(cache: Cache, key: string, fp: Fingerprint, built: nat): Publication {
    match Hit(cache, key, fp)
    case Some(admin) => Publication(cache, admin, Some(built))
    case None =>
      Publication(cache[key := Entry(built, fp)], built, if key in cache then Some(cache[key].admin) else None)
  }

  // The region of a release: the cache it leaves, and the client to close after it.
  datatype Eviction = Eviction(cache: Cache, evicted: Option<nat>)

  function EvictRegion(cache: Cache, key: string): Eviction {
    if key in cache then Eviction(cache - {key}, Some(cache[key].admin)) else Eviction(cache, None)
  }

  /* ---------- lookups, releases and Secret changes, interleaved ---------- */

  // The Secret versions a client was built from.
  datatype Client = Client(conn: Conn, credRV: nat, caRV: nat)

  datatype Pc =
    | FpCred                                          // fingerprint: read the credentials Secret
    | FpCa(credRV: nat)                               // fingerprint: read the CA Secret
    | Look(fp: Fingerprint)                           // first locked region
    | CfgCred(fp: Fingerprint)                        // configuration: read the credentials again
    | CfgCa(fp: Fingerprint, credRV: nat)             // configuration: read the CA again
    | Create(fp: Fingerprint, credRV: nat, caRV: nat) // build the client
    | Publish(fp: Fingerprint, built: nat)            // second locked region
    | Returned(fp: Fingerprint, admin: nat)
    | Failed

  datatype ReleasePc = Evicting | Closing(admin: nat) | Released

  // The Secret versions current when a lookup began; zero where there was none.
  datatype Floor = Floor(credRV: nat, caRV: nat)

  datatype Call = Get(conn: Conn, floor: Floor, pc: Pc) | Release(key: string, rpc: ReleasePc)

  // Where a client is, as history; the invariants tie it to the cache and to the calls.
  datatype Place = Held(call: nat) | Cached(key: string) | Evicted(call: nat) | Closed

  // The Secrets as the API server has them now, and which Secret each version belonged to.
  datatype Store = Store(secrets: map<string, nat>, lastRV: nat, owner: map<nat, string>)

  // The cache and every client ever built: how often its idle connections were closed and
  // where it is.
  datatype Pool = Pool(cache: Cache, clients: seq<Client>, closes: seq<nat>, place: seq<Place>)

  datatype System = System(store: Store, pool: Pool, calls: map<nat, Call>)

  datatype Action =
    | Rotate(name: string)
    | Drop(name: string)
    | BeginGet(c: nat, conn: Conn)
    | BeginRelease(c: nat, key: string)
    | Advance(c: nat, fail: bool) // the call's next step; `fail`: that step returns an error

  const Start := System(Store(map[], 0, map[]), Pool(map[], [], [], []), map[])

  predicate Sized(p: Pool) {
    && |p.clients| == |p.closes| == |p.place|
    && (forall k :: k in p.cache ==> p.cache[k].admin < |p.clients|)
  }

  function Shut(p: Pool, id: nat): Pool
    requires Sized(p) && id < |p.clients|
  {
    p.(closes := p.closes[id := p.closes[id] + 1], place := p.place[id := Closed])
  }

  function Published(p: Pool, key: string, fp: Fingerprint, built: nat): Pool
    requires Sized(p) && built < |p.clients|
  {
    var x := PublishRegion(p.cache, key, fp, built);
    var p1 := if x.closed.Some? then Shut(p, x.closed.value) else p;
    p1.(cache := x.cache, place := if Matches(p.cache, key, fp) then p1.place else p1.place[built := Cached(key)])
  }

  // The Secret a step reads, and where the lookup goes with its version.
  function Due(conn: Conn, pc: Pc): Option<string> {
    match pc
    case FpCred => Some(conn.cred)
    case CfgCred(_) => Some(conn.cred)
    case FpCa(_) => conn.ca
    case CfgCa(_, _) => conn.ca
    case _ => None
  }

  function AfterRead(conn: Conn, pc: Pc, version: Option<nat>): Pc {
    if version.None? then Failed
    else
      match pc
      case FpCred =>
        if conn.ca.Some? then FpCa(version.value) else Look(Fingerprint(conn.generation, version.value, 0))
      case FpCa(credRV) => Look(Fingerprint(conn.generation, credRV, version.value))
      case CfgCred(fp) => if conn.ca.Some? then CfgCa(fp, version.value) else Create(fp, version.value, 0)
      case CfgCa(fp, credRV) => Create(fp, credRV, version.value)
      case _ => pc
  }

  // A Get of a Secret; None is an error.
  function VersionRead(st: Store, name: Option<string>, fail: bool): Option<nat> {
    if fail || name.None? || name.value !in st.secrets then None else Some(st.secrets[name.value])
  }

  function CurrentFloor(st: Store, conn: Conn): Floor {
    Floor(if conn.cred in st.secrets then st.secrets[conn.cred] else 0,
          if conn.ca.Some? && conn.ca.value in st.secrets then st.secrets[conn.ca.value] else 0)
  }

  // The next step of a lookup: the pool and its own program counter afterwards.
  function StepGet(st: Store, p: Pool, c: nat, conn: Conn, pc: Pc, fail: bool): (Pool, Pc)
    requires Sized(p)
  {
    match pc
    case Look(fp) =>
      (p, match Hit(p.cache, conn.key, fp)
          case Some(admin) => Returned(fp, admin)
          case None => CfgCred(fp))
    case Create(fp, credRV, caRV) =>
      if fail then (p, Failed)
      else (Pool(p.cache, p.clients + [Client(conn, credRV, caRV)], p.closes + [0], p.place + [Held(c)]),
            Publish(fp, |p.clients|))
    case Publish(fp, built) =>
      if |p.clients| <= built then (p, pc)
      else (Published(p, conn.key, fp, built), Returned(fp, PublishRegion(p.cache, conn.key, fp, built).admin))
    case Returned(_, _) => (p, pc)
    case Failed => (p, pc)
    case _ => (p, AfterRead(conn, pc, VersionRead(st, Due(conn, pc), fail)))
  }

  function StepRelease(p: Pool, c: nat, key: string, rpc: ReleasePc): (Pool, ReleasePc)
    requires Sized(p)
  {
    match rpc
    case Evicting =>
      var x := EvictRegion(p.cache, key);
      (match x.evicted
       case Some(id) => (p.(cache := x.cache, place := p.place[id := Evicted(c)]), Closing(id))
       case None => (p, Released))
    case Closing(id) => if id < |p.clients| then (Shut(p, id), Released) else (p, rpc)
    case Released => (p, rpc)
  }

  function StepCall(st: Store, p: Pool, c: nat, call: Call, fail: bool): (Pool, Call)
    requires Sized(p)
  {
    match call
    case Get(conn, floor, pc) =>
      var r := StepGet(st, p, c, conn, pc, fail);
      (r.0, Get(conn, floor, r.1))
    case Release(key, rpc) =>
      var r := StepRelease(p, c, key, rpc);
      (r.0, Release(key, r.1))
  }

  function Rotated(st: Store, name: string): Store {
    var rv := st.lastRV + 1;
    Store(st.secrets[name := rv], rv, st.owner[rv := name])
  }

  function Next(s: System, a: Action): System
    requires Sized(s.pool)
  {
    match a
    case Rotate(name) => s.(store := Rotated(s.store, name))
    case Drop(name) => s.(store := s.store.(secrets := s.store.secrets - {name}))
    case BeginGet(c, conn) =>
      if c in s.calls then s
      else
        s.(calls := s.calls[c := Get(conn, CurrentFloor(s.store, conn), FpCred)])
    case BeginRelease(c, key) =>
      if c in s.calls then s else s.(calls := s.calls[c := Release(key, Evicting)])
    case Advance(c, fail) =>
      if c !in s.calls then s
      else
        var r := StepCall(s.store, s.pool, c, s.calls[c], fail);
        System(s.store, r.0, s.calls[c := r.1])
  }

  /* ---------- every client is in exactly one place ---------- */

  ghost predicate HoldsBuilt(call: Call, id: nat) {
    call.Get? && call.pc.Publish? && call.pc.built == id
  }

  ghost predicate IsClosing(call: Call, id: nat) {
    call.Release? && call.rpc.Closing? && call.rpc.admin == id
  }

  ghost predicate PoolOk(p: Pool) {
    && Sized(p)
    && (forall k :: k in p.cache ==> p.place[p.cache[k].admin] == Cached(k))
    && (forall id :: 0 <= id < |p.place| && p.place[id].Cached? ==>
          p.place[id].key in p.cache && p.cache[p.place[id].key].admin == id)
    && (forall id :: 0 <= id < |p.place| ==> p.closes[id] == if p.place[id].Closed? then 1 else 0)
  }

  // The clients placed with call c are exactly those c is responsible for.
  ghost predicate CallOk(p: Pool, c: nat, call: Call)
    requires Sized(p)
  {
    && (call.Get? && call.pc.Publish? ==> call.pc.built < |p.clients|)
    && (call.Release? && call.rpc.Closing? ==> call.rpc.admin < |p.clients|)
    && (forall id :: 0 <= id < |p.place| ==> (p.place[id] == Held(c) <==> HoldsBuilt(call, id)))
    && (forall id :: 0 <= id < |p.place| ==> (p.place[id] == Evicted(c) <==> IsClosing(call, id)))
  }

  ghost predicate NothingPlacedWith(p: Pool, c: nat) {
    forall id :: 0 <= id < |p.place| ==> p.place[id] != Held(c) && p.place[id] != Evicted(c)
  }

  ghost predicate Conserved(s: System) {
    && PoolOk(s.pool)
    && (forall c :: c in s.calls ==> CallOk(s.pool, c, s.calls[c]))
    && (forall c: nat :: c !in s.calls ==> NothingPlacedWith(s.pool, c))
  }

  // A step of call c changes no other call's clients.
  ghost predicate OthersPlaced(p: Pool, p': Pool, c: nat) {
    && |p.place| <= |p'.place|
    && (forall id, d :: 0 <= id < |p'.place| && d != c ==>
          (p'.place[id] == Held(d) <==> id < |p.place| && p.place[id] == Held(d)))
    && (forall id, d :: 0 <= id < |p'.place| && d != c ==>
          (p'.place[id] == Evicted(d) <==> id < |p.place| && p.place[id] == Evicted(d)))
  }

  lemma HitPlaces(p: Pool, c: nat, key: string, fp: Fingerprint, built: nat)
    requires PoolOk(p) && built < |p.clients| && p.place[built] == Held(c) && Matches(p.cache, key, fp)
    ensures PoolOk(Published(p, key, fp, built)) && OthersPlaced(p, Published(p, key, fp, built), c)
  {
  }

  // Storing a held client under a key that has none.
  lemma StorePlaces(p: Pool, c: nat, key: string, fp: Fingerprint, built: nat)
    requires PoolOk(p) && built < |p.clients| && p.place[built] == Held(c) && key !in p.cache
    ensures PoolOk(Published(p, key, fp, built)) && OthersPlaced(p, Published(p, key, fp, built), c)
  {
    var p' := Published(p, key, fp, built);
    assert p'.place == p.place[built := Cached(key)] && p'.closes == p.closes;
  }

  // Closing the client stored under a key, and taking it out of the cache.
  function Unstored(p: Pool, key: string): Pool
    requires Sized(p) && key in p.cache
  {
    Shut(p, p.cache[key].admin).(cache := p.cache - {key})
  }

  lemma UnstorePlaces(p: Pool, c: nat, key: string)
    requires PoolOk(p) && key in p.cache
    ensures PoolOk(Unstored(p, key)) && OthersPlaced(p, Unstored(p, key), c)
  {
  }

  // Replacing is closing and storing.
  lemma ReplacePlaces(p: Pool, c: nat, key: string, fp: Fingerprint, built: nat)
    requires PoolOk(p) && built < |p.clients| && p.place[built] == Held(c) && key in p.cache && !Matches(p.cache, key, fp)
    ensures PoolOk(Published(p, key, fp, built)) && OthersPlaced(p, Published(p, key, fp, built), c)
  {
    var p1 := Unstored(p, key);
    UnstorePlaces(p, c, key);
    assert p.place[p.cache[key].admin] == Cached(key);
    StorePlaces(p1, c, key, fp, built);
    assert p1.cache[key := Entry(built, fp)] == p.cache[key := Entry(built, fp)];
    assert Published(p, key, fp, built) == Published(p1, key, fp, built);
  }

  lemma PublishedPlaces(p: Pool, c: nat, key: string, fp: Fingerprint, built: nat)
    requires PoolOk(p) && built < |p.clients| && p.place[built] == Held(c)
    ensures PoolOk(Published(p, key, fp, built)) && OthersPlaced(p, Published(p, key, fp, built), c)
  {
    if Matches(p.cache, key, fp) {
      HitPlaces(p, c, key, fp, built);
    } else if key in p.cache {
      ReplacePlaces(p, c, key, fp, built);
    } else {
      StorePlaces(p, c, key, fp, built);
    }
  }

  // Afterwards nothing is left with the lookup.
  lemma PublishedIsHandedOver(p: Pool, c: nat, key: string, fp: Fingerprint, built: nat)
    requires Sized(p) && built < |p.clients|
    requires forall id :: 0 <= id < |p.place| ==> (p.place[id] == Held(c) <==> id == built) && p.place[id] != Evicted(c)
    ensures NothingPlacedWith(Published(p, key, fp, built), c)
  {
  }

  lemma NothingHeldIsOk(p: Pool, c: nat, call: Call)
    requires Sized(p) && NothingPlacedWith(p, c) && call.Get? && !call.pc.Publish?
    ensures CallOk(p, c, call)
  {
  }

  lemma HeldByPublisher(p: Pool, c: nat, call: Call)
    requires call.Get? && call.pc.Publish? && Sized(p) && CallOk(p, c, call)
    ensures forall id :: 0 <= id < |p.place| ==> (p.place[id] == Held(c) <==> id == call.pc.built) && p.place[id] != Evicted(c)
  {
    forall id | 0 <= id < |p.place|
      ensures (p.place[id] == Held(c) <==> id == call.pc.built) && p.place[id] != Evicted(c)
    {
      assert p.place[id] == Held(c) <==> HoldsBuilt(call, id);
      assert p.place[id] == Evicted(c) <==> IsClosing(call, id);
    }
  }

  lemma PublishPlaces(st: Store, p: Pool, c: nat, call: Call, fail: bool)
    requires call.Get? && call.pc.Publish? && PoolOk(p) && CallOk(p, c, call)
    ensures var r := StepCall(st, p, c, call, fail);
            PoolOk(r.0) && OthersPlaced(p, r.0, c) && CallOk(r.0, c, r.1)
  {
    var key, fp, built := call.conn.key, call.pc.fp, call.pc.built;
    HeldByPublisher(p, c, call);
    PublishedPlaces(p, c, key, fp, built);
    PublishedIsHandedOver(p, c, key, fp, built);
    var r := StepCall(st, p, c, call, fail);
    NothingHeldIsOk(r.0, c, r.1);
  }

  lemma CreatePlaces(st: Store, p: Pool, c: nat, call: Call)
    requires call.Get? && call.pc.Create? && PoolOk(p) && CallOk(p, c, call)
    ensures var r := StepCall(st, p, c, call, false);
            PoolOk(r.0) && OthersPlaced(p, r.0, c) && CallOk(r.0, c, r.1)
  {
    assert forall id :: 0 <= id < |p.place| ==> !HoldsBuilt(call, id);
  }

  lemma GetStepPlaces(st: Store, p: Pool, c: nat, call: Call, fail: bool)
    requires call.Get? && PoolOk(p) && CallOk(p, c, call)
    ensures var r := StepCall(st, p, c, call, fail);
            PoolOk(r.0) && OthersPlaced(p, r.0, c) && CallOk(r.0, c, r.1)
  {
    if call.pc.Publish? {
      PublishPlaces(st, p, c, call, fail);
    } else if call.pc.Create? && !fail {
      CreatePlaces(st, p, c, call);
    } else {
      assert StepCall(st, p, c, call, fail).0 == p;
    }
  }

  lemma EvictPlaces(p: Pool, c: nat, key: string)
    requires PoolOk(p) && key in p.cache && NothingPlacedWith(p, c)
    ensures var p' := StepRelease(p, c, key, Evicting).0; PoolOk(p') && OthersPlaced(p, p', c)
  {
  }

  lemma ReleaseStepPlaces(st: Store, p: Pool, c: nat, call: Call, fail: bool)
    requires call.Release? && PoolOk(p) && CallOk(p, c, call)
    ensures var r := StepCall(st, p, c, call, fail);
            PoolOk(r.0) && OthersPlaced(p, r.0, c) && CallOk(r.0, c, r.1)
  {
    match call.rpc {
      case Evicting =>
        assert forall id :: !HoldsBuilt(call, id) && !IsClosing(call, id);
        if call.key in p.cache {
          EvictPlaces(p, c, call.key);
        }
      case Closing(id) =>
        assert IsClosing(call, id);
        assert p.place[id] == Evicted(c);
      case Released =>
    }
  }

  lemma OthersStayOk(p: Pool, p': Pool, c: nat, d: nat, call: Call)
    requires Sized(p) && Sized(p') && OthersPlaced(p, p', c) && d != c && CallOk(p, d, call)
    ensures CallOk(p', d, call)
  {
  }

  lemma StepPlaces(st: Store, p: Pool, c: nat, call: Call, fail: bool)
    requires PoolOk(p) && CallOk(p, c, call)
    ensures var r := StepCall(st, p, c, call, fail);
            PoolOk(r.0) && OthersPlaced(p, r.0, c) && CallOk(r.0, c, r.1)
  {
    if call.Get? {
      GetStepPlaces(st, p, c, call, fail);
    } else {
      ReleaseStepPlaces(st, p, c, call, fail);
    }
  }

  lemma PlacedConserves(s: System, c: nat, p: Pool, call: Call)
    requires Conserved(s) && c in s.calls && PoolOk(p) && OthersPlaced(s.pool, p, c) && CallOk(p, c, call)
    ensures Conserved(System(s.store, p, s.calls[c := call]))
  {
    forall d | d in s.calls && d != c
      ensures CallOk(p, d, s.calls[d])
    {
      OthersStayOk(s.pool, p, c, d, s.calls[d]);
    }
  }

  lemma AdvanceConserves(s: System, c: nat, fail: bool)
    requires Conserved(s) && c in s.calls
    ensures Conserved(Next(s, Advance(c, fail)))
  {
    var r := StepCall(s.store, s.pool, c, s.calls[c], fail);
    StepPlaces(s.store, s.pool, c, s.calls[c], fail);
    PlacedConserves(s, c, r.0, r.1);
  }

  lemma NextConserves(s: System, a: Action)
    requires Conserved(s)
    ensures Conserved(Next(s, a))
  {
    if a.Advance? && a.c in s.calls {
      AdvanceConserves(s, a.c, a.fail);
    }
  }

  ghost function Run(actions: seq<Action>): (s: System)
    ensures Conserved(s)
  {
    if actions == [] then Start
    else
      var s0 := Run(actions[..|actions|-1]);
      NextConserves(s0, actions[|actions|-1]);
      Next(s0, actions[|actions|-1])
  }

  // Counted without the place history: the lookup that built it and has not published it,
  // the cache keys it is stored under, the releases about to close it, and the times it was
  // closed add up to one in every interleaving.
  lemma ClientConservation(actions: seq<Action>, id: nat)
    requires id < |Run(actions).pool.clients|
    ensures var s := Run(actions);
            var held := set c | c in s.calls && HoldsBuilt(s.calls[c], id);
            var cached := set k | k in s.pool.cache && s.pool.cache[k].admin == id;
            var closing := set c | c in s.calls && IsClosing(s.calls[c], id);
            |held| + |cached| + |closing| + s.pool.closes[id] == 1
  {
    var s := Run(actions);
    var held := set c | c in s.calls && HoldsBuilt(s.calls[c], id);
    var cached := set k | k in s.pool.cache && s.pool.cache[k].admin == id;
    var closing := set c | c in s.calls && IsClosing(s.calls[c], id);
    forall c | c in s.calls
      ensures c in held <==> s.pool.place[id] == Held(c)
      ensures c in closing <==> s.pool.place[id] == Evicted(c)
    {
      assert CallOk(s.pool, c, s.calls[c]);
    }
    match s.pool.place[id]
    case Held(c) =>
      assert held == {c} && cached == {} && closing == {};
    case Cached(k) =>
      assert held == {} && cached == {k} && closing == {};
    case Evicted(c) =>
      assert held == {} && cached == {} && closing == {c};
    case Closed =>
      assert held == {} && cached == {} && closing == {};
  }

  lemma RunSnoc(actions: seq<Action>, a: Action)
    ensures Run(actions + [a]) == Next(Run(actions), a)
  {
    assert (actions + [a])[..|actions|] == actions;
  }

  lemma AdvanceIs(actions: seq<Action>, c: nat, fail: bool)
    requires c in Run(actions).calls
    ensures var s := Run(actions);
            var r := StepCall(s.store, s.pool, c, s.calls[c], fail);
            Next(s, Advance(c, fail)) == System(s.store, r.0, s.calls[c := r.1]) == Run(actions + [Advance(c, fail)])
  {
    RunSnoc(actions, Advance(c, fail));
  }

  lemma ClosingIsKnown(s: System, c: nat)
    requires Conserved(s) && c in s.calls && s.calls[c].Release? && s.calls[c].rpc.Closing?
    ensures s.calls[c].rpc.admin < |s.pool.clients|
  {
    assert CallOk(s.pool, c, s.calls[c]);
  }

  /* ---------- a release takes the client out and closes it ---------- */

  // Closed exactly once, and handed out to nobody any more.
  ghost predicate ClosedForGood(s: System, id: nat) {
    && id < |s.pool.clients| == |s.pool.closes| && s.pool.closes[id] == 1
    && (forall k :: k in s.pool.cache ==> s.pool.cache[k].admin != id)
    && (forall c :: c in s.calls ==> !HoldsBuilt(s.calls[c], id))
  }

  lemma ClosedPlace(s: System, id: nat)
    requires Conserved(s) && id < |s.pool.clients| && s.pool.place[id].Closed?
    ensures ClosedForGood(s, id)
  {
    forall c | c in s.calls
      ensures !HoldsBuilt(s.calls[c], id)
    {
      assert CallOk(s.pool, c, s.calls[c]);
    }
  }

  lemma ClosingCloses(s: System, c: nat)
    requires Conserved(s) && c in s.calls && s.calls[c].Release? && s.calls[c].rpc.Closing?
    ensures ClosedForGood(Next(s, Advance(c, false)), s.calls[c].rpc.admin)
    ensures Next(s, Advance(c, false)).pool.place[s.calls[c].rpc.admin].Closed?
  {
    ClosingIsKnown(s, c);
    NextConserves(s, Advance(c, false));
    ClosedPlace(Next(s, Advance(c, false)), s.calls[c].rpc.admin);
  }

  lemma ClosingStep(s: System, c: nat, key: string, id: nat)
    requires Conserved(s) && c in s.calls && s.calls[c] == Release(key, Closing(id))
    ensures var r := StepCall(s.store, s.pool, c, s.calls[c], false); r.0.cache == s.pool.cache && r.1 == Release(key, Released)
    ensures ClosedForGood(Next(s, Advance(c, false)), id)
  {
    ClosingIsKnown(s, c);
    ClosingCloses(s, c);
  }

  // The evicting step of a release: the key is free, all others are as they were, and the
  // client that was there waits to be closed by this release.
  lemma EvictingStep(s: System, c: nat, key: string)
    requires Conserved(s) && c in s.calls && s.calls[c] == Release(key, Evicting)
    ensures var t := Next(s, Advance(c, false));
            && t.pool.cache == s.pool.cache - {key} && t.pool.clients == s.pool.clients
            && t.calls == s.calls[c := Release(key, if key in s.pool.cache then Closing(s.pool.cache[key].admin) else Released)]
  {
    assert key !in s.pool.cache ==> s.pool.cache - {key} == s.pool.cache;
  }

  // Where the client is once it has been evicted by call c.
  ghost predicate OnItsWay(s: System, c: nat, key: string, id: nat) {
    && c in s.calls && id < |s.pool.place|
    && (s.calls[c] == Release(key, Closing(id)) || (s.calls[c] == Release(key, Released) && s.pool.place[id].Closed?))
  }

  // No step reopens a closed client.
  lemma ClosedStays(s: System, a: Action, id: nat)
    requires Conserved(s) && id < |s.pool.place| && s.pool.place[id].Closed?
    ensures id < |Next(s, a).pool.place| && Next(s, a).pool.place[id].Closed?
  {
    if a.Advance? && a.c in s.calls {
      assert CallOk(s.pool, a.c, s.calls[a.c]);
      var call := s.calls[a.c];
      if call.Get? && call.pc.Publish? {
        assert HoldsBuilt(call, call.pc.built);
        assert s.pool.place[call.pc.built] == Held(a.c);
      }
    }
  }

  lemma StaysOnItsWay(s: System, a: Action, c: nat, key: string, id: nat)
    requires Conserved(s) && OnItsWay(s, c, key, id)
    ensures OnItsWay(Next(s, a), c, key, id)
  {
    if s.pool.place[id].Closed? {
      ClosedStays(s, a, id);
    }
    if a.Advance? && a.c in s.calls {
      ClientsGrow(s.store, s.pool, a.c, s.calls[a.c], a.fail);
      NextConserves(s, a);
      if a.c == c && s.calls[c].rpc.Closing? {
        ClosingCloses(s, c);
        assert Next(s, a) == Next(s, Advance(c, false));
      }
    }
  }

  // Over every run: once a release of a key is over, the client that was cached under that key
  // when the release evicted it has been closed exactly once and is out of reach.
  lemma {:induction false} ReleaseCloses(before: seq<Action>, c: nat, key: string, more: seq<Action>)
    requires c in Run(before).calls && Run(before).calls[c] == Release(key, Evicting) && key in Run(before).pool.cache
    ensures var s := Run(before + [Advance(c, false)] + more);
            && OnItsWay(s, c, key, Run(before).pool.cache[key].admin)
            && (s.calls[c] == Release(key, Released) ==> ClosedForGood(s, Run(before).pool.cache[key].admin))
    decreases |more|
  {
    var id := Run(before).pool.cache[key].admin;
    var evicted := before + [Advance(c, false)];
    if more == [] {
      assert evicted + more == evicted;
      RunSnoc(before, Advance(c, false));
      EvictingStep(Run(before), c, key);
    } else {
      var most, a := more[..|more|-1], more[|more|-1];
      assert evicted + more == evicted + most + [a];
      ReleaseCloses(before, c, key, most);
      RunSnoc(evicted + most, a);
      StaysOnItsWay(Run(evicted + most), a, c, key, id);
    }
    var s := Run(evicted + more);
    if s.calls[c] == Release(key, Released) {
      ClosedPlace(s, id);
    }
  }

  /* ---------- returned clients are at least as new as the fingerprint ---------- */

  ghost predicate VersionOf(st: Store, name: string, rv: nat) {
    0 < rv <= st.lastRV && rv in st.owner && st.owner[rv] == name
  }

  ghost predicate CaVersionOf(st: Store, ca: Option<string>, rv: nat) {
    match ca
    case None => rv == 0
    case Some(name) => VersionOf(st, name, rv)
  }

  ghost predicate VersionsOrdered(st: Store) {
    && (forall rv :: rv in st.owner ==> 0 < rv <= st.lastRV)
    && (forall n :: n in st.secrets ==> VersionOf(st, n, st.secrets[n]))
    && (forall rv :: rv in st.owner && st.owner[rv] in st.secrets ==> rv <= st.secrets[st.owner[rv]])
  }

  // fp is a fingerprint of this connection, from versions that existed.
  ghost predicate FingerprintOf(st: Store, conn: Conn, fp: Fingerprint) {
    && fp.generation == conn.generation
    && VersionOf(st, conn.cred, fp.credRV)
    && CaVersionOf(st, conn.ca, fp.caRV)
  }

  // The client was built for this key, generation and pair of Secrets, from versions at
  // least as new as the fingerprint's.
  ghost predicate AtLeastAsNew(cl: Client, conn: Conn, fp: Fingerprint) {
    && cl.conn.key == conn.key && cl.conn.generation == conn.generation == fp.generation
    && cl.conn.cred == conn.cred && cl.conn.ca == conn.ca
    && fp.credRV <= cl.credRV && fp.caRV <= cl.caRV
  }

  ghost predicate NoOlder(cl: Client, floor: Floor) {
    floor.credRV <= cl.credRV && floor.caRV <= cl.caRV
  }

  ghost predicate EntryFresh(st: Store, p: Pool, k: string)
    requires Sized(p) && k in p.cache
  {
    var cl := p.clients[p.cache[k].admin];
    cl.conn.key == k && FingerprintOf(st, cl.conn, p.cache[k].fp) && AtLeastAsNew(cl, cl.conn, p.cache[k].fp)
  }

  // The Secrets never fall below the versions current when the lookup began.
  ghost predicate FloorHolds(st: Store, conn: Conn, floor: Floor) {
    && floor.credRV <= st.lastRV && (conn.cred in st.secrets ==> floor.credRV <= st.secrets[conn.cred])
    && floor.caRV <= st.lastRV && (conn.ca.None? ==> floor.caRV == 0)
    && (conn.ca.Some? && conn.ca.value in st.secrets ==> floor.caRV <= st.secrets[conn.ca.value])
  }

  ghost predicate Known(st: Store, conn: Conn, floor: Floor, fp: Fingerprint) {
    FingerprintOf(st, conn, fp) && floor.credRV <= fp.credRV && floor.caRV <= fp.caRV
  }

  ghost predicate GetFresh(st: Store, clients: seq<Client>, conn: Conn, floor: Floor, pc: Pc) {
    && FloorHolds(st, conn, floor)
    && match pc
       case FpCred => true
       case FpCa(credRV) => conn.ca.Some? && VersionOf(st, conn.cred, credRV) && floor.credRV <= credRV
       case Look(fp) => Known(st, conn, floor, fp)
       case CfgCred(fp) => Known(st, conn, floor, fp)
       case CfgCa(fp, credRV) => conn.ca.Some? && Known(st, conn, floor, fp) && fp.credRV <= credRV
       case Create(fp, credRV, caRV) => Known(st, conn, floor, fp) && fp.credRV <= credRV && fp.caRV <= caRV
       case Publish(fp, built) =>
         && Known(st, conn, floor, fp)
         && built < |clients| && clients[built].conn == conn && AtLeastAsNew(clients[built], conn, fp)
       case Returned(fp, admin) =>
         Known(st, conn, floor, fp) && admin < |clients| && AtLeastAsNew(clients[admin], conn, fp)
       case Failed => true
  }

  ghost predicate CallFresh(st: Store, clients: seq<Client>, call: Call) {
    call.Get? ==> GetFresh(st, clients, call.conn, call.floor, call.pc)
  }

  ghost predicate Fresh(s: System)
    requires Sized(s.pool)
  {
    && VersionsOrdered(s.store)
    && (forall k :: k in s.pool.cache ==> EntryFresh(s.store, s.pool, k))
    && (forall c :: c in s.calls ==> CallFresh(s.store, s.pool.clients, s.calls[c]))
  }

  // Equal fingerprints name the same Secrets, because a version belongs to one Secret.
  lemma MatchIsFresh(st: Store, p: Pool, conn: Conn, fp: Fingerprint)
    requires Sized(p) && FingerprintOf(st, conn, fp)
    requires Matches(p.cache, conn.key, fp) && EntryFresh(st, p, conn.key)
    ensures AtLeastAsNew(p.clients[p.cache[conn.key].admin], conn, fp)
  {
  }

  // The lookup that moved; a hit relies on the entry it hits.
  lemma MoverFresh(st: Store, p: Pool, c: nat, call: Call, fail: bool)
    requires call.Get? && Sized(p) && VersionsOrdered(st) && CallFresh(st, p.clients, call)
    requires forall k :: k in p.cache ==> EntryFresh(st, p, k)
    ensures var r := StepCall(st, p, c, call, fail); CallFresh(st, r.0.clients, r.1)
  {
    match call.pc
    case Look(_) => LookerFresh(st, p, c, call.conn, call.floor, call.pc, fail);
    case Publish(_, _) => LookerFresh(st, p, c, call.conn, call.floor, call.pc, fail);
    case Create(_, _, _) => BuilderFresh(st, p, c, call.conn, call.floor, call.pc, fail);
    case _ => ReaderFresh(st, p, c, call.conn, call.floor, call.pc, fail);
  }

  lemma LookerFresh(st: Store, p: Pool, c: nat, conn: Conn, floor: Floor, pc: Pc, fail: bool)
    requires (pc.Look? || pc.Publish?) && Sized(p) && GetFresh(st, p.clients, conn, floor, pc)
    requires conn.key in p.cache ==> EntryFresh(st, p, conn.key)
    ensures var r := StepGet(st, p, c, conn, pc, fail); GetFresh(st, r.0.clients, conn, floor, r.1)
  {
    if Matches(p.cache, conn.key, pc.fp) {
      MatchIsFresh(st, p, conn, pc.fp);
    }
  }

  lemma BuilderFresh(st: Store, p: Pool, c: nat, conn: Conn, floor: Floor, pc: Pc, fail: bool)
    requires pc.Create? && Sized(p) && GetFresh(st, p.clients, conn, floor, pc)
    ensures var r := StepGet(st, p, c, conn, pc, fail); GetFresh(st, r.0.clients, conn, floor, r.1)
  {
  }

  // The steps that read a Secret find a version of it no older than any seen before.
  lemma ReaderFresh(st: Store, p: Pool, c: nat, conn: Conn, floor: Floor, pc: Pc, fail: bool)
    requires Sized(p) && VersionsOrdered(st) && GetFresh(st, p.clients, conn, floor, pc)
    requires !pc.Look? && !pc.Create? && !pc.Publish?
    ensures var r := StepGet(st, p, c, conn, pc, fail); r.0 == p && GetFresh(st, p.clients, conn, floor, r.1)
  {
    assert conn.cred in st.secrets ==> VersionOf(st, conn.cred, st.secrets[conn.cred]);
    assert conn.ca.Some? && conn.ca.value in st.secrets ==> VersionOf(st, conn.ca.value, st.secrets[conn.ca.value]);
  }

  lemma EntriesFresh(st: Store, p: Pool, c: nat, call: Call, fail: bool, k: string)
    requires Sized(p) && CallFresh(st, p.clients, call) && Sized(StepCall(st, p, c, call, fail).0)
    requires k in StepCall(st, p, c, call, fail).0.cache && (k in p.cache ==> EntryFresh(st, p, k))
    ensures EntryFresh(st, StepCall(st, p, c, call, fail).0, k)
  {
  }

  lemma ClientsGrow(st: Store, p: Pool, c: nat, call: Call, fail: bool)
    requires Sized(p)
    ensures p.clients <= StepCall(st, p, c, call, fail).0.clients
  {
  }

  lemma OtherCallFresh(st: Store, clients: seq<Client>, more: seq<Client>, call: Call)
    requires CallFresh(st, clients, call) && clients <= more
    ensures CallFresh(st, more, call)
  {
  }

  // Later versions only add to what a lookup knows.
  lemma StoreGrows(st: Store, st': Store, clients: seq<Client>, call: Call)
    requires VersionsOrdered(st) && CallFresh(st, clients, call)
    requires st.lastRV <= st'.lastRV
    requires forall rv :: rv in st.owner ==> rv in st'.owner && st'.owner[rv] == st.owner[rv]
    requires forall n :: n in st'.secrets ==>
               st.lastRV < st'.secrets[n] || (n in st.secrets && st'.secrets[n] == st.secrets[n])
    ensures CallFresh(st', clients, call)
  {
  }

  lemma StoreStepFresh(s: System, a: Action)
    requires Conserved(s) && Fresh(s) && (a.Rotate? || a.Drop?)
    ensures Fresh(Next(s, a))
  {
    var s' := Next(s, a);
    forall c | c in s.calls
      ensures CallFresh(s'.store, s'.pool.clients, s.calls[c])
    {
      StoreGrows(s.store, s'.store, s.pool.clients, s.calls[c]);
    }
    forall k | k in s'.pool.cache
      ensures EntryFresh(s'.store, s'.pool, k)
    {
      assert EntryFresh(s.store, s.pool, k);
    }
  }

  lemma AdvanceFresh(s: System, c: nat, fail: bool)
    requires Conserved(s) && Fresh(s) && c in s.calls && Conserved(Next(s, Advance(c, fail)))
    ensures Fresh(Next(s, Advance(c, fail)))
  {
    var r := StepCall(s.store, s.pool, c, s.calls[c], fail);
    assert r.0 == Next(s, Advance(c, fail)).pool;
    assert CallFresh(s.store, s.pool.clients, s.calls[c]);
    if s.calls[c].Get? {
      MoverFresh(s.store, s.pool, c, s.calls[c], fail);
    }
    ClientsGrow(s.store, s.pool, c, s.calls[c], fail);
    forall k | k in r.0.cache
      ensures EntryFresh(s.store, r.0, k)
    {
      EntriesFresh(s.store, s.pool, c, s.calls[c], fail, k);
    }
    forall d | d in s.calls && d != c
      ensures CallFresh(s.store, r.0.clients, s.calls[d])
    {
      OtherCallFresh(s.store, s.pool.clients, r.0.clients, s.calls[d]);
    }
  }

  lemma {:induction false} RunFresh(actions: seq<Action>)
    ensures Fresh(Run(actions))
  {
    if actions != [] {
      var s, a := Run(actions[..|actions|-1]), actions[|actions|-1];
      RunFresh(actions[..|actions|-1]);
      NextConserves(s, a);
      if a.Rotate? || a.Drop? {
        StoreStepFresh(s, a);
      } else if a.Advance? && a.c in s.calls {
        AdvanceFresh(s, a.c, a.fail);
      }
    }
  }

  // Under any interleaving, also when a slow lookup overwrites a newer entry, the client a
  // lookup returns was built from Secret versions no older than its own fingerprint, and so
  // no older than the credentials and the CA current when the lookup began.
  lemma {:induction false} ReturnedClientIsFresh(actions: seq<Action>, c: nat)
    requires c in Run(actions).calls && Run(actions).calls[c].Get? && Run(actions).calls[c].pc.Returned?
    ensures var s := Run(actions);
            var call := s.calls[c];
            && call.pc.admin < |s.pool.clients|
            && AtLeastAsNew(s.pool.clients[call.pc.admin], call.conn, call.pc.fp)
            && NoOlder(s.pool.clients[call.pc.admin], call.floor)
  {
    RunFresh(actions);
    assert CallFresh(Run(actions).store, Run(actions).pool.clients, Run(actions).calls[c]);
  }

  // The Secrets of a connection can be read, and what its fingerprint then is.
  ghost predicate Readable(st: Store, conn: Conn) {
    conn.cred in st.secrets && (conn.ca.Some? ==> conn.ca.value in st.secrets)
  }

  ghost function Current(st: Store, conn: Conn): Fingerprint
    requires Readable(st, conn)
  {
    Fingerprint(conn.generation, st.secrets[conn.cred], if conn.ca.Some? then st.secrets[conn.ca.value] else 0)
  }
}
