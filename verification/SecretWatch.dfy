/**
 Secret rotation: which connections a Secret event enqueues, and whether that covers every
 connection whose cached client the new Secret makes stale.
 */
module SecretWatch {
  import opened Options

  // Secret references of a connection. The mode picks one member of the union.
  datatype Mode = Basic | Ltpa | ClientCert
  datatype Authentication = Authentication(mode: Option<Mode>, basic: Option<string>, ltpa: Option<string>, clientCert: Option<string>)
  datatype Connection = Connection(
    name: string,
    generation: nat,
    credentials: Option<string>,
    authentication: Option<Authentication>,
    ca: Option<string>)

  predicate References(c: Connection, secret: string) {
    || c.credentials == Some(secret)
    || c.ca == Some(secret)
    || (c.authentication.Some?
        && var a := c.authentication.value;
           a.basic == Some(secret) || a.ltpa == Some(secret) || a.clientCert == Some(secret))
  }

  // The Secret a connection logs in with; None when the spec names none.
  function ResolveAuthentication(c: Connection): Option<string> {
    if c.authentication.Some? && Member(c.authentication.value).Some? then Member(c.authentication.value)
    else c.credentials
  }

  function Member(a: Authentication): Option<string> {
    match a.mode
    case Some(Basic) => a.basic
    case Some(Ltpa) => a.ltpa
    case Some(ClientCert) => a.clientCert
    case None => None
  }

  datatype Fingerprint = Fingerprint(generation: nat, credRV: string, caRV: string)

  // The key of a cached client, read from the resource versions of its namespace; None when a
  // Secret is missing or none is named.
  function CacheFingerprint(c: Connection, versions: map<string, string>): Option<Fingerprint> {
    var cred := ResolveAuthentication(c);
    if cred.None? || cred.value !in versions then None
    else if c.ca.None? then Some(Fingerprint(c.generation, versions[cred.value], ""))
    else if c.ca.value !in versions then None
    else Some(Fingerprint(c.generation, versions[cred.value], versions[c.ca.value]))
  }

  // Only referenced Secrets can change a fingerprint.
  lemma FingerprintReadsReferenced(c: Connection, a: map<string, string>, b: map<string, string>, secret: string)
    requires a - {secret} == b - {secret}
    requires CacheFingerprint(c, a) != CacheFingerprint(c, b)
    ensures References(c, secret)
  {
    if !References(c, secret) {
      forall s | s != secret
        ensures (s in a <==> s in b) && (s in a ==> a[s] == b[s])
      {
        assert s in a ==> s in a - {secret};
        assert s in b ==> s in b - {secret};
      }
      assert false;
    }
  }

  // The Secret a connection logs in with is that of its mode, and the plain reference only
  // where the mode names none.
  predicate LogsInWith(c: Connection, secret: string) {
    match c.authentication
    case Some(Authentication(Some(Basic), Some(name), _, _)) => name == secret
    case Some(Authentication(Some(Ltpa), _, Some(name), _)) => name == secret
    case Some(Authentication(Some(ClientCert), _, _, Some(name))) => name == secret
    case _ => c.credentials == Some(secret)
  }

  // A new version of a Secret makes a cached client stale exactly when the connection logs in
  // with the Secret or trusts it as its CA.
  lemma StaleIff(c: Connection, versions: map<string, string>, secret: string, was: string, now: string)
    requires was != now && CacheFingerprint(c, versions[secret := was]).Some?
    ensures CacheFingerprint(c, versions[secret := now]).Some?
    ensures CacheFingerprint(c, versions[secret := was]) != CacheFingerprint(c, versions[secret := now]) <==>
      LogsInWith(c, secret) || c.ca == Some(secret)
  {
  }

  // So does a new generation of the connection.
  lemma NewGenerationIsStale(c: Connection, versions: map<string, string>, generation: nat)
    requires generation != c.generation && CacheFingerprint(c, versions).Some?
    ensures CacheFingerprint(c.(generation := generation), versions).Some?
    ensures CacheFingerprint(c.(generation := generation), versions) != CacheFingerprint(c, versions)
  {
  }

  /* ---------- the event handler ---------- */

  function Referencing(list: seq<Connection>, secret: string): seq<string> {
    if list == [] then []
    else
      var last := list[|list|-1];
      Referencing(list[..|list|-1], secret) + if References(last, secret) then [last.name] else []
  }

  method RequestsForSecret(list: seq<Connection>, secret: string) returns (requests: seq<string>)
    ensures requests == Referencing(list, secret)
  {
    requests := [];
    for i := 0 to |list|
      invariant requests == Referencing(list[..i], secret)
    {
      assert list[..i + 1][..i] == list[..i];
      if References(list[i], secret) {
        requests := requests + [list[i].name];
      }
    }
    assert list[..|list|] == list;
  }

  lemma {:induction false} ReferencingIff(list: seq<Connection>, secret: string, name: string)
    ensures name in Referencing(list, secret) <==>
      exists i :: 0 <= i < |list| && list[i].name == name && References(list[i], secret)
  {
    if list != [] {
      ReferencingIff(list[..|list|-1], secret, name);
      assert forall i :: 0 <= i < |list| - 1 ==> list[..|list|-1][i] == list[i];
    }
  }

  // Some reference of the connection names the Secret.
  predicate Names(c: Connection, secret: string) {
    var auth := match c.authentication case Some(a) => [a.basic, a.ltpa, a.clientCert] case None => [];
    Some(secret) in [c.credentials, c.ca] + auth
  }

  // A Secret requests nothing unless some listed connection names it in one of its references,
  // and then it does.
  lemma RequestsIff(list: seq<Connection>, secret: string)
    ensures Referencing(list, secret) != [] <==> exists i :: 0 <= i < |list| && Names(list[i], secret)
  {
    forall i | 0 <= i < |list|
      ensures References(list[i], secret) <==> Names(list[i], secret)
      ensures References(list[i], secret) ==> list[i].name in Referencing(list, secret)
    {
      NamesIff(list[i], secret);
      ReferencingIff(list, secret, list[i].name);
    }
    if Referencing(list, secret) != [] {
      ReferencingIff(list, secret, Referencing(list, secret)[0]);
    }
  }

  lemma NamesIff(c: Connection, secret: string)
    ensures References(c, secret) <==> Names(c, secret)
  {
    match c.authentication
    case Some(a) =>
      assert [c.credentials, c.ca] + [a.basic, a.ltpa, a.clientCert] == [c.credentials, c.ca, a.basic, a.ltpa, a.clientCert];
    case None =>
      assert [c.credentials, c.ca] + [] == [c.credentials, c.ca];
  }

  // A Secret as an event carries it; None is a nil map, which is not equal to an empty one.
  datatype Secret = Secret(data: Option<map<string, string>>, stringData: Option<map<string, string>>, version: string)

  predicate Empty(m: Option<map<string, string>>) {
    m.None? || m.value == map[]
  }

  predicate Stripped(s: Secret) {
    Empty(s.data) && Empty(s.stringData)
  }

  predicate ContentChanged(was: Secret, now: Secret) {
    || was.data != now.data
    || was.stringData != now.stringData
    || (Stripped(was) && Stripped(now) && was.version != "" && now.version != "" && was.version != now.version)
  }

  datatype Event = Created(secret: Secret) | Updated(was: Secret, now: Secret) | Deleted(secret: Secret)

  predicate Accepts(e: Event) {
    e.Updated? ==> ContentChanged(e.was, e.now)
  }

  function Enqueued(list: seq<Connection>, secret: string, e: Event): seq<string> {
    if Accepts(e) then Referencing(list, secret) else []
  }

  /* ---------- coverage ---------- */

  // The transform the manager installs on its Secret informer.
  function Strip(s: Secret): Secret {
    Secret(None, None, s.version)
  }

  // An informer may hold a Secret as it is or with its contents stripped.
  predicate ViewOf(view: Secret, s: Secret) {
    view == s || view == Strip(s)
  }

  // `c` is listed and its fingerprint changes with the version of the Secret.
  ghost predicate GoesStale(list: seq<Connection>, c: Connection, versions: map<string, string>, secret: string, was: Secret, now: Secret) {
    c in list && CacheFingerprint(c, versions[secret := was.version]) != CacheFingerprint(c, versions[secret := now.version])
  }

  lemma StaleIsReferencing(list: seq<Connection>, c: Connection, versions: map<string, string>, secret: string, was: Secret, now: Secret)
    requires GoesStale(list, c, versions, secret, was, now)
    ensures c.name in Referencing(list, secret)
  {
    assert versions[secret := was.version] - {secret} == versions[secret := now.version] - {secret};
    FingerprintReadsReferenced(c, versions[secret := was.version], versions[secret := now.version], secret);
    var i :| 0 <= i < |list| && list[i] == c;
    ReferencingIff(list, secret, c.name);
  }

  lemma SomeConnectionListed(list: seq<Connection>, secret: string, e: Event, name: string)
    requires name in Referencing(list, secret)
    ensures name in Enqueued(list, secret, e) <==> Accepts(e)
  {
  }

  // An update enqueues the connections it makes stale exactly when the contents differ in the
  // views, or both views carry none.
  lemma StaleIsEnqueuedIff(list: seq<Connection>, c: Connection, versions: map<string, string>, secret: string,
                           was: Secret, now: Secret, wasView: Secret, nowView: Secret)
    requires GoesStale(list, c, versions, secret, was, now) && ViewOf(wasView, was) && ViewOf(nowView, now)
    requires was.version != "" && now.version != ""
    ensures c.name in Enqueued(list, secret, Updated(wasView, nowView)) <==>
      wasView.data != nowView.data || wasView.stringData != nowView.stringData || (Stripped(wasView) && Stripped(nowView))
  {
    StaleIsReferencing(list, c, versions, secret, was, now);
    SomeConnectionListed(list, secret, Updated(wasView, nowView), c.name);
    assert was.version != now.version;
  }

  // Rotation coverage: a change of contents reaches every stale connection, stripped or not.
  lemma RotationIsCovered(list: seq<Connection>, c: Connection, versions: map<string, string>, secret: string,
                          was: Secret, now: Secret, wasView: Secret, nowView: Secret)
    requires GoesStale(list, c, versions, secret, was, now) && ViewOf(wasView, was) && ViewOf(nowView, now)
    requires was.version != "" && now.version != ""
    requires was.data != now.data || was.stringData != now.stringData
    ensures c.name in Enqueued(list, secret, Updated(wasView, nowView))
  {
    StaleIsEnqueuedIff(list, c, versions, secret, was, now, wasView, nowView);
  }

  // Behind the installed transform every update reaches every connection it makes stale,
  // whether the contents changed or not.
  lemma StrippedInformerCoversAll(list: seq<Connection>, c: Connection, versions: map<string, string>, secret: string,
                                  was: Secret, now: Secret)
    requires GoesStale(list, c, versions, secret, was, now) && was.version != "" && now.version != ""
    ensures c.name in Enqueued(list, secret, Updated(Strip(was), Strip(now)))
  {
    StaleIsEnqueuedIff(list, c, versions, secret, was, now, Strip(was), Strip(now));
  }

  // Without the transform an edit of labels alone leaves a stale client without an event.
  lemma LabelEditIsMissed(c: Connection, versions: map<string, string>, secret: string, s: Secret, version: string)
    requires ResolveAuthentication(c) == Some(secret) && c.ca.None? && !Stripped(s) && s.version != version
    ensures GoesStale([c], c, versions, secret, s, s.(version := version))
    ensures c.name !in Enqueued([c], secret, Updated(s, s.(version := version)))
  {
  }

  // A created or deleted Secret reaches every connection that names it.
  lemma CreateAndDeleteReachAll(list: seq<Connection>, i: nat, secret: string, e: Event)
    requires i < |list| && References(list[i], secret) && !e.Updated?
    ensures list[i].name in Enqueued(list, secret, e)
  {
    ReferencingIff(list, secret, list[i].name);
  }
}
