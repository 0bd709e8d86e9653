# MKurator in Dafny

MKurator is a Kubernetes operator that keeps IBM MQ objects (queues, topics, channels, CHLAUTH
rules and authority records) equal to custom resources. This project models the parts of it
where correctness is hardest to see in the code, and proves what they guarantee over every
input, every interleaving and every run.

**The mqweb client, under concurrency.** Any number of goroutines interleave over the locked
regions of the code in a state machine. Objects guarded by a mutex are classes whose methods are
specified by the very functions the state machine takes its steps with, and the code that calls
them is proved to follow the machine step by step.

- `CircuitBreaker.dfy`: the breaker refines a definition that looks only at its history of
  outcomes; one admission per half-open episode; a rate bound while failing; when it is shut
  for ever.
- `RoundTrip.dfy`: the retry loop, the three exits that record no outcome, and 64-bit backoff.
- `Ltpa.dfy`: token single flight over all interleavings of requests.
- `GuardedCall.dfy`: session, trips and re-login put together: exactly what a whole call does,
  step by step with the session machine, and that every request carries a session cookie.
- `ClientCache.dfy`, `Factory.dfy`: freshness of returned clients, conservation of built ones, and
  releases that close what they evict; the factory's code follows.
- `ClientSpecs.dfy`: exactly which specs can be handed each other's clients.
- `SecretWatch.dfy`: whether a Secret event reaches every connection it makes stale.
- `ProbeCache.dfy`: the display-capability cache.

**The workload controllers.** `Workload.dfy` has the decisions taken on one read of a resource;
`Reconcile.dfy` interleaves the steps of a pass with users, watch deliveries and MQ. The API
server is a history of versions, writes are optimistic and may lose their acknowledgement, the
cache lags but never goes back, and every MQ call may fail or fail after taking effect.

- `NoLeak.dfy`: no command without a persisted finalizer; nothing left behind.
- `NoWedge.dfy`: no pass ends with work left and nothing to trigger another.
- `SafeCommands.dfy`: every command was justified, and adoption protects what was there before.
- `AdoptionExact.dfy`: exactly which resources leave an existing MQ object alone.
- `AdoptionBypass.dfy`: a run in which observe-only leads around the adoption policy.
- `QuietPass.dfy`: what an undisturbed pass leaves in MQ, in the API server and in the queue, for
  every branch it can take.
- `Progress.dfy`: from every reachable state a deletion is finished, and a live resource synced, by
  the next pass whose calls succeed.
- `ReconcilePass.dfy`: the pass as the controllers run it, editing the object it read and writing
  it back, proved to follow the state machine step by step.

**The apply/observe loop.** Text and numbers as the code handles them are in `Text.dfy`.

- `Attributes.dfy`, `Parameters.dfy`, `Convergence.dfy`: from attributes to DEFINE, through
  DISPLAY and back, pass after pass.
- `Mqsc.dfy`, `DisplayText.dfy`, `ChannelAuth.dfy`, `ChannelAuthTrip.dfy`,
  `ChannelAuthSettled.dfy`: printing SET CHLAUTH, parsing DISPLAY text, and comparing.
- `Sorting.dfy`, `Authority.dfy`: comparing authority lists, and the fixpoint of AUTHADD.
- `Folding.dfy`, `FoldTables.dfy`: promoting free attributes to typed fields.

The documentation lists `maxmsglen` and four other attributes of local queues as never checked
for drift; the code probes them and checks those that mqweb can display, and is followed here.

Several expected properties are false of the code as it is. Each is stated with the exact
condition under which it holds, and with an input or family of inputs on which it fails:

- A checked number of a million or more is displayed with an exponent and never compares equal,
  so the object is redefined by every pass (`Convergence.ReappliesIff`,
  `Convergence.FourMegabytesNeverSettles`).
- A CHLAUTH value with a closing parenthesis or a quote at its ends, or a field its rule type
  cannot set, asks for an update for ever. So does a displayed description with a closing
  parenthesis, unless what is read of it is blank; and the rest of such a description can be
  read as values of other fields (`ChannelAuthTrip.RoundTripIff`; told from the rule alone
  `ChannelAuthSettled.AlwaysSettledIff`, with `ChannelAuthSettled.CutDescriptionNeverSettles`).
- `authoritySetsEqual` compares lengths before it drops blanks, so blanks can make it answer
  Equal for different grants, Different for the same grants, or index past the end
  (`Authority.ComparedIff`, `Authority.BlanksMislead`). The pattern on `authorities`
  (`api/v1beta1/authorityrecord_types.go:57`) keeps blanks and commas out of resources at
  admission, so the operator itself does not meet these lists.
- AUTHADD only adds, so grants made elsewhere, or an authority listed twice in different case,
  never settle (`Authority.ApplySettlesIff`).
- A probe of the breaker that ends without recording an outcome shuts the connection off
  (`RoundTrip.UnrecordedProbeIsFinal`).
- The backoff schedule overflows, or starts above its cap, for some settings
  (`RoundTrip.BackoffIsCappedDoubling`).
- A retry after a token 401 can send the rejected cookies again (`Ltpa.SecondTripFreshIff`,
  `Ltpa.RetryCanResendRejectedCookies`).
- A late publish can serve a recreated connection the client of its predecessor, exactly when
  two specs agree on key, generation and Secrets (`ClientSpecs.AlwaysOwnSpecsIff`,
  `ClientSpecs.LatePublishServesRecreatedConnection`).
- The Secret watch alone does not cover every update: an edit without change of contents, seen
  with its contents, changes the fingerprint but enqueues nothing
  (`SecretWatch.StaleIsEnqueuedIff`, `SecretWatch.LabelEditIsMissed`). The manager strips every
  Secret before it enters the informer (`cmd/main.go:213`), so the operator as configured never
  sees that input, and every update reaches every stale connection
  (`SecretWatch.StrippedInformerCoversAll`).
- Observe-only bypasses adoption for queues, topics and channels, but not for CHLAUTH rules and
  authority records (`Workload.KindsDisagreeIff`, `AdoptionExact.AlwaysSparedIff`,
  `AdoptionBypass.ObserveOnlyBypassesAdoption`).
- Folding loses empty values and aliases that disagree with a field already set
  (`FoldTables.FoldPreservesMeaningIff`), and two keys of one unset number, one readable and one
  not, may need two folds (`Folding.SecondFoldIdleIff`, `Folding.TwinsNeedTwoFolds`).

`dafny verify dfyconfig.toml` checks the whole project.

## Model

| member | source | states |
|---|---|---|
| Breaker.Config.Defaulted | internal/adapter/mqrest/circuit_breaker.go:53-64 | Non-positive settings become 5 failures and 30 seconds; valid ones are kept |
| Breaker.CircuitBreaker.constructor | internal/adapter/mqrest/circuit_breaker.go:53-64 | A new breaker is closed, with no failures and no probe |
| Breaker.CircuitBreaker.BeforeRequest | internal/adapter/mqrest/circuit_breaker.go:66-88 | Admission and the whole new state, against the value-level step |
| Breaker.CircuitBreaker.RecordSuccess | internal/adapter/mqrest/circuit_breaker.go:90-98 | The whole new state after a success |
| Breaker.CircuitBreaker.RecordFailure | internal/adapter/mqrest/circuit_breaker.go:100-114 | The whole new state after a failure, including the failing probe |
| Breaker.RefinesHistory | internal/adapter/mqrest/circuit_breaker.go:66-125 | After any events: closed exactly when the failures since the last success are below the threshold, half-open exactly when a probe is out, and openedAt is the last failure |
| Breaker.AdmissionByHistory | internal/adapter/mqrest/circuit_breaker.go:66-88 | Whether a request is admitted, said from the history alone |
| Breaker.HalfOpenEpisodeAdmitsOne | internal/adapter/mqrest/circuit_breaker.go:66-114 | The event that opens a half-open episode is its one admission |
| Breaker.RateBound | internal/adapter/mqrest/circuit_breaker.go:66-114 | n admissions in a success-free stretch take at least n open-timeouts, late failures included |
| Breaker.HalfOpenShutIffNoCallInFlight | internal/adapter/mqrest/circuit_breaker.go:66-114 | A half-open breaker rejects every later call at every clock value exactly when no admitted call is outstanding |
| RoundTrip.Attempts | internal/adapter/mqrest/resilience.go:139-192 | The retry loop: the deciding attempt, the requests sent and the result; every request carries a session cookie if there is a session |
| RoundTrip.DecidedMeans | internal/adapter/mqrest/resilience.go:75-77 | In HTTP terms: a 429 or 5xx is retried until the last attempt and never returned; what is returned is the deciding attempt's response |
| RoundTrip.RoundTrip | internal/adapter/mqrest/resilience.go:134-193 | The same with admission and the single recorded outcome, whatever other calls do to breaker and session in between; a 429 or 5xx is never returned as a response |
| RoundTrip.ExitOf | internal/adapter/mqrest/resilience.go:75-77 | Returned statuses are not retryable, reported busy ones are |
| RoundTrip.ProbePhase | internal/adapter/mqrest/resilience.go:134-193 | While others only make requests, a probe closes the breaker iff a response is returned, and leaves it half-open iff it ends in one of three unrecorded ways |
| RoundTrip.UnrecordedProbeIsFinal | internal/adapter/mqrest/resilience.go:134-193 | With nothing else in flight the connection is shut off for ever iff the probe recorded nothing |
| RoundTrip.ComputeBackoff | internal/adapter/mqrest/resilience.go:61-73 | The loop computes 64-bit doubling with a cap |
| RoundTrip.BackoffIsCappedDoubling | internal/adapter/mqrest/resilience.go:61-73 | min(initial * 2^(n-1), max) for every n iff initial is within the cap and the last doubling fits 64 bits |
| RoundTrip.BackoffFitsBelowCap | internal/adapter/mqrest/resilience.go:61-73 | For caps up to 2^62 the doubling fits iff initial is below 2^62 |
| Ltpa.DoLogin | internal/adapter/mqrest/ltpa.go:159-210 | Only 200 or 204 with a cookie is a session; which failures are transient |
| Ltpa.LtpaAuthenticator.constructor | internal/adapter/mqrest/ltpa.go:66-73 | No cookies, generation zero |
| Ltpa.LtpaAuthenticator.Attach | internal/adapter/mqrest/ltpa.go:80-88 | The current cookies are attached |
| Ltpa.LtpaAuthenticator.Peek | internal/adapter/mqrest/ltpa.go:94-114 | Whether there is a session, and its generation |
| Ltpa.LtpaAuthenticator.Reauthenticate | internal/adapter/mqrest/ltpa.go:136-152 | Logs in only if the token is current; the new session and the error |
| Ltpa.SingleFlight | internal/adapter/mqrest/ltpa.go:94-152 | In every interleaving successful logins equal the generation, one per token |
| Ltpa.RequestsCarrySession | internal/adapter/mqrest/resilience.go:93-132 | Every request on the wire carries a session cookie of a generation between its token and the current one; trips and logins, counted as they start, are at most two each |
| Ltpa.ReloginReplacesRejectedCookies | internal/adapter/mqrest/resilience.go:93-132 | A login after a 401 replaces exactly the cookies that were rejected |
| Ltpa.SecondTripFreshIff | internal/adapter/mqrest/resilience.go:93-132 | Whatever others do meanwhile, the cookies the second trip attaches are newer iff the rejected ones were those of the token, or someone logged in after those were attached, before or after the re-login |
| Ltpa.RetryCanResendRejectedCookies | internal/adapter/mqrest/resilience.go:93-132 | A run in which the second trip resends the rejected cookies |
| Ltpa.LtpaAuthenticator.Send | internal/adapter/mqrest/ltpa.go:80-88 | One attempt goes out as a step of the machine, with a session cookie |
| Ltpa.LtpaAuthenticator.EnsureLoggedIn | internal/adapter/mqrest/ltpa.go:94-114 | The token by steps of the machine, with the first trip entered, or the error; a login is tried iff there was no session, and the endpoint contacted iff nobody logged in meanwhile |
| Ltpa.LtpaAuthenticator.LogInAgain | internal/adapter/mqrest/resilience.go:125-131 | The re-login by a step of the machine, into the second trip or to an end |
| GuardedCall.RoundTripWithReauth | internal/adapter/mqrest/resilience.go:93-132 | Under any interference: fails before the first trip iff the first login fails; logs in again iff the first trip returned a 401 that rejects the token; makes the second trip iff that login did not fail; ends as its last trip did; both trips follow the breaker and their scripts; the session machine counts the same logins and trips, and every request has a cookie |
| GuardedCall.CallBounded | internal/adapter/mqrest/resilience.go:93-132 | Hence at most twice the requests of one trip, at most two logins, and no 429 or 5xx returned |
| Factory.ClientFactory.constructor | internal/adapter/mqrest/factory.go:52-57 | The cache starts empty, with nothing built and no call in progress |
| Factory.ClientFactory.Lookup | internal/adapter/mqrest/factory.go:88-94 | A hit needs the same key and fingerprint |
| Factory.ClientFactory.Publish | internal/adapter/mqrest/factory.go:106-126 | The key then holds the client handed out; which client that is and which one is closed, for a matching, a stale and a missing entry; no other key changes |
| Factory.ClientFactory.Evict | internal/adapter/mqrest/factory.go:137-142 | The key is gone, every other key is as it was, and the client that was there is handed over for closing |
| Factory.ClientFactory.ReadFingerprint | internal/adapter/mqrest/factory.go:228-268 | Reads the Secrets by steps of the machine, to a fingerprint or an error |
| Factory.ClientFactory.BuildConfig | internal/adapter/mqrest/factory.go:279-343 | Reads them again by steps of the machine, to a configuration or an error |
| Factory.ClientFactory.ForConnection | internal/adapter/mqrest/factory.go:67-126 | Whatever others do between its steps, a lookup follows the machine to its end, and a client it returns is no older than its fingerprint and the Secrets current when it began; undisturbed it returns the cached client of the current versions, or a new one |
| Factory.ClientFactory.ReleaseConnection | internal/adapter/mqrest/factory.go:131-148 | A release follows the machine to its end; the client it took out of the cache, whatever was there under its key, is then closed once and out of reach |
| ClientCache.ReleaseCloses | internal/adapter/mqrest/factory.go:131-148 | In every interleaving: once a release is over, the client cached under its key at its evicting step has been closed exactly once and is under no key |
| ClientCache.ClientConservation | internal/adapter/mqrest/factory.go:96-148 | In every interleaving holders, cache keys, closing releases and closes of a client add up to one |
| ClientCache.ReturnedClientIsFresh | internal/adapter/mqrest/factory.go:67-148 | A returned client was built from Secret versions no older than its caller's fingerprint and than the credentials and CA current when the call began |
| ClientSpecs.ReturnedClientHasCallersSpec | internal/adapter/mqrest/factory.go:67-126 | It was built for the caller's own spec, if no other lookup agrees with it on key, generation and Secrets but not on the rest |
| ClientSpecs.AlwaysOwnSpecsIff | internal/adapter/mqrest/factory.go:67-148 | Over any specs: every run gives every caller a client of its own spec iff no two specs agree on key, generation and Secrets |
| ClientSpecs.OneServesAnother | internal/adapter/mqrest/factory.go:67-148 | For any two that do, a run from the start, with a release in it, that hands one the other's client |
| ClientSpecs.LatePublishServesRecreatedConnection | internal/adapter/mqrest/factory.go:67-148 | Any run in which a lookup is about to publish with nothing cached goes on to one in which a recreated connection is handed its client |
| SecretWatch.FingerprintReadsReferenced | internal/adapter/mqrest/factory.go:198-268 | Only a referenced Secret can change a fingerprint |
| SecretWatch.StaleIff | internal/adapter/mqrest/factory.go:198-268 | A new version changes the fingerprint iff the connection logs in with the Secret, as its mode says, or trusts it as its CA |
| SecretWatch.NewGenerationIsStale | internal/adapter/mqrest/factory.go:198-268 | So does a new generation of the connection |
| SecretWatch.RequestsIff | internal/controller/secret_watch.go:28-84 | A Secret requests something iff some listed connection names it in one of its references |
| SecretWatch.RequestsForSecret | internal/controller/secret_watch.go:50-84 | The requests are the referencing connections, in order |
| SecretWatch.ReferencingIff | internal/controller/secret_watch.go:28-48 | A name is requested iff some listed connection of that name references the Secret |
| SecretWatch.StaleIsEnqueuedIff | internal/controller/secret_watch.go:96-134 | An update enqueues a connection it makes stale iff the contents differ in the two views or both views carry none |
| SecretWatch.RotationIsCovered | internal/controller/secret_watch.go:28-134 | Every change of contents reaches every connection it makes stale, stripped views or not |
| SecretWatch.StrippedInformerCoversAll | internal/cacheconfig/secret.go:28-54 | Behind the installed transform every update reaches every connection it makes stale |
| SecretWatch.LabelEditIsMissed | internal/controller/secret_watch.go:100-113 | Without that transform, an edit without change of contents leaves a stale client unnoticed |
| SecretWatch.CreateAndDeleteReachAll | internal/controller/secret_watch.go:115-134 | Creating or deleting a Secret enqueues every referencing connection |
| Workload.Decide | internal/controller/drift_policy.go:41-81 | A command is issued iff not observe-only, an update is needed and adoption does not block; InSync only for a matching object |
| Workload.KindsDisagreeIff | internal/controller/channelauthrule_controller.go:137-172 | The two orders of the tests differ exactly on an observe-only resource that adoption would block |
| Reconcile.EnvStep | internal/controller/suspend.go:81-120 | The environment only appends versions and the cache never goes back |
| Reconcile.PassStep | internal/controller/queue_controller.go:47-137 | A step of a pass only appends versions and leaves the cache alone |
| Reconcile.WriteAny | internal/controller/reconcile_shared.go:64-91 | A status or finalizer write appends at most to the history |
| Reconcile.Next | internal/controller/reconcile_shared.go:258-332 | Every step keeps history, cache position and sanity |
| ReconcilePass.Reconciler.constructor | internal/controller/queue_controller.go:40-44 | Starts with no pass running, at the given world |
| ReconcilePass.Reconciler.PatchSynced | internal/controller/reconcile_shared.go:64-91 | The condition is edited and written; a failed write ends the pass with a retry, a successful one goes on with the edited object |
| ReconcilePass.Reconciler.SetSyncedError | internal/controller/reconcile_shared.go:165-212 | The pass ends; without a retry only for a terminal error |
| ReconcilePass.Reconciler.ReconcileSuspended | internal/controller/suspend.go:48-62 | A suspended resource is reported once, and the pass ends |
| ReconcilePass.Reconciler.OrphanFinalize | internal/controller/reconcile_shared.go:315-332 | The condition, then the finalizer; the pass ends, with a retry if a write failed |
| ReconcilePass.Reconciler.HandleDeletion | internal/controller/queue_controller.go:176-199 | Condition, deletion from MQ, then the finalizer, each step a step of the machine |
| ReconcilePass.Reconciler.ReconcileDeletion | internal/controller/reconcile_shared.go:258-313 | The branches of a deletion follow the machine to an end |
| ReconcilePass.Reconciler.EnsureObject | internal/controller/queue_controller.go:105-137 | Observation, decision, command and report follow the machine to an end |
| ReconcilePass.Reconciler.ReconcileLive | internal/controller/queue_controller.go:71-137 | The branches of a live resource follow the machine to an end |
| ReconcilePass.Reconciler.RunPass | internal/controller/queue_controller.go:47-137 | Under any interference and any results of its calls, the pass runs to its end by steps of the machine and loses no requested requeue; undisturbed, it is exactly the run that `QuietPass` describes |
| ReconcilePass.Reconciler.Reconcile | internal/controller/queue_controller.go:40-44 | From a fresh start it also leaves a trigger or a resting resource |
| QuietPass.PassedIsRun | internal/controller/queue_controller.go:47-137 | The pass described below is that run of the machine |
| QuietPass.SuspendedPass | internal/controller/suspend.go:48-62 | A suspended resource is reported once per generation; nothing is asked of MQ |
| QuietPass.DeletedPass | internal/controller/queue_controller.go:176-199 | A deletion reports itself, deletes the MQ object and removes the finalizer, so that the resource is gone unless others hold it |
| QuietPass.DeleteFailedPass | internal/controller/queue_controller.go:176-199 | If MQ refuses, the finalizer stays, the error is reported and retried unless terminal |
| QuietPass.OrphanedPass | internal/controller/reconcile_shared.go:315-332 | With the annotation or the policy the MQ object is left alone and the finalizer goes |
| QuietPass.ForeignDeletionPass | internal/controller/reconcile_shared.go:258-272 | Without our finalizer nothing is done |
| QuietPass.WaitingPass | internal/controller/reconcile_shared.go:273-313 | Without a usable connection a deletion waits, as does a live resource whose connection is not ready |
| QuietPass.EarlyErrorPass | internal/controller/queue_controller.go:71-104 | Errors before MQ is looked at are reported, and retried unless terminal |
| QuietPass.FinalizerPass | internal/controller/queue_controller.go:71-97 | The finalizer is put on first, and nothing else |
| QuietPass.UnreadablePass | internal/controller/queue_controller.go:105-122 | A failed look at MQ is reported, and retried unless terminal |
| QuietPass.ReportedPass | internal/controller/queue_controller.go:105-137 | Without a command: adoption blocked, drift or available is reported, each exactly when; only a matching object counts as synced |
| QuietPass.CommandingPass | internal/controller/queue_controller.go:105-137 | A command is sent exactly for a missing or drifting object of a resource that may act; what it leaves, and the report |
| Progress.DeletionFinishes | internal/controller/reconcile_shared.go:258-332 | From every reachable state without a running pass, after the deliveries one pass whose calls succeed deletes the MQ object, or spares it if asked, and removes the finalizer; the one exception is a terminal error of this generation |
| Progress.SyncFinishes | internal/controller/queue_controller.go:47-137 | Likewise a live resource that may act ends synced, with MQ as desired, and by a command exactly if it was not before |
| NoLeak.RunKeepsInv | internal/controller/queue_controller.go:57-97 | The invariant behind the two theorems below holds in every reachable state |
| NoLeak.DefineOnlyWithFinalizer | internal/controller/queue_controller.go:57-97 | Whenever a command is about to be sent, the current incarnation carries the persisted finalizer, however stale the read |
| NoLeak.GoneMeansDeleted | internal/controller/reconcile_shared.go:258-332 | If an incarnation is gone and no version of it asked to be orphaned while it was being deleted, each of its DEFINEs was followed by a successful deletion |
| NoWedge.RunKeepsSteady | internal/controller/reconcile_shared.go:111-127 | The invariant behind the next theorem holds in every reachable state |
| NoWedge.NoSilentWedge | internal/controller/reconcile_shared.go:165-212 | When no pass runs: one is queued, an accepted event is on its way, or the resource rests (gone, not ours to delete, suspended, or terminal for this generation) |
| NoWedge.SpecEditWakes | internal/controller/suspend.go:81-120 | A spec edit always puts an accepted event ahead of the cache |
| NoWedge.RequestWakes | internal/controller/suspend.go:81-120 | So do a new requested-at annotation and a deletion |
| NoWedge.ConditionDoesNotWake | internal/controller/suspend.go:81-120 | A pass does not wake itself by the conditions it writes |
| NoWedge.DeliveryQueues | internal/controller/suspend.go:81-120 | An accepted event queues the key once the cache catches up |
| SafeCommands.CommandsJustified | internal/controller/queue_controller.go:47-137 | Every DEFINE was decided on a version that was not suspended, deleting or observe-only, carried the finalizer, needed the update and was not blocked; every deletion on one being deleted without orphan request |
| SafeCommands.StaysPassiveIff | internal/controller/adoption_policy.go:28-58 | Before the first sync a pass that finds an object neither commands nor reports a sync iff the resource refuses the object |
| SafeCommands.ProtectedObjectNeverRedefined | internal/controller/adoption_policy.go:28-58 | From any reachable state in which nothing a pass can still act on is synced: while each such active version refuses the object there, it is never redefined and none becomes synced; earlier incarnations may have been |
| AdoptionExact.AlwaysSparedIff | internal/controller/adoption_policy.go:28-58 | In any reachable state before the first sync, undisturbed, no continuation redefines the object or syncs with it iff the resource is suspended, being deleted or refuses it |
| AdoptionBypass.ObserveOnlyBypassesAdoption | internal/controller/drift_policy.go:52-60 | A family of runs from the start, under any adoption policy: an object that was there first is redefined after an observe-only pass |
| Attributes.NormalizeIdempotent | internal/mqadmin/attrmatch.go:57-63 | Normalising a key twice changes nothing |
| Attributes.NumericCanonical | internal/mqadmin/attrmatch.go:121-131 | Numeric text has one canonical form, that of the number it parses to |
| Attributes.MatchesIsEquivalence | internal/mqadmin/attrmatch.go:67-76 | Value matching is an equivalence that depends on the key only up to normalisation |
| Attributes.ValueMatchesIff | internal/mqadmin/attrmatch.go:25-76 | Exactly which values are told apart, under any spelling of the key: blanks around never count; words up to case, numbers by value, everything else as text |
| Attributes.CheckKeySet | internal/mqadmin/attrmatch.go:113-119 | The loop collects exactly the normalised keys |
| Attributes.DriftsForKeys | internal/mqadmin/attrmatch.go:84-99 | One drift per drifting key, with its values; none iff no update is needed |
| Parameters.Refill | internal/adapter/mqrest/mqsc_params.go:165-183 | Filling a map by ranging over another, in any order: which entries the result can have |
| Parameters.OrderShowsIff | internal/adapter/mqrest/mqsc_params.go:165-183 | The order shows in the result iff two keys of one name carry different values |
| Parameters.ToSpec | internal/controller/queue_controller.go:201-235 | Free attributes under normalised keys, overridden by typed fields |
| Parameters.SpecIsKeyed | internal/controller/topic_controller.go:191-221 | Every key of a spec is normalised |
| Parameters.DefineParameters | internal/adapter/mqrest/mqsc_params.go:101-187 | The parameters of DEFINE for queues, topics and channels |
| Parameters.FirstObjectAttributes | internal/adapter/mqrest/mqsc_types.go:86-103 | What the responses say about every key, the last word winning, and when there is no object or an error |
| Convergence.NumberReturnsIff | internal/adapter/mqrest/mqsc_types.go:86-103 | A number survives DEFINE and DISPLAY iff it is below a million in size |
| Convergence.ReturnsIff | internal/adapter/mqrest/mqsc_params.go:101-118 | The same for one attribute of any kind |
| Convergence.DefineStores | internal/adapter/mqrest/mqsc_params.go:101-187 | Whatever was there before, DEFINE leaves every checked attribute in its wire form |
| Convergence.DefineSends | internal/adapter/mqrest/mqsc_params.go:101-187 | DEFINE sends every attribute in its wire form, asks to replace, and gives a channel its own type |
| Convergence.NumbersAreSent | internal/adapter/mqrest/mqsc_params.go:101-118 | What is compared as a number is sent as one, but for the backout threshold |
| Convergence.StoredIsSeen | internal/adapter/mqrest/mqsc_params.go:120-145 | A stored parameter reported under either of its names comes back under its attribute key |
| Convergence.CheckedIff | internal/adapter/mqrest/mqsc_params.go:236-249 | Drift detection looks at exactly the attributes DISPLAY was asked for |
| Convergence.CheckedAsDocumented | docs/ATTRIBUTE_RECONCILIATION.md:77-156 | What is looked at for drift is what the documented matrix says, for every kind of object |
| Convergence.StoredDriftsIff | internal/mqadmin/attrmatch.go:84-131 | Once stored, the attributes drift iff a checked number is too large |
| Convergence.DriftIff | internal/mqadmin/attrmatch.go:84-131 | Whatever the object holds: drift is seen iff a checked attribute is out of step with it |
| Convergence.DriftIsRepaired | internal/controller/drift_policy.go:41-81 | A pass over an object that is out of step issues a DEFINE iff its policies let it, and one that takes effect leaves the object as wanted |
| Convergence.MissingIsDefined | internal/controller/drift_policy.go:41-81 | A missing object is defined unless the resource only observes |
| Convergence.ReconcileObjectState | internal/controller/drift_policy.go:41-81 | The decision procedure, with its drift loop, decides as specified |
| Convergence.ReappliesIff | internal/controller/drift_policy.go:41-81 | After a DEFINE took effect, any later pass issues another iff a checked number is too large and its policies let it |
| Convergence.AtMostOneDefine | internal/controller/drift_policy.go:41-81 | In any run of any number of passes at most one DEFINE takes effect, if no checked number is too large |
| Convergence.FourMegabytesNeverSettles | internal/controller/channel_controller.go:208-255 | A channel with a maximum message length of 4194304 is redefined by every later pass whose policies let it |
| ProbeCache.DisplayProbe.constructor | internal/adapter/mqrest/display_probe_cache.go:51-77 | Nothing is known at first |
| ProbeCache.DisplayProbe.LookUp | internal/adapter/mqrest/display_probe_cache.go:52-59 | First locked region: the cached answer, if any |
| ProbeCache.DisplayProbe.Remember | internal/adapter/mqrest/display_probe_cache.go:70-75 | Second locked region: the answer is stored |
| ProbeCache.DisplayProbe.ProbeCached | internal/adapter/mqrest/display_probe_cache.go:51-77 | With others at work before each region, the code takes the steps of one caller of the machine |
| ProbeCache.DisplayProbe.Resolve | internal/adapter/mqrest/display_probe_cache.go:37-49 | The loop is one caller of the machine from start to end: a returned list is the right one; it fails only if mqweb does not answer, and with a full cache asks nothing; at most one request per attribute |
| ProbeCache.ResolvedIsDisplayed | internal/adapter/mqrest/display_probe_cache.go:22-49 | The resolved list is what DISPLAY asks for and drift detection compares |
| ProbeCache.ResolvedNames | docs/DISPLAY_CAPABILITY_PROBE.md:9-60 | By name: the five that are always displayed and those of the six documented candidates that can be |
| ProbeCache.Agreement | internal/adapter/mqrest/display_probe_cache.go:37-77 | In every interleaving each caller that finishes has the one right list, and a caller that began with a full cache asked nothing and did not fail |
| ProbeCache.WarmAfterFirst | internal/controller/queue_controller.go:149-173 | Once any caller has finished, every caller that begins at any later time finds a full cache |
| Mqsc.QuoteReadsBack | internal/adapter/mqrest/auth.go:340-342 | A quoted literal is read back whole and ends exactly at its closing quote |
| Mqsc.QuoteInjective | internal/adapter/mqrest/auth.go:340-342 | Quoting is injective |
| Mqsc.CommandReadsBack | internal/adapter/mqrest/auth.go:259-303 | A printed command is read back clause by clause |
| DisplayText.MatchAt | internal/adapter/mqrest/mqsc_display_parse.go:8 | A match is a keyword and a value without closing parenthesis, and is a prefix of the text |
| DisplayText.PairsReadBack | internal/adapter/mqrest/mqsc_display_parse.go:8-26 | Printed pairs without closing parentheses are found again, in order |
| DisplayText.PairsSum | internal/adapter/mqrest/mqsc_display_parse.go:8 | What is found up to a closing parenthesis does not depend on what follows |
| DisplayText.ParsedIsFound | internal/adapter/mqrest/mqsc_display_parse.go:11-26 | What is parsed from printed pairs with any values: what is found in each, one after the other |
| DisplayText.LastIsFound | internal/adapter/mqrest/mqsc_display_parse.go:20-24 | The last value of a keyword is looked up, cleaned |
| DisplayText.BodyIsFound | internal/adapter/mqrest/mqsc_display_parse.go:11-19 | The text after the header's marker is cut out |
| DisplayText.AfterMarkerIs | internal/adapter/mqrest/mqsc_display_parse.go:14-19 | On any text: everything up to the first "details.", else up to the first "details ", else nothing is cut off |
| DisplayText.ParseDisplayAttributes | internal/adapter/mqrest/mqsc_display_parse.go:11-26 | The loop fills the map with the pairs of the text, later ones winning |
| DisplayText.ParsedShaped | internal/adapter/mqrest/mqsc_display_parse_fuzz_test.go:32-60 | On any input: keys are non-empty, lower-case letters and digits; values have no closing parenthesis and no quote at their ends |
| DisplayText.ShownIsFound | internal/adapter/mqrest/mqsc_display_parse.go:20-24 | A keyword shown with one value is looked up as that value, cleaned; an absent one as empty |
| ChannelAuth.BuildSetChannelAuth | internal/adapter/mqrest/auth.go:259-303 | The command that is specified clause by clause, or the error |
| ChannelAuth.SetReadsBack | internal/adapter/mqrest/auth.go:259-303 | MQ reads exactly the clauses of the rule, whatever its quoted values |
| ChannelAuth.SetHolds | internal/adapter/mqrest/auth.go:352-382 | The command gives a keyword a value iff the rule sets its field, and then that value; a removal only what identifies the rule |
| ChannelAuth.SetNames | internal/adapter/mqrest/auth.go:259-303 | Channel, type and action are named as given |
| ChannelAuth.SentIs | internal/adapter/mqrest/auth.go:20-47 | Executing the command that was read: after SET the queue manager has the rule with exactly its values, after the removal it has it no more; other rules stay |
| ChannelAuth.RemoveUndoesSet | internal/adapter/mqrest/auth.go:20-47 | Removing undoes setting |
| ChannelAuth.AnyFieldIff | internal/mqadmin/authmatch.go:9-52 | The chain of comparisons asks for an update iff some field differs |
| ChannelAuth.UpdateIff | internal/mqadmin/authmatch.go:9-52 | Whatever is reported: an update is needed iff there is no rule or one of the nine fields is out of step, field by field and up to blanks and case |
| ChannelAuthTrip.ReturnsIff | internal/adapter/mqrest/mqsc_display_parse.go:20-24 | A value without closing parentheses survives iff it has no quote at its ends |
| ChannelAuthTrip.ParenAlwaysUpdates | internal/mqadmin/authmatch.go:9-52 | Whatever DISPLAY printed, a value with a closing parenthesis never compares equal |
| ChannelAuthTrip.LastWord | internal/adapter/mqrest/mqsc_display_parse.go:20-24 | A keyword's last word is its own value, or what a description shown later tells about it |
| ChannelAuthTrip.UnderstoodIsHeld | internal/adapter/mqrest/auth.go:20-31 | What the queue manager read is the rule it then holds, whatever it had before |
| ChannelAuthTrip.RoundTripIff | internal/adapter/mqrest/auth.go:144-167 | Print SET, have it read and echoed, parse and compare: no update is needed iff every field comes back, and what a shown description tells about any field agrees with it |
| ChannelAuthSettled.AlwaysSettledIff | internal/mqadmin/authmatch.go:9-52 | Every answer in every form and order settles a rule iff each of its fields does, told from the rule alone |
| ChannelAuthSettled.PlainSettlesIff | internal/mqadmin/authmatch.go:9-52 | Without a closing parenthesis in the description that is about single values |
| ChannelAuthSettled.CutDescriptionNeverSettles | internal/adapter/mqrest/mqsc_display_parse.go:8-26 | A description cut at a closing parenthesis that leaves something to compare never settles |
| Sorting.Sort | internal/mqadmin/authmatch.go:76-86 | Sorted, and the same entries equally often |
| Sorting.SortedUnique | internal/mqadmin/authmatch.go:62-86 | Sorted lists of the same entries are the same list |
| Authority.NormalizeAuthoritySet | internal/mqadmin/authmatch.go:76-86 | The loop keeps the non-blank canonical entries and sorts them |
| Authority.AuthoritySetsEqual | internal/mqadmin/authmatch.go:62-74 | Equal, different, or an index past the end |
| Authority.ComparedIff | internal/mqadmin/authmatch.go:62-86 | For all lists: exactly when the answer is right, when it is wrongly Equal, wrongly Different, or panics; losing equally many blanks makes it right |
| Authority.NonBlankCompared | internal/mqadmin/authmatch.go:62-86 | Without blanks: equality of the multisets of canonical entries, and no panic |
| Authority.BlanksMislead | internal/mqadmin/authmatch.go:62-86 | Families of lists for each of the three failures |
| Authority.BuildSetAuthority | internal/adapter/mqrest/auth.go:305-338 | The command that is specified clause by clause, or the error |
| Authority.SetReadsBack | internal/adapter/mqrest/auth.go:305-338 | The queue manager reads the clauses as printed |
| Authority.SentIs | internal/adapter/mqrest/auth.go:305-338 | Executing the command that was read adds exactly the listed authorities to what the named principal or group has on that profile and object type, or leaves it none; nobody else's grants change |
| Authority.GetAuthority | internal/adapter/mqrest/auth.go:93-119 | The entries of AUTHLIST, or nothing for an empty record or NONE |
| Authority.ListedIsShown | internal/adapter/mqrest/auth.go:169-188 | A comma-separated list of names is split into those names |
| Authority.ApplySettlesIff | internal/controller/authorityrecord_controller.go:137-172 | Print SET, have it read and executed any number of times, list, parse and compare: no update is needed iff no authority is asked for twice, nothing else was granted to the holder before, and the list is not just NONE |
| Authority.RemoveSettles | internal/adapter/mqrest/auth.go:113-119 | After the removal command the record is not found |
| Folding.TypedSpec.constructor | api/v1beta1/conversion_attributes.go:24-27 | Typed fields and attributes as given |
| Folding.TypedSpec.Fold | api/v1beta1/conversion_attributes.go:294-307 | Visits every key once in some order, setting fields and deleting keys as specified |
| Folding.PresetsKept | api/v1beta1/conversion_attributes.go:21-23 | Fields set beforehand never change, and attributes only go away |
| Folding.FoldIs | api/v1beta1/conversion_attributes.go:280-307 | With no two keys of one attribute the result is told from the spec alone, whatever the order |
| Folding.SecondFoldIdleIff | api/v1beta1/conversion_attributes.go:280-307 | A second fold changes nothing after any order of the first iff no unset number has both a readable and an unreadable key |
| Folding.TwinsNeedTwoFolds | api/v1beta1/conversion_attributes.go:280-307 | With such keys, an order after which it does |
| FoldTables.TableSound | api/v1beta1/conversion_attributes.go:326-453 | The three promotion tables agree with the names the fields print under |
| FoldTables.NamesAreMqNames | api/v1beta1/conversion_attributes.go:326-453 | A key is promoted to the field of the MQ attribute it names, and of no other |
| FoldTables.TypedFieldsAreChecked | api/v1beta1/conversion_attributes.go:326-453 | Every typed field stands for an attribute that is looked at for drift |
| FoldTables.FoldPreservesMeaningIff | api/v1beta1/conversion_attributes.go:24-92 | Folding keeps what the spec says about every MQ attribute, under MQ's own names, iff every attribute is lossless, in any order |
| FoldTables.FoldOnceIff | api/v1beta1/conversion_attributes.go:294-307 | The same for queues, topics and channels |
| FoldTables.EmptyDescriptionIsLost | api/v1beta1/conversion_attributes.go:41-47 | An empty description is not lossless |

## Left out

- The theorems over runs are about the state machine on values; the imperative pass is tied to it
  step by step. One worker runs per key, only the operator removes its finalizer, and name, type
  and connection of a resource are not edited.
- Of the five controllers the pass of queues is followed; the others differ in their decision
  (`Workload.Decide`) and in their MQ commands.
- Watch events are delivered in order and one version at a time; a relist that skips versions is
  not modelled.
- A connection's readiness changes and the timers appear as one step that queues the key;
  positive requeue delays are assumed.
- ChannelAuthTrip.RoundTripIff: the echo is assumed not to double quotes inside values, and the
  answer to DISPLAY to be about the rule that was set; the DISPLAY commands are not modelled.
- ChannelAuth.SentIs: a rule is replaced and removed as a whole; lists of blocked addresses that
  MQ edits entry by entry are not modelled.
- Authority.ApplySettlesIff: authorities are taken one by one; names that MQ expands to several
  authorities are not modelled.
- Parameters.FirstObjectAttributes: numbers beyond 2^53 lose precision as floats, which is not
  modelled; only their exponent form matters here.
- Convergence.AtMostOneDefine: the queue manager is assumed to report what it stores; values it
  rewrites on its own (other than case of names and alias names) are not modelled.
- Ltpa.LtpaAuthenticator.Reauthenticate: the 64-bit generation counter does not wrap around.
- Case folding and trimming are ASCII only.
- HTTP transport, TLS, JSON and URL handling: nondeterministic results.
- Building client configurations from Secret contents, certificates and the health probe.
- Webhooks, validation markers, deep copies, metrics, events, logging and message texts.
- The text test that recognises a missing object: taken as an input.
- Mapping connections to dependent workloads (`requestsForConnection`), which would only add
  filters like `SecretWatch.RequestsForSecret`.
