/**
 The workload custom resource as the controllers see it, and the decisions they take on one
 read of it: suspension, orphaning, adoption, observe-only and drift. Queues, topics and
 channels decide by attributes; CHLAUTH rules and authority records decide by comparison.
 */
module Workload {
  datatype Adoption = Adopt | AdoptIfMatching | FailIfExists

  datatype Reason =
    | Unset | Progressing | Suspended | TerminalError | OtherError
    | Deleting | Orphaned | DriftDetected | AdoptionBlocked | Available

  // `finalizer` is the operator's own finalizer, `foreign` stands for any others. `spec`
  // identifies the desired MQ attributes. `reason` and `reasonGen` are the Synced condition.
  datatype Obj = Obj(
    uid: nat,
    generation: nat,
    deleting: bool,
    finalizer: bool,
    foreign: bool,
    suspend: bool,
    orphanPolicy: bool,
    forceOrphan: bool,
    observeOnly: bool,
    adoption: Adoption,
    spec: nat,
    requestedAt: nat,
    observedGen: nat,
    reason: Reason,
    reasonGen: nat)

  datatype Kind = AttributeKind | AuthKind

  datatype Decision = Blocked | Apply | ReportDrift | InSync

  predicate OrphanRequested(o: Obj) {
    o.forceOrphan || o.orphanPolicy
  }

  predicate AlreadySuspended(o: Obj) {
    o.reason == Suspended && o.reasonGen == o.generation
  }

  predicate FirstAdoption(o: Obj) {
    o.observedGen == 0
  }

  predicate AdoptionBlocks(policy: Adoption, first: bool, present: bool, needsUpdate: bool) {
    first && present && (policy == FailIfExists || (policy == AdoptIfMatching && needsUpdate))
  }

  // reconcileMQObjectState: observe-only is tested before adoption.
  function DecideByAttributes(o: Obj, present: bool, drifts: bool): Decision {
    if o.observeOnly then (if !present || drifts then ReportDrift else InSync)
    else if AdoptionBlocks(o.adoption, FirstAdoption(o), present, !present || drifts) then Blocked
    else if !present || drifts then Apply
    else InSync
  }

  // ensureChannelAuth and ensureAuthority: adoption is tested before observe-only.
  function DecideByComparison(o: Obj, present: bool, drifts: bool): Decision {
    if AdoptionBlocks(o.adoption, FirstAdoption(o), present, !present || drifts) then Blocked
    else if !present || drifts then (if o.observeOnly then ReportDrift else Apply)
    else InSync
  }

  function Decide(kind: Kind, o: Obj, present: bool, drifts: bool): (d: Decision)
    ensures d == Apply <==>
      !o.observeOnly && (!present || drifts) && !AdoptionBlocks(o.adoption, FirstAdoption(o), present, !present || drifts)
    ensures d == InSync ==> present && !drifts
  {
    match kind
    case AttributeKind => DecideByAttributes(o, present, drifts)
    case AuthKind => DecideByComparison(o, present, drifts)
  }

  // The two kinds disagree exactly on an observe-only resource that adoption would block.
  lemma KindsDisagreeIff(o: Obj, present: bool, drifts: bool)
    ensures Decide(AttributeKind, o, present, drifts) != Decide(AuthKind, o, present, drifts) <==>
      o.observeOnly && AdoptionBlocks(o.adoption, FirstAdoption(o), present, !present || drifts)
  {
  }
}
