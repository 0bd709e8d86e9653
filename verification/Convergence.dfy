/**
 The apply/observe loop for queues, topics and channels: desired attributes are DEFINEd, a
 queue manager that stores what it is given answers DISPLAY, and the answer is normalised and
 compared with the desired attributes again, pass after pass.
 */
module Convergence {
  import opened Options
  import opened Text
  import opened Attributes
  import opened Parameters
  import Workload

  ghost predicate ValidKind(kind: ObjectKind) {
    kind.LocalQueue? ==> forall i :: 0 <= i < |kind.probed| ==> kind.probed[i] in PROBED_CANDIDATES
  }

  /* ---------- one value there and back ---------- */

  // A numeric attribute whose number is displayed with an exponent.
  predicate TooLarge(kind: ObjectKind, k: string, v: string) {
    k in NumericParameters(kind) && Atoi(v).Some? && !(-1_000_000 < Atoi(v).value < 1_000_000)
  }

  // The name and value under which attribute k is defined.
  function WireName(kind: ObjectKind, k: string): string {
    if kind == TopicObject && k == "topstr" then "topicStr" else k
  }

  function WireValue(kind: ObjectKind, k: string, v: string): Param {
    if kind == TopicObject && (k == "pub" || k == "sub") then Str(ToUpper(v))
    else ParamOf(NumericParameters(kind), k, v)
  }

  lemma LargeHasExponent(n: int)
    requires !(-1_000_000 < n < 1_000_000)
    ensures 'e' in SprintNumber(n)
  {
    var digits := Digits(if n < 0 then -n else n);
    var sig := Significant(digits);
    var exponent := Digits(|digits| - 1);
    var front := (if n < 0 then "-" else "") + sig[..1] + (if |sig| > 1 then "." + sig[1..] else "");
    assert SprintNumber(n) == front + "e+" + (if |exponent| < 2 then "0" else "") + exponent;
    assert SprintNumber(n)[|front|] == 'e';
  }

  lemma NumberText(v: string)
    requires Atoi(v).Some?
    ensures NormalizeNumeric(v) == NormalizeNumeric(Itoa(Atoi(v).value)) == Itoa(Atoi(v).value)
    ensures 'e' !in NormalizeNumeric(v)
  {
    ParsedIsPlain(v, INT64_LIMIT);
    TrimBare(v, IsSpace);
    ItoaIsPlain(Atoi(v).value);
    ParseItoa(Atoi(v).value, INT64_LIMIT);
  }

  lemma ExponentSurvives(text: string)
    requires 'e' in text
    ensures 'e' in NormalizeNumeric(text)
  {
    TrimSpaceKeeps(text, 'e');
    if Atoi(TrimSpace(text)).Some? {
      ParsedIsPlain(TrimSpace(text), INT64_LIMIT);
    }
  }

  lemma NumberReturnsIff(v: string)
    requires Atoi(v).Some?
    ensures NormalizeNumeric(v) == NormalizeNumeric(SprintNumber(Atoi(v).value)) <==> -1_000_000 < Atoi(v).value < 1_000_000
  {
    NumberText(v);
    var n := Atoi(v).value;
    if !(-1_000_000 < n < 1_000_000) {
      LargeHasExponent(n);
      ExponentSurvives(SprintNumber(n));
    }
  }

  lemma UpperReturns(v: string)
    ensures Equivalent(Folded, v, ToUpper(v))
  {
    TrimSpaceUpper(v);
    LowerUpper(TrimSpace(v));
  }

  lemma ComparedAsSent(kind: ObjectKind, k: string)
    ensures kind == TopicObject && (k == "pub" || k == "sub") ==> ComparisonOf(k) == Folded
    ensures k in NumericParameters(kind) ==> ComparisonOf(k) == Numeric
  {
  }

  lemma LocalNumbers(kind: ObjectKind, k: string)
    requires kind.LocalQueue? && ValidKind(kind) && k in DisplayParameters(kind) && IsNumberAttribute(k)
    ensures k == "maxdepth" || k == "maxmsglen" || k == "bothresh"
  {
    assert k in BASE_LOCAL || k in PROBED_CANDIDATES;
  }

  lemma ChannelNumbers(kind: ObjectKind, k: string)
    requires IsChannel(kind) && k in DisplayParameters(kind) && IsNumberAttribute(k)
    ensures k == "sharecnv" || k == "maxmsgl" || k == "maxinst" || k == "maxinstc"
  {
  }

  lemma OtherNumbers(kind: ObjectKind, k: string)
    requires (kind == TopicObject || kind == AliasQueue || kind == RemoteQueue) && k in DisplayParameters(kind)
    ensures !IsNumberAttribute(k)
  {
  }

  // What is compared as a number is sent as one, if it is one; but for the backout threshold,
  // which goes out as text.
  lemma NumbersAreSent(kind: ObjectKind, k: string, v: string)
    requires ValidKind(kind) && k in DisplayParameters(kind) && IsNumberAttribute(k)
    ensures WireValue(kind, k, v) == if k != "bothresh" && Atoi(v).Some? then Num(Atoi(v).value) else Str(v)
  {
    if kind.LocalQueue? {
      LocalNumbers(kind, k);
    } else if IsChannel(kind) {
      ChannelNumbers(kind, k);
    } else {
      OtherNumbers(kind, k);
    }
  }

  lemma ReturnsUnder(c: Comparison, kind: ObjectKind, k: string, v: string)
    requires kind == TopicObject && (k == "pub" || k == "sub") ==> c == Folded
    requires k in NumericParameters(kind) ==> c == Numeric
    ensures Equivalent(c, v, Render(WireValue(kind, k, v))) <==> !TooLarge(kind, k, v)
  {
    if kind == TopicObject && (k == "pub" || k == "sub") {
      UpperReturns(v);
    } else if k in NumericParameters(kind) && Atoi(v).Some? {
      NumberReturnsIff(v);
    }
  }

  // One attribute, defined and displayed again, is accepted exactly when it is not too large.
  lemma ReturnsIff(kind: ObjectKind, k: string, v: string)
    requires NormalizeAttrKey(k) == k
    ensures ValueMatches(k, v, Render(WireValue(kind, k, v))) <==> !TooLarge(kind, k, v)
  {
    ComparedAsSent(kind, k);
    ReturnsUnder(ComparisonOf(k), kind, k, v);
  }

  /* ---------- a queue manager that keeps what it is given ---------- */

  // The other name under which mqweb may report an attribute.
  function ReportedAs(kind: ObjectKind, k: string): Option<string> {
    match kind
    case AliasQueue => if k == "targq" then Some("target") else None
    case RemoteQueue =>
      if k == "rname" then Some("remotequeue")
      else if k == "rqmname" then Some("remotemanager")
      else if k == "xmitq" then Some("transmissionqueue")
      else None
    case _ => None
  }

  ghost predicate Tells(responses: seq<Params>, key: string, value: string) {
    Reports(responses, key, value) && forall v :: Reports(responses, key, v) ==> v == value
  }

  // DISPLAY reports every requested parameter that is stored, under exactly one of its names;
  // nothing is said about requested parameters that were never defined.
  ghost predicate Echoes(kind: ObjectKind, stored: Params, responses: seq<Params>) {
    forall name :: name in stored && name in DisplayParameters(kind) ==> EchoesOne(kind, name, Render(stored[name]), responses)
  }

  ghost predicate EchoesOne(kind: ObjectKind, name: string, value: string, responses: seq<Params>) {
    var other := ReportedAs(kind, name);
    || (Tells(responses, ToLower(name), value) && (other.Some? ==> Silent(responses, other.value)))
    || (other.Some? && Tells(responses, other.value, value) && Silent(responses, ToLower(name)))
  }

  ghost predicate Checked(kind: ObjectKind, k: string) {
    WireName(kind, k) in DisplayParameters(kind)
  }

  // The object holds the wire form of every checked attribute.
  ghost predicate Stores(kind: ObjectKind, attrs: Attrs, stored: Params) {
    forall k :: k in attrs && Checked(kind, k) ==>
      WireName(kind, k) in stored && stored[WireName(kind, k)] == WireValue(kind, k, attrs[k])
  }

  lemma NormalIsLower(k: string)
    requires NormalizeAttrKey(k) == k
    ensures ToLower(k) == k && k != "topicStr" && k != "topicstr"
  {
    LowerFixed("topstr");
    assert "topicStr"[5] == 'S' && ToLower("topicStr")[5] == 's';
    LowerFixed("topicstr");
  }

  lemma RawValue(kind: ObjectKind, attrs: Attrs, raw: Params, k: string)
    requires SpecKeyed(attrs) && RawDefine(kind, attrs, raw) && k in attrs
    ensures k in raw && raw[k] == ParamOf(NumericParameters(kind), k, attrs[k])
  {
    NormalIsLower(k);
    assert ToLower(k) in raw;
    var value := (k, v) => ParamOf(NumericParameters(kind), ToLower(k), v);
    assert Named(attrs, ToLower, value, k, raw[k]);
    var l :| l in attrs && ToLower(l) == k && value(l, attrs[l]) == raw[k];
    NormalIsLower(l);
  }

  lemma FinishedTopic(raw: Params, k: string, v: string)
    requires k in raw && raw[k] == Str(v) && k != "topicStr"
    ensures WireName(TopicObject, k) in MapTopic(raw)
    ensures MapTopic(raw)[WireName(TopicObject, k)] == WireValue(TopicObject, k, v)
  {
  }

  lemma ChannelTypeUnchecked(kind: ObjectKind)
    requires IsChannel(kind)
    ensures !Checked(kind, "chltype")
  {
  }

  lemma FinishedValue(kind: ObjectKind, raw: Params, k: string, v: string)
    requires k in raw && raw[k] == ParamOf(NumericParameters(kind), k, v) && k != "topicStr"
    requires IsChannel(kind) ==> k != "chltype"
    ensures WireName(kind, k) in Finished(kind, raw) && Finished(kind, raw)[WireName(kind, k)] == WireValue(kind, k, v)
  {
    if kind == TopicObject {
      FinishedTopic(raw, k, v);
    }
  }

  ghost predicate SendsAll(kind: ObjectKind, attrs: Attrs, params: Params) {
    forall k :: k in attrs && !(IsChannel(kind) && k == "chltype") ==>
      WireName(kind, k) in params && params[WireName(kind, k)] == WireValue(kind, k, attrs[k])
  }

  lemma AttributesAreSent(kind: ObjectKind, attrs: Attrs, raw: Params)
    requires SpecKeyed(attrs) && RawDefine(kind, attrs, raw)
    ensures SendsAll(kind, attrs, Finished(kind, raw))
  {
    forall k | k in attrs && !(IsChannel(kind) && k == "chltype")
      ensures WireName(kind, k) in Finished(kind, raw) && Finished(kind, raw)[WireName(kind, k)] == WireValue(kind, k, attrs[k])
    {
      RawValue(kind, attrs, raw, k);
      NormalIsLower(k);
      FinishedValue(kind, raw, k, attrs[k]);
    }
  }

  lemma FinishedKeeps(kind: ObjectKind, raw: Params)
    requires "replace" in raw
    ensures "replace" in Finished(kind, raw) && Finished(kind, raw)["replace"] == raw["replace"]
    ensures kind == SvrconnChannel ==> At(Finished(kind, raw), "chltype") == Some(Str("svrconn"))
    ensures kind == SdrChannel ==> At(Finished(kind, raw), "chltype") == Some(Str("sdr"))
    ensures kind == RcvrChannel ==> At(Finished(kind, raw), "chltype") == Some(Str("rcvr"))
  {
  }

  function At(params: Params, name: string): Option<Param> {
    if name in params then Some(params[name]) else None
  }

  // DEFINE sends every attribute of the spec in its wire form, checked or not. It asks to
  // replace what is there, unless the spec says otherwise, and gives a channel its own type.
  lemma DefineSends(kind: ObjectKind, attrs: Attrs, params: Params)
    requires SpecKeyed(attrs) && Defines(kind, attrs, params)
    ensures SendsAll(kind, attrs, params)
    ensures "replace" in params && ("replace" !in attrs ==> params["replace"] == Str("yes"))
    ensures kind == SvrconnChannel ==> At(params, "chltype") == Some(Str("svrconn"))
    ensures kind == SdrChannel ==> At(params, "chltype") == Some(Str("sdr"))
    ensures kind == RcvrChannel ==> At(params, "chltype") == Some(Str("rcvr"))
  {
    var raw :| RawDefine(kind, attrs, raw) && params == Finished(kind, raw);
    AttributesAreSent(kind, attrs, raw);
    RawReplaces(kind, attrs, raw);
    FinishedKeeps(kind, raw);
  }

  lemma RawReplaces(kind: ObjectKind, attrs: Attrs, raw: Params)
    requires SpecKeyed(attrs) && RawDefine(kind, attrs, raw)
    ensures "replace" in raw && ("replace" !in attrs ==> raw["replace"] == Str("yes"))
  {
    var value := (k, v) => ParamOf(NumericParameters(kind), ToLower(k), v);
    if Named(attrs, ToLower, value, "replace", raw["replace"]) {
      var l :| l in attrs && ToLower(l) == "replace" && value(l, attrs[l]) == raw["replace"];
      NormalIsLower(l);
    }
  }

  // Whatever was stored before, a DEFINE leaves every checked attribute in its wire form.
  lemma DefineStores(kind: ObjectKind, attrs: Attrs, before: Params, params: Params)
    requires SpecKeyed(attrs) && Defines(kind, attrs, params)
    ensures Stores(kind, attrs, before + params)
  {
    DefineSends(kind, attrs, params);
    if IsChannel(kind) {
      ChannelTypeUnchecked(kind);
    }
  }

  lemma ToldIsSeen(responses: seq<Params>, attrs: Attrs, key: string, value: string)
    requires Collected(responses, attrs)
    ensures Tells(responses, key, value) ==> key in attrs && attrs[key] == value
    ensures Silent(responses, key) ==> key !in attrs
  {
    if key in attrs {
      assert Reports(responses, key, attrs[key]);
    }
  }

  lemma FillFromKeeps(attrs: Attrs, key: string, other: string, k: string)
    ensures k != key ==> Lookup(FillFrom(attrs, key, other), k) == Lookup(attrs, k) && (k in FillFrom(attrs, key, other) <==> k in attrs)
    ensures other !in attrs ==> FillFrom(attrs, key, other) == attrs
    ensures other in attrs && key !in attrs ==> Lookup(FillFrom(attrs, key, other), key) == attrs[other]
  {
  }

  lemma AliasSeen(observed: Attrs, k: string, value: string)
    requires k == "targq" ==>
      || (k in observed && observed[k] == value && "target" !in observed)
      || ("target" in observed && observed["target"] == value && k !in observed)
    requires k != "targq" ==> k in observed && observed[k] == value
    ensures Lookup(NormalizeObserved(AliasQueue, observed), k) == value
  {
    FillFromKeeps(observed, "targq", "target", k);
  }

  // Filling in three distinct keys from three other names.
  lemma RemoteSeen(observed: Attrs, k: string, other: Option<string>, value: string)
    requires other == ReportedAs(RemoteQueue, k) && k in DisplayParameters(RemoteQueue)
    requires
      || (k in observed && observed[k] == value && (other.Some? ==> other.value !in observed))
      || (other.Some? && other.value in observed && observed[other.value] == value && k !in observed)
    ensures Lookup(NormalizeObserved(RemoteQueue, observed), k) == value
  {
    var first := FillFrom(observed, "rname", "remotequeue");
    var second := FillFrom(first, "rqmname", "remotemanager");
    FillFromKeeps(observed, "rname", "remotequeue", k);
    FillFromKeeps(first, "rqmname", "remotemanager", k);
    FillFromKeeps(second, "xmitq", "transmissionqueue", k);
    FillFromKeeps(observed, "rname", "remotequeue", "remotemanager");
    FillFromKeeps(observed, "rname", "remotequeue", "transmissionqueue");
    FillFromKeeps(first, "rqmname", "remotemanager", "transmissionqueue");
  }

  lemma TopicSeen(observed: Attrs, k: string, value: string)
    requires ToLower(WireName(TopicObject, k)) in observed && observed[ToLower(WireName(TopicObject, k))] == value
    requires NormalizeAttrKey(k) == k
    ensures Lookup(NormalizeObserved(TopicObject, observed), k) == value
  {
    NormalIsLower(k);
    assert ToLower("topicStr") == "topicstr";
  }

  // A stored parameter comes back under the key of its attribute.
  lemma StoredIsSeen(kind: ObjectKind, k: string, value: string, responses: seq<Params>, observed: Attrs)
    requires NormalizeAttrKey(k) == k && Checked(kind, k)
    requires EchoesOne(kind, WireName(kind, k), value, responses) && Collected(responses, observed)
    ensures Lookup(NormalizeObserved(kind, observed), k) == value
  {
    var name := WireName(kind, k);
    var other := ReportedAs(kind, name);
    NormalIsLower(k);
    ToldIsSeen(responses, observed, ToLower(name), value);
    if other.Some? {
      ToldIsSeen(responses, observed, other.value, value);
    }
    match kind {
      case TopicObject => TopicSeen(observed, k, value);
      case AliasQueue => AliasSeen(observed, k, value);
      case RemoteQueue => RemoteSeen(observed, k, other, value);
      case _ =>
    }
  }

  lemma KeySetOfNormal(names: seq<string>, k: string)
    requires forall i :: 0 <= i < |names| ==> NormalizeAttrKey(names[i]) == names[i]
    ensures k in KeySet(names) <==> k in names
  {
  }

  lemma LowerIsNormal(name: string)
    requires IsLower(name) && name != "topicstr"
    ensures NormalizeAttrKey(name) == name
  {
    LowerFixed(name);
  }

  predicate Plain(names: seq<string>) {
    forall i :: 0 <= i < |names| ==> IsLower(names[i]) && names[i] != "topicstr"
  }

  lemma PlainLocal()
    ensures Plain(BASE_LOCAL) && Plain(PROBED_CANDIDATES)
  {
  }

  lemma PlainChannel(kind: ObjectKind)
    requires IsChannel(kind)
    ensures Plain(DisplayParameters(kind))
  {
  }

  lemma DisplayedArePlain(kind: ObjectKind)
    requires ValidKind(kind) && kind != TopicObject
    ensures Plain(DisplayParameters(kind))
  {
    if IsChannel(kind) {
      PlainChannel(kind);
    } else {
      PlainLocal();
    }
  }

  lemma TopicKeySet(k: string)
    ensures k in KeySet(DisplayParameters(TopicObject)) <==> k == "topstr" || k in DisplayParameters(TopicObject)[1..]
  {
    var names := DisplayParameters(TopicObject);
    assert names == ["topicStr"] + names[1..];
    forall i | 0 <= i < |names[1..]|
      ensures NormalizeAttrKey(names[1..][i]) == names[1..][i]
    {
      LowerIsNormal(names[1..][i]);
    }
    assert ToLower("topicStr") == "topicstr";
    assert NormalizeAttrKey(names[0]) == "topstr";
    assert forall i :: 1 <= i < |names| ==> names[i] == names[1..][i - 1];
  }

  // Drift detection looks at exactly the attributes DISPLAY was asked for.
  lemma CheckedIff(kind: ObjectKind, k: string)
    requires ValidKind(kind) && NormalizeAttrKey(k) == k
    ensures k in KeySet(DisplayParameters(kind)) <==> Checked(kind, k)
  {
    NormalIsLower(k);
    var names := DisplayParameters(kind);
    if kind == TopicObject {
      TopicKeySet(k);
      assert names == ["topicStr"] + names[1..];
      assert "topstr" !in names[1..];
    } else {
      DisplayedArePlain(kind);
      forall i | 0 <= i < |names|
        ensures NormalizeAttrKey(names[i]) == names[i]
      {
        LowerIsNormal(names[i]);
      }
      KeySetOfNormal(names, k);
    }
  }

  /* ---------- the documented matrix ---------- */

  // The attributes documented as checked for drift. Those of a local queue that mqweb may
  // refuse to display are checked once a probe has found them displayable.
  predicate Documented(kind: ObjectKind, k: string) {
    match kind
    case LocalQueue(probed) => k == "maxdepth" || k == "descr" || k == "defpsist" || k == "get" || k == "put" || k in probed
    case AliasQueue => k == "targq" || k == "targtype" || k == "descr"
    case RemoteQueue => k == "rname" || k == "rqmname" || k == "xmitq" || k == "descr"
    case TopicObject =>
      k == "topstr" || k == "descr" || k == "pub" || k == "sub" || k == "defpsist" || k == "pubscope" || k == "subscope"
    case SvrconnChannel =>
      || k == "trptype" || k == "descr" || k == "maxmsgl" || k == "sharecnv" || k == "mcauser" || k == "maxinst"
      || k == "maxinstc" || k == "sslciph" || k == "sslcauth"
    case SdrChannel =>
      k == "conname" || k == "xmitq" || k == "trptype" || k == "descr" || k == "maxmsgl" || k == "mcauser" || k == "sslciph"
    case RcvrChannel => k == "trptype" || k == "descr" || k == "maxmsgl" || k == "mcauser" || k == "sslciph"
  }

  lemma ChannelsAsDocumented(kind: ObjectKind, k: string)
    requires IsChannel(kind)
    ensures k in DisplayParameters(kind) <==> Documented(kind, k)
  {
  }

  lemma QueuesAsDocumented(kind: ObjectKind, k: string)
    requires kind.LocalQueue? || kind == AliasQueue || kind == RemoteQueue
    ensures k in DisplayParameters(kind) <==> Documented(kind, k)
  {
  }

  // What is looked at for drift is what the documentation says.
  lemma CheckedAsDocumented(kind: ObjectKind, k: string)
    requires NormalizeAttrKey(k) == k
    ensures Checked(kind, k) <==> Documented(kind, k)
  {
    NormalIsLower(k);
    if IsChannel(kind) {
      ChannelsAsDocumented(kind, k);
    } else if kind != TopicObject {
      QueuesAsDocumented(kind, k);
    }
  }

  /* ---------- any object, stored by anyone ---------- */

  // An attribute is out of step with what the object holds.
  ghost predicate OutOfStep(kind: ObjectKind, attrs: Attrs, stored: Params, k: string) {
    && k in attrs && Checked(kind, k) && WireName(kind, k) in stored
    && !ValueMatches(k, attrs[k], Render(stored[WireName(kind, k)]))
  }

  // The object holds something under the name of every checked attribute.
  ghost predicate Covers(kind: ObjectKind, attrs: Attrs, stored: Params) {
    forall k :: k in attrs && Checked(kind, k) ==> WireName(kind, k) in stored
  }

  // Whatever the object holds: an attribute that is out of step is seen to drift; and if the
  // object holds something for every checked attribute, nothing else does.
  lemma DriftIsSeen(kind: ObjectKind, attrs: Attrs, stored: Params, responses: seq<Params>, observed: Attrs, k: string)
    requires ValidKind(kind) && SpecKeyed(attrs) && k in attrs && (Checked(kind, k) ==> WireName(kind, k) in stored)
    requires Echoes(kind, stored, responses) && Collected(responses, observed)
    ensures Drifts(attrs, NormalizeObserved(kind, observed), KeySet(DisplayParameters(kind)), k) <==> OutOfStep(kind, attrs, stored, k)
  {
    CheckedIff(kind, k);
    if Checked(kind, k) {
      StoredIsSeen(kind, k, Render(stored[WireName(kind, k)]), responses, observed);
    }
  }

  lemma DriftIff(kind: ObjectKind, attrs: Attrs, stored: Params, responses: seq<Params>, observed: Attrs)
    requires ValidKind(kind) && SpecKeyed(attrs) && Echoes(kind, stored, responses) && Collected(responses, observed)
    ensures var drifts := NeedsUpdate(attrs, NormalizeObserved(kind, observed), KeySet(DisplayParameters(kind)));
            && ((exists k :: OutOfStep(kind, attrs, stored, k)) ==> drifts)
            && (Covers(kind, attrs, stored) && drifts ==> exists k :: OutOfStep(kind, attrs, stored, k))
  {
    var allowed, seen := KeySet(DisplayParameters(kind)), NormalizeObserved(kind, observed);
    if k :| OutOfStep(kind, attrs, stored, k) {
      DriftIsSeen(kind, attrs, stored, responses, observed, k);
      assert k in DriftingKeys(attrs, seen, allowed);
    }
    if Covers(kind, attrs, stored) && NeedsUpdate(attrs, seen, allowed) {
      var k :| k in DriftingKeys(attrs, seen, allowed);
      DriftIsSeen(kind, attrs, stored, responses, observed, k);
    }
  }

  ghost predicate Oversized(kind: ObjectKind, attrs: Attrs) {
    exists k :: k in attrs && Checked(kind, k) && TooLarge(kind, k, attrs[k])
  }

  // Once stored, the desired attributes are reported as drifting exactly when a checked
  // number is too large.
  lemma StoredDriftsIff(kind: ObjectKind, attrs: Attrs, stored: Params, responses: seq<Params>, observed: Attrs)
    requires ValidKind(kind) && SpecKeyed(attrs) && Stores(kind, attrs, stored)
    requires Echoes(kind, stored, responses) && Collected(responses, observed)
    ensures NeedsUpdate(attrs, NormalizeObserved(kind, observed), KeySet(DisplayParameters(kind))) <==> Oversized(kind, attrs)
  {
    forall k | k in attrs && Checked(kind, k)
      ensures OutOfStep(kind, attrs, stored, k) <==> TooLarge(kind, k, attrs[k])
    {
      ReturnsIff(kind, k, attrs[k]);
    }
    DriftIff(kind, attrs, stored, responses, observed);
  }

  /* ---------- passes ---------- */

  // One reconcile pass over a resource whose attributes stay the same: the resource as read,
  // what DISPLAY gave (None when the object is not there), the parameters a DEFINE would
  // send, and whether a DEFINE would take effect.
  datatype Pass = Pass(o: Workload.Obj, observed: Option<Attrs>, params: Params, effective: bool)

  // reconcileMQObjectState, with the decision for its result.
  method ReconcileObjectState(o: Workload.Obj, observed: Option<Attrs>, desired: Attrs, checkKeys: seq<string>)
    returns (d: Workload.Decision)
    ensures d == Workload.Decide(Workload.AttributeKind, o, observed.Some?,
                                 observed.Some? && NeedsUpdate(desired, observed.value, KeySet(checkKeys)))
  {
    var drifts := [];
    if observed.Some? {
      drifts := DriftsForKeys(desired, observed.value, checkKeys);
    }
    if o.observeOnly {
      return if observed.None? || drifts != [] then Workload.ReportDrift else Workload.InSync;
    }
    var needsUpdate := observed.None? || drifts != [];
    if Workload.AdoptionBlocks(o.adoption, Workload.FirstAdoption(o), observed.Some?, needsUpdate) {
      return Workload.Blocked;
    }
    if needsUpdate {
      return Workload.Apply;
    }
    return Workload.InSync;
  }

  ghost predicate Issues(kind: ObjectKind, attrs: Attrs, p: Pass) {
    var drifts := p.observed.Some? && NeedsUpdate(attrs, p.observed.value, KeySet(DisplayParameters(kind)));
    Workload.Decide(Workload.AttributeKind, p.o, p.observed.Some?, drifts) == Workload.Apply
  }

  ghost predicate Displays(kind: ObjectKind, stored: Params, observed: Attrs) {
    exists responses, collected ::
      Echoes(kind, stored, responses) && Collected(responses, collected) && observed == NormalizeObserved(kind, collected)
  }

  ghost predicate PassOk(kind: ObjectKind, attrs: Attrs, stored: Option<Params>, p: Pass) {
    && Defines(kind, attrs, p.params)
    && (stored.Some? <==> p.observed.Some?)
    && (stored.Some? ==> Displays(kind, stored.value, p.observed.value))
  }

  ghost function AfterPass(kind: ObjectKind, attrs: Attrs, stored: Option<Params>, p: Pass): Option<Params> {
    if Issues(kind, attrs, p) && p.effective then Some((if stored.Some? then stored.value else map[]) + p.params)
    else stored
  }

  // The object after some passes, starting from any object or none.
  ghost function After(kind: ObjectKind, attrs: Attrs, initial: Option<Params>, passes: seq<Pass>): Option<Params>
    decreases |passes|
  {
    if passes == [] then initial
    else AfterPass(kind, attrs, After(kind, attrs, initial, passes[..|passes|-1]), passes[|passes|-1])
  }

  ghost predicate RunOf(kind: ObjectKind, attrs: Attrs, initial: Option<Params>, passes: seq<Pass>)
    decreases |passes|
  {
    passes == [] ||
    var before := passes[..|passes|-1];
    RunOf(kind, attrs, initial, before) && PassOk(kind, attrs, After(kind, attrs, initial, before), passes[|passes|-1])
  }

  ghost predicate Applied(kind: ObjectKind, attrs: Attrs, p: Pass) {
    Issues(kind, attrs, p) && p.effective
  }

  ghost predicate Holds(kind: ObjectKind, attrs: Attrs, stored: Option<Params>) {
    stored.Some? && Stores(kind, attrs, stored.value)
  }

  lemma PassKeepsHold(kind: ObjectKind, attrs: Attrs, before: Option<Params>, p: Pass)
    requires SpecKeyed(attrs) && PassOk(kind, attrs, before, p)
    requires Applied(kind, attrs, p) || Holds(kind, attrs, before)
    ensures Holds(kind, attrs, AfterPass(kind, attrs, before, p))
  {
    if Applied(kind, attrs, p) {
      DefineStores(kind, attrs, if before.Some? then before.value else map[], p.params);
    }
  }

  // From the first DEFINE that takes effect on, the object holds the desired attributes.
  lemma {:induction false} AppliedStays(kind: ObjectKind, attrs: Attrs, initial: Option<Params>, passes: seq<Pass>, i: nat)
    requires SpecKeyed(attrs) && RunOf(kind, attrs, initial, passes)
    requires i < |passes| && Applied(kind, attrs, passes[i])
    ensures Holds(kind, attrs, After(kind, attrs, initial, passes))
  {
    var before, p := passes[..|passes|-1], passes[|passes|-1];
    if i < |before| {
      assert passes[i] == before[i];
      AppliedStays(kind, attrs, initial, before, i);
    }
    PassKeepsHold(kind, attrs, After(kind, attrs, initial, before), p);
  }

  // The policies of a resource let it act on drift.
  predicate MayApply(o: Workload.Obj) {
    !o.observeOnly && !(o.observedGen == 0 && (o.adoption == Workload.FailIfExists || o.adoption == Workload.AdoptIfMatching))
  }

  // One-step convergence, exactly: after a DEFINE took effect, the last pass of a run issues
  // another one if and only if some checked number is too large and the policies in force let
  // it apply drift.
  lemma ReappliesIff(kind: ObjectKind, attrs: Attrs, initial: Option<Params>, passes: seq<Pass>, i: nat)
    requires ValidKind(kind) && SpecKeyed(attrs) && RunOf(kind, attrs, initial, passes)
    requires i < |passes| - 1 && Applied(kind, attrs, passes[i])
    ensures Issues(kind, attrs, passes[|passes|-1]) <==>
      Oversized(kind, attrs) && MayApply(passes[|passes|-1].o)
  {
    var before, p := passes[..|passes|-1], passes[|passes|-1];
    assert passes[i] == before[i];
    AppliedStays(kind, attrs, initial, before, i);
    var stored := After(kind, attrs, initial, before).value;
    var responses, collected :| Echoes(kind, stored, responses) && Collected(responses, collected)
      && p.observed.value == NormalizeObserved(kind, collected);
    StoredDriftsIff(kind, attrs, stored, responses, collected);
  }

  // A pass over an object that is out of step, whoever changed it: it issues a DEFINE exactly
  // when its policies let it, and one that takes effect leaves every checked attribute as the
  // resource wants it.
  lemma DriftIsRepaired(kind: ObjectKind, attrs: Attrs, stored: Params, p: Pass, k: string)
    requires ValidKind(kind) && SpecKeyed(attrs) && PassOk(kind, attrs, Some(stored), p) && OutOfStep(kind, attrs, stored, k)
    ensures Issues(kind, attrs, p) <==> MayApply(p.o)
    ensures Applied(kind, attrs, p) ==> Holds(kind, attrs, AfterPass(kind, attrs, Some(stored), p))
  {
    var responses, collected :| Echoes(kind, stored, responses) && Collected(responses, collected)
      && p.observed.value == NormalizeObserved(kind, collected);
    DriftIff(kind, attrs, stored, responses, collected);
    if Applied(kind, attrs, p) {
      PassKeepsHold(kind, attrs, Some(stored), p);
    }
  }

  // A missing object is defined, unless the resource only observes.
  lemma MissingIsDefined(kind: ObjectKind, attrs: Attrs, p: Pass)
    requires SpecKeyed(attrs) && PassOk(kind, attrs, None, p)
    ensures Issues(kind, attrs, p) <==> !p.o.observeOnly
    ensures Applied(kind, attrs, p) ==> Holds(kind, attrs, AfterPass(kind, attrs, None, p))
  {
    if Applied(kind, attrs, p) {
      PassKeepsHold(kind, attrs, None, p);
    }
  }

  ghost function Applications(kind: ObjectKind, attrs: Attrs, passes: seq<Pass>): nat {
    if passes == [] then 0
    else Applications(kind, attrs, passes[..|passes|-1]) + if Applied(kind, attrs, passes[|passes|-1]) then 1 else 0
  }

  lemma {:induction false} SomeApplied(kind: ObjectKind, attrs: Attrs, passes: seq<Pass>) returns (i: nat)
    requires Applications(kind, attrs, passes) > 0
    ensures i < |passes| && Applied(kind, attrs, passes[i])
  {
    i := |passes| - 1;
    if !Applied(kind, attrs, passes[i]) {
      i := SomeApplied(kind, attrs, passes[..i]);
    }
  }

  // Hence at most one DEFINE takes effect in any run of a spec without such a number.
  lemma {:induction false} AtMostOneDefine(kind: ObjectKind, attrs: Attrs, initial: Option<Params>, passes: seq<Pass>)
    requires ValidKind(kind) && SpecKeyed(attrs) && RunOf(kind, attrs, initial, passes) && !Oversized(kind, attrs)
    ensures Applications(kind, attrs, passes) <= 1
  {
    if passes != [] {
      var before := passes[..|passes|-1];
      AtMostOneDefine(kind, attrs, initial, before);
      if Applications(kind, attrs, before) > 0 {
        var i := SomeApplied(kind, attrs, before);
        ReappliesIff(kind, attrs, initial, passes, i);
      }
    }
  }

  lemma FourMegabytesOversized(kind: ObjectKind, attrs: Attrs)
    requires IsChannel(kind) && "maxmsgl" in attrs && attrs["maxmsgl"] == Itoa(4194304)
    ensures Oversized(kind, attrs)
  {
    ParseItoa(4194304, INT64_LIMIT);
    assert Checked(kind, "maxmsgl") && TooLarge(kind, "maxmsgl", attrs["maxmsgl"]);
  }

  // A channel with MQ's usual maximum message length: once a DEFINE took effect, every later
  // pass issues another one unless its policies forbid it.
  lemma FourMegabytesNeverSettles(kind: ObjectKind, attrs: Attrs, initial: Option<Params>, passes: seq<Pass>, i: nat)
    requires IsChannel(kind) && SpecKeyed(attrs) && "maxmsgl" in attrs && attrs["maxmsgl"] == Itoa(4194304)
    requires RunOf(kind, attrs, initial, passes) && i < |passes| - 1 && Applied(kind, attrs, passes[i])
    ensures Issues(kind, attrs, passes[|passes|-1]) <==> MayApply(passes[|passes|-1].o)
  {
    FourMegabytesOversized(kind, attrs);
    ReappliesIff(kind, attrs, initial, passes, i);
  }
}
