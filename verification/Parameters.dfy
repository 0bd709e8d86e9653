/**
 The maps the adapter builds on the way to MQ and back: the attribute map of a spec, the
 DEFINE parameters made from it, and the observed attributes read from a DISPLAY response.
 The source fills each of them by ranging over another map, in no particular order.
 */
module Parameters {
  import opened Text
  import opened Attributes

  /* ---------- filling a map from another ---------- */

  // Every source entry lands under its new name; an entry of the result is some source
  // entry of that name, or an entry that was there before and no source entry replaced.
  ghost predicate Refilled<V, W>(into: map<string, W>, src: map<string, V>, name: string -> string,
                                 value: (string, V) -> W, out: map<string, W>) {
    && (forall k :: k in src ==> name(k) in out)
    && (forall n :: n in into ==> n in out)
    && (forall n :: n in out ==> Named(src, name, value, n, out[n]) || (n in into && out[n] == into[n] && Unnamed(src, name, n)))
  }

  ghost predicate Named<V, W>(src: map<string, V>, name: string -> string, value: (string, V) -> W, n: string, w: W) {
    exists k :: k in src && name(k) == n && value(k, src[k]) == w
  }

  ghost predicate Unnamed<V>(src: map<string, V>, name: string -> string, n: string) {
    forall k :: k in src ==> name(k) != n
  }

  // No two source entries of the same new name carry different values.
  ghost predicate Agreeing<V, W>(src: map<string, V>, name: string -> string, value: (string, V) -> W) {
    forall k, l :: k in src && l in src && name(k) == name(l) ==> value(k, src[k]) == value(l, src[l])
  }

  method Refill<V, W>(into: map<string, W>, src: map<string, V>, name: string -> string, value: (string, V) -> W)
    returns (out: map<string, W>)
    ensures Refilled(into, src, name, value, out)
  {
    out := into;
    var rest := src.Keys;
    ghost var done: map<string, V> := map[];
    while rest != {}
      invariant rest <= src.Keys && done == map k | k in src.Keys - rest :: src[k]
      invariant Refilled(into, done, name, value, out)
    {
      var k :| k in rest;
      rest := rest - {k};
      ghost var before := done;
      done := map l | l in src.Keys - rest :: src[l];
      RefilledOne(into, before, name, value, out, done, k);
      out := out[name(k) := value(k, src[k])];
    }
    assert done == src;
  }

  lemma RefilledOne<V, W>(into: map<string, W>, src: map<string, V>, name: string -> string, value: (string, V) -> W,
                          out: map<string, W>, src': map<string, V>, k: string)
    requires Refilled(into, src, name, value, out)
    requires k !in src && k in src' && src' == src[k := src'[k]]
    ensures Refilled(into, src', name, value, out[name(k) := value(k, src'[k])])
  {
    var out' := out[name(k) := value(k, src'[k])];
    forall n | n in out'
      ensures Named(src', name, value, n, out'[n]) || (n in into && out'[n] == into[n] && Unnamed(src', name, n))
    {
      if n != name(k) && Named(src, name, value, n, out[n]) {
        var l :| l in src && name(l) == n && value(l, src[l]) == out[n];
        assert l in src' && src'[l] == src[l];
      }
    }
  }

  // Some walk visits any given entry last.
  lemma {:induction false} SomeWalk<V, W>(into: map<string, W>, src: map<string, V>, name: string -> string,
                                          value: (string, V) -> W, last: string)
    returns (out: map<string, W>)
    requires last in src
    ensures Refilled(into, src, name, value, out) && out[name(last)] == value(last, src[last])
  {
    var rest := src - {last};
    if rest == map[] {
      out := into;
    } else {
      var k :| k in rest;
      out := SomeWalk(into, rest, name, value, k);
    }
    assert src == rest[last := src[last]];
    RefilledOne(into, rest, name, value, out, src, last);
    out := out[name(last) := value(last, src[last])];
  }

  // The order of the walk shows in the result exactly when two entries clash.
  lemma OrderShowsIff<V, W(!new)>(into: map<string, W>, src: map<string, V>, name: string -> string, value: (string, V) -> W)
    ensures Agreeing(src, name, value) <==> Determined(into, src, name, value)
  {
    if !Agreeing(src, name, value) {
      var k, l :| k in src && l in src && name(k) == name(l) && value(k, src[k]) != value(l, src[l]);
      var a := SomeWalk(into, src, name, value, k);
      var b := SomeWalk(into, src, name, value, l);
    } else {
      forall a, b | Refilled(into, src, name, value, a) && Refilled(into, src, name, value, b)
        ensures a == b
      {
        forall n | n in a
          ensures n in b && a[n] == b[n]
        {
          AgreeOn(into, src, name, value, a, b, n);
        }
        forall n | n in b
          ensures n in a
        {
          AgreeOn(into, src, name, value, b, a, n);
        }
      }
    }
  }

  ghost predicate Determined<V, W(!new)>(into: map<string, W>, src: map<string, V>, name: string -> string, value: (string, V) -> W) {
    forall a, b :: Refilled(into, src, name, value, a) && Refilled(into, src, name, value, b) ==> a == b
  }

  lemma AgreeOn<V, W>(into: map<string, W>, src: map<string, V>, name: string -> string, value: (string, V) -> W,
                      a: map<string, W>, b: map<string, W>, n: string)
    requires Agreeing(src, name, value) && n in a
    requires Refilled(into, src, name, value, a) && Refilled(into, src, name, value, b)
    ensures n in b && a[n] == b[n]
  {
    if Named(src, name, value, n, a[n]) {
      var k :| k in src && name(k) == n && value(k, src[k]) == a[n];
      assert n in b;
      assert Named(src, name, value, n, b[n]);
    }
  }

  /* ---------- what is asked of MQ ---------- */

  datatype ObjectKind =
    | LocalQueue(probed: seq<string>) // with the extra attributes mqweb was found to display
    | AliasQueue
    | RemoteQueue
    | TopicObject
    | SvrconnChannel
    | SdrChannel
    | RcvrChannel

  predicate IsChannel(kind: ObjectKind) {
    kind == SvrconnChannel || kind == SdrChannel || kind == RcvrChannel
  }

  function ChannelType(kind: ObjectKind): string {
    match kind
    case SdrChannel => "sdr"
    case RcvrChannel => "rcvr"
    case _ => "svrconn"
  }

  function NumericParameters(kind: ObjectKind): set<string> {
    if kind == TopicObject then {}
    else if IsChannel(kind) then {"sharecnv", "maxmsgl", "maxinst", "maxinstc"}
    else {"maxdepth", "maxmsglen"}
  }

  const BASE_LOCAL: seq<string> := ["maxdepth", "descr", "defpsist", "get", "put"]
  const PROBED_CANDIDATES: seq<string> := ["share", "defopts", "bothresh", "boqname", "usage", "maxmsglen"]

  // What DISPLAY asks for, which is also what drift detection compares.
  function DisplayParameters(kind: ObjectKind): seq<string> {
    match kind
    case LocalQueue(probed) => BASE_LOCAL + probed
    case AliasQueue => ["targq", "targtype", "descr"]
    case RemoteQueue => ["rname", "rqmname", "xmitq", "descr"]
    case TopicObject => ["topicStr", "descr", "pub", "sub", "defpsist", "pubscope", "subscope"]
    case SvrconnChannel => ["descr", "trptype", "sharecnv", "maxmsgl", "mcauser", "maxinst", "maxinstc", "sslciph", "sslcauth"]
    case SdrChannel => ["descr", "trptype", "conname", "xmitq", "maxmsgl", "mcauser", "sslciph"]
    case RcvrChannel => ["descr", "trptype", "maxmsgl", "mcauser", "sslciph"]
  }

  /* ---------- the attributes of a spec ---------- */

  // Keys that normalisation leaves alone.
  ghost predicate SpecKeyed(attrs: Attrs) {
    forall k :: k in attrs ==> NormalizeAttrKey(k) == k
  }

  // The spec of a custom resource: its free attributes under normalised keys, overridden by
  // its typed fields, here the values they print to under the MQ keys they stand for.
  ghost predicate SpecOf(attributes: Attrs, typed: Attrs, spec: Attrs) {
    exists free :: Refilled(map[], attributes, NormalizeAttrKey, KeepValue, free) && spec == free + typed
  }

  function KeepValue(k: string, v: string): string {
    v
  }

  method ToSpec(attributes: Attrs, typed: Attrs) returns (spec: Attrs)
    ensures SpecOf(attributes, typed, spec)
  {
    var free := Refill(map[], attributes, NormalizeAttrKey, KeepValue);
    spec := free + typed;
  }

  lemma SpecIsKeyed(attributes: Attrs, typed: Attrs, spec: Attrs)
    requires SpecOf(attributes, typed, spec) && SpecKeyed(typed)
    ensures SpecKeyed(spec)
  {
    forall k | k in spec && k !in typed
      ensures NormalizeAttrKey(k) == k
    {
      var l :| l in attributes && NormalizeAttrKey(l) == k;
      NormalizeIdempotent(l);
    }
  }

  /* ---------- DEFINE ---------- */

  // A JSON parameter value.
  datatype Param = Num(n: int) | Str(s: string)
  type Params = map<string, Param>

  function ParamOf(numeric: set<string>, key: string, v: string): Param {
    if key in numeric && Atoi(v).Some? then Num(Atoi(v).value) else Str(v)
  }

  function MapTopic(params: Params): Params {
    var renamed := if "topstr" in params then params["topicStr" := params["topstr"]] - {"topstr"} else params;
    Uppered(Uppered(renamed, "pub"), "sub")
  }

  function Uppered(params: Params, key: string): Params {
    if key in params then params[key := Str(ToUpper(Render(params[key])))] else params
  }

  function Finished(kind: ObjectKind, params: Params): Params {
    if kind == TopicObject then MapTopic(params)
    else if IsChannel(kind) then params["chltype" := Str(ChannelType(kind))]
    else params
  }

  ghost predicate Defines(kind: ObjectKind, attrs: Attrs, params: Params) {
    exists raw :: RawDefine(kind, attrs, raw) && params == Finished(kind, raw)
  }

  ghost predicate RawDefine(kind: ObjectKind, attrs: Attrs, raw: Params) {
    Refilled(map["replace" := Str("yes")], attrs, ToLower, (k, v) => ParamOf(NumericParameters(kind), ToLower(k), v), raw)
  }

  method DefineParameters(kind: ObjectKind, attrs: Attrs) returns (params: Params)
    ensures Defines(kind, attrs, params)
  {
    var raw := Refill(map["replace" := Str("yes")], attrs, ToLower,
                      (k, v) => ParamOf(NumericParameters(kind), ToLower(k), v));
    params := Finished(kind, raw);
  }

  /* ---------- DISPLAY ---------- */

  // The digits of a number without trailing zeros.
  function Significant(digits: string): (s: string)
    ensures digits != [] ==> s != []
  {
    if |digits| > 1 && digits[|digits|-1] == '0' then Significant(digits[..|digits|-1]) else digits
  }

  // The default printing of the float64 that a JSON integer decodes to: from a million on it
  // uses an exponent.
  function SprintNumber(n: int): string {
    if -1_000_000 < n < 1_000_000 then Itoa(n)
    else
      var digits := Digits(if n < 0 then -n else n);
      var sig := Significant(digits);
      var exponent := Digits(|digits| - 1);
      (if n < 0 then "-" else "") + sig[..1] + (if |sig| > 1 then "." + sig[1..] else "")
      + "e+" + (if |exponent| < 2 then "0" else "") + exponent
  }

  function Render(p: Param): string {
    match p
    case Num(n) => SprintNumber(n)
    case Str(s) => s
  }

  datatype Displayed = NotFound | Failed | Observed(attrs: Attrs)

  // Some response names the key (in any case) with this value, and no later one names it.
  ghost predicate Reports(responses: seq<Params>, key: string, value: string) {
    exists i, n :: 0 <= i < |responses| && n in responses[i] && ToLower(n) == key
                   && Render(responses[i][n]) == value && Silent(responses[i + 1..], key)
  }

  ghost predicate Silent(responses: seq<Params>, key: string) {
    forall i, n :: 0 <= i < |responses| && n in responses[i] ==> ToLower(n) != key
  }

  // What the responses say about every key, the last word winning.
  ghost predicate Collected(responses: seq<Params>, attrs: Attrs) {
    forall key :: if key in attrs then Reports(responses, key, attrs[key]) else Silent(responses, key)
  }

  function RenderEntry(n: string, p: Param): string {
    Render(p)
  }

  // firstObjectAttributes: `failed` is the overall outcome, `missing` the text test for an
  // object that is not there.
  method FirstObjectAttributes(responses: seq<Params>, failed: bool, missing: bool) returns (r: Displayed)
    ensures r.Observed? ==> Collected(responses, r.attrs)
    ensures !r.Observed? <==> responses == [] || (failed && forall key :: Silent(responses, key))
    ensures r.NotFound? <==> responses == [] || (!r.Observed? && missing)
  {
    if responses == [] {
      return NotFound;
    }
    var attrs: Attrs := map[];
    for i := 0 to |responses|
      invariant Collected(responses[..i], attrs)
    {
      var next := Refill(attrs, responses[i], ToLower, RenderEntry);
      CollectedOne(responses[..i], attrs, responses[i], next);
      assert responses[..i + 1] == responses[..i] + [responses[i]];
      attrs := next;
    }
    assert responses[..|responses|] == responses;
    if attrs == map[] && failed {
      return if missing then NotFound else Failed;
    }
    if key :| key in attrs {
      assert Reports(responses, key, attrs[key]) && !Silent(responses, key);
    }
    return Observed(attrs);
  }

  lemma SilentSplit(a: seq<Params>, b: seq<Params>, key: string)
    ensures Silent(a + b, key) <==> Silent(a, key) && Silent(b, key)
  {
    var all := a + b;
    assert forall i :: 0 <= i < |a| ==> all[i] == a[i];
    assert forall i :: 0 <= i < |b| ==> all[|a| + i] == b[i];
  }

  lemma ReportedNow(responses: seq<Params>, response: Params, n: string)
    requires n in response
    ensures Reports(responses + [response], ToLower(n), Render(response[n]))
  {
    var all := responses + [response];
    assert all[|responses|] == response && Silent(all[|responses| + 1..], ToLower(n));
  }

  lemma ReportedStill(responses: seq<Params>, response: Params, key: string, value: string)
    requires Reports(responses, key, value) && Silent([response], key)
    ensures Reports(responses + [response], key, value)
  {
    var all := responses + [response];
    var i, n :| 0 <= i < |responses| && n in responses[i] && ToLower(n) == key
                && Render(responses[i][n]) == value && Silent(responses[i + 1..], key);
    assert all[i + 1..] == responses[i + 1..] + [response];
    SilentSplit(responses[i + 1..], [response], key);
    assert n in all[i];
  }

  lemma CollectedOne(responses: seq<Params>, attrs: Attrs, response: Params, next: Attrs)
    requires Collected(responses, attrs) && Refilled(attrs, response, ToLower, RenderEntry, next)
    ensures Collected(responses + [response], next)
  {
    forall key
      ensures if key in next then Reports(responses + [response], key, next[key]) else Silent(responses + [response], key)
    {
      SilentSplit(responses, [response], key);
      if key in next {
        if Named(response, ToLower, RenderEntry, key, next[key]) {
          var n :| n in response && ToLower(n) == key && RenderEntry(n, response[n]) == next[key];
          ReportedNow(responses, response, n);
        } else {
          ReportedStill(responses, response, key, attrs[key]);
        }
      }
    }
  }

  function FillFrom(attrs: Attrs, key: string, other: string): Attrs {
    if other in attrs && Lookup(attrs, key) == "" then attrs[key := attrs[other]] else attrs
  }

  // normalizeQueueAttributes and normalizeTopicAttributes.
  function NormalizeObserved(kind: ObjectKind, attrs: Attrs): Attrs {
    match kind
    case AliasQueue => FillFrom(attrs, "targq", "target")
    case RemoteQueue =>
      FillFrom(FillFrom(FillFrom(attrs, "rname", "remotequeue"), "rqmname", "remotemanager"), "xmitq", "transmissionqueue")
    case TopicObject => if "topicstr" in attrs then attrs["topstr" := attrs["topicstr"]] else attrs
    case _ => attrs
  }
}
