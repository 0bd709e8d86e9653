/**
 The promotion tables of queues, topics and channels, and what folding does with them.
 */
module FoldTables {
  import opened Options
  import opened Text
  import opened Attributes
  import opened Parameters
  import opened Folding
  import Convergence

  datatype Kind = Queue | Topic | Channel

  function TextField(primary: string): Option<Entry> {
    Some(Entry(primary, false))
  }

  function NumberField(primary: string): Option<Entry> {
    Some(Entry(primary, true))
  }

  function QueueFold(n: string): Option<Entry> {
    if n == "maxdepth" then NumberField(n)
    else if n == "descr" || n == "defpsist" || n == "get" || n == "put" then TextField(n)
    else if n == "targq" || n == "target" then TextField("targq")
    else if n == "xmitq" || n == "transmissionqueue" then TextField("xmitq")
    else if n == "rqmname" || n == "remotemanager" then TextField("rqmname")
    else None
  }

  function TopicFold(n: string): Option<Entry> {
    if n == "topstr" || n == "topicstr" then TextField("topstr")
    else if n == "descr" || n == "pub" || n == "sub" || n == "defpsist" || n == "pubscope" || n == "subscope" then TextField(n)
    else None
  }

  function ChannelFold(n: string): Option<Entry> {
    if n == "maxmsgl" || n == "sharecnv" || n == "maxinst" || n == "maxinstc" then NumberField(n)
    else if n == "descr" || n == "trptype" || n == "mcauser" || n == "sslciph" || n == "sslcauth" || n == "conname" || n == "xmitq" then TextField(n)
    else None
  }

  function FoldOf(kind: Kind, n: string): Option<Entry> {
    match kind
    case Queue => QueueFold(n)
    case Topic => TopicFold(n)
    case Channel => ChannelFold(n)
  }

  // Topics look keys up under their normalised name, queues and channels in lower case.
  function EntryOf(kind: Kind, key: string): Option<Entry> {
    FoldOf(kind, if kind == Topic then NormalizeAttrKey(key) else ToLower(key))
  }

  function ReadNumber(v: string): Option<string> {
    match ParseSigned(v, INT32_LIMIT)
    case Some(n) => Some(Itoa(n))
    case None => None
  }

  function RulesOf(kind: Kind): Rules {
    Rules(k => EntryOf(kind, k), NormalizeAttrKey, ReadNumber, ValueMatches)
  }

  /* ---------- the tables are sound ---------- */

  lemma FoldShape(kind: Kind, n: string)
    requires FoldOf(kind, n).Some?
    ensures FoldOf(kind, FoldOf(kind, n).value.primary) == FoldOf(kind, n)
  {
  }

  predicate Plain(e: Option<Entry>) {
    e.Some? ==> IsLower(e.value.primary) && e.value.primary != "topicstr"
  }

  lemma QueuePlain(n: string)
    ensures Plain(QueueFold(n))
  {
  }

  lemma TopicPlain(n: string)
    ensures Plain(TopicFold(n))
  {
  }

  lemma ChannelPlain(n: string)
    ensures Plain(ChannelFold(n))
  {
  }

  lemma PrimaryPlain(kind: Kind, n: string)
    ensures Plain(FoldOf(kind, n))
  {
    match kind
    case Queue => QueuePlain(n);
    case Topic => TopicPlain(n);
    case Channel => ChannelPlain(n);
  }

  lemma PrimaryNumeric(kind: Kind, n: string)
    requires FoldOf(kind, n).Some? && FoldOf(kind, n).value.numeric
    ensures ComparisonOf(FoldOf(kind, n).value.primary) == Numeric
  {
  }

  lemma NumberReadsBack(v: string)
    requires ReadNumber(v).Some?
    ensures Equivalent(Numeric, v, ReadNumber(v).value)
  {
    var n := ParseSigned(v, INT32_LIMIT).value;
    ParsedIsPlain(v, INT32_LIMIT);
    TrimBare(v, IsSpace);
    ItoaIsPlain(n);
    ParseItoa(n, INT64_LIMIT);
  }

  lemma EntryByName(kind: Kind, k: string)
    ensures EntryOf(kind, k) == EntryOf(kind, NormalizeAttrKey(k))
  {
    NormalizeIdempotent(k);
    LowerIdempotent(k);
    LowerFixed("topstr");
  }

  lemma PrimaryName(kind: Kind, k: string)
    requires EntryOf(kind, k).Some?
    ensures var e := EntryOf(kind, k).value; NormalizeAttrKey(e.primary) == e.primary && EntryOf(kind, e.primary) == Some(e)
  {
    var n := if kind == Topic then NormalizeAttrKey(k) else ToLower(k);
    FoldShape(kind, n);
    PrimaryPlain(kind, n);
    LowerFixed(EntryOf(kind, k).value.primary);
  }

  lemma NumbersSame(kind: Kind, k: string, v: string)
    requires EntryOf(kind, k).Some? && EntryOf(kind, k).value.numeric && ReadNumber(v).Some?
    ensures ValueMatches(EntryOf(kind, k).value.primary, v, ReadNumber(v).value)
  {
    PrimaryName(kind, k);
    PrimaryNumeric(kind, if kind == Topic then NormalizeAttrKey(k) else ToLower(k));
    NumberReadsBack(v);
  }

  lemma TableSound(kind: Kind)
    ensures Sound(RulesOf(kind))
  {
    var rules := RulesOf(kind);
    forall k
      ensures rules.entry(k) == rules.entry(rules.name(k)) && rules.name(rules.name(k)) == rules.name(k)
    {
      EntryByName(kind, k);
      NormalizeIdempotent(k);
    }
    forall k | rules.entry(k).Some?
      ensures SoundEntry(rules, rules.entry(k).value)
    {
      PrimaryName(kind, k);
      var e := rules.entry(k).value;
      forall v | e.numeric && rules.parse(v).Some?
        ensures rules.same(e.primary, v, rules.parse(v).value)
      {
        NumbersSame(kind, k, v);
      }
    }
    forall k, v
      ensures rules.same(k, v, v)
    {
      MatchesIsEquivalence(k, v, v, v);
    }
  }

  /* ---------- the tables in MQ's own names ---------- */

  // The MQ attribute a key of a resource names: the key in lower case, or what MQ calls it.
  function MqName(kind: Kind, key: string): string {
    var n := NormalizeAttrKey(key);
    if kind == Queue && n == "target" then "targq"
    else if kind == Queue && n == "transmissionqueue" then "xmitq"
    else if kind == Queue && n == "remotemanager" then "rqmname"
    else n
  }

  // The kinds of MQ objects a resource can stand for.
  ghost predicate StandsFor(kind: Kind, mqObject: ObjectKind) {
    match kind
    case Queue => mqObject == AliasQueue || mqObject == RemoteQueue || mqObject.LocalQueue?
    case Topic => mqObject == TopicObject
    case Channel => IsChannel(mqObject)
  }

  lemma QueueNames(n: string)
    ensures QueueFold(n).Some? ==>
      QueueFold(n).value.primary ==
      if n == "target" then "targq" else if n == "transmissionqueue" then "xmitq" else if n == "remotemanager" then "rqmname" else n
    ensures n == "target" || n == "transmissionqueue" || n == "remotemanager" ==> QueueFold(n).Some?
    ensures QueueFold("topicstr").None? && QueueFold("topstr").None?
  {
  }

  lemma OtherNames(n: string)
    ensures TopicFold(n).Some? && n != "topicstr" ==> TopicFold(n).value.primary == n
    ensures ChannelFold(n).Some? ==> ChannelFold(n).value.primary == n
    ensures ChannelFold("topicstr").None? && ChannelFold("topstr").None?
  {
  }

  // A key is promoted to the field of the MQ attribute it names, and of no other.
  lemma NamesAreMqNames(kind: Kind, key: string)
    ensures Names(RulesOf(kind), key) == MqName(kind, key)
  {
    QueueNames(ToLower(key));
    OtherNames(ToLower(key));
    NormalizedIsNot(key);
    OtherNames(NormalizeAttrKey(key));
  }

  lemma NormalizedIsNot(key: string)
    ensures NormalizeAttrKey(key) != "topicstr"
  {
  }

  // Both say the same about every MQ attribute, under whichever of its names.
  ghost predicate SameToMq(kind: Kind, a: Attrs, b: Attrs) {
    && (forall n :: n in a ==> SaidIn(kind, a, b, n))
    && (forall m :: m in b ==> SaidBy(kind, a, b, m))
  }

  ghost predicate Matched(kind: Kind, a: Attrs, b: Attrs, n: string, m: string) {
    n in a && m in b && MqName(kind, n) == MqName(kind, m) && ValueMatches(MqName(kind, n), a[n], b[m])
  }

  ghost predicate SaidIn(kind: Kind, a: Attrs, b: Attrs, n: string) {
    exists m :: Matched(kind, a, b, n, m)
  }

  ghost predicate SaidBy(kind: Kind, a: Attrs, b: Attrs, m: string) {
    exists n :: Matched(kind, a, b, n, m)
  }

  lemma MatchedIsAgree(kind: Kind, a: Attrs, b: Attrs, n: string, m: string)
    ensures Matched(kind, a, b, n, m) <==> Agree(RulesOf(kind), a, b, n, m)
  {
    NamesAreMqNames(kind, n);
    NamesAreMqNames(kind, m);
  }

  lemma SaidInIff(kind: Kind, a: Attrs, b: Attrs, n: string)
    ensures SaidIn(kind, a, b, n) <==> MetIn(RulesOf(kind), a, b, n)
  {
    if m :| Matched(kind, a, b, n, m) {
      MatchedIsAgree(kind, a, b, n, m);
    }
    if m :| Agree(RulesOf(kind), a, b, n, m) {
      MatchedIsAgree(kind, a, b, n, m);
    }
  }

  lemma SaidByIff(kind: Kind, a: Attrs, b: Attrs, m: string)
    ensures SaidBy(kind, a, b, m) <==> MetBy(RulesOf(kind), a, b, m)
  {
    if n :| Matched(kind, a, b, n, m) {
      MatchedIsAgree(kind, a, b, n, m);
    }
    if n :| Agree(RulesOf(kind), a, b, n, m) {
      MatchedIsAgree(kind, a, b, n, m);
    }
  }

  lemma SameToMqOneWay(kind: Kind, a: Attrs, b: Attrs)
    ensures SameMeaning(RulesOf(kind), a, b) ==> SameToMq(kind, a, b)
  {
    if SameMeaning(RulesOf(kind), a, b) {
      forall n | n in a
        ensures SaidIn(kind, a, b, n)
      {
        SaidInIff(kind, a, b, n);
      }
      forall m | m in b
        ensures SaidBy(kind, a, b, m)
      {
        SaidByIff(kind, a, b, m);
      }
    }
  }

  lemma SameToMqOtherWay(kind: Kind, a: Attrs, b: Attrs)
    ensures SameToMq(kind, a, b) ==> SameMeaning(RulesOf(kind), a, b)
  {
    if SameToMq(kind, a, b) {
      forall n | n in a
        ensures MetIn(RulesOf(kind), a, b, n)
      {
        SaidInIff(kind, a, b, n);
      }
      forall m | m in b
        ensures MetBy(RulesOf(kind), a, b, m)
      {
        SaidByIff(kind, a, b, m);
      }
    }
  }

  // Every typed field stands for an attribute that is looked at for drift, in some kind of
  // object the resource can stand for.
  lemma TypedFieldsAreChecked(kind: Kind, key: string) returns (mqObject: ObjectKind)
    requires EntryOf(kind, key).Some?
    ensures StandsFor(kind, mqObject) && Convergence.Checked(mqObject, EntryOf(kind, key).value.primary)
  {
    var p := EntryOf(kind, key).value.primary;
    match kind
    case Topic => mqObject := TopicObject;
    case Channel =>
      mqObject := if p == "conname" || p == "xmitq" then SdrChannel else SvrconnChannel;
    case Queue =>
      mqObject := if p == "targq" then AliasQueue else if p == "xmitq" || p == "rqmname" then RemoteQueue else LocalQueue([]);
      assert BASE_LOCAL + [] == BASE_LOCAL;
  }

  /* ---------- folding a custom resource ---------- */

  ghost predicate FieldsOf(kind: Kind, typed: Attrs) {
    forall p :: p in typed ==> EntryOf(kind, p).Some? && EntryOf(kind, p).value.primary == p
  }

  // For attributes no two of which name the same MQ attribute, whatever the order of the walk:
  // the spec handed to MQ means the same after folding exactly when no text attribute with an
  // unset field is empty and no alias disagrees with a field already set; presets stay, and
  // folding again changes nothing.
  lemma FoldPreservesMeaningIff(kind: Kind, s: Spec, order: seq<string>, a: Attrs, b: Attrs)
    requires FieldsOf(kind, s.typed) && NoTwoAlike(RulesOf(kind), s.attrs) && Enumerates(order, s.attrs.Keys)
    requires SpecOf(s.attrs, s.typed, a)
    requires var t := FoldAll(RulesOf(kind), s, order); SpecOf(t.attrs, t.typed, b)
    ensures SameToMq(kind, a, b) <==> AllLossless(RulesOf(kind), s)
    ensures var t := FoldAll(RulesOf(kind), s, order); forall again :: FoldAll(RulesOf(kind), t, again) == t
  {
    var rules := RulesOf(kind);
    var t := FoldAll(rules, s, order);
    TableSound(kind);
    FoldIs(rules, s, order);
    FoldKeepsTyped(rules, s, t);
    FoldKeepsMeaningIff(rules, s, t, a, b);
    SameToMqOneWay(kind, a, b);
    SameToMqOtherWay(kind, a, b);
    NoTwoAlikeIsTwinFree(rules, s);
    TwinFreeIsIdle(rules, s, order);
  }

  // Folding once is enough, in every order, exactly when no unset number has both a readable
  // and an unreadable key.
  lemma FoldOnceIff(kind: Kind, s: Spec)
    ensures IdleAfterAnyOrder(RulesOf(kind), s) <==> TwinFree(RulesOf(kind), s)
  {
    TableSound(kind);
    SecondFoldIdleIff(RulesOf(kind), s);
  }

  // An empty description is lost.
  lemma EmptyDescriptionIsLost(kind: Kind)
    ensures !AllLossless(RulesOf(kind), Spec(map[], map["descr" := ""]))
  {
    LowerFixed("descr");
    assert EntryOf(kind, "descr") == Some(Entry("descr", false));
    assert !Lossless(RulesOf(kind), Spec(map[], map["descr" := ""]), "descr");
  }
}
