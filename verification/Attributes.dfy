/**
 Comparison of desired and observed MQ attributes: key normalisation, per-key value
 equivalence, and the drift report over a list of checked keys.
 */
module Attributes {
  import opened Options
  import opened Text

  type Attrs = map<string, string>

  const CASE_INSENSITIVE_KEYS: set<string> :=
    {"pub", "sub", "get", "put", "defpsist", "trptype", "share", "defopts", "usage", "sslcauth"}

  const NUMERIC_KEYS: set<string> :=
    {"maxdepth", "maxmsglen", "maxmsgl", "sharecnv", "maxinst", "maxinstc", "bothresh"}

  function NormalizeAttrKey(key: string): string {
    var lower := ToLower(key);
    if lower == "topicstr" then "topstr" else lower
  }

  function NormalizeNumeric(s: string): string {
    var t := TrimSpace(s);
    match Atoi(t)
    case Some(n) => Itoa(n)
    case None => t
  }

  // How the values of an attribute are compared.
  datatype Comparison = Folded | Numeric | Exact

  function ComparisonOf(k: string): Comparison {
    if k in CASE_INSENSITIVE_KEYS then Folded else if k in NUMERIC_KEYS then Numeric else Exact
  }

  predicate Equivalent(c: Comparison, a: string, b: string) {
    match c
    case Folded => EqualFold(TrimSpace(a), TrimSpace(b))
    case Numeric => NormalizeNumeric(a) == NormalizeNumeric(b)
    case Exact => TrimSpace(a) == TrimSpace(b)
  }

  predicate ValueMatches(key: string, desired: string, observed: string) {
    Equivalent(ComparisonOf(NormalizeAttrKey(key)), desired, observed)
  }

  predicate IsLower(s: string) {
    forall i :: 0 <= i < |s| ==> !('A' <= s[i] <= 'Z')
  }

  lemma LowerFixed(s: string)
    requires IsLower(s)
    ensures ToLower(s) == s
  {
  }

  lemma NormalizeIdempotent(key: string)
    ensures NormalizeAttrKey(NormalizeAttrKey(key)) == NormalizeAttrKey(key)
  {
    LowerIdempotent(key);
    LowerFixed("topstr");
  }

  // Numeric text has one canonical form: normalising twice changes nothing, and two texts of
  // the same 64-bit number are equivalent.
  lemma NumericCanonical(s: string)
    ensures NormalizeNumeric(NormalizeNumeric(s)) == NormalizeNumeric(s)
    ensures Atoi(TrimSpace(s)).Some? ==> NormalizeNumeric(s) == Itoa(Atoi(TrimSpace(s)).value)
  {
    var t := TrimSpace(s);
    TrimBare(t, IsSpace);
    match Atoi(t)
    case None =>
    case Some(n) =>
      ItoaIsPlain(n);
      ParseItoa(n, INT64_LIMIT);
  }

  // Value equivalence depends on the key only up to normalisation and is an equivalence.
  lemma MatchesIsEquivalence(key: string, a: string, b: string, c: string)
    ensures ValueMatches(key, a, b) == ValueMatches(NormalizeAttrKey(key), a, b)
    ensures ValueMatches(key, a, a)
    ensures ValueMatches(key, a, b) ==> ValueMatches(key, b, a)
    ensures ValueMatches(key, a, b) && ValueMatches(key, b, c) ==> ValueMatches(key, a, c)
  {
    NormalizeIdempotent(key);
  }

  /* ---------- what is told apart ---------- */

  // s is its core with blanks around it.
  ghost predicate Core(s: string, core: string) {
    && Bare(core, IsSpace)
    && exists front, back :: s == front + core + back && AllCut(front, IsSpace) && AllCut(back, IsSpace)
  }

  // The two texts have the same core, up to `same`.
  ghost predicate CoresAgree(a: string, b: string, same: (string, string) -> bool) {
    exists x, y :: Core(a, x) && Core(b, y) && same(x, y)
  }

  // Letters may differ in case.
  predicate SameLetter(c: char, d: char) {
    c == d || ('a' <= c <= 'z' && d as int == c as int - 32) || ('A' <= c <= 'Z' && d as int == c as int + 32)
  }

  predicate SameLetters(x: string, y: string) {
    |x| == |y| && forall i :: 0 <= i < |x| ==> SameLetter(x[i], y[i])
  }

  predicate SameText(x: string, y: string) {
    x == y
  }

  // Both are the same 64-bit number, or neither is a number and they are the same text.
  predicate SameNumber(x: string, y: string) {
    if Atoi(x).Some? then Atoi(y) == Atoi(x) else x == y
  }

  lemma LowerAlike(c: char, d: char)
    ensures LowerChar(c) == LowerChar(d) <==> SameLetter(c, d)
  {
  }

  lemma EqualFoldIff(x: string, y: string)
    ensures EqualFold(x, y) <==> SameLetters(x, y)
  {
    assert |ToLower(x)| == |x| && |ToLower(y)| == |y|;
    forall i | 0 <= i < |x| && i < |y|
      ensures ToLower(x)[i] == ToLower(y)[i] <==> SameLetter(x[i], y[i])
    {
      LowerAlike(x[i], y[i]);
    }
  }

  // Trimming finds the core, and there is only one.
  lemma CoreIff(s: string, core: string)
    ensures Core(s, core) <==> core == TrimSpace(s)
  {
    var front, back := TrimParts(s, IsSpace);
    assert Core(s, TrimSpace(s));
    if Core(s, core) {
      var f, b :| s == f + core + b && AllCut(f, IsSpace) && AllCut(b, IsSpace);
      TrimPadded(f, core, b, IsSpace);
    }
  }

  lemma CoresAgreeIff(a: string, b: string, same: (string, string) -> bool)
    ensures CoresAgree(a, b, same) <==> same(TrimSpace(a), TrimSpace(b))
  {
    CoreIff(a, TrimSpace(a));
    CoreIff(b, TrimSpace(b));
    if x, y :| Core(a, x) && Core(b, y) && same(x, y) {
      CoreIff(a, x);
      CoreIff(b, y);
    }
  }

  lemma SameNumberIff(a: string, b: string)
    ensures NormalizeNumeric(a) == NormalizeNumeric(b) <==> SameNumber(TrimSpace(a), TrimSpace(b))
  {
    var x, y := TrimSpace(a), TrimSpace(b);
    if Atoi(x).Some? {
      NumbersPrintApart(x, y);
    } else if Atoi(y).Some? {
      NumbersPrintApart(y, x);
    }
  }

  // A number prints as no text that is not a number.
  lemma NumbersPrintApart(x: string, y: string)
    requires Atoi(x).Some?
    ensures Atoi(y).None? ==> Itoa(Atoi(x).value) != y
    ensures Atoi(y).Some? ==> (Itoa(Atoi(x).value) == Itoa(Atoi(y).value) <==> Atoi(x) == Atoi(y))
  {
    ParseItoa(Atoi(x).value, INT64_LIMIT);
    if Atoi(y).Some? {
      ParseItoa(Atoi(y).value, INT64_LIMIT);
    }
  }

  lemma EquivalentIff(c: Comparison, a: string, b: string)
    ensures Equivalent(c, a, b) <==>
      match c
      case Folded => CoresAgree(a, b, SameLetters)
      case Numeric => CoresAgree(a, b, SameNumber)
      case Exact => CoresAgree(a, b, SameText)
  {
    match c
    case Folded =>
      EqualFoldIff(TrimSpace(a), TrimSpace(b));
      CoresAgreeIff(a, b, SameLetters);
    case Numeric =>
      SameNumberIff(a, b);
      CoresAgreeIff(a, b, SameNumber);
    case Exact => CoresAgreeIff(a, b, SameText);
  }

  // The attributes whose values are words, and those whose values are numbers.
  predicate IsWordAttribute(name: string) {
    || name == "pub" || name == "sub" || name == "get" || name == "put" || name == "defpsist" || name == "trptype"
    || name == "share" || name == "defopts" || name == "usage" || name == "sslcauth"
  }

  predicate IsNumberAttribute(name: string) {
    || name == "maxdepth" || name == "maxmsglen" || name == "maxmsgl" || name == "sharecnv"
    || name == "maxinst" || name == "maxinstc" || name == "bothresh"
  }

  lemma ComparisonIs(name: string)
    ensures ComparisonOf(name) == if IsWordAttribute(name) then Folded else if IsNumberAttribute(name) then Numeric else Exact
  {
  }

  // Exactly which values are told apart, for every attribute under any spelling of its name:
  // blanks around a value never count; words may differ in case; numbers must be the same
  // number; all other values must be the same text.
  lemma ValueMatchesIff(key: string, name: string, a: string, b: string)
    requires SameLetters(key, name) && IsLower(name)
    ensures ValueMatches(key, a, b) <==>
      if IsWordAttribute(name) then CoresAgree(a, b, SameLetters)
      else if IsNumberAttribute(name) then CoresAgree(a, b, SameNumber)
      else CoresAgree(a, b, SameText)
  {
    EqualFoldIff(key, name);
    LowerFixed(name);
    ComparisonIs(name);
    ComparisonIs(NormalizeAttrKey(key));
    EquivalentIff(ComparisonOf(name), a, b);
  }

  /* ---------- drift ---------- */

  datatype Drift = Drift(key: string, desired: string, observed: string)

  function Lookup(m: Attrs, key: string): string {
    if key in m then m[key] else ""
  }

  // The normalised keys drift detection looks at.
  function KeySet(checkKeys: seq<string>): set<string> {
    set i | 0 <= i < |checkKeys| :: NormalizeAttrKey(checkKeys[i])
  }

  predicate Drifts(desired: Attrs, observed: Attrs, allowed: set<string>, k: string)
    requires k in desired
  {
    var key := NormalizeAttrKey(k);
    key in allowed && !ValueMatches(key, desired[k], Lookup(observed, key))
  }

  ghost function DriftingKeys(desired: Attrs, observed: Attrs, allowed: set<string>): set<string> {
    set k | k in desired && Drifts(desired, observed, allowed, k)
  }

  ghost predicate NeedsUpdate(desired: Attrs, observed: Attrs, allowed: set<string>) {
    DriftingKeys(desired, observed, allowed) != {}
  }

  function DriftOf(desired: Attrs, observed: Attrs, allowed: set<string>, k: string): Option<Drift> {
    if k in desired && Drifts(desired, observed, allowed, k) then
      Some(Drift(NormalizeAttrKey(k), desired[k], Lookup(observed, NormalizeAttrKey(k))))
    else None
  }

  method CheckKeySet(checkKeys: seq<string>) returns (allowed: set<string>)
    ensures allowed == KeySet(checkKeys)
  {
    allowed := {};
    for i := 0 to |checkKeys|
      invariant allowed == KeySet(checkKeys[..i])
    {
      assert checkKeys[..i + 1] == checkKeys[..i] + [checkKeys[i]];
      KeySetSnoc(checkKeys[..i], checkKeys[i]);
      allowed := allowed + {NormalizeAttrKey(checkKeys[i])};
    }
    assert checkKeys[..|checkKeys|] == checkKeys;
  }

  lemma KeySetSnoc(keys: seq<string>, key: string)
    ensures KeySet(keys + [key]) == KeySet(keys) + {NormalizeAttrKey(key)}
  {
    var all := keys + [key];
    forall x | x in KeySet(keys)
      ensures x in KeySet(all)
    {
      var i :| 0 <= i < |keys| && NormalizeAttrKey(keys[i]) == x;
      assert NormalizeAttrKey(all[i]) == x;
    }
    assert NormalizeAttrKey(all[|keys|]) in KeySet(all);
  }

  // Walks the keys in any order and collects what `find` reports.
  method Collect(keys: set<string>, find: string -> Option<Drift>) returns (drifts: seq<Drift>)
    ensures |drifts| == |set k | k in keys && find(k).Some?|
    ensures forall k :: k in keys && find(k).Some? ==> find(k).value in drifts
  {
    ghost var found := set k | k in keys && find(k).Some?;
    drifts := [];
    var rest := keys;
    while rest != {}
      invariant rest <= keys && |drifts| == |found - rest|
      invariant forall k :: k in found - rest ==> find(k).value in drifts
    {
      var k :| k in rest;
      match find(k) {
        case Some(d) =>
          drifts := drifts + [d];
          assert found - (rest - {k}) == (found - rest) + {k};
        case None =>
          assert found - (rest - {k}) == found - rest;
      }
      rest := rest - {k};
    }
    assert found - {} == found;
  }

  lemma FoundIsDrifting(desired: Attrs, observed: Attrs, allowed: set<string>, find: string -> Option<Drift>)
    requires forall k :: find(k) == DriftOf(desired, observed, allowed, k)
    ensures (set k | k in desired.Keys && find(k).Some?) == DriftingKeys(desired, observed, allowed)
  {
  }

  // One entry per drifting key and no other, whatever order the map is walked in.
  method DriftsForKeys(desired: Attrs, observed: Attrs, checkKeys: seq<string>) returns (drifts: seq<Drift>)
    ensures |drifts| == |DriftingKeys(desired, observed, KeySet(checkKeys))|
    ensures drifts != [] <==> NeedsUpdate(desired, observed, KeySet(checkKeys))
    ensures forall k :: k in desired && DriftOf(desired, observed, KeySet(checkKeys), k).Some? ==>
              DriftOf(desired, observed, KeySet(checkKeys), k).value in drifts
  {
    var allowed := CheckKeySet(checkKeys);
    var find := k => DriftOf(desired, observed, allowed, k);
    drifts := Collect(desired.Keys, find);
    FoundIsDrifting(desired, observed, allowed, find);
  }
}
