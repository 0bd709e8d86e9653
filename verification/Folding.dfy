/**
 Folding free attributes into the typed fields of a spec: which keys are promoted, which are
 dropped, and when the spec still means the same to MQ.
 */
module Folding {
  import opened Options
  import opened Attributes
  import opened Parameters

  // The typed field a key is promoted to, named by the MQ key the field prints under.
  datatype Entry = Entry(primary: string, numeric: bool)

  // What folding needs to know of one kind of object. `parse` is how a numeric value comes
  // back from its typed field, `same` whether MQ takes two values of a key for the same.
  datatype Rules = Rules(
    entry: string -> Option<Entry>,
    name: string -> string,
    parse: string -> Option<string>,
    same: (string, string, string) -> bool)

  // Typed fields are held by the text they print, under the key they print it; a field that
  // is not there is unset.
  datatype Spec = Spec(typed: Attrs, attrs: Attrs)

  /* ---------- the code ---------- */

  function FoldOne(rules: Rules, s: Spec, key: string): Spec {
    if key !in s.attrs || rules.entry(key).None? then s
    else
      var e, v := rules.entry(key).value, s.attrs[key];
      if e.primary in s.typed then s.(attrs := s.attrs - {key})
      else if e.numeric then
        (match rules.parse(v)
         case None => s
         case Some(text) => Spec(s.typed[e.primary := text], s.attrs - {key}))
      else if v == "" then s.(attrs := s.attrs - {key}) // the field is set to "", that is, unset
      else Spec(s.typed[e.primary := v], s.attrs - {key})
  }

  function FoldAll(rules: Rules, s: Spec, order: seq<string>): Spec
    decreases |order|
  {
    if order == [] then s else FoldOne(rules, FoldAll(rules, s, order[..|order|-1]), order[|order|-1])
  }

  ghost predicate Enumerates(order: seq<string>, keys: set<string>) {
    && (forall k :: k in keys <==> k in order)
    && (forall i, j :: 0 <= i < j < |order| ==> order[i] != order[j])
  }

  class TypedSpec {
    var typed: Attrs
    var attrs: Attrs

    constructor (typed: Attrs, attrs: Attrs)
      ensures this.typed == typed && this.attrs == attrs
    {
      this.typed := typed;
      this.attrs := attrs;
    }

    // Visits every key that was there once, in some order, deleting as it goes.
    method Fold(rules: Rules) returns (ghost order: seq<string>)
      modifies this
      ensures Enumerates(order, old(attrs).Keys)
      ensures Spec(typed, attrs) == FoldAll(rules, Spec(old(typed), old(attrs)), order)
    {
      order := [];
      var rest := attrs.Keys;
      while rest != {}
        invariant rest <= old(attrs).Keys && Enumerates(order, old(attrs).Keys - rest)
        invariant Spec(typed, attrs) == FoldAll(rules, Spec(old(typed), old(attrs)), order)
      {
        var key :| key in rest;
        rest := rest - {key};
        assert (order + [key])[..|order|] == order;
        order := order + [key];
        if key in attrs {
          match rules.entry(key)
          case None =>
          case Some(e) =>
            var value := attrs[key];
            var isSet := e.primary in typed;
            var drop := isSet;
            if !isSet {
              if e.numeric {
                match rules.parse(value) {
                  case None =>
                  case Some(text) =>
                    typed := typed[e.primary := text];
                    drop := true;
                }
              } else {
                if value != "" {
                  typed := typed[e.primary := value];
                }
                drop := true;
              }
            }
            if drop {
              attrs := attrs - {key};
            }
        }
      }
    }
  }

  // Typed fields set beforehand never change, and no attribute is added or altered.
  lemma {:induction false} PresetsKept(rules: Rules, s: Spec, order: seq<string>)
    ensures var t := FoldAll(rules, s, order);
            && (forall p :: p in s.typed ==> p in t.typed && t.typed[p] == s.typed[p])
            && (forall k :: k in t.attrs ==> k in s.attrs && t.attrs[k] == s.attrs[k])
    decreases |order|
  {
    if order != [] {
      PresetsKept(rules, s, order[..|order|-1]);
    }
  }

  /* ---------- what the result is ---------- */

  // What makes a promotion table sound: it depends on keys only up to their name, a primary
  // key stands for itself, and MQ takes a number read back for the number itself.
  ghost predicate Sound(rules: Rules) {
    && (forall k :: rules.entry(k) == rules.entry(rules.name(k)) && rules.name(rules.name(k)) == rules.name(k))
    && (forall k :: rules.entry(k).Some? ==> SoundEntry(rules, rules.entry(k).value))
    && (forall k, v :: rules.same(k, v, v))
  }

  ghost predicate SoundEntry(rules: Rules, e: Entry) {
    && rules.entry(e.primary) == Some(e)
    && rules.name(e.primary) == e.primary
    && (e.numeric ==> forall v :: rules.parse(v).Some? ==> rules.same(e.primary, v, rules.parse(v).value))
  }

  // The MQ attribute a key names.
  function Names(rules: Rules, k: string): string {
    match rules.entry(k)
    case Some(e) => e.primary
    case None => rules.name(k)
  }

  ghost predicate NoTwoAlike(rules: Rules, attrs: Attrs) {
    forall k, l :: k in attrs && l in attrs && Names(rules, k) == Names(rules, l) ==> k == l
  }

  function At(m: Attrs, p: string): Option<string> {
    if p in m then Some(m[p]) else None
  }

  // The typed field of an entry once a value has been folded into it.
  function FieldAfter(rules: Rules, typed: Attrs, e: Entry, v: string): Option<string> {
    if e.primary in typed then Some(typed[e.primary])
    else if e.numeric then rules.parse(v)
    else if v == "" then None
    else Some(v)
  }

  predicate Drops(rules: Rules, typed: Attrs, k: string, v: string) {
    match rules.entry(k)
    case None => false
    case Some(e) => !e.numeric || FieldAfter(rules, typed, e, v).Some?
  }

  // The spec after visiting some keys, told from the spec before alone.
  ghost predicate AfterVisiting(rules: Rules, s: Spec, visited: set<string>, t: Spec) {
    && (forall k :: At(t.attrs, k) == if k in s.attrs && k in visited && Drops(rules, s.typed, k, s.attrs[k]) then None else At(s.attrs, k))
    && (forall k :: k in s.attrs && k in visited && rules.entry(k).Some? ==>
          At(t.typed, Names(rules, k)) == FieldAfter(rules, s.typed, rules.entry(k).value, s.attrs[k]))
    && (forall p :: Untouched(rules, s, visited, p) ==> At(t.typed, p) == At(s.typed, p))
  }

  ghost predicate Untouched(rules: Rules, s: Spec, visited: set<string>, p: string) {
    forall k :: k in s.attrs && k in visited && rules.entry(k).Some? ==> Names(rules, k) != p
  }

  // A step changes the visited key and its own field only.
  lemma OneStep(rules: Rules, t: Spec, key: string)
    requires key in t.attrs
    ensures var u := FoldOne(rules, t, key);
            && (forall k :: k != key ==> At(u.attrs, k) == At(t.attrs, k))
            && At(u.attrs, key) == (if Drops(rules, t.typed, key, t.attrs[key]) then None else At(t.attrs, key))
            && (forall p :: rules.entry(key).None? || p != Names(rules, key) ==> At(u.typed, p) == At(t.typed, p))
            && (rules.entry(key).Some? ==>
                  At(u.typed, Names(rules, key)) == FieldAfter(rules, t.typed, rules.entry(key).value, t.attrs[key]))
  {
  }

  lemma VisitOne(rules: Rules, s: Spec, visited: set<string>, t: Spec, key: string)
    requires NoTwoAlike(rules, s.attrs) && AfterVisiting(rules, s, visited, t)
    requires key in s.attrs && key !in visited
    ensures AfterVisiting(rules, s, visited + {key}, FoldOne(rules, t, key))
  {
    var u := FoldOne(rules, t, key);
    assert At(t.attrs, key) == At(s.attrs, key);
    OneStep(rules, t, key);
    if rules.entry(key).Some? {
      assert Untouched(rules, s, visited, Names(rules, key));
      assert At(t.typed, Names(rules, key)) == At(s.typed, Names(rules, key));
    }
    forall q | Untouched(rules, s, visited + {key}, q)
      ensures At(u.typed, q) == At(s.typed, q)
    {
      assert Untouched(rules, s, visited, q);
      assert key in visited + {key};
    }
  }

  // With no two keys of one attribute the order of the walk does not matter.
  lemma {:induction false} FoldAllIs(rules: Rules, s: Spec, order: seq<string>)
    requires NoTwoAlike(rules, s.attrs)
    requires (forall i :: 0 <= i < |order| ==> order[i] in s.attrs) && forall i, j :: 0 <= i < j < |order| ==> order[i] != order[j]
    ensures AfterVisiting(rules, s, (set k | k in order), FoldAll(rules, s, order))
    decreases |order|
  {
    if order != [] {
      var before, key := order[..|order|-1], order[|order|-1];
      FoldAllIs(rules, s, before);
      assert order == before + [key];
      assert (set k | k in order) == (set k | k in before) + {key};
      VisitOne(rules, s, (set k | k in before), FoldAll(rules, s, before), key);
    }
  }

  ghost predicate Folded(rules: Rules, s: Spec, t: Spec) {
    AfterVisiting(rules, s, s.attrs.Keys, t)
  }

  lemma FoldIs(rules: Rules, s: Spec, order: seq<string>)
    requires NoTwoAlike(rules, s.attrs) && Enumerates(order, s.attrs.Keys)
    ensures Folded(rules, s, FoldAll(rules, s, order))
  {
    FoldAllIs(rules, s, order);
    assert (set k | k in order) == s.attrs.Keys;
  }

  /* ---------- what it means to MQ ---------- */

  // The attributes handed to MQ: free ones under their names, overridden by typed ones.
  ghost predicate Denotes(rules: Rules, s: Spec, out: Attrs) {
    exists free :: Refilled(map[], s.attrs, rules.name, KeepValue, free) && out == free + s.typed
  }

  ghost predicate WellTyped(rules: Rules, s: Spec) {
    Sound(rules) && NoTwoAlike(rules, s.attrs) && forall p :: p in s.typed ==> rules.entry(p).Some? && Names(rules, p) == p
  }

  ghost predicate Agree(rules: Rules, a: Attrs, b: Attrs, n: string, m: string) {
    n in a && m in b && Names(rules, n) == Names(rules, m) && rules.same(Names(rules, n), a[n], b[m])
  }

  ghost predicate MetIn(rules: Rules, a: Attrs, b: Attrs, n: string) {
    exists m :: Agree(rules, a, b, n, m)
  }

  // Both say the same about every MQ attribute, under whichever of its names.
  ghost predicate SameMeaning(rules: Rules, a: Attrs, b: Attrs) {
    && (forall n :: n in a ==> MetIn(rules, a, b, n))
    && (forall m :: m in b ==> MetBy(rules, a, b, m))
  }

  ghost predicate MetBy(rules: Rules, a: Attrs, b: Attrs, m: string) {
    exists n :: Agree(rules, a, b, n, m)
  }

  // A key survives folding if its field takes it, or already says the same.
  predicate Lossless(rules: Rules, s: Spec, k: string)
    requires k in s.attrs
  {
    match rules.entry(k)
    case None => true
    case Some(e) =>
      if e.primary in s.typed then rules.name(k) == e.primary || rules.same(e.primary, s.attrs[k], s.typed[e.primary])
      else e.numeric || s.attrs[k] != ""
  }

  lemma NamesOfName(rules: Rules, k: string)
    requires Sound(rules)
    ensures Names(rules, rules.name(k)) == Names(rules, k)
    ensures rules.entry(k).Some? ==> Names(rules, Names(rules, k)) == Names(rules, k)
  {
  }

  // What is denoted under a key: the typed field, else the one attribute of that name.
  lemma DenotedAt(rules: Rules, s: Spec, out: Attrs, k: string)
    requires WellTyped(rules, s) && Denotes(rules, s, out)
    ensures k in s.typed ==> k in out && out[k] == s.typed[k]
    ensures k in s.attrs && rules.name(k) !in s.typed ==> rules.name(k) in out && out[rules.name(k)] == s.attrs[k]
  {
    var free :| Refilled(map[], s.attrs, rules.name, KeepValue, free) && out == free + s.typed;
    if k in s.attrs {
      var n := rules.name(k);
      assert n in free;
      var l :| l in s.attrs && rules.name(l) == n && KeepValue(l, s.attrs[l]) == free[n];
      NamesOfName(rules, k);
      NamesOfName(rules, l);
    }
  }

  lemma DenotedFrom(rules: Rules, s: Spec, out: Attrs, n: string) returns (k: string)
    requires WellTyped(rules, s) && Denotes(rules, s, out) && n in out && n !in s.typed
    ensures k in s.attrs && rules.name(k) == n && out[n] == s.attrs[k]
  {
    var free :| Refilled(map[], s.attrs, rules.name, KeepValue, free) && out == free + s.typed;
    k :| k in s.attrs && rules.name(k) == n && KeepValue(k, s.attrs[k]) == free[n];
  }

  lemma FoldKeepsTyped(rules: Rules, s: Spec, t: Spec)
    requires WellTyped(rules, s) && Folded(rules, s, t)
    ensures WellTyped(rules, t)
    ensures forall p :: p in s.typed ==> p in t.typed && t.typed[p] == s.typed[p]
  {
    forall p
      ensures p in s.typed ==> At(t.typed, p) == At(s.typed, p)
      ensures p in t.typed ==> rules.entry(p).Some? && Names(rules, p) == p
    {
      if !Untouched(rules, s, s.attrs.Keys, p) {
        var k :| k in s.attrs && rules.entry(k).Some? && Names(rules, k) == p;
        assert At(t.typed, p) == FieldAfter(rules, s.typed, rules.entry(k).value, s.attrs[k]);
        assert SoundEntry(rules, rules.entry(k).value);
      } else {
        assert At(t.typed, p) == At(s.typed, p);
      }
    }
    forall k
      ensures k in t.attrs ==> k in s.attrs && t.attrs[k] == s.attrs[k]
    {
      assert At(t.attrs, k) == None || At(t.attrs, k) == At(s.attrs, k);
    }
  }

  ghost predicate BeforeAndAfter(rules: Rules, s: Spec, t: Spec, a: Attrs, b: Attrs) {
    WellTyped(rules, s) && WellTyped(rules, t) && Folded(rules, s, t) && Denotes(rules, s, a) && Denotes(rules, t, b)
  }

  lemma PromotedMet(rules: Rules, s: Spec, t: Spec, a: Attrs, b: Attrs, m: string)
    requires BeforeAndAfter(rules, s, t, a, b) && m in t.typed && m !in s.typed
    ensures MetBy(rules, a, b, m)
  {
    assert At(t.typed, m) != At(s.typed, m);
    assert !Untouched(rules, s, s.attrs.Keys, m);
    var k :| k in s.attrs && rules.entry(k).Some? && Names(rules, k) == m;
    var e := rules.entry(k).value;
    assert SoundEntry(rules, e);
    assert At(t.typed, m) == FieldAfter(rules, s.typed, e, s.attrs[k]);
    NamesOfName(rules, k);
    DenotedAt(rules, s, a, k);
    DenotedAt(rules, t, b, m);
    assert Agree(rules, a, b, rules.name(k), m);
  }

  // Nothing new is said after folding.
  lemma BackMet(rules: Rules, s: Spec, t: Spec, a: Attrs, b: Attrs, m: string)
    requires BeforeAndAfter(rules, s, t, a, b) && m in b
    ensures MetBy(rules, a, b, m)
  {
    FoldKeepsTyped(rules, s, t);
    if m in t.typed && m !in s.typed {
      PromotedMet(rules, s, t, a, b, m);
    } else if m in s.typed {
      DenotedAt(rules, s, a, m);
      DenotedAt(rules, t, b, m);
      assert Agree(rules, a, b, m, m);
    } else {
      var k := DenotedFrom(rules, t, b, m);
      assert At(t.attrs, k) == At(s.attrs, k);
      DenotedAt(rules, s, a, k);
      assert Agree(rules, a, b, m, m);
    }
  }

  // After its key was dropped, an attribute can be found in its typed field only.
  lemma OnlyInField(rules: Rules, s: Spec, t: Spec, a: Attrs, b: Attrs, k: string, m: string)
    requires BeforeAndAfter(rules, s, t, a, b) && k in s.attrs && Drops(rules, s.typed, k, s.attrs[k])
    requires m in b && Names(rules, m) == Names(rules, k)
    ensures m == Names(rules, k) && m in t.typed
  {
    assert At(t.attrs, k) == None;
    if m !in t.typed {
      var l := DenotedFrom(rules, t, b, m);
      assert At(t.attrs, l) == At(s.attrs, l);
      NamesOfName(rules, l);
      assert false;
    }
  }

  lemma DroppedMetIff(rules: Rules, s: Spec, t: Spec, a: Attrs, b: Attrs, k: string)
    requires BeforeAndAfter(rules, s, t, a, b) && k in s.attrs && rules.name(k) !in s.typed
    requires Drops(rules, s.typed, k, s.attrs[k])
    ensures MetIn(rules, a, b, rules.name(k)) <==> Lossless(rules, s, k)
  {
    var e, n, v := rules.entry(k).value, rules.name(k), s.attrs[k];
    var p := e.primary;
    assert SoundEntry(rules, e);
    NamesOfName(rules, k);
    DenotedAt(rules, s, a, k);
    DenotedAt(rules, t, b, p);
    assert At(t.typed, p) == FieldAfter(rules, s.typed, e, v);
    if MetIn(rules, a, b, n) {
      var m :| Agree(rules, a, b, n, m);
      OnlyInField(rules, s, t, a, b, k, m);
    }
    if Lossless(rules, s, k) {
      assert Agree(rules, a, b, n, p);
    }
  }

  lemma KeptNotPromoted(rules: Rules, s: Spec, t: Spec, k: string)
    requires WellTyped(rules, s) && Folded(rules, s, t) && k in s.attrs && rules.name(k) !in s.typed
    requires !Drops(rules, s.typed, k, s.attrs[k])
    ensures rules.name(k) !in t.typed
  {
    var n := rules.name(k);
    NamesOfName(rules, k);
    if Untouched(rules, s, s.attrs.Keys, n) {
      assert At(t.typed, n) == At(s.typed, n);
    } else {
      var l :| l in s.attrs && rules.entry(l).Some? && Names(rules, l) == n;
      assert SoundEntry(rules, rules.entry(l).value);
      assert Names(rules, k) == n;
      assert At(t.typed, n) == FieldAfter(rules, s.typed, rules.entry(k).value, s.attrs[k]);
    }
  }

  lemma KeptMet(rules: Rules, s: Spec, t: Spec, a: Attrs, b: Attrs, k: string)
    requires BeforeAndAfter(rules, s, t, a, b) && k in s.attrs && rules.name(k) !in s.typed
    requires !Drops(rules, s.typed, k, s.attrs[k])
    ensures MetIn(rules, a, b, rules.name(k)) && Lossless(rules, s, k)
  {
    var n := rules.name(k);
    assert At(t.attrs, k) == At(s.attrs, k);
    KeptNotPromoted(rules, s, t, k);
    DenotedAt(rules, s, a, k);
    DenotedAt(rules, t, b, k);
    assert Agree(rules, a, b, n, n);
  }

  lemma MetIff(rules: Rules, s: Spec, t: Spec, a: Attrs, b: Attrs, k: string)
    requires BeforeAndAfter(rules, s, t, a, b) && k in s.attrs
    ensures rules.name(k) in a
    ensures MetIn(rules, a, b, rules.name(k)) <==> Lossless(rules, s, k)
  {
    FoldKeepsTyped(rules, s, t);
    NamesOfName(rules, k);
    if rules.name(k) in s.typed {
      DenotedAt(rules, s, a, rules.name(k));
      DenotedAt(rules, t, b, rules.name(k));
      assert Agree(rules, a, b, rules.name(k), rules.name(k));
    } else {
      DenotedAt(rules, s, a, k);
      if Drops(rules, s.typed, k, s.attrs[k]) {
        DroppedMetIff(rules, s, t, a, b, k);
      } else {
        KeptMet(rules, s, t, a, b, k);
      }
    }
  }

  ghost predicate AllLossless(rules: Rules, s: Spec) {
    forall k :: k in s.attrs ==> Lossless(rules, s, k)
  }

  lemma ForwardMet(rules: Rules, s: Spec, t: Spec, a: Attrs, b: Attrs, n: string)
    requires BeforeAndAfter(rules, s, t, a, b) && n in a && AllLossless(rules, s)
    ensures MetIn(rules, a, b, n)
  {
    if n in s.typed {
      FoldKeepsTyped(rules, s, t);
      DenotedAt(rules, s, a, n);
      DenotedAt(rules, t, b, n);
      assert Agree(rules, a, b, n, n);
    } else {
      var k := DenotedFrom(rules, s, a, n);
      MetIff(rules, s, t, a, b, k);
    }
  }

  lemma LosslessMeansSame(rules: Rules, s: Spec, t: Spec, a: Attrs, b: Attrs)
    requires BeforeAndAfter(rules, s, t, a, b) && AllLossless(rules, s)
    ensures SameMeaning(rules, a, b)
  {
    forall n | n in a
      ensures MetIn(rules, a, b, n)
    {
      ForwardMet(rules, s, t, a, b, n);
    }
    forall m | m in b
      ensures MetBy(rules, a, b, m)
    {
      BackMet(rules, s, t, a, b, m);
    }
  }

  lemma SameMeansLossless(rules: Rules, s: Spec, t: Spec, a: Attrs, b: Attrs)
    requires BeforeAndAfter(rules, s, t, a, b) && SameMeaning(rules, a, b)
    ensures AllLossless(rules, s)
  {
    forall k | k in s.attrs
      ensures Lossless(rules, s, k)
    {
      MetIff(rules, s, t, a, b, k);
    }
  }

  // Folding keeps the meaning exactly when every attribute is lossless.
  lemma FoldKeepsMeaningIff(rules: Rules, s: Spec, t: Spec, a: Attrs, b: Attrs)
    requires BeforeAndAfter(rules, s, t, a, b)
    ensures SameMeaning(rules, a, b) <==> AllLossless(rules, s)
  {
    if AllLossless(rules, s) {
      LosslessMeansSame(rules, s, t, a, b);
    } else if SameMeaning(rules, a, b) {
      SameMeansLossless(rules, s, t, a, b);
    }
  }

  /* ---------- folding twice ---------- */

  // Two keys of one unset number, one that can be read and one that cannot.
  ghost predicate Twins(rules: Rules, s: Spec, k: string, l: string) {
    && k in s.attrs && l in s.attrs && rules.entry(k).Some? && rules.entry(l) == rules.entry(k)
    && rules.entry(k).value.numeric && rules.entry(k).value.primary !in s.typed
    && rules.parse(s.attrs[k]).None? && rules.parse(s.attrs[l]).Some?
  }

  ghost predicate TwinFree(rules: Rules, s: Spec) {
    forall k, l :: !Twins(rules, s, k, l)
  }

  ghost predicate Idle(rules: Rules, t: Spec) {
    forall again :: FoldAll(rules, t, again) == t
  }

  ghost predicate IdleAfterAnyOrder(rules: Rules, s: Spec) {
    forall order :: Enumerates(order, s.attrs.Keys) ==> Idle(rules, FoldAll(rules, s, order))
  }

  // A key that stays could not be read, and its field was unset.
  ghost predicate Stuck(rules: Rules, s: Spec, k: string) {
    k in s.attrs && rules.entry(k).Some? ==>
      rules.entry(k).value.numeric && rules.entry(k).value.primary !in s.typed && rules.parse(s.attrs[k]).None?
  }

  // A field that is set was set before, or by a key whose value could be read.
  ghost predicate SetBy(rules: Rules, s: Spec, l: string, p: string) {
    && l in s.attrs && rules.entry(l).Some? && rules.entry(l).value.primary == p
    && (rules.entry(l).value.numeric ==> rules.parse(s.attrs[l]).Some?)
  }

  ghost predicate Explained(rules: Rules, s: Spec, visited: seq<string>, t: Spec) {
    && (forall k :: k in t.attrs && k in visited ==> Stuck(rules, s, k))
    && (forall p :: p in t.typed && p !in s.typed ==> exists l :: SetBy(rules, s, l, p))
  }

  lemma {:induction false} FoldExplained(rules: Rules, s: Spec, order: seq<string>)
    ensures Explained(rules, s, order, FoldAll(rules, s, order))
    decreases |order|
  {
    if order != [] {
      var before, key := order[..|order|-1], order[|order|-1];
      var t := FoldAll(rules, s, before);
      FoldExplained(rules, s, before);
      PresetsKept(rules, s, before);
      StepExplained(rules, s, before, t, key);
      assert order == before + [key];
    }
  }

  lemma StepExplained(rules: Rules, s: Spec, visited: seq<string>, t: Spec, key: string)
    requires Explained(rules, s, visited, t)
    requires forall p :: p in s.typed ==> p in t.typed
    requires forall k :: k in t.attrs ==> k in s.attrs && t.attrs[k] == s.attrs[k]
    ensures Explained(rules, s, visited + [key], FoldOne(rules, t, key))
  {
    var u := FoldOne(rules, t, key);
    forall p | p in u.typed && p !in s.typed
      ensures exists l :: SetBy(rules, s, l, p)
    {
      if p !in t.typed {
        assert SetBy(rules, s, key, p);
      }
    }
  }

  lemma TwinFreeIsIdle(rules: Rules, s: Spec, order: seq<string>)
    requires Sound(rules) && TwinFree(rules, s) && Enumerates(order, s.attrs.Keys)
    ensures Idle(rules, FoldAll(rules, s, order))
  {
    var t := FoldAll(rules, s, order);
    FoldExplained(rules, s, order);
    PresetsKept(rules, s, order);
    forall key
      ensures FoldOne(rules, t, key) == t
    {
      if key in t.attrs && rules.entry(key).Some? {
        assert Stuck(rules, s, key);
        StuckFieldUnset(rules, s, t, key);
      }
    }
    forall again
      ensures FoldAll(rules, t, again) == t
    {
      IdleSteps(rules, t, again);
    }
  }

  lemma StuckFieldUnset(rules: Rules, s: Spec, t: Spec, key: string)
    requires Sound(rules) && TwinFree(rules, s) && key in s.attrs && rules.entry(key).Some? && Stuck(rules, s, key)
    requires forall p :: p in t.typed && p !in s.typed ==> exists l :: SetBy(rules, s, l, p)
    ensures rules.entry(key).value.primary !in t.typed
  {
    var e := rules.entry(key).value;
    forall l | SetBy(rules, s, l, e.primary)
      ensures Twins(rules, s, key, l)
    {
      assert SoundEntry(rules, e) && SoundEntry(rules, rules.entry(l).value);
    }
  }

  lemma {:induction false} IdleSteps(rules: Rules, t: Spec, again: seq<string>)
    requires forall key :: FoldOne(rules, t, key) == t
    ensures FoldAll(rules, t, again) == t
    decreases |again|
  {
    if again != [] {
      IdleSteps(rules, t, again[..|again|-1]);
    }
  }

  lemma {:induction false} SomeOrder(keys: set<string>) returns (order: seq<string>)
    ensures Enumerates(order, keys)
  {
    if keys == {} {
      order := [];
    } else {
      var k :| k in keys;
      order := SomeOrder(keys - {k});
      order := [k] + order;
    }
  }

  // Visiting further keys leaves an unvisited one alone and unsets nothing.
  lemma {:induction false} RestKeeps(rules: Rules, s: Spec, order: seq<string>, rest: seq<string>, k: string)
    requires k !in rest
    ensures var t, u := FoldAll(rules, s, order), FoldAll(rules, s, order + rest);
            At(u.attrs, k) == At(t.attrs, k) && forall p :: p in t.typed ==> p in u.typed
    decreases |rest|
  {
    if rest == [] {
      assert order + rest == order;
    } else {
      assert (order + rest)[..|order + rest|-1] == order + rest[..|rest|-1];
      RestKeeps(rules, s, order, rest[..|rest|-1], k);
    }
  }

  lemma TwinFolded(rules: Rules, s: Spec, k: string, l: string)
    requires Twins(rules, s, k, l)
    ensures var t := FoldAll(rules, s, [k, l]);
            k in t.attrs && rules.entry(k).value.primary in t.typed
  {
    assert [k, l][..1] == [k] && [k][..0] == [];
    assert FoldAll(rules, s, []) == s;
    assert FoldAll(rules, s, [k]) == FoldOne(rules, s, k) == s;
  }

  // Visiting the unreadable twin first leaves it behind with its field set, so that another
  // fold still has something to drop.
  lemma TwinsNeedTwoFolds(rules: Rules, s: Spec, k: string, l: string) returns (order: seq<string>)
    requires Twins(rules, s, k, l)
    ensures Enumerates(order, s.attrs.Keys) && !Idle(rules, FoldAll(rules, s, order))
  {
    var rest := SomeOrder(s.attrs.Keys - {k, l});
    order := [k, l] + rest;
    TwinFolded(rules, s, k, l);
    RestKeeps(rules, s, [k, l], rest, k);
    var t := FoldAll(rules, s, order);
    assert [k][..0] == [] && FoldAll(rules, t, []) == t;
    assert FoldAll(rules, t, [k]) == FoldOne(rules, t, k) != t;
  }

  // Whatever order the first fold walks in, a second one changes nothing, exactly when no
  // unset number has both a readable and an unreadable key.
  lemma SecondFoldIdleIff(rules: Rules, s: Spec)
    requires Sound(rules)
    ensures IdleAfterAnyOrder(rules, s) <==> TwinFree(rules, s)
  {
    if TwinFree(rules, s) {
      forall order | Enumerates(order, s.attrs.Keys)
        ensures Idle(rules, FoldAll(rules, s, order))
      {
        TwinFreeIsIdle(rules, s, order);
      }
    }
    if k, l :| Twins(rules, s, k, l) {
      var order := TwinsNeedTwoFolds(rules, s, k, l);
    }
  }

  lemma NoTwoAlikeIsTwinFree(rules: Rules, s: Spec)
    requires NoTwoAlike(rules, s.attrs)
    ensures TwinFree(rules, s)
  {
    forall k, l
      ensures !Twins(rules, s, k, l)
    {
      assert rules.entry(k) == rules.entry(l) && rules.entry(k).Some? ==> Names(rules, k) == Names(rules, l);
    }
  }
}
