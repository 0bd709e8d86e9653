/**
 The CHLAUTH round trip: when does a rule that was SET and is echoed by DISPLAY compare equal?
 */
module ChannelAuthTrip {
  import opened Options
  import opened Text
  import opened Mqsc
  import opened Attributes
  import opened DisplayText
  import opened ChannelAuth

  /* ---------- one value there and back ---------- */

  // The number of characters that trimming blanks can never remove.
  function Weight(s: string): nat {
    if s == [] then 0 else (if IsSpace(s[0]) then 0 else 1) + Weight(s[1..])
  }

  lemma {:induction false} WeightSum(a: string, b: string)
    ensures Weight(a + b) == Weight(a) + Weight(b)
  {
    if a == [] {
      assert a + b == b;
    } else {
      assert (a + b)[1..] == a[1..] + b;
      WeightSum(a[1..], b);
    }
  }

  lemma {:induction false} WeightOfCut(s: string)
    ensures AllCut(s, IsSpace) ==> Weight(s) == 0
    ensures AllCut(s, IsQuote) ==> Weight(s) == |s|
  {
    if s != [] {
      WeightOfCut(s[1..]);
    }
  }

  lemma WeightOfTrim(s: string)
    ensures Weight(TrimSpace(s)) == Weight(s)
    ensures !Bare(s, IsQuote) ==> Weight(Trim(s, IsQuote)) < Weight(s)
  {
    var a, b := TrimParts(s, IsSpace);
    WeightSum(a + TrimSpace(s), b);
    WeightSum(a, TrimSpace(s));
    WeightOfCut(a);
    WeightOfCut(b);
    var c, d := TrimParts(s, IsQuote);
    WeightSum(c + Trim(s, IsQuote), d);
    WeightSum(c, Trim(s, IsQuote));
    WeightOfCut(c);
    WeightOfCut(d);
  }

  lemma {:induction false} WeightOfLower(s: string)
    ensures Weight(ToLower(s)) == Weight(s)
  {
    if s != [] {
      assert ToLower(s)[1..] == ToLower(s[1..]);
      WeightOfLower(s[1..]);
    }
  }

  lemma AlikeWeighSame(a: string, b: string)
    requires Alike(a, b)
    ensures Weight(a) == Weight(b)
  {
    WeightOfLower(TrimSpace(a));
    WeightOfLower(TrimSpace(b));
    WeightOfTrim(a);
    WeightOfTrim(b);
  }

  // How DISPLAY shows a value: as it is, or between quotes.
  function Shown(v: string, quoted: bool): string {
    if quoted then "'" + v + "'" else v
  }

  predicate Returns(v: string, quoted: bool) {
    ')' !in v && Bare(if quoted then v else TrimSpace(v), IsQuote)
  }

  lemma TrimRightWrapped(v: string, q: char, cut: char -> bool)
    requires cut(q)
    ensures TrimRight(v + [q], cut) == TrimRight(v, cut)
  {
    assert (v + [q])[..|v|] == v;
  }

  lemma {:induction false} TrimLeftWrapped(v: string, q: char, cut: char -> bool)
    requires cut(q)
    ensures TrimLeft(v + [q], cut) == if TrimLeft(v, cut) == [] then [] else TrimLeft(v, cut) + [q]
  {
    if v == [] {
      assert v + [q] == [q] && [q][1..] == [];
    } else if cut(v[0]) {
      assert (v + [q])[1..] == v[1..] + [q];
      TrimLeftWrapped(v[1..], q, cut);
    }
  }

  lemma TrimWrapped(v: string, q: char, cut: char -> bool)
    requires cut(q)
    ensures Trim([q] + (v + [q]), cut) == Trim(v, cut)
  {
    assert ([q] + (v + [q]))[1..] == v + [q];
    TrimLeftWrapped(v, q, cut);
    TrimRightWrapped(TrimLeft(v, cut), q, cut);
  }

  lemma WrappedIsBare(s: string)
    requires s != [] && IsQuote(s[0]) && IsQuote(s[|s|-1])
    ensures TrimSpace(s) == s
  {
    TrimBare(s, IsSpace);
  }

  lemma CleanedShown(v: string, quoted: bool)
    ensures Cleaned(Shown(v, quoted)) == Trim(if quoted then v else TrimSpace(v), IsQuote)
  {
    if quoted {
      WrappedIsBare(Shown(v, true));
      assert Shown(v, true) == ['\''] + (v + ['\'']);
      TrimWrapped(v, '\'', IsQuote);
    }
  }

  // A value without closing parentheses survives DISPLAY and parsing exactly when it has no
  // quote at its ends.
  lemma ReturnsIff(v: string, quoted: bool)
    requires ')' !in v
    ensures Alike(v, Cleaned(Shown(v, quoted))) <==> Returns(v, quoted)
    ensures TrimSpace(v) == TrimSpace(Cleaned(Shown(v, quoted))) <==> Returns(v, quoted)
  {
    var w := if quoted then v else TrimSpace(v);
    CleanedShown(v, quoted);
    WeightOfTrim(v);
    WeightOfTrim(w);
    TrimBare(w, IsQuote);
    if Bare(w, IsQuote) {
      TrimBare(TrimSpace(v), IsSpace);
    } else if Alike(v, Trim(w, IsQuote)) {
      AlikeWeighSame(v, Trim(w, IsQuote));
    }
  }

  /* ---------- what a faithful queue manager shows ---------- */

  function AttrName(r: Rule, f: Field): string {
    match f
    case Address => if r.ruleType == "BLOCKADDR" then "addrlist" else "address"
    case ClientUser => "clntuser"
    case SslPeer => "sslpeer"
    case QmName => "qmname"
    case UserList => "userlist"
    case UserSource => "usersrc"
    case McaUser => "mcauser"
    case CheckClient => "chckclnt"
    case Description => "descr"
  }

  lemma LowerNames(r: Rule, f: Field)
    ensures ToLower(Keyword(r, f)) == AttrName(r, f)
  {
  }

  // The keywords SET can give a value, and those MQ shows only if they were given one.
  const SETTINGS: set<string> :=
    {"ADDRESS", "ADDRLIST", "CLNTUSER", "SSLPEER", "QMNAME", "USERLIST", "USERSRC", "MCAUSER", "CHCKCLNT", "DESCR"}
  const SHOWN_IF_SET: set<string> := {"ADDRESS", "ADDRLIST", "CLNTUSER", "SSLPEER", "QMNAME", "USERLIST"}

  // Every value that was set is shown; of the keywords above no others are. The description
  // may be left out. Keywords that were not set otherwise may show anything without a closing
  // parenthesis.
  ghost predicate EchoesKey(clauses: seq<Clause>, quoted: bool, pairs: seq<Pair>, key: string) {
    var held := Held(clauses, key);
    if key == "DESCR" then Absent(pairs, key) || (held.Some? && Shows(pairs, key, Shown(held.value, quoted)))
    else if held.Some? then Shows(pairs, key, Shown(held.value, quoted))
    else key in SHOWN_IF_SET ==> Absent(pairs, key)
  }

  // What DISPLAY shows of a record that was set by these clauses. `form` tells which values
  // are shown between quotes.
  ghost predicate Echoes(clauses: seq<Clause>, form: string -> bool, pairs: seq<Pair>) {
    && pairs != [] && KeywordsOnly(pairs)
    && (forall key :: key in SETTINGS ==> EchoesKey(clauses, form(key), pairs, key))
    && (forall i :: 0 <= i < |pairs| && ')' in pairs[i].raw ==>
          pairs[i].key in SETTINGS && Held(clauses, pairs[i].key).Some?)
  }

  // The same, told from the rule the clauses were printed for.
  ghost predicate EchoesField(r: Rule, quoted: bool, pairs: seq<Pair>, f: Field) {
    var key, raw := Keyword(r, f), Shown(Desired(r, f), quoted);
    if f == Description then Absent(pairs, key) || (Set(r, f) && Shows(pairs, key, raw))
    else if Set(r, f) then Shows(pairs, key, raw)
    else Strict(f) ==> Absent(pairs, key)
  }

  ghost predicate EchoesRule(r: Rule, form: Field -> bool, pairs: seq<Pair>) {
    && pairs != []
    && (forall f :: EchoesField(r, form(f), pairs, f))
    && (r.ruleType == "BLOCKADDR" ==> Absent(pairs, "ADDRESS"))
    && KeywordsOnly(pairs)
    && (forall i :: 0 <= i < |pairs| && ')' in pairs[i].raw ==> exists f :: Set(r, f) && pairs[i].key == Keyword(r, f))
  }

  /* ---------- the last word on a keyword ---------- */

  // A description with a closing parenthesis is cut there, and what follows may tell
  // anything about any keyword. This is what is found in its clause.
  function Strays(v: string, quoted: bool): seq<Pair> {
    Pairs(PairText(Pair("DESCR", Shown(v, quoted))))
  }

  function Told(v: string, quoted: bool, key: string): Option<string> {
    LastOf(Strays(v, quoted), key)
  }

  lemma LastOfOne(p: Pair, key: string)
    ensures LastOf([p], key) == if p.key == key then Some(p.raw) else None
  {
    assert [p][..0] == [];
  }

  // Without a closing parenthesis it tells itself and nothing else.
  lemma PlainTells(v: string, quoted: bool, key: string)
    requires ')' !in v
    ensures Told(v, quoted, key) == if key == "DESCR" then Some(Shown(v, quoted)) else None
  {
    ShownClean(v, quoted);
    PairLast(Pair("DESCR", Shown(v, quoted)));
    LastOfOne(Pair("DESCR", Shown(v, quoted)), key);
  }

  // The last word after a pair is the rest's, if it has one.
  lemma LastAfter(p: Pair, rest: string, key: string)
    requires IsKeyword(p.key) && ')' !in p.raw
    ensures LastOf(Pairs(PairText(p) + rest), key) ==
      if LastOf(Pairs(rest), key).Some? then LastOf(Pairs(rest), key) else if p.key == key then Some(p.raw) else None
  {
    PairsPrinted(p, rest);
    LastOfSum([p], Pairs(rest), key);
    LastOfOne(p, key);
  }

  lemma CutAtParen(key: string, v: string) returns (a: string, rest: string)
    ensures ')' !in a && PairText(Pair(key, v)) == PairText(Pair(key, a)) + rest
  {
    var text := v + ")";
    assert text[|v|] == ')';
    var c := IndexOfChar(text, ')');
    a, rest := text[..c], text[c + 1..];
    assert text == a + ")" + rest;
    assert PairText(Pair(key, v)) == key + "(" + text;
  }

  lemma DescriptionIsTold(v: string, quoted: bool)
    ensures Told(v, quoted, "DESCR").Some?
  {
    var a, rest := CutAtParen("DESCR", Shown(v, quoted));
    LastAfter(Pair("DESCR", a), rest, "DESCR");
  }

  lemma {:induction false} FoundClean(pairs: seq<Pair>)
    ensures Clean(Found(pairs))
  {
    if pairs != [] {
      PairsShaped(PairText(pairs[0]));
      FoundClean(pairs[1..]);
    }
  }

  lemma ToldClean(v: string, quoted: bool, key: string)
    ensures ')' !in CleanedOr(Told(v, quoted, key))
  {
    PairsShaped(PairText(Pair("DESCR", Shown(v, quoted))));
    LastClean(Strays(v, quoted), key);
  }

  lemma {:induction false} LastClean(pairs: seq<Pair>, key: string)
    requires Clean(pairs)
    ensures ')' !in CleanedOr(LastOf(pairs, key))
  {
    if pairs != [] {
      if pairs[|pairs|-1].key == key {
        CleanedShaped(pairs[|pairs|-1].raw);
      } else {
        LastClean(pairs[..|pairs|-1], key);
      }
    }
  }

  // The description is shown, and no pair of this keyword after it.
  ghost predicate Overridden(pairs: seq<Pair>, key: string) {
    exists i :: 0 <= i < |pairs| && pairs[i].key == "DESCR" && forall j :: i < j < |pairs| ==> pairs[j].key != key
  }

  lemma OverriddenSnoc(pairs: seq<Pair>, p: Pair, key: string)
    ensures Overridden(pairs + [p], key) <==> p.key == "DESCR" || (p.key != key && Overridden(pairs, key))
  {
    var all := pairs + [p];
    assert all[|pairs|] == p && forall j :: 0 <= j < |pairs| ==> all[j] == pairs[j];
    if p.key != "DESCR" && p.key != key {
      if Overridden(pairs, key) {
        var i :| 0 <= i < |pairs| && pairs[i].key == "DESCR" && forall j :: i < j < |pairs| ==> pairs[j].key != key;
        assert all[i].key == "DESCR";
      }
      if Overridden(all, key) {
        var i :| 0 <= i < |all| && all[i].key == "DESCR" && forall j :: i < j < |all| ==> all[j].key != key;
        assert pairs[i].key == "DESCR";
      }
    }
  }

  lemma FoundSnoc(pairs: seq<Pair>, p: Pair, key: string)
    ensures LastOf(Found(pairs + [p]), key) ==
      var last := LastOf(Pairs(PairText(p)), key); if last.Some? then last else LastOf(Found(pairs), key)
  {
    FoundSum(pairs, [p]);
    FoundOne(p);
    LastOfSum(Found(pairs), Pairs(PairText(p)), key);
  }

  // The shown pairs hold the description in one form, and no other closing parentheses.
  ghost predicate OnlyDescriptionCut(pairs: seq<Pair>, v: string, quoted: bool) {
    forall i :: 0 <= i < |pairs| ==>
      if pairs[i].key == "DESCR" then pairs[i].raw == Shown(v, quoted)
      else IsKeyword(pairs[i].key) && ')' !in pairs[i].raw
  }

  lemma TellsOf(p: Pair, v: string, quoted: bool, key: string)
    requires if p.key == "DESCR" then p.raw == Shown(v, quoted) else IsKeyword(p.key) && ')' !in p.raw
    ensures LastOf(Pairs(PairText(p)), key) ==
      if p.key == "DESCR" then Told(v, quoted, key) else if p.key == key then Some(p.raw) else None
  {
    if p.key != "DESCR" {
      PairLast(p);
      LastOfOne(p, key);
    }
  }

  // The last word on a keyword is the description's, if that tells anything about it and is
  // shown later; else it is the keyword's own value.
  lemma {:induction false} LastWord(pairs: seq<Pair>, v: string, quoted: bool, key: string, raw: string)
    requires OnlyDescriptionCut(pairs, v, quoted) && key != "DESCR"
    requires forall i :: 0 <= i < |pairs| && pairs[i].key == key ==> pairs[i].raw == raw
    ensures LastOf(Found(pairs), key) ==
      if Told(v, quoted, key).Some? && Overridden(pairs, key) then Told(v, quoted, key)
      else if Absent(pairs, key) then None else Some(raw)
  {
    if pairs != [] {
      var most, p := pairs[..|pairs|-1], pairs[|pairs|-1];
      assert pairs == most + [p];
      LastWord(most, v, quoted, key, raw);
      FoundSnoc(most, p, key);
      TellsOf(p, v, quoted, key);
      OverriddenSnoc(most, p, key);
    }
  }

  lemma {:induction false} LastDescription(pairs: seq<Pair>, v: string, quoted: bool)
    requires OnlyDescriptionCut(pairs, v, quoted)
    ensures LastOf(Found(pairs), "DESCR") == if Absent(pairs, "DESCR") then None else Told(v, quoted, "DESCR")
  {
    if pairs != [] {
      var most, p := pairs[..|pairs|-1], pairs[|pairs|-1];
      assert pairs == most + [p];
      LastDescription(most, v, quoted);
      FoundSnoc(most, p, "DESCR");
      TellsOf(p, v, quoted, "DESCR");
      DescriptionIsTold(v, quoted);
    }
  }

  /* ---------- what is seen of a field ---------- */

  function WordOf(pairs: seq<Pair>, key: string): string {
    CleanedOr(LastOf(Found(pairs), key))
  }

  lemma NamedIs(r: Rule, pairs: seq<Pair>, f: Field)
    ensures Lookup(Fill(map[], Found(pairs)), AttrName(r, f)) == WordOf(pairs, Keyword(r, f))
  {
    FoundClean(pairs);
    KeywordsAreWords(r, f);
    LowerNames(r, f);
    LastIsFound(Found(pairs), Keyword(r, f));
  }

  lemma PlainAddressIs(r: Rule, pairs: seq<Pair>)
    ensures Lookup(Fill(map[], Found(pairs)), "address") == WordOf(pairs, "ADDRESS")
  {
    var plain := r.(ruleType := "USERMAP");
    NamedIs(plain, pairs, Address);
  }

  // An address list that comes out empty is looked for under the other keyword.
  predicate FallsBack(r: Rule, f: Field) {
    f == Address && r.ruleType == "BLOCKADDR"
  }

  function OrElse(fallsBack: bool, word: string, other: string): string {
    if fallsBack && word == "" then other else word
  }

  lemma SeenByName(r: Rule, attrs: Attrs, f: Field)
    ensures Seen(StateFrom(r, attrs), f) == OrElse(FallsBack(r, f), Lookup(attrs, AttrName(r, f)), Lookup(attrs, "address"))
  {
  }

  lemma SeenIsWord(r: Rule, pairs: seq<Pair>, f: Field)
    ensures Seen(StateFrom(r, Fill(map[], Found(pairs))), f) ==
      OrElse(FallsBack(r, f), WordOf(pairs, Keyword(r, f)), WordOf(pairs, "ADDRESS"))
  {
    NamedIs(r, pairs, f);
    PlainAddressIs(r, pairs);
    SeenByName(r, Fill(map[], Found(pairs)), f);
  }

  // A field's own value as it is shown and read.
  function Own(r: Rule, quoted: bool, f: Field): string {
    if Set(r, f) then Cleaned(Shown(Desired(r, f), quoted)) else ""
  }

  // The last word, if something else was told and may have it.
  function Overruled(own: string, told: Option<string>, over: bool): string {
    if told.Some? && over then Cleaned(told.value) else own
  }

  // The same where a description is shown in the form `dq`: it may tell about the field too,
  // and `over` says whether it has the last word.
  function Disturbed(r: Rule, dq: bool, quoted: bool, over: bool, f: Field): string {
    OrElse(FallsBack(r, f),
           Overruled(Own(r, quoted, f), Told(r.description, dq, Keyword(r, f)), over || !Set(r, f)),
           CleanedOr(Told(r.description, dq, "ADDRESS")))
  }

  ghost predicate OthersPlain(r: Rule) {
    forall f :: f != Description ==> ')' !in Desired(r, f)
  }

  lemma EchoCutsDescriptionOnly(r: Rule, form: Field -> bool, pairs: seq<Pair>)
    requires EchoesRule(r, form, pairs) && OthersPlain(r)
    ensures OnlyDescriptionCut(pairs, r.description, form(Description))
  {
    assert EchoesField(r, form(Description), pairs, Description);
    forall i | 0 <= i < |pairs| && pairs[i].key != "DESCR"
      ensures ')' !in pairs[i].raw
    {
      forall f | Set(r, f) && pairs[i].key == Keyword(r, f)
        ensures ')' !in pairs[i].raw
      {
        ShownClean(Desired(r, f), form(f));
        assert EchoesField(r, form(f), pairs, f);
      }
    }
  }

  lemma WordIs(r: Rule, form: Field -> bool, pairs: seq<Pair>, f: Field)
    requires EchoesRule(r, form, pairs) && OthersPlain(r) && f != Description && (Set(r, f) || Strict(f))
    ensures var key := Keyword(r, f);
            WordOf(pairs, key) == Overruled(Own(r, form(f), f), Told(r.description, form(Description), key), Overridden(pairs, key))
  {
    assert EchoesField(r, form(f), pairs, f);
    EchoCutsDescriptionOnly(r, form, pairs);
    KeywordsDiffer(r, f, Description);
    LastWord(pairs, r.description, form(Description), Keyword(r, f), Shown(Desired(r, f), form(f)));
  }

  // Where the description is hidden it overrides nothing; where it is shown it overrides
  // every keyword that is not.
  lemma {:induction false} OverriddenIfAbsent(pairs: seq<Pair>, key: string)
    ensures Absent(pairs, "DESCR") ==> !Overridden(pairs, key)
    ensures !Absent(pairs, "DESCR") && Absent(pairs, key) ==> Overridden(pairs, key)
  {
  }

  lemma OtherAddressIs(r: Rule, form: Field -> bool, pairs: seq<Pair>)
    requires EchoesRule(r, form, pairs) && OthersPlain(r) && r.ruleType == "BLOCKADDR"
    ensures WordOf(pairs, "ADDRESS") ==
      if Absent(pairs, "DESCR") then "" else CleanedOr(Told(r.description, form(Description), "ADDRESS"))
  {
    EchoCutsDescriptionOnly(r, form, pairs);
    LastWord(pairs, r.description, form(Description), "ADDRESS", "");
    OverriddenIfAbsent(pairs, "ADDRESS");
  }

  lemma SeenHidden(r: Rule, form: Field -> bool, pairs: seq<Pair>, f: Field)
    requires EchoesRule(r, form, pairs) && OthersPlain(r) && f != Description && (Set(r, f) || Strict(f))
    requires Absent(pairs, "DESCR")
    ensures Seen(StateFrom(r, Fill(map[], Found(pairs))), f) == Own(r, form(f), f)
  {
    SeenIsWord(r, pairs, f);
    WordIs(r, form, pairs, f);
    OverriddenIfAbsent(pairs, Keyword(r, f));
    if FallsBack(r, f) {
      OtherAddressIs(r, form, pairs);
    }
  }

  lemma UnsetIsOverridden(r: Rule, form: Field -> bool, pairs: seq<Pair>, f: Field)
    requires EchoesRule(r, form, pairs) && f != Description && Strict(f) && !Set(r, f) && !Absent(pairs, "DESCR")
    ensures Overridden(pairs, Keyword(r, f))
  {
    assert EchoesField(r, form(f), pairs, f);
    OverriddenIfAbsent(pairs, Keyword(r, f));
  }

  lemma SeenShown(r: Rule, form: Field -> bool, pairs: seq<Pair>, f: Field)
    requires EchoesRule(r, form, pairs) && OthersPlain(r) && f != Description && (Set(r, f) || Strict(f))
    requires !Absent(pairs, "DESCR")
    ensures Seen(StateFrom(r, Fill(map[], Found(pairs))), f) ==
      Disturbed(r, form(Description), form(f), Overridden(pairs, Keyword(r, f)), f)
  {
    SeenIsWord(r, pairs, f);
    WordIs(r, form, pairs, f);
    if !Set(r, f) {
      UnsetIsOverridden(r, form, pairs, f);
    }
    if FallsBack(r, f) {
      OtherAddressIs(r, form, pairs);
    }
  }

  /* ---------- the round trip ---------- */

  // A field that its rule type cannot set must be blank; one that is set must come back.
  predicate FieldReturns(r: Rule, quoted: bool, f: Field) {
    if Fits(r, f) then Returns(Desired(r, f), quoted) else TrimSpace(Desired(r, f)) == ""
  }

  // What a shown description makes of a field does not call for an update.
  predicate Harmless(r: Rule, dq: bool, quoted: bool, over: bool, f: Field) {
    ')' !in Desired(r, f) && !Differs(f, Desired(r, f), Disturbed(r, dq, quoted, over, f))
  }

  // A description comes back, or leaves nothing to compare.
  predicate QuietlyBack(v: string, quoted: bool) {
    Returns(v, quoted) || TrimSpace(CleanedOr(Told(v, quoted, "DESCR"))) == ""
  }

  ghost predicate ComesBack(r: Rule, form: Field -> bool, pairs: seq<Pair>, f: Field) {
    if f == Description then Absent(pairs, "DESCR") || QuietlyBack(r.description, form(f))
    else if Absent(pairs, "DESCR") then FieldReturns(r, form(f), f)
    else Harmless(r, form(Description), form(f), Overridden(pairs, Keyword(r, f)), f)
  }

  lemma BlankReturns(v: string, quoted: bool)
    requires TrimSpace(v) == "" && ')' !in v
    ensures Returns(v, quoted)
  {
    if quoted && !Bare(v, IsQuote) {
      WeightOfTrim(v);
    }
  }

  lemma SetDiffers(f: Field, v: string, quoted: bool)
    requires f != Description && ')' !in v
    ensures Differs(f, v, Cleaned(Shown(v, quoted))) <==> !Returns(v, quoted)
  {
    ReturnsIff(v, quoted);
    if TrimSpace(v) == "" {
      BlankReturns(v, quoted);
    }
  }

  // What is seen of a field: its value, cleaned, if it was set; else nothing, if it is
  // strictly compared.
  predicate SeenAsSet(f: Field, v: string, quoted: bool, seen: string, fits: bool) {
    && (fits || Strict(f))
    && (if v != "" && fits then seen == Cleaned(Shown(v, quoted)) else Strict(f) ==> seen == "")
  }

  lemma FieldCases(f: Field, v: string, quoted: bool, seen: string, fits: bool)
    requires f != Description && ')' !in v && SeenAsSet(f, v, quoted, seen, fits)
    ensures Differs(f, v, seen) <==> !(if fits then Returns(v, quoted) else TrimSpace(v) == "")
  {
    if v != "" && fits {
      SetDiffers(f, v, quoted);
    } else {
      UnsetDiffers(f, v, seen);
      BlankReturns("", quoted);
    }
  }

  // A field that was not set is missed exactly when it is not blank.
  lemma UnsetDiffers(f: Field, v: string, seen: string)
    requires f != Description && (if Strict(f) then seen == "" else v == "")
    ensures Differs(f, v, seen) <==> TrimSpace(v) != ""
  {
  }

  // A field that is seen as it was set is missed exactly when it does not return.
  lemma OwnDiffers(r: Rule, quoted: bool, f: Field)
    requires f != Description && ')' !in Desired(r, f)
    ensures Differs(f, Desired(r, f), Own(r, quoted, f)) <==> !FieldReturns(r, quoted, f)
  {
    FieldCases(f, Desired(r, f), quoted, Own(r, quoted, f), Fits(r, f));
  }

  // A description without closing parentheses does not change what is seen of other fields.
  lemma PlainDisturbsNothing(r: Rule, dq: bool, quoted: bool, over: bool, f: Field)
    requires ')' !in r.description && f != Description
    ensures Disturbed(r, dq, quoted, over, f) == Own(r, quoted, f)
  {
    KeywordsDiffer(r, f, Description);
    PlainTells(r.description, dq, Keyword(r, f));
    PlainTells(r.description, dq, "ADDRESS");
  }

  lemma PlainIsHarmlessIff(r: Rule, dq: bool, quoted: bool, over: bool, f: Field)
    requires ')' !in r.description && f != Description
    ensures Harmless(r, dq, quoted, over, f) <==> FieldReturns(r, quoted, f)
  {
    if ')' in Desired(r, f) {
      ParenNeverReturns(r, quoted, f);
    } else {
      PlainDisturbsNothing(r, dq, quoted, over, f);
      OwnDiffers(r, quoted, f);
      HarmlessIs(r, dq, quoted, over, f, Own(r, quoted, f));
    }
  }

  // And it comes back unless it has a quote at its ends and more than quotes in it.
  lemma PlainIsBackIff(v: string, quoted: bool)
    requires ')' !in v
    ensures QuietlyBack(v, quoted) <==> Returns(v, quoted) || TrimSpace(Cleaned(Shown(v, quoted))) == ""
  {
    PlainTells(v, quoted, "DESCR");
  }

  lemma DescriptionDiffersOn(v: string, seen: string, back: bool)
    requires TrimSpace(v) == TrimSpace(seen) <==> back
    ensures Differs(Description, v, seen) <==> !(back || TrimSpace(seen) == "")
  {
  }

  lemma BlankDescription(v: string)
    ensures !Differs(Description, v, "")
  {
  }

  lemma ToldDescriptionDiffers(v: string, quoted: bool)
    ensures Differs(Description, v, CleanedOr(Told(v, quoted, "DESCR"))) <==> !QuietlyBack(v, quoted)
  {
    var seen := CleanedOr(Told(v, quoted, "DESCR"));
    if ')' in v {
      ToldClean(v, quoted, "DESCR");
      ParenInTrim(v);
      ParenInTrim(seen);
    } else {
      PlainTells(v, quoted, "DESCR");
      ReturnsIff(v, quoted);
    }
    DescriptionDiffersOn(v, seen, Returns(v, quoted));
  }

  lemma DescriptionWord(r: Rule, form: Field -> bool, pairs: seq<Pair>)
    requires EchoesRule(r, form, pairs) && OthersPlain(r)
    ensures WordOf(pairs, "DESCR") ==
      if Absent(pairs, "DESCR") then "" else CleanedOr(Told(r.description, form(Description), "DESCR"))
  {
    EchoCutsDescriptionOnly(r, form, pairs);
    LastDescription(pairs, r.description, form(Description));
  }

  lemma SeenDescription(r: Rule, pairs: seq<Pair>)
    ensures Seen(StateFrom(r, Fill(map[], Found(pairs))), Description) == WordOf(pairs, "DESCR")
  {
    SeenIsWord(r, pairs, Description);
  }

  lemma DescriptionDiffersIff(r: Rule, form: Field -> bool, pairs: seq<Pair>, s: State)
    requires EchoesRule(r, form, pairs) && OthersPlain(r) && s == StateFrom(r, Fill(map[], Found(pairs)))
    ensures Differs(Description, r.description, Seen(s, Description)) <==> !ComesBack(r, form, pairs, Description)
  {
    SeenDescription(r, pairs);
    DescriptionWord(r, form, pairs);
    if Absent(pairs, "DESCR") {
      BlankDescription(r.description);
    } else {
      ToldDescriptionDiffers(r.description, form(Description));
    }
  }

  lemma ParenInLower(s: string)
    ensures ')' in ToLower(s) <==> ')' in s
  {
    if ')' in s {
      var i :| 0 <= i < |s| && s[i] == ')';
      assert ToLower(s)[i] == ')';
    }
  }

  lemma ParenInTrim(s: string)
    ensures ')' in TrimSpace(s) <==> ')' in s
  {
    if ')' in s {
      TrimSpaceKeeps(s, ')');
    } else if ')' in TrimSpace(s) {
      TrimKeeps(s, IsSpace, ')');
    }
  }

  lemma ParenNeverMatches(f: Field, v: string, seen: string)
    requires f != Description && ')' in v && ')' !in seen
    ensures Differs(f, v, seen)
  {
    ParenInTrim(v);
    ParenInTrim(seen);
    ParenInLower(TrimSpace(v));
    ParenInLower(TrimSpace(seen));
  }

  // Whatever DISPLAY printed, a value holding a closing parenthesis never compares equal.
  lemma ParenAlwaysUpdates(r: Rule, lines: seq<string>, f: Field)
    requires f != Description && ')' in Desired(r, f)
    ensures ChannelAuth.NeedsUpdate(r, Some(StateFrom(r, Parsed(lines))))
  {
    var attrs := Parsed(lines);
    var s := StateFrom(r, attrs);
    ParsedShaped(lines);
    assert forall k :: ')' !in Lookup(attrs, k);
    SeenShaped(r, attrs, f);
    ParenNeverMatches(f, Desired(r, f), Seen(s, f));
    var differs := f => Differs(f, Desired(r, f), Seen(s, f));
    assert differs(f);
    AnyFieldIff(differs);
  }

  lemma SeenShaped(r: Rule, attrs: Attrs, f: Field)
    requires forall k :: ')' !in Lookup(attrs, k)
    ensures ')' !in Seen(StateFrom(r, attrs), f)
  {
  }

  lemma ParenNeverReturns(r: Rule, quoted: bool, f: Field)
    requires ')' in Desired(r, f)
    ensures !FieldReturns(r, quoted, f)
  {
    ParenInTrim(Desired(r, f));
  }

  lemma ShownClean(v: string, quoted: bool)
    requires ')' !in v
    ensures ')' !in Shown(v, quoted)
  {
  }

  lemma Unmanaged(r: Rule, f: Field, seen: string)
    requires f != Description && !Set(r, f) && !Strict(f)
    ensures !Differs(f, Desired(r, f), seen)
  {
  }

  lemma HiddenDiffersIff(r: Rule, form: Field -> bool, pairs: seq<Pair>, f: Field, s: State)
    requires EchoesRule(r, form, pairs) && OthersPlain(r) && s == StateFrom(r, Fill(map[], Found(pairs)))
    requires f != Description && Absent(pairs, "DESCR")
    ensures Differs(f, Desired(r, f), Seen(s, f)) <==> !FieldReturns(r, form(f), f)
  {
    OwnDiffers(r, form(f), f);
    if Set(r, f) || Strict(f) {
      SeenHidden(r, form, pairs, f);
    } else {
      Unmanaged(r, f, Seen(s, f));
      Unmanaged(r, f, Own(r, form(f), f));
    }
  }

  lemma HarmlessIs(r: Rule, dq: bool, quoted: bool, over: bool, f: Field, seen: string)
    requires ')' !in Desired(r, f) && seen == Disturbed(r, dq, quoted, over, f)
    ensures Differs(f, Desired(r, f), seen) <==> !Harmless(r, dq, quoted, over, f)
  {
  }

  lemma ShownDiffersIff(r: Rule, form: Field -> bool, pairs: seq<Pair>, f: Field, s: State)
    requires EchoesRule(r, form, pairs) && OthersPlain(r) && s == StateFrom(r, Fill(map[], Found(pairs)))
    requires f != Description && !Absent(pairs, "DESCR")
    ensures Differs(f, Desired(r, f), Seen(s, f)) <==>
      !Harmless(r, form(Description), form(f), Overridden(pairs, Keyword(r, f)), f)
  {
    var over := Overridden(pairs, Keyword(r, f));
    var seen := Disturbed(r, form(Description), form(f), over, f);
    HarmlessIs(r, form(Description), form(f), over, f, seen);
    if Set(r, f) || Strict(f) {
      SeenShown(r, form, pairs, f);
    } else {
      Unmanaged(r, f, Seen(s, f));
      Unmanaged(r, f, seen);
    }
  }

  lemma FieldDiffersIff(r: Rule, form: Field -> bool, pairs: seq<Pair>, f: Field, s: State)
    requires EchoesRule(r, form, pairs) && OthersPlain(r) && s == StateFrom(r, Fill(map[], Found(pairs)))
    requires f != Description
    ensures Differs(f, Desired(r, f), Seen(s, f)) <==> !ComesBack(r, form, pairs, f)
  {
    if Absent(pairs, "DESCR") {
      HiddenDiffersIff(r, form, pairs, f, s);
    } else {
      ShownDiffersIff(r, form, pairs, f, s);
    }
  }

  lemma PlainTripIff(r: Rule, form: Field -> bool, pairs: seq<Pair>, s: State)
    requires EchoesRule(r, form, pairs) && OthersPlain(r) && s == StateFrom(r, Fill(map[], Found(pairs)))
    ensures !ChannelAuth.NeedsUpdate(r, Some(s)) <==> forall f :: ComesBack(r, form, pairs, f)
  {
    var differs := f => Differs(f, Desired(r, f), Seen(s, f));
    forall f
      ensures differs(f) <==> !ComesBack(r, form, pairs, f)
    {
      if f == Description {
        DescriptionDiffersIff(r, form, pairs, s);
      } else {
        FieldDiffersIff(r, form, pairs, f, s);
      }
    }
    AnyFieldIff(differs);
  }

  lemma RuleTripIff(r: Rule, form: Field -> bool, pairs: seq<Pair>, lines: seq<string>)
    requires EchoesRule(r, form, pairs) && Displays(lines, pairs)
    ensures !ChannelAuth.NeedsUpdate(r, Some(StateFrom(r, Parsed(lines)))) <==> forall f :: ComesBack(r, form, pairs, f)
  {
    if f :| f != Description && ')' in Desired(r, f) {
      ParenAlwaysUpdates(r, lines, f);
      ParenNeverReturns(r, form(f), f);
      assert !ComesBack(r, form, pairs, f);
    } else {
      ParsedIsFound(lines, pairs);
      PlainTripIff(r, form, pairs, StateFrom(r, Parsed(lines)));
    }
  }

  /* ---------- from the printed command ---------- */

  function FormOf(r: Rule, form: string -> bool): Field -> bool {
    f => form(Keyword(r, f))
  }

  lemma KeywordIsSetting(r: Rule, f: Field)
    ensures Keyword(r, f) in SETTINGS
    ensures Strict(f) ==> Keyword(r, f) in SHOWN_IF_SET
    ensures Keyword(r, f) == "DESCR" <==> f == Description
  {
  }

  lemma FieldHeld(r: Rule, f: Field)
    ensures Held(SetClauses(r, "REPLACE"), Keyword(r, f)) == if Set(r, f) then Some(Desired(r, f)) else None
  {
    FieldIsHeld(r, "REPLACE", f);
  }

  lemma FieldEcho(r: Rule, form: string -> bool, pairs: seq<Pair>, f: Field)
    requires Echoes(SetClauses(r, "REPLACE"), form, pairs)
    ensures EchoesField(r, form(Keyword(r, f)), pairs, f)
  {
    FieldHeld(r, f);
    KeywordIsSetting(r, f);
    assert EchoesKey(SetClauses(r, "REPLACE"), form(Keyword(r, f)), pairs, Keyword(r, f));
  }

  // The address keyword of the other rule types is not set.
  lemma OtherAddressUnset(r: Rule, key: string)
    requires key == (if r.ruleType == "BLOCKADDR" then "ADDRESS" else "ADDRLIST")
    ensures Held(SetClauses(r, "REPLACE"), key).None?
  {
    SetHolds(r, "REPLACE", key, Address);
  }

  // The field behind a keyword; the address keyword of the other rule types has none.
  function FieldFor(r: Rule, key: string): Option<Field> {
    match key
    case "CLNTUSER" => Some(ClientUser)
    case "SSLPEER" => Some(SslPeer)
    case "QMNAME" => Some(QmName)
    case "USERLIST" => Some(UserList)
    case "USERSRC" => Some(UserSource)
    case "MCAUSER" => Some(McaUser)
    case "CHCKCLNT" => Some(CheckClient)
    case "DESCR" => Some(Description)
    case _ => if key == Keyword(r, Address) then Some(Address) else None
  }

  lemma SettingCases(r: Rule, key: string)
    requires key in SETTINGS
    ensures match FieldFor(r, key)
            case Some(f) => Keyword(r, f) == key
            case None => key == if r.ruleType == "BLOCKADDR" then "ADDRESS" else "ADDRLIST"
  {
  }

  lemma HeldHasField(r: Rule, key: string) returns (f: Field)
    requires key in SETTINGS && Held(SetClauses(r, "REPLACE"), key).Some?
    ensures Set(r, f) && Keyword(r, f) == key
  {
    SettingCases(r, key);
    if FieldFor(r, key).None? {
      OtherAddressUnset(r, key);
    }
    f := FieldFor(r, key).value;
    FieldHeld(r, f);
  }

  // What is echoed of the clauses is echoed of the rule.
  lemma EchoOfRule(r: Rule, form: string -> bool, pairs: seq<Pair>)
    requires Echoes(SetClauses(r, "REPLACE"), form, pairs)
    ensures EchoesRule(r, FormOf(r, form), pairs)
  {
    forall f
      ensures EchoesField(r, FormOf(r, form)(f), pairs, f)
    {
      FieldEcho(r, form, pairs, f);
    }
    if r.ruleType == "BLOCKADDR" {
      OtherAddressUnset(r, "ADDRESS");
      assert EchoesKey(SetClauses(r, "REPLACE"), form("ADDRESS"), pairs, "ADDRESS");
    }
    forall i | 0 <= i < |pairs| && ')' in pairs[i].raw
      ensures exists f :: Set(r, f) && pairs[i].key == Keyword(r, f)
    {
      var f := HeldHasField(r, pairs[i].key);
    }
  }

  // The clauses a queue manager reads from the command that is sent for the rule, if any.
  function Understood(r: Rule): Option<seq<Clause>> {
    match SetCommand(r, "REPLACE")
    case None => None
    case Some(command) => ReadCommand(SET, command)
  }

  lemma UnderstoodIs(r: Rule)
    requires WellFormed(r)
    ensures Understood(r) == Some(SetClauses(r, "REPLACE"))
  {
    SetReadsBack(r, "REPLACE");
  }

  // It is what the queue manager then holds for the rule, whatever rules it had before.
  lemma UnderstoodIsHeld(rules: Rules, r: Rule)
    requires WellFormed(r)
    ensures var after := Sent(rules, r, "REPLACE");
            IdentityOf(r) in after && Understood(r) == Some(after[IdentityOf(r)])
  {
    UnderstoodIs(r);
    SetIsStored(rules, r);
  }

  // An answer to DISPLAY after the rule was SET: the queue manager shows what it read.
  ghost predicate Answers(understood: Option<seq<Clause>>, form: string -> bool, pairs: seq<Pair>, lines: seq<string>) {
    understood.Some? && Echoes(understood.value, form, pairs) && Displays(lines, pairs)
  }

  lemma AnswerIsEcho(r: Rule, understood: Option<seq<Clause>>, form: string -> bool, pairs: seq<Pair>, lines: seq<string>)
    requires understood == Some(SetClauses(r, "REPLACE")) && Answers(understood, form, pairs, lines)
    ensures EchoesRule(r, FormOf(r, form), pairs) && Displays(lines, pairs)
  {
    EchoOfRule(r, form, pairs);
  }

  // The round trip: print SET, have it read and echoed, parse the text, compare. No update is
  // needed exactly when every field its type cannot set is blank, every other value holds no
  // closing parenthesis and no quote at its ends, and what a shown description tells about
  // any field agrees with it.
  lemma RoundTripIff(r: Rule, form: string -> bool, pairs: seq<Pair>, lines: seq<string>)
    requires WellFormed(r) && Answers(Understood(r), form, pairs, lines)
    ensures !ChannelAuth.NeedsUpdate(r, Some(StateFrom(r, Parsed(lines)))) <==>
      forall f :: ComesBack(r, FormOf(r, form), pairs, f)
  {
    UnderstoodIs(r);
    AnswerIsEcho(r, Understood(r), form, pairs, lines);
    RuleTripIff(r, FormOf(r, form), pairs, lines);
  }
}
