/**
 Which CHLAUTH rules settle whatever a queue manager answers, told from the rule alone.
 */
module ChannelAuthSettled {
  import opened Options
  import opened Text
  import opened Mqsc
  import opened DisplayText
  import opened ChannelAuth
  import opened ChannelAuthTrip

  // Comes back in every form, and whatever a description shown before or after it tells.
  predicate Settles(r: Rule, f: Field) {
    if f == Description then QuietlyBack(r.description, true) && QuietlyBack(r.description, false)
    else
      && FieldReturns(r, true, f) && FieldReturns(r, false, f)
      && forall dq, quoted, over :: Harmless(r, dq, quoted, over, f)
  }

  ghost predicate NoUpdateAfter(r: Rule, form: string -> bool, pairs: seq<Pair>, lines: seq<string>) {
    Answers(Understood(r), form, pairs, lines) ==> !ChannelAuth.NeedsUpdate(r, Some(StateFrom(r, Parsed(lines))))
  }

  ghost predicate AlwaysSettled(r: Rule) {
    forall form, pairs, lines :: NoUpdateAfter(r, form, pairs, lines)
  }

  /* ---------- full answers ---------- */

  // Where an answer shows the description.
  datatype Place = Hidden | Before | After

  function FieldPair(r: Rule, quoted: bool, f: Field): seq<Pair> {
    if Set(r, f) && f != Description then [Pair(Keyword(r, f), Shown(Desired(r, f), quoted))] else []
  }

  function DescriptionPair(r: Rule, quoted: bool): seq<Pair> {
    if Set(r, Description) then [Pair("DESCR", Shown(r.description, quoted))] else []
  }

  function FieldPairs(pair: Field -> seq<Pair>): seq<Pair> {
    pair(Address) + pair(ClientUser) + pair(SslPeer) + pair(QmName)
    + pair(UserList) + pair(UserSource) + pair(McaUser) + pair(CheckClient) + pair(Description)
  }

  lemma FieldPairsFrom(pair: Field -> seq<Pair>, p: Pair)
    ensures p in FieldPairs(pair) <==> exists f :: p in pair(f)
  {
    if f :| p in pair(f) {
      assert f == Address || f == ClientUser || f == SslPeer || f == QmName || f == UserList
          || f == UserSource || f == McaUser || f == CheckClient || f == Description;
    }
  }

  const Opening: Pair := Pair("CHLAUTH", "")

  function Framed(front: seq<Pair>, fields: seq<Pair>, back: seq<Pair>): seq<Pair> {
    [Opening] + front + fields + back
  }

  function FullAnswer(r: Rule, place: Place, dq: bool, quoted: bool): seq<Pair> {
    Framed(if place == Before then DescriptionPair(r, dq) else [],
           FieldPairs(f => FieldPair(r, quoted, f)),
           if place == After then DescriptionPair(r, dq) else [])
  }

  function ShownIn(r: Rule, place: Place, dq: bool, quoted: bool, f: Field): seq<Pair> {
    if f != Description then FieldPair(r, quoted, f) else if place == Hidden then [] else DescriptionPair(r, dq)
  }

  lemma FieldPairsOf(r: Rule, quoted: bool, p: Pair)
    ensures p in FieldPairs(f => FieldPair(r, quoted, f)) <==> exists f :: p in FieldPair(r, quoted, f)
  {
    var pair := f => FieldPair(r, quoted, f);
    FieldPairsFrom(pair, p);
    assert forall f :: pair(f) == FieldPair(r, quoted, f);
  }

  lemma FullAnswerHas(r: Rule, place: Place, dq: bool, quoted: bool, p: Pair)
    ensures p in FullAnswer(r, place, dq, quoted) <==> p == Opening || exists f :: p in ShownIn(r, place, dq, quoted, f)
  {
    FieldPairsOf(r, quoted, p);
    assert ShownIn(r, place, dq, quoted, Description) == if place == Hidden then [] else DescriptionPair(r, dq);
    if f :| p in FieldPair(r, quoted, f) {
      assert p in ShownIn(r, place, dq, quoted, f);
    }
  }

  function FormAt(dq: bool, quoted: bool): string -> bool {
    key => if key == "DESCR" then dq else quoted
  }

  lemma ShownInIs(r: Rule, place: Place, dq: bool, quoted: bool, f: Field)
    ensures var one := ShownIn(r, place, dq, quoted, f);
            one != [] ==> Set(r, f) && one == [Pair(Keyword(r, f), Shown(Desired(r, f), FormAt(dq, quoted)(Keyword(r, f))))]
  {
    KeywordIsSetting(r, f);
  }

  lemma KeywordIsOwn(r: Rule, place: Place, dq: bool, quoted: bool, f: Field, p: Pair)
    requires p in FullAnswer(r, place, dq, quoted) && p.key == Keyword(r, f)
    ensures p in ShownIn(r, place, dq, quoted, f)
  {
    KeywordsAreSettings(r, f);
    FullAnswerHas(r, place, dq, quoted, p);
    var g :| p in ShownIn(r, place, dq, quoted, g);
    ShownInIs(r, place, dq, quoted, g);
    if g != f {
      KeywordsDiffer(r, f, g);
    }
  }

  // It shows a field's keyword with its value, or not at all.
  lemma FullAnswerShows(r: Rule, place: Place, dq: bool, quoted: bool, f: Field)
    ensures var pairs, key := FullAnswer(r, place, dq, quoted), Keyword(r, f);
            if ShownIn(r, place, dq, quoted, f) != []
            then Set(r, f) && Shows(pairs, key, Shown(Desired(r, f), FormAt(dq, quoted)(key))) else Absent(pairs, key)
  {
    var pairs := FullAnswer(r, place, dq, quoted);
    ShownInIs(r, place, dq, quoted, f);
    forall i | 0 <= i < |pairs| && pairs[i].key == Keyword(r, f)
      ensures pairs[i] in ShownIn(r, place, dq, quoted, f)
    {
      KeywordIsOwn(r, place, dq, quoted, f, pairs[i]);
    }
    if ShownIn(r, place, dq, quoted, f) != [] {
      FullAnswerHas(r, place, dq, quoted, ShownIn(r, place, dq, quoted, f)[0]);
    }
  }

  lemma OtherAddressIsNoKeyword(r: Rule, key: string, f: Field)
    requires key == (if r.ruleType == "BLOCKADDR" then "ADDRESS" else "ADDRLIST")
    ensures Keyword(r, f) != key && key != Opening.key
  {
  }

  lemma OtherAddressAbsent(r: Rule, place: Place, dq: bool, quoted: bool, key: string)
    requires key == (if r.ruleType == "BLOCKADDR" then "ADDRESS" else "ADDRLIST")
    ensures Absent(FullAnswer(r, place, dq, quoted), key)
  {
    var pairs := FullAnswer(r, place, dq, quoted);
    forall i | 0 <= i < |pairs|
      ensures pairs[i].key != key
    {
      OtherAddressIsNoKeyword(r, key, Address);
      FullAnswerHas(r, place, dq, quoted, pairs[i]);
      if pairs[i] != Opening {
        var f :| pairs[i] in ShownIn(r, place, dq, quoted, f);
        ShownInIs(r, place, dq, quoted, f);
        OtherAddressIsNoKeyword(r, key, f);
      }
    }
  }

  lemma FullAnswerEchoesKey(r: Rule, place: Place, dq: bool, quoted: bool, key: string)
    requires key in SETTINGS
    ensures EchoesKey(SetClauses(r, "REPLACE"), FormAt(dq, quoted)(key), FullAnswer(r, place, dq, quoted), key)
  {
    SettingCases(r, key);
    match FieldFor(r, key)
    case Some(f) =>
      FieldHeld(r, f);
      FullAnswerShows(r, place, dq, quoted, f);
      KeywordIsSetting(r, f);
    case None =>
      OtherAddressUnset(r, key);
      OtherAddressAbsent(r, place, dq, quoted, key);
  }

  ghost predicate WellShown(r: Rule, p: Pair) {
    IsKeyword(p.key) && (')' in p.raw ==> p.key in SETTINGS && Held(SetClauses(r, "REPLACE"), p.key).Some?)
  }

  lemma FieldWellShown(r: Rule, f: Field, raw: string)
    requires Set(r, f)
    ensures WellShown(r, Pair(Keyword(r, f), raw))
  {
    KeywordsAreWords(r, f);
    KeywordIsSetting(r, f);
    FieldHeld(r, f);
  }

  lemma FullPairShape(r: Rule, place: Place, dq: bool, quoted: bool, p: Pair)
    requires p in FullAnswer(r, place, dq, quoted)
    ensures WellShown(r, p)
  {
    FullAnswerHas(r, place, dq, quoted, p);
    if p != Opening {
      var f :| p in ShownIn(r, place, dq, quoted, f);
      ShownInIs(r, place, dq, quoted, f);
      FieldWellShown(r, f, p.raw);
    }
  }

  lemma FullAnswerEchoes(r: Rule, place: Place, dq: bool, quoted: bool)
    ensures Echoes(SetClauses(r, "REPLACE"), FormAt(dq, quoted), FullAnswer(r, place, dq, quoted))
  {
    var pairs := FullAnswer(r, place, dq, quoted);
    forall key | key in SETTINGS
      ensures EchoesKey(SetClauses(r, "REPLACE"), FormAt(dq, quoted)(key), pairs, key)
    {
      FullAnswerEchoesKey(r, place, dq, quoted, key);
    }
    forall i | 0 <= i < |pairs|
      ensures WellShown(r, pairs[i])
    {
      FullPairShape(r, place, dq, quoted, pairs[i]);
    }
  }

  function TextOf(pairs: seq<Pair>): seq<string> {
    [MARKER + Join(Mapped(pairs, PairText), " ")]
  }

  lemma TextDisplays(pairs: seq<Pair>)
    ensures Displays(TextOf(pairs), pairs)
  {
    var body := Join(Mapped(pairs, PairText), " ");
    assert "" + MARKER + "" + body == MARKER + body;
    assert '.' !in "" && AllCut("", IsSpace);
    assert Join(TextOf(pairs), " ") == MARKER + body;
  }

  /* ---------- who has the last word in them ---------- */

  lemma LastOverrides(front: seq<Pair>, fields: seq<Pair>, p: Pair, key: string)
    requires p.key == "DESCR"
    ensures Overridden(Framed(front, fields, [p]), key)
  {
    OverriddenSnoc([Opening] + front + fields, p, key);
  }

  // A keyword shown after the last description is not overridden.
  lemma OwnComesLast(front: seq<Pair>, fields: seq<Pair>, key: string, own: Pair)
    requires own in fields && own.key == key && Absent(fields, "DESCR")
    ensures !Overridden(front + fields, key)
  {
    var pairs := front + fields;
    assert forall k :: 0 <= k < |fields| ==> pairs[|front| + k] == fields[k];
    var j :| 0 <= j < |fields| && fields[j] == own;
    assert pairs[|front| + j].key == key;
    assert forall i :: |front| <= i < |pairs| ==> pairs[i] == fields[i - |front|];
    assert forall i :: 0 <= i < |pairs| && pairs[i].key == "DESCR" ==> i < |front| + j;
  }

  lemma NoDescriptionAmongFields(r: Rule, quoted: bool)
    ensures Absent(FieldPairs(f => FieldPair(r, quoted, f)), "DESCR")
  {
    var fields := FieldPairs(f => FieldPair(r, quoted, f));
    forall i | 0 <= i < |fields|
      ensures fields[i].key != "DESCR"
    {
      FieldPairsOf(r, quoted, fields[i]);
      var f :| fields[i] in FieldPair(r, quoted, f);
      KeywordIsSetting(r, f);
    }
  }

  lemma AfterOverrides(r: Rule, dq: bool, quoted: bool, key: string)
    requires Set(r, Description)
    ensures Overridden(FullAnswer(r, After, dq, quoted), key)
  {
    LastOverrides([], FieldPairs(f => FieldPair(r, quoted, f)), Pair("DESCR", Shown(r.description, dq)), key);
  }

  lemma BeforeOverridesNot(r: Rule, dq: bool, quoted: bool, f: Field)
    requires Set(r, Description) && Set(r, f) && f != Description
    ensures !Overridden(FullAnswer(r, Before, dq, quoted), Keyword(r, f))
  {
    var fields := FieldPairs(f => FieldPair(r, quoted, f));
    var own := Pair(Keyword(r, f), Shown(Desired(r, f), quoted));
    assert own in FieldPair(r, quoted, f);
    FieldPairsOf(r, quoted, own);
    NoDescriptionAmongFields(r, quoted);
    var front := [Opening] + DescriptionPair(r, dq);
    assert front + fields == Framed(DescriptionPair(r, dq), fields, []);
    OwnComesLast(front, fields, Keyword(r, f), own);
  }

  /* ---------- a field that does not settle is missed by some answer ---------- */

  ghost predicate Missed(r: Rule, place: Place, dq: bool, quoted: bool, f: Field) {
    !ComesBack(r, FormOf(r, FormAt(dq, quoted)), FullAnswer(r, place, dq, quoted), f)
  }

  lemma FormsAre(r: Rule, dq: bool, quoted: bool, f: Field)
    ensures FormOf(r, FormAt(dq, quoted))(f) == if f == Description then dq else quoted
  {
    KeywordIsSetting(r, f);
  }

  lemma EmptyIsBack(quoted: bool)
    ensures Returns("", quoted)
  {
  }

  lemma NotBackIsSet(r: Rule, dq: bool)
    requires !QuietlyBack(r.description, dq)
    ensures Set(r, Description)
  {
    EmptyIsBack(dq);
  }

  lemma DescriptionIsShown(r: Rule, place: Place, dq: bool, quoted: bool)
    requires Set(r, Description) && place != Hidden
    ensures !Absent(FullAnswer(r, place, dq, quoted), "DESCR")
  {
    FullAnswerShows(r, place, dq, quoted, Description);
  }

  lemma NotBackIsMissed(r: Rule, form: Field -> bool, pairs: seq<Pair>, dq: bool)
    requires form(Description) == dq && !Absent(pairs, "DESCR") && !QuietlyBack(r.description, dq)
    ensures !ComesBack(r, form, pairs, Description)
  {
  }

  lemma MissedDescription(r: Rule, dq: bool)
    requires !QuietlyBack(r.description, dq)
    ensures Missed(r, After, dq, dq, Description)
  {
    NotBackIsSet(r, dq);
    FormsAre(r, dq, dq, Description);
    DescriptionIsShown(r, After, dq, dq);
    NotBackIsMissed(r, FormOf(r, FormAt(dq, dq)), FullAnswer(r, After, dq, dq), dq);
  }

  lemma MissedOwn(r: Rule, quoted: bool, f: Field)
    requires f != Description && !FieldReturns(r, quoted, f)
    ensures Missed(r, Hidden, quoted, quoted, f)
  {
    FormsAre(r, quoted, quoted, f);
    FullAnswerShows(r, Hidden, quoted, quoted, Description);
  }

  lemma MissedShown(r: Rule, place: Place, dq: bool, quoted: bool, over: bool, f: Field)
    requires f != Description && !Harmless(r, dq, quoted, over, f) && Set(r, Description) && place != Hidden
    requires Overridden(FullAnswer(r, place, dq, quoted), Keyword(r, f)) == over
    ensures Missed(r, place, dq, quoted, f)
  {
    FormsAre(r, dq, quoted, f);
    FormsAre(r, dq, quoted, Description);
    DescriptionIsShown(r, place, dq, quoted);
  }

  lemma UnsetEitherWay(r: Rule, dq: bool, quoted: bool, over: bool, f: Field)
    requires !Set(r, f)
    ensures Harmless(r, dq, quoted, over, f) <==> Harmless(r, dq, quoted, true, f)
  {
  }

  lemma MissedDisturbed(r: Rule, dq: bool, quoted: bool, over: bool, f: Field) returns (place: Place)
    requires f != Description && !Harmless(r, dq, quoted, over, f) && Set(r, Description)
    ensures Missed(r, place, dq, quoted, f)
  {
    if over || !Set(r, f) {
      place := After;
      if !over {
        UnsetEitherWay(r, dq, quoted, over, f);
      }
      AfterOverrides(r, dq, quoted, Keyword(r, f));
      MissedShown(r, After, dq, quoted, true, f);
    } else {
      place := Before;
      BeforeOverridesNot(r, dq, quoted, f);
      MissedShown(r, Before, dq, quoted, false, f);
    }
  }

  lemma UnsettledIsMissed(r: Rule, f: Field) returns (place: Place, dq: bool, quoted: bool)
    requires !Settles(r, f)
    ensures Missed(r, place, dq, quoted, f)
  {
    if f == Description {
      place, dq := After, !QuietlyBack(r.description, true);
      quoted := dq;
      MissedDescription(r, dq);
    } else if !(FieldReturns(r, true, f) && FieldReturns(r, false, f)) {
      place, dq := Hidden, !FieldReturns(r, true, f);
      quoted := dq;
      MissedOwn(r, dq, f);
    } else {
      var d, q, over :| !Harmless(r, d, q, over, f);
      dq, quoted := d, q;
      if r.description == "" {
        PlainIsHarmlessIff(r, d, q, over, f);
      }
      place := MissedDisturbed(r, d, q, over, f);
    }
  }

  lemma MissedAnswer(r: Rule, place: Place, dq: bool, quoted: bool, f: Field)
    requires WellFormed(r) && Missed(r, place, dq, quoted, f)
    ensures var pairs := FullAnswer(r, place, dq, quoted); !NoUpdateAfter(r, FormAt(dq, quoted), pairs, TextOf(pairs))
  {
    var pairs := FullAnswer(r, place, dq, quoted);
    UnderstoodIs(r);
    FullAnswerEchoes(r, place, dq, quoted);
    TextDisplays(pairs);
    RoundTripIff(r, FormAt(dq, quoted), pairs, TextOf(pairs));
  }

  /* ---------- exactly ---------- */

  lemma SettlesComesBack(r: Rule, form: Field -> bool, pairs: seq<Pair>, f: Field)
    requires Settles(r, f)
    ensures ComesBack(r, form, pairs, f)
  {
  }

  lemma SettledAnswer(r: Rule, form: string -> bool, pairs: seq<Pair>, lines: seq<string>)
    requires WellFormed(r) && Answers(Understood(r), form, pairs, lines) && forall f :: Settles(r, f)
    ensures !ChannelAuth.NeedsUpdate(r, Some(StateFrom(r, Parsed(lines))))
  {
    forall f
      ensures ComesBack(r, FormOf(r, form), pairs, f)
    {
      SettlesComesBack(r, FormOf(r, form), pairs, f);
    }
    RoundTripIff(r, form, pairs, lines);
  }

  // For any rule: every answer a queue manager can give to it, in any form and order, settles
  // it exactly when each of its fields does; which a caller can tell before sending it.
  lemma AlwaysSettledIff(r: Rule)
    requires WellFormed(r)
    ensures AlwaysSettled(r) <==> forall f :: Settles(r, f)
  {
    if forall f :: Settles(r, f) {
      forall form, pairs, lines
        ensures NoUpdateAfter(r, form, pairs, lines)
      {
        if Answers(Understood(r), form, pairs, lines) {
          SettledAnswer(r, form, pairs, lines);
        }
      }
    }
    if f :| !Settles(r, f) {
      var place, dq, quoted := UnsettledIsMissed(r, f);
      MissedAnswer(r, place, dq, quoted, f);
    }
  }

  // Without a closing parenthesis in the description this is about single values only.
  lemma PlainSettlesIff(r: Rule, f: Field)
    requires ')' !in r.description
    ensures Settles(r, f) <==>
      forall quoted ::
        if f == Description then Returns(r.description, quoted) || TrimSpace(Cleaned(Shown(r.description, quoted))) == ""
        else FieldReturns(r, quoted, f)
  {
    if f == Description {
      PlainIsBackIff(r.description, true);
      PlainIsBackIff(r.description, false);
    } else {
      forall dq, quoted, over
        ensures Harmless(r, dq, quoted, over, f) <==> FieldReturns(r, quoted, f)
      {
        PlainIsHarmlessIff(r, dq, quoted, over, f);
      }
    }
  }

  lemma CutClause(v: string, a: string, rest: string)
    requires v + ")" == a + ")" + rest && rest != ""
    ensures PairText(Pair("DESCR", v)) == PairText(Pair("DESCR", a)) + rest && ')' in v
  {
    assert PairText(Pair("DESCR", v)) == "DESCR(" + (v + ")");
    assert (v + ")")[|a|] == ')' && |a| < |v|;
    assert v[|a|] == ')';
  }

  lemma CutTells(v: string, p: Pair, rest: string)
    requires PairText(Pair("DESCR", v)) == PairText(p) + rest && p.key == "DESCR" && ')' !in p.raw
    requires LastOf(Pairs(rest), "DESCR").None?
    ensures Told(v, false, "DESCR") == Some(p.raw)
  {
    LastAfter(p, rest, "DESCR");
  }

  lemma SomethingLeft(v: string, quoted: bool, told: string)
    requires Told(v, quoted, "DESCR") == Some(told) && TrimSpace(Cleaned(told)) != "" && !Returns(v, quoted)
    ensures !QuietlyBack(v, quoted)
  {
  }

  lemma CutIsNotBack(v: string, a: string, rest: string)
    requires PairText(Pair("DESCR", v)) == PairText(Pair("DESCR", a)) + rest && ')' !in a && ')' in v
    requires LastOf(Pairs(rest), "DESCR").None? && TrimSpace(Cleaned(a)) != ""
    ensures !QuietlyBack(v, false)
  {
    CutTells(v, Pair("DESCR", a), rest);
    SomethingLeft(v, false, a);
  }

  // A description that is cut at a closing parenthesis and leaves something to compare never
  // settles, unless what follows tells another description.
  lemma CutDescriptionNeverSettles(r: Rule, a: string, rest: string)
    requires WellFormed(r) && r.description + ")" == a + ")" + rest && ')' !in a && rest != ""
    requires LastOf(Pairs(rest), "DESCR").None? && TrimSpace(Cleaned(a)) != ""
    ensures !AlwaysSettled(r)
  {
    CutClause(r.description, a, rest);
    CutIsNotBack(r.description, a, rest);
    assert !Settles(r, Description);
    AlwaysSettledIff(r);
  }
}
