/**
 Authority records: the comparison of two authority lists, and the grants left after SET
 AUTHREC, which only ever adds.
 */
module Authority {
  import opened Options
  import opened Text
  import opened Mqsc
  import opened Sorting
  import opened Attributes
  import opened DisplayText

  function Canonical(s: string): string {
    ToUpper(TrimSpace(s))
  }

  // The canonical entries of a list, without the blank ones.
  function Kept(entries: seq<string>, canonical: string -> string): (r: seq<string>)
    ensures |r| <= |entries|
  {
    if entries == [] then []
    else
      var last := canonical(entries[|entries|-1]);
      Kept(entries[..|entries|-1], canonical) + if last != "" then [last] else []
  }

  function Normalized(entries: seq<string>): seq<string> {
    Sort(Kept(entries, Canonical))
  }

  method Keep(entries: seq<string>, canonical: string -> string) returns (out: seq<string>)
    ensures out == Kept(entries, canonical)
  {
    out := [];
    for i := 0 to |entries|
      invariant out == Kept(entries[..i], canonical)
    {
      assert entries[..i + 1][..i] == entries[..i];
      var entry := canonical(entries[i]);
      if entry != "" {
        out := out + [entry];
      }
    }
    assert entries[..|entries|] == entries;
  }

  method NormalizeAuthoritySet(entries: seq<string>) returns (out: seq<string>)
    ensures out == Normalized(entries)
  {
    out := Keep(entries, Canonical);
    out := Sort(out);
  }

  // Indexing past the shorter list stops the program.
  datatype Verdict = Equal | Different | Panics

  // The loop walks the first list only.
  function Walked(na: seq<string>, nb: seq<string>): Verdict {
    if na <= nb then Equal else if nb <= na then Panics else Different
  }

  function Compared(a: seq<string>, b: seq<string>): Verdict {
    if |a| != |b| then Different else Walked(Normalized(a), Normalized(b))
  }

  method Walk(na: seq<string>, nb: seq<string>) returns (v: Verdict)
    ensures v == Walked(na, nb)
  {
    for i := 0 to |na|
      invariant i <= |nb| && na[..i] == nb[..i]
    {
      if i >= |nb| {
        return Panics;
      }
      if na[i] != nb[i] {
        return Different;
      }
    }
    return Equal;
  }

  method AuthoritySetsEqual(a: seq<string>, b: seq<string>) returns (v: Verdict)
    ensures v == Compared(a, b)
  {
    if |a| != |b| {
      return Different;
    }
    var na := NormalizeAuthoritySet(a);
    var nb := NormalizeAuthoritySet(b);
    v := Walk(na, nb);
  }

  ghost function Grants(entries: seq<string>): multiset<string> {
    multiset(Kept(entries, Canonical))
  }

  lemma SameGrantsIff(a: seq<string>, b: seq<string>)
    ensures Grants(a) == Grants(b) <==> Normalized(a) == Normalized(b)
  {
    if Grants(a) == Grants(b) {
      SortedUnique(Normalized(a), Normalized(b));
    } else {
      assert multiset(Normalized(a)) == Grants(a) && multiset(Normalized(b)) == Grants(b);
    }
  }

  ghost function Blanks(a: seq<string>): int {
    |a| - |Grants(a)|
  }

  // The answer the name promises.
  ghost predicate Right(a: seq<string>, b: seq<string>) {
    Compared(a, b) == if Grants(a) == Grants(b) then Equal else Different
  }

  // The comparison is right exactly when lists of different length grant different things,
  // and of lists of one length that lose different numbers of blanks neither, once sorted,
  // starts the other. It is wrongly Equal, panics, or is wrongly Different in exactly these
  // three ways; losing equally many blanks rules them all out.
  lemma ComparedIff(a: seq<string>, b: seq<string>)
    ensures Right(a, b) <==>
      if |a| != |b| then Grants(a) != Grants(b)
      else Blanks(a) == Blanks(b) || !(Normalized(a) <= Normalized(b) || Normalized(b) <= Normalized(a))
    ensures Compared(a, b) == Equal && Grants(a) != Grants(b) <==> |a| == |b| && Normalized(a) < Normalized(b)
    ensures Compared(a, b) == Panics <==> |a| == |b| && Normalized(b) < Normalized(a)
    ensures Compared(a, b) == Different && Grants(a) == Grants(b) <==> |a| != |b| && Grants(a) == Grants(b)
    ensures Blanks(a) == Blanks(b) ==> Right(a, b)
  {
    SameGrantsIff(a, b);
    SizeOfNormalized(a);
    SizeOfNormalized(b);
  }

  lemma SizeOfNormalized(a: seq<string>)
    ensures |Normalized(a)| == |Grants(a)|
  {
    assert multiset(Normalized(a)) == Grants(a);
    assert |multiset(Normalized(a))| == |Normalized(a)|;
  }

  predicate NonBlank(entries: seq<string>, canonical: string -> string) {
    forall i :: 0 <= i < |entries| ==> canonical(entries[i]) != ""
  }

  lemma {:induction false} KeptAll(entries: seq<string>, canonical: string -> string)
    requires NonBlank(entries, canonical)
    ensures |Kept(entries, canonical)| == |entries|
    ensures forall i :: 0 <= i < |entries| ==> Kept(entries, canonical)[i] == canonical(entries[i])
  {
    if entries != [] {
      KeptAll(entries[..|entries|-1], canonical);
    }
  }

  // Without blanks: no panic, and exactly equality of the granted multisets.
  lemma NonBlankCompared(a: seq<string>, b: seq<string>)
    requires NonBlank(a, Canonical) && NonBlank(b, Canonical)
    ensures Compared(a, b) == if Grants(a) == Grants(b) then Equal else Different
  {
    KeptAll(a, Canonical);
    KeptAll(b, Canonical);
    assert Blanks(a) == 0 == Blanks(b);
    ComparedIff(a, b);
  }

  // A blank entry makes it answer Equal for different grants, stop the program, or answer
  // Different for the same grants.
  lemma BlanksMislead(blank: string, entry: string)
    requires Canonical(blank) == "" && Canonical(entry) != ""
    ensures Compared([blank], [entry]) == Equal && Grants([blank]) != Grants([entry])
    ensures Compared([entry], [blank]) == Panics
    ensures Compared([entry, blank], [entry]) == Different && Grants([entry, blank]) == Grants([entry])
  {
    KeptOne(blank, Canonical);
    KeptOne(entry, Canonical);
    SizeOfNormalized([blank]);
    SizeOfNormalized([entry]);
    assert |multiset([Canonical(entry)])| == 1;
    WalkedFromEmpty(Normalized([entry]));
    assert [entry, blank][..1] == [entry];
  }

  lemma WalkedFromEmpty(b: seq<string>)
    requires b != []
    ensures Walked([], b) == Equal && Walked(b, []) == Panics
  {
  }

  lemma KeptOne(entry: string, canonical: string -> string)
    ensures Kept([entry], canonical) == if canonical(entry) == "" then [] else [canonical(entry)]
  {
    assert [entry][..0] == [];
    assert Kept([], canonical) == [];
  }

  /* ---------- SET AUTHREC ---------- */

  datatype Record = Record(profile: string, objectType: string, principal: string, group: string, authorities: seq<string>)

  predicate Invalid(r: Record, remove: bool) {
    || r.profile == "" || r.objectType == ""
    || (r.principal == "") == (r.group == "")
    || (!remove && r.authorities == [])
  }

  function RecordClauses(r: Record, remove: bool): seq<Clause> {
    [ Clause("PROFILE", r.profile, true),
      Clause("OBJTYPE", if r.objectType == "NLIST" then "NAMELIST" else r.objectType, false),
      if r.principal != "" then Clause("PRINCIPAL", r.principal, true) else Clause("GROUP", r.group, true),
      if remove then Clause("AUTHRMV", "ALL", false) else Clause("AUTHADD", Join(r.authorities, ","), false) ]
  }

  const SET_AUTHREC := "SET AUTHREC "

  // None is the InvalidSpec error.
  function SetCommand(r: Record, remove: bool): Option<string> {
    if Invalid(r, remove) then None else Some(SET_AUTHREC + PrintAll(RecordClauses(r, remove)))
  }

  method BuildSetAuthority(r: Record, remove: bool) returns (command: Option<string>)
    ensures command == SetCommand(r, remove)
  {
    if r.profile == "" || r.objectType == "" {
      return None;
    }
    if (r.principal == "" && r.group == "") || (r.principal != "" && r.group != "") {
      return None;
    }
    var parts := [Clause("PROFILE", r.profile, true),
                  Clause("OBJTYPE", if r.objectType == "NLIST" then "NAMELIST" else r.objectType, false)];
    if r.principal != "" {
      parts := parts + [Clause("PRINCIPAL", r.principal, true)];
    } else {
      parts := parts + [Clause("GROUP", r.group, true)];
    }
    if remove {
      parts := parts + [Clause("AUTHRMV", "ALL", false)];
    } else {
      if r.authorities == [] {
        return None;
      }
      parts := parts + [Clause("AUTHADD", Join(r.authorities, ","), false)];
    }
    assert parts == RecordClauses(r, remove);
    return Some(SET_AUTHREC + PrintAll(parts));
  }

  predicate WellFormed(r: Record) {
    IsWord(r.objectType) && forall i :: 0 <= i < |r.authorities| ==> IsWord(r.authorities[i])
  }

  lemma {:induction false} JoinIsWord(parts: seq<string>)
    requires forall i :: 0 <= i < |parts| ==> IsWord(parts[i])
    ensures IsWord(Join(parts, ","))
  {
    if |parts| > 1 {
      JoinIsWord(parts[1..]);
    }
  }

  // The queue manager reads the command back as printed, whatever quotes the profile or the
  // name hold.
  lemma SetReadsBack(r: Record, remove: bool)
    requires !Invalid(r, remove) && WellFormed(r)
    ensures SetCommand(r, remove).Some?
    ensures ReadCommand(SET_AUTHREC, SetCommand(r, remove).value) == Some(RecordClauses(r, remove))
  {
    var clauses := RecordClauses(r, remove);
    JoinIsWord(r.authorities);
    forall i | 0 <= i < |clauses|
      ensures Readable(clauses[i])
    {
      assert '(' !in clauses[i].key;
      assert '\'' !in "NAMELIST" && ')' !in "NAMELIST" && ')' !in "ALL";
    }
    CommandIsRead(SET_AUTHREC, clauses);
  }

  /* ---------- grants on the queue manager ---------- */

  // authorityStateFromAttributes and authorityRecordRemoved: None is a record that grants nothing.
  method GetAuthority(attrs: Attrs) returns (observed: Option<seq<string>>)
    ensures observed == Observed(attrs)
  {
    var authorities := [];
    if Lookup(attrs, "authlist") != "" {
      authorities := Keep(Split(Lookup(attrs, "authlist"), ','), TrimSpace);
    }
    return if Removed(authorities) then None else Some(authorities);
  }

  function Listed(authlist: string): seq<string> {
    if authlist == "" then [] else Kept(Split(authlist, ','), TrimSpace)
  }

  predicate Removed(authorities: seq<string>) {
    authorities == [] || (|authorities| == 1 && EqualFold(authorities[0], "NONE"))
  }

  function Observed(attrs: Attrs): Option<seq<string>> {
    var authorities := Listed(Lookup(attrs, "authlist"));
    if Removed(authorities) then None else Some(authorities)
  }

  predicate NeedsUpdate(desired: seq<string>, observed: Option<seq<string>>) {
    observed.None? || Compared(desired, observed.value) != Equal
  }

  // An authority as the queue manager names it.
  predicate IsName(s: string) {
    s != "" && ',' !in s && IsWord(s) && Bare(s, IsSpace) && ToUpper(s) == s
  }

  // The authorities a list asks for.
  ghost function Names(desired: seq<string>): set<string> {
    set i | 0 <= i < |desired| :: Canonical(desired[i])
  }

  ghost predicate Distinct(s: seq<string>) {
    forall i, j :: 0 <= i < j < |s| ==> s[i] != s[j]
  }

  // DISPLAY lists every grant once, in any order.
  ghost predicate Lists(shown: seq<string>, granted: set<string>) {
    Distinct(shown) && (forall x :: x in granted <==> x in shown)
  }

  lemma {:induction false} DistinctCounts(s: seq<string>)
    ensures Distinct(s) <==> forall x :: multiset(s)[x] <= 1
  {
    if s != [] {
      var rest := s[1..];
      assert s == [s[0]] + rest;
      DistinctCounts(rest);
      if Distinct(s) {
        assert s[0] !in rest;
        assert Distinct(rest);
      } else if Distinct(rest) {
        var i, j :| 0 <= i < j < |s| && s[i] == s[j];
        assert i == 0 && s[0] == rest[j - 1];
        assert multiset(rest)[s[0]] >= 1 && multiset(s)[s[0]] >= 2;
      } else {
        var x :| multiset(rest)[x] > 1;
        assert multiset(s)[x] > 1;
      }
    }
  }

  lemma SameListingIff(c: seq<string>, shown: seq<string>, granted: set<string>)
    requires Lists(shown, granted + (set x | x in c))
    ensures multiset(c) == multiset(shown) <==> Distinct(c) && granted <= (set x | x in c)
  {
    DistinctCounts(c);
    DistinctCounts(shown);
    forall x
      ensures x in multiset(c) <==> x in c
      ensures x in multiset(shown) <==> x in shown
    {
    }
    if multiset(c) == multiset(shown) {
      forall x | x in granted
        ensures x in c
      {
        assert x in shown && x in multiset(shown);
      }
    }
    if Distinct(c) && granted <= (set x | x in c) {
      forall x
        ensures multiset(c)[x] == multiset(shown)[x]
      {
        assert x in c <==> x in shown;
      }
    }
  }

  lemma NameIsCanonical(s: string)
    requires IsName(s)
    ensures TrimSpace(s) == s && Canonical(s) == s
  {
    TrimBare(s, IsSpace);
  }

  lemma UpperKeepsBare(s: string)
    ensures Bare(s, IsSpace) ==> Bare(ToUpper(s), IsSpace)
  {
  }

  // Making a text canonical brings in no sign it did not have.
  lemma CanonicalAddsNothing(s: string, c: char)
    requires c !in s && !('A' <= c <= 'Z')
    ensures c !in Canonical(s)
  {
    var t := TrimSpace(s);
    TrimAddsNothing(s, IsSpace, c);
    UpperAddsNothing(t, c);
  }

  lemma UpperAddsNothing(t: string, c: char)
    requires c !in t && !('A' <= c <= 'Z')
    ensures c !in ToUpper(t)
  {
    forall i | 0 <= i < |ToUpper(t)|
      ensures ToUpper(t)[i] != c
    {
      assert t[i] in t;
    }
  }

  lemma CanonicalIsName(s: string)
    requires ',' !in s && IsWord(s) && Canonical(s) != ""
    ensures IsName(Canonical(s))
  {
    var t := TrimSpace(s);
    TrimBare(t, IsSpace);
    UpperKeepsBare(t);
    UpperIdempotent(t);
    CanonicalAddsNothing(s, ',');
    CanonicalAddsNothing(s, ')');
    CanonicalAddsNothing(s, '\'');
  }

  ghost predicate AllNames(shown: seq<string>) {
    forall i :: 0 <= i < |shown| ==> IsName(shown[i])
  }

  // A comma-separated list of names is split into those names.
  lemma ListedIsShown(shown: seq<string>)
    requires AllNames(shown)
    ensures Listed(Join(shown, ",")) == shown
  {
    if shown != [] {
      SplitJoin(shown, ',');
      forall i | 0 <= i < |shown|
        ensures TrimSpace(shown[i]) == shown[i] != ""
      {
        NameIsCanonical(shown[i]);
      }
      KeptAll(shown, TrimSpace);
      assert Join(shown, ",") != "" by {
        assert |shown[0]| > 0;
      }
    }
  }

  lemma NoneIsRemoved(shown: seq<string>)
    requires AllNames(shown) && shown != []
    ensures Removed(shown) <==> shown == ["NONE"]
  {
    if |shown| == 1 && EqualFold(shown[0], "NONE") {
      FoldedUpper(shown[0], "NONE");
      assert ToUpper("NONE") == "NONE";
      assert shown == ["NONE"];
    }
  }

  ghost predicate Askable(desired: seq<string>) {
    desired != [] && forall i :: 0 <= i < |desired| ==> ',' !in desired[i] && IsWord(desired[i]) && Canonical(desired[i]) != ""
  }

  lemma KeptNames(desired: seq<string>)
    requires Askable(desired)
    ensures var c := Kept(desired, Canonical); |c| == |desired| && AllNames(c) && Names(desired) == set x | x in c
  {
    KeptAll(desired, Canonical);
    var c := Kept(desired, Canonical);
    forall i | 0 <= i < |c|
      ensures IsName(c[i])
    {
      CanonicalIsName(desired[i]);
    }
    ImageIs(desired, Canonical, c);
  }

  lemma ImageIs(desired: seq<string>, canonical: string -> string, c: seq<string>)
    requires |c| == |desired| && forall i :: 0 <= i < |c| ==> c[i] == canonical(desired[i])
    ensures (set i | 0 <= i < |desired| :: canonical(desired[i])) == set x | x in c
  {
    var image := set i | 0 <= i < |desired| :: canonical(desired[i]);
    forall x | x in image
      ensures x in c
    {
      var i :| 0 <= i < |desired| && canonical(desired[i]) == x;
      assert c[i] == x;
    }
    forall x | x in c
      ensures x in image
    {
      var i :| 0 <= i < |c| && c[i] == x;
      assert canonical(desired[i]) == x;
    }
  }

  lemma GrantsOfNames(shown: seq<string>)
    requires AllNames(shown)
    ensures Grants(shown) == multiset(shown) && NonBlank(shown, Canonical)
  {
    forall i | 0 <= i < |shown|
      ensures Canonical(shown[i]) == shown[i] != ""
    {
      NameIsCanonical(shown[i]);
    }
    KeptAll(shown, Canonical);
    assert Kept(shown, Canonical) == shown;
  }

  lemma ShownComparedIff(desired: seq<string>, granted: set<string>, shown: seq<string>)
    requires Askable(desired) && AllNames(shown) && Lists(shown, granted + Names(desired))
    ensures Compared(desired, shown) == Equal <==> Distinct(Kept(desired, Canonical)) && granted <= Names(desired)
  {
    KeptNames(desired);
    GrantsOfNames(shown);
    NonBlankCompared(desired, shown);
    SameListingIff(Kept(desired, Canonical), shown, granted);
  }

  /* ---------- executing the printed command ---------- */

  // What a clause does to the grants of a record: AUTHADD adds, AUTHRMV takes away.
  ghost function Granting(granted: set<string>, c: Clause): set<string> {
    if c.key == "AUTHADD" then granted + Names(Split(c.value, ','))
    else if c.key == "AUTHRMV" then (if c.value == "ALL" then {} else granted - Names(Split(c.value, ',')))
    else granted
  }

  ghost function GrantedAfter(granted: set<string>, clauses: seq<Clause>): set<string> {
    if clauses == [] then granted
    else Granting(GrantedAfter(granted, clauses[..|clauses|-1]), clauses[|clauses|-1])
  }

  // Who holds a grant, and on what, as read from a command.
  datatype Holder = Holder(profile: Option<string>, objectType: Option<string>, principal: Option<string>, group: Option<string>)

  function HolderRead(clauses: seq<Clause>): Holder {
    Holder(Held(clauses, "PROFILE"), Held(clauses, "OBJTYPE"), Held(clauses, "PRINCIPAL"), Held(clauses, "GROUP"))
  }

  // The same, told from the record; name lists have a name of their own in MQSC.
  function HolderOf(r: Record): Holder {
    Holder(Some(r.profile), Some(if r.objectType == "NLIST" then "NAMELIST" else r.objectType),
           if r.principal != "" then Some(r.principal) else None, if r.group != "" then Some(r.group) else None)
  }

  // All grants of a queue manager.
  type AllGrants = map<Holder, set<string>>

  ghost function GrantedTo(all: AllGrants, h: Holder): set<string> {
    if h in all then all[h] else {}
  }

  ghost function Executed(all: AllGrants, clauses: seq<Clause>): AllGrants {
    var h := HolderRead(clauses);
    all[h := GrantedAfter(GrantedTo(all, h), clauses)]
  }

  // The grants after sending a record's command; a command that is refused or cannot be read
  // changes nothing.
  ghost function Sent(all: AllGrants, r: Record, remove: bool): AllGrants {
    match SetCommand(r, remove)
    case None => all
    case Some(command) =>
      match ReadCommand(SET_AUTHREC, command)
      case None => all
      case Some(clauses) => Executed(all, clauses)
  }

  lemma GrantedByRecord(granted: set<string>, clauses: seq<Clause>)
    requires |clauses| == 4 && forall i :: 0 <= i < 3 ==> clauses[i].key != "AUTHADD" && clauses[i].key != "AUTHRMV"
    ensures GrantedAfter(granted, clauses) == Granting(granted, clauses[3])
  {
    assert clauses[..4] == clauses && clauses[..3][..2] == clauses[..2] && clauses[..2][..1] == clauses[..1] && clauses[..1][..0] == [];
    assert GrantedAfter(granted, []) == granted;
    assert GrantedAfter(granted, clauses[..1]) == granted;
    assert GrantedAfter(granted, clauses[..2]) == granted;
    assert GrantedAfter(granted, clauses[..3]) == granted;
  }

  lemma HeldOfFour(a: Clause, b: Clause, c: Clause, d: Clause, key: string)
    ensures Held([a, b, c, d], key) ==
      if d.key == key then Some(d.value) else if c.key == key then Some(c.value)
      else if b.key == key then Some(b.value) else if a.key == key then Some(a.value) else None
  {
    HeldOne(a, key);
    HeldOne(b, key);
    HeldOne(c, key);
    HeldOne(d, key);
    HeldSum([a], [b], key);
    HeldSum([a] + [b], [c], key);
    HeldSum([a] + [b] + [c], [d], key);
    assert [a, b, c, d] == [a] + [b] + [c] + [d];
  }

  lemma HolderIsRead(r: Record, remove: bool)
    requires !Invalid(r, remove)
    ensures HolderRead(RecordClauses(r, remove)) == HolderOf(r)
  {
    var x := RecordClauses(r, remove);
    assert x == [x[0], x[1], x[2], x[3]];
    HeldOfFour(x[0], x[1], x[2], x[3], "PROFILE");
    HeldOfFour(x[0], x[1], x[2], x[3], "OBJTYPE");
    HeldOfFour(x[0], x[1], x[2], x[3], "PRINCIPAL");
    HeldOfFour(x[0], x[1], x[2], x[3], "GROUP");
  }

  ghost predicate Sendable(r: Record, remove: bool) {
    !Invalid(r, remove) && WellFormed(r) && forall i :: 0 <= i < |r.authorities| ==> ',' !in r.authorities[i]
  }

  lemma SentExecutes(all: AllGrants, r: Record, remove: bool)
    requires Sendable(r, remove)
    ensures Sent(all, r, remove) == all[HolderOf(r) := GrantedAfter(GrantedTo(all, HolderOf(r)), RecordClauses(r, remove))]
  {
    SetReadsBack(r, remove);
    HolderIsRead(r, remove);
  }

  // Setting a record adds exactly its authorities to what its principal or group has on its
  // profile; removing it leaves that holder no grant. Nobody else's grants change.
  lemma SentIs(all: AllGrants, r: Record, remove: bool, h: Holder)
    requires Sendable(r, remove)
    ensures GrantedTo(Sent(all, r, remove), h) ==
      if h != HolderOf(r) then GrantedTo(all, h)
      else if remove then {}
      else GrantedTo(all, h) + Names(r.authorities)
  {
    SentExecutes(all, r, remove);
    GrantedByRecord(GrantedTo(all, HolderOf(r)), RecordClauses(r, remove));
    if !remove {
      SplitJoin(r.authorities, ',');
    }
  }

  // Sending the SET command n times.
  ghost function SentTimes(all: AllGrants, r: Record, n: nat): AllGrants {
    if n == 0 then all else Sent(SentTimes(all, r, n - 1), r, false)
  }

  lemma {:induction false} SentTimesIs(all: AllGrants, r: Record, n: nat)
    requires 0 < n && Sendable(r, false)
    ensures GrantedTo(SentTimes(all, r, n), HolderOf(r)) == GrantedTo(all, HolderOf(r)) + Names(r.authorities)
  {
    SentIs(SentTimes(all, r, n - 1), r, false, HolderOf(r));
    if 1 < n {
      SentTimesIs(all, r, n - 1);
    }
  }

  // DISPLAY AUTHREC lists the grants, each once and in any order.
  ghost predicate Answers(granted: set<string>, shown: seq<string>, pairs: seq<Pair>, lines: seq<string>) {
    && AllNames(shown) && Lists(shown, granted)
    && pairs != [] && Clean(pairs) && Shows(pairs, "AUTHLIST", Join(shown, ","))
    && Displays(lines, pairs)
  }

  lemma BareWord(s: string)
    requires IsWord(s)
    ensures Bare(s, IsQuote)
  {
  }

  lemma JoinedNamesBare(shown: seq<string>)
    requires AllNames(shown) && shown != []
    ensures Bare(Join(shown, ","), IsSpace)
  {
    JoinEndsOn(shown, ",");
  }

  lemma AuthListSeen(shown: seq<string>, pairs: seq<Pair>, lines: seq<string>)
    requires AllNames(shown) && pairs != [] && Clean(pairs) && Shows(pairs, "AUTHLIST", Join(shown, ",")) && Displays(lines, pairs)
    ensures Lookup(Parsed(lines), "authlist") == Join(shown, ",")
  {
    var list := Join(shown, ",");
    ParsedIs(lines, pairs);
    ShownIsFound(pairs, "AUTHLIST", list);
    AuthListName();
    JoinIsWord(shown);
    if shown != [] {
      JoinedNamesBare(shown);
    }
    CleanedWord(list);
  }

  lemma AuthListName()
    ensures ToLower("AUTHLIST") == "authlist" && IsKeyword("AUTHLIST")
  {
  }

  lemma CleanedWord(s: string)
    requires IsWord(s) && Bare(s, IsSpace)
    ensures Cleaned(s) == s
  {
    BareWord(s);
    TrimBare(s, IsSpace);
    TrimBare(s, IsQuote);
  }

  // The fixpoint of AUTHADD: print SET, have it read and executed any number of times, list
  // the holder's grants, parse and compare. No further update is asked for exactly when no
  // authority is asked for twice, nothing else had been granted to the holder before, and the
  // record does not merely say NONE.
  lemma ApplySettlesIff(r: Record, all: AllGrants, n: nat, shown: seq<string>, pairs: seq<Pair>, lines: seq<string>)
    requires 0 < n && !Invalid(r, false) && IsWord(r.objectType) && Askable(r.authorities)
    requires Answers(GrantedTo(SentTimes(all, r, n), HolderOf(r)), shown, pairs, lines)
    ensures !NeedsUpdate(r.authorities, Observed(Parsed(lines))) <==>
      && Distinct(Kept(r.authorities, Canonical)) && GrantedTo(all, HolderOf(r)) <= Names(r.authorities)
      && Names(r.authorities) != {"NONE"}
  {
    SentTimesIs(all, r, n);
    AuthListSeen(shown, pairs, lines);
    ListingSettlesIff(r.authorities, GrantedTo(all, HolderOf(r)), shown, Parsed(lines));
  }

  // After the removal command the record is reported as not found.
  lemma RemoveSettles(r: Record, all: AllGrants, shown: seq<string>, pairs: seq<Pair>, lines: seq<string>)
    requires !Invalid(r, true) && IsWord(r.objectType) && (r.authorities == [] || Askable(r.authorities))
    requires Answers(GrantedTo(Sent(all, r, true), HolderOf(r)), shown, pairs, lines)
    ensures Observed(Parsed(lines)) == None
  {
    SentIs(all, r, true, HolderOf(r));
    AuthListSeen(shown, pairs, lines);
    ListsNothing(shown);
    ObservedIs(Parsed(lines), shown);
  }

  lemma ListsNothing(shown: seq<string>)
    requires Lists(shown, {})
    ensures shown == []
  {
    forall x: string
      ensures x !in multiset(shown)
    {
      assert x in multiset(shown) <==> x in shown;
    }
    assert |multiset(shown)| == |shown|;
  }

  lemma ListingSettlesIff(desired: seq<string>, granted: set<string>, shown: seq<string>, attrs: Attrs)
    requires Askable(desired) && AllNames(shown) && Lists(shown, granted + Names(desired))
    requires Lookup(attrs, "authlist") == Join(shown, ",")
    ensures !NeedsUpdate(desired, Observed(attrs)) <==>
      Distinct(Kept(desired, Canonical)) && granted <= Names(desired) && Names(desired) != {"NONE"}
  {
    ObservedIs(attrs, shown);
    ShownComparedIff(desired, granted, shown);
    if granted <= Names(desired) {
      NoneIffAsked(desired, granted, shown);
    }
  }

  lemma NoneIffAsked(desired: seq<string>, granted: set<string>, shown: seq<string>)
    requires desired != [] && AllNames(shown) && Lists(shown, granted + Names(desired)) && granted <= Names(desired)
    ensures Removed(shown) <==> Names(desired) == {"NONE"}
  {
    SomethingShown(desired, granted, shown);
    NoneIsRemoved(shown);
    assert granted + Names(desired) == Names(desired);
    ListsNone(shown, Names(desired));
  }

  lemma SomethingShown(desired: seq<string>, granted: set<string>, shown: seq<string>)
    requires desired != [] && Lists(shown, granted + Names(desired))
    ensures shown != []
  {
    assert Canonical(desired[0]) in Names(desired);
  }

  lemma ObservedIs(attrs: Attrs, shown: seq<string>)
    requires AllNames(shown) && Lookup(attrs, "authlist") == Join(shown, ",")
    ensures Observed(attrs) == if Removed(shown) then None else Some(shown)
  {
    ListedIsShown(shown);
  }

  lemma ListsNone(shown: seq<string>, granted: set<string>)
    requires Lists(shown, granted)
    ensures shown == ["NONE"] <==> granted == {"NONE"}
  {
    if granted == {"NONE"} {
      assert "NONE" in shown;
      assert forall i :: 0 <= i < |shown| ==> shown[i] in granted;
      OnlyOne(shown, "NONE");
    }
  }

  lemma OnlyOne(shown: seq<string>, x: string)
    requires Distinct(shown) && x in shown && forall i :: 0 <= i < |shown| ==> shown[i] == x
    ensures shown == [x]
  {
    DistinctCounts(shown);
    AllSame(shown, x);
  }

  lemma {:induction false} AllSame(shown: seq<string>, x: string)
    requires forall i :: 0 <= i < |shown| ==> shown[i] == x
    ensures multiset(shown)[x] == |shown|
  {
    if shown != [] {
      assert shown == [shown[0]] + shown[1..];
      AllSame(shown[1..], x);
    }
  }
}
