/**
 CHLAUTH rules: the SET command printed for a rule, the DISPLAY text a queue manager answers
 with, and the comparison of the parsed answer with the rule.
 */
module ChannelAuth {
  import opened Options
  import opened Text
  import opened Mqsc
  import opened Attributes
  import opened DisplayText

  datatype Rule = Rule(
    channel: string,
    ruleType: string,
    address: string,
    userList: string,
    clientUser: string,
    sslPeer: string,
    qmName: string,
    mcaUser: string,
    userSource: string,
    checkClient: string,
    description: string)

  // The observed counterpart; channel and type are copied from the rule and not compared.
  datatype State = State(
    address: string,
    userList: string,
    clientUser: string,
    sslPeer: string,
    qmName: string,
    mcaUser: string,
    userSource: string,
    checkClient: string,
    description: string)

  datatype Field = Address | ClientUser | SslPeer | QmName | UserList | UserSource | McaUser | CheckClient | Description

  function Desired(r: Rule, f: Field): string {
    match f
    case Address => r.address
    case ClientUser => r.clientUser
    case SslPeer => r.sslPeer
    case QmName => r.qmName
    case UserList => r.userList
    case UserSource => r.userSource
    case McaUser => r.mcaUser
    case CheckClient => r.checkClient
    case Description => r.description
  }

  function Keyword(r: Rule, f: Field): string {
    match f
    case Address => if r.ruleType == "BLOCKADDR" then "ADDRLIST" else "ADDRESS"
    case ClientUser => "CLNTUSER"
    case SslPeer => "SSLPEER"
    case QmName => "QMNAME"
    case UserList => "USERLIST"
    case UserSource => "USERSRC"
    case McaUser => "MCAUSER"
    case CheckClient => "CHCKCLNT"
    case Description => "DESCR"
  }

  // The rule type a field is bound to, if any.
  predicate Fits(r: Rule, f: Field) {
    match f
    case ClientUser => r.ruleType == "USERMAP"
    case SslPeer => r.ruleType == "SSLPEERMAP"
    case QmName => r.ruleType == "QMGRMAP"
    case _ => true
  }

  predicate Set(r: Rule, f: Field) {
    Desired(r, f) != "" && Fits(r, f)
  }

  /* ---------- SET ---------- */

  predicate Unquoted(f: Field) {
    f == UserSource || f == CheckClient
  }

  function ClauseOf(r: Rule, f: Field): seq<Clause> {
    if Set(r, f) then [Clause(Keyword(r, f), Desired(r, f), !Unquoted(f))] else []
  }

  // The identifying clauses, then, unless the rule is being removed, what it sets.
  function Assembled(head: seq<Clause>, clause: Field -> seq<Clause>, action: string): seq<Clause> {
    head + clause(Address) + clause(ClientUser) + clause(SslPeer) + clause(QmName)
    + (if action == "REMOVE" then []
       else clause(UserList) + clause(UserSource) + clause(McaUser) + clause(CheckClient) + clause(Description))
    + [Clause("ACTION", action, false)]
  }

  function Head(r: Rule): seq<Clause> {
    [Clause("CHLAUTH", r.channel, true), Clause("TYPE", r.ruleType, false)]
  }

  function SetClauses(r: Rule, action: string): seq<Clause> {
    Assembled(Head(r), f => ClauseOf(r, f), action)
  }

  method Assemble(head: seq<Clause>, clause: Field -> seq<Clause>, action: string) returns (parts: seq<Clause>)
    ensures parts == Assembled(head, clause, action)
  {
    parts := head;
    parts := parts + clause(Address);
    parts := parts + clause(ClientUser);
    parts := parts + clause(SslPeer);
    parts := parts + clause(QmName);
    if action == "REMOVE" {
      parts := parts + [Clause("ACTION", "REMOVE", false)];
      return;
    }
    parts := parts + clause(UserList);
    parts := parts + clause(UserSource);
    parts := parts + clause(McaUser);
    parts := parts + clause(CheckClient);
    parts := parts + clause(Description);
    parts := parts + [Clause("ACTION", action, false)];
  }

  const SET := "SET "

  // None is the InvalidSpec error.
  function SetCommand(r: Rule, action: string): Option<string> {
    if r.channel == "" || r.ruleType == "" then None else Some(SET + PrintAll(SetClauses(r, action)))
  }

  method BuildSetChannelAuth(r: Rule, action: string) returns (command: Option<string>)
    ensures command == SetCommand(r, action)
  {
    if r.channel == "" || r.ruleType == "" {
      return None;
    }
    var parts := Assemble(Head(r), f => ClauseOf(r, f), action);
    return Some(SET + PrintAll(parts));
  }

  predicate AllReadable(clauses: seq<Clause>) {
    forall i :: 0 <= i < |clauses| ==> Readable(clauses[i])
  }

  lemma KeywordsAreWords(r: Rule, f: Field)
    ensures IsKeyword(Keyword(r, f)) && '(' !in Keyword(r, f)
  {
  }

  lemma ClauseReadable(r: Rule, f: Field)
    requires IsWord(r.userSource) && IsWord(r.checkClient)
    ensures AllReadable(ClauseOf(r, f))
  {
    KeywordsAreWords(r, f);
  }

  lemma AssembledReadable(head: seq<Clause>, clause: Field -> seq<Clause>, action: string)
    requires AllReadable(head) && IsWord(action) && forall f :: AllReadable(clause(f))
    ensures AllReadable(Assembled(head, clause, action))
  {
    assert '(' !in "ACTION";
  }

  // Rule type, user source and client check are enumerated words.
  predicate WellFormed(r: Rule) {
    r.channel != "" && r.ruleType != "" && IsWord(r.ruleType) && IsWord(r.userSource) && IsWord(r.checkClient)
  }

  // MQ reads back exactly the clauses of the rule, whatever its quoted values.
  lemma SetReadsBack(r: Rule, action: string)
    requires WellFormed(r) && IsWord(action)
    ensures SetCommand(r, action).Some?
    ensures ReadCommand(SET, SetCommand(r, action).value) == Some(SetClauses(r, action))
  {
    var clause := f => ClauseOf(r, f);
    forall f
      ensures AllReadable(clause(f))
    {
      ClauseReadable(r, f);
    }
    assert AllReadable(Head(r)) by {
      assert '(' !in "CHLAUTH" && '(' !in "TYPE";
    }
    AssembledReadable(Head(r), clause, action);
    CommandIsRead(SET, SetClauses(r, action));
  }

  lemma KeywordsDiffer(r: Rule, f: Field, g: Field)
    requires f != g
    ensures Keyword(r, f) != Keyword(r, g)
  {
  }

  lemma KeywordsAreSettings(r: Rule, f: Field)
    ensures Keyword(r, f) != "CHLAUTH" && Keyword(r, f) != "TYPE" && Keyword(r, f) != "ACTION"
  {
  }

  // The fields that tell one rule of a channel and type from another.
  predicate Identifies(f: Field) {
    f == Address || f == ClientUser || f == SslPeer || f == QmName
  }

  lemma IdentityHeld(head: seq<Clause>, clause: Field -> seq<Clause>, key: string, f: Field)
    requires Held(head, key).None? && forall g :: g != f ==> Held(clause(g), key).None?
    ensures Held(head + clause(Address) + clause(ClientUser) + clause(SslPeer) + clause(QmName), key) ==
      if Identifies(f) then Held(clause(f), key) else None
  {
    HeldSum(head, clause(Address), key);
    HeldSum(head + clause(Address), clause(ClientUser), key);
    HeldSum(head + clause(Address) + clause(ClientUser), clause(SslPeer), key);
    HeldSum(head + clause(Address) + clause(ClientUser) + clause(SslPeer), clause(QmName), key);
  }

  lemma SettingsHeld(clause: Field -> seq<Clause>, key: string, f: Field)
    requires forall g :: g != f ==> Held(clause(g), key).None?
    ensures Held(clause(UserList) + clause(UserSource) + clause(McaUser) + clause(CheckClient) + clause(Description), key) ==
      if Identifies(f) then None else Held(clause(f), key)
  {
    HeldSum(clause(UserList), clause(UserSource), key);
    HeldSum(clause(UserList) + clause(UserSource), clause(McaUser), key);
    HeldSum(clause(UserList) + clause(UserSource) + clause(McaUser), clause(CheckClient), key);
    HeldSum(clause(UserList) + clause(UserSource) + clause(McaUser) + clause(CheckClient), clause(Description), key);
  }

  // In the assembled command a keyword says what its one field says; a removal says nothing
  // about settings.
  lemma AssembledHeld(head: seq<Clause>, clause: Field -> seq<Clause>, action: string, key: string, f: Field)
    requires key != "ACTION" && Held(head, key).None?
    requires forall g :: g != f ==> Held(clause(g), key).None?
    ensures Held(Assembled(head, clause, action), key) ==
      if action != "REMOVE" || Identifies(f) then Held(clause(f), key) else None
  {
    var identity := head + clause(Address) + clause(ClientUser) + clause(SslPeer) + clause(QmName);
    var settings := if action == "REMOVE" then []
                    else clause(UserList) + clause(UserSource) + clause(McaUser) + clause(CheckClient) + clause(Description);
    IdentityHeld(head, clause, key, f);
    SettingsHeld(clause, key, f);
    HeldSum(identity, settings, key);
    HeldSum(identity + settings, [Clause("ACTION", action, false)], key);
    HeldOne(Clause("ACTION", action, false), key);
  }

  // The head is not overruled.
  lemma HeadStays(head: seq<Clause>, clause: Field -> seq<Clause>, key: string)
    requires forall g :: Held(clause(g), key).None?
    ensures Held(head + clause(Address) + clause(ClientUser) + clause(SslPeer) + clause(QmName), key) == Held(head, key)
  {
    HeldSum(head, clause(Address), key);
    HeldSum(head + clause(Address), clause(ClientUser), key);
    HeldSum(head + clause(Address) + clause(ClientUser), clause(SslPeer), key);
    HeldSum(head + clause(Address) + clause(ClientUser) + clause(SslPeer), clause(QmName), key);
  }

  lemma AssembledHead(head: seq<Clause>, clause: Field -> seq<Clause>, action: string, key: string)
    requires key != "ACTION" && forall g :: Held(clause(g), key).None?
    ensures Held(Assembled(head, clause, action), key) == Held(head, key)
  {
    var identity := head + clause(Address) + clause(ClientUser) + clause(SslPeer) + clause(QmName);
    var settings := if action == "REMOVE" then []
                    else clause(UserList) + clause(UserSource) + clause(McaUser) + clause(CheckClient) + clause(Description);
    HeadStays(head, clause, key);
    SettingsHeld(clause, key, Address);
    HeldSum(identity, settings, key);
    HeldSum(identity + settings, [Clause("ACTION", action, false)], key);
    HeldOne(Clause("ACTION", action, false), key);
  }

  lemma AssembledAction(head: seq<Clause>, clause: Field -> seq<Clause>, action: string)
    ensures Held(Assembled(head, clause, action), "ACTION") == Some(action)
  {
  }

  lemma ClauseHeld(r: Rule, f: Field, key: string)
    ensures Held(ClauseOf(r, f), key) == if Set(r, f) && Keyword(r, f) == key then Some(Desired(r, f)) else None
  {
    if Set(r, f) {
      HeldOne(Clause(Keyword(r, f), Desired(r, f), !Unquoted(f)), key);
    }
  }

  lemma HeadHeld(r: Rule, key: string)
    requires key != "CHLAUTH" && key != "TYPE"
    ensures Held(Head(r), key).None?
  {
    HeldSum([Clause("CHLAUTH", r.channel, true)], [Clause("TYPE", r.ruleType, false)], key);
    HeldOne(Clause("CHLAUTH", r.channel, true), key);
    HeldOne(Clause("TYPE", r.ruleType, false), key);
    assert Head(r) == [Clause("CHLAUTH", r.channel, true)] + [Clause("TYPE", r.ruleType, false)];
  }

  // The command gives a keyword a value exactly when the rule sets its field, and then that
  // value; a removal only those that identify the rule.
  lemma SetHolds(r: Rule, action: string, key: string, f: Field)
    requires key != "CHLAUTH" && key != "TYPE" && key != "ACTION"
    requires forall g :: g != f ==> Keyword(r, g) != key
    ensures Held(SetClauses(r, action), key) ==
      if Set(r, f) && Keyword(r, f) == key && (action != "REMOVE" || Identifies(f)) then Some(Desired(r, f)) else None
  {
    var clause := f => ClauseOf(r, f);
    forall g
      ensures Held(clause(g), key) == if Set(r, g) && Keyword(r, g) == key then Some(Desired(r, g)) else None
    {
      ClauseHeld(r, g, key);
    }
    HeadHeld(r, key);
    AssembledHeld(Head(r), clause, action, key, f);
  }

  lemma HeadIs(r: Rule)
    ensures Held(Head(r), "CHLAUTH") == Some(r.channel) && Held(Head(r), "TYPE") == Some(r.ruleType)
  {
    assert Head(r) == [Clause("CHLAUTH", r.channel, true)] + [Clause("TYPE", r.ruleType, false)];
    HeldSum([Clause("CHLAUTH", r.channel, true)], [Clause("TYPE", r.ruleType, false)], "CHLAUTH");
    HeldOne(Clause("CHLAUTH", r.channel, true), "CHLAUTH");
    HeldOne(Clause("TYPE", r.ruleType, false), "CHLAUTH");
  }

  // It names its channel, its type and its action, whatever the rule.
  lemma SetNames(r: Rule, action: string)
    ensures Held(SetClauses(r, action), "CHLAUTH") == Some(r.channel)
    ensures Held(SetClauses(r, action), "TYPE") == Some(r.ruleType)
    ensures Held(SetClauses(r, action), "ACTION") == Some(action)
  {
    var clause := f => ClauseOf(r, f);
    forall g
      ensures Held(clause(g), "CHLAUTH").None? && Held(clause(g), "TYPE").None?
    {
      ClauseHeld(r, g, "CHLAUTH");
      ClauseHeld(r, g, "TYPE");
      KeywordsAreSettings(r, g);
    }
    HeadIs(r);
    AssembledHead(Head(r), clause, action, "CHLAUTH");
    AssembledHead(Head(r), clause, action, "TYPE");
    AssembledAction(Head(r), clause, action);
  }

  /* ---------- the rules of a queue manager ---------- */

  // What tells rules apart, read from a command.
  datatype Identity = Identity(
    channel: Option<string>,
    ruleType: Option<string>,
    address: Option<string>,
    addressList: Option<string>,
    clientUser: Option<string>,
    sslPeer: Option<string>,
    qmName: Option<string>)

  function IdentityRead(clauses: seq<Clause>): Identity {
    Identity(Held(clauses, "CHLAUTH"), Held(clauses, "TYPE"), Held(clauses, "ADDRESS"), Held(clauses, "ADDRLIST"),
             Held(clauses, "CLNTUSER"), Held(clauses, "SSLPEER"), Held(clauses, "QMNAME"))
  }

  // The same, told from the rule.
  function Given(value: string, fits: bool): Option<string> {
    if value != "" && fits then Some(value) else None
  }

  function IdentityOf(r: Rule): Identity {
    Identity(Some(r.channel), Some(r.ruleType),
             Given(r.address, r.ruleType != "BLOCKADDR"), Given(r.address, r.ruleType == "BLOCKADDR"),
             Given(r.clientUser, r.ruleType == "USERMAP"), Given(r.sslPeer, r.ruleType == "SSLPEERMAP"),
             Given(r.qmName, r.ruleType == "QMGRMAP"))
  }

  // Every rule by its identity, with the clauses that set it.
  type Rules = map<Identity, seq<Clause>>

  // REPLACE puts a rule in the place of one of the same identity; REMOVE takes it away.
  function Executed(rules: Rules, clauses: seq<Clause>): Rules {
    match Held(clauses, "ACTION")
    case Some("REPLACE") => rules[IdentityRead(clauses) := clauses]
    case Some("REMOVE") => rules - {IdentityRead(clauses)}
    case _ => rules
  }

  // The rules after the command for r was sent; one that cannot be built or read changes nothing.
  function Sent(rules: Rules, r: Rule, action: string): Rules {
    match SetCommand(r, action)
    case None => rules
    case Some(command) =>
      match ReadCommand(SET, command)
      case None => rules
      case Some(clauses) => Executed(rules, clauses)
  }

  lemma OtherAddressHeld(r: Rule, action: string, key: string)
    requires key == (if r.ruleType == "BLOCKADDR" then "ADDRESS" else "ADDRLIST")
    ensures Held(SetClauses(r, action), key).None?
  {
    SetHolds(r, action, key, Address);
  }

  lemma FieldIsHeld(r: Rule, action: string, f: Field)
    ensures Held(SetClauses(r, action), Keyword(r, f)) ==
      if Set(r, f) && (action != "REMOVE" || Identifies(f)) then Some(Desired(r, f)) else None
  {
    KeywordsAreSettings(r, f);
    forall g | g != f
      ensures Keyword(r, g) != Keyword(r, f)
    {
      KeywordsDiffer(r, g, f);
    }
    SetHolds(r, action, Keyword(r, f), f);
  }

  lemma IdentityIsRead(r: Rule, action: string)
    ensures IdentityRead(SetClauses(r, action)) == IdentityOf(r)
  {
    SetNames(r, action);
    FieldIsHeld(r, action, Address);
    FieldIsHeld(r, action, ClientUser);
    FieldIsHeld(r, action, SslPeer);
    FieldIsHeld(r, action, QmName);
    OtherAddressHeld(r, action, if r.ruleType == "BLOCKADDR" then "ADDRESS" else "ADDRLIST");
  }

  lemma ExecutedIs(rules: Rules, clauses: seq<Clause>, id: Identity, action: string)
    requires Held(clauses, "ACTION") == Some(action) && (action == "REPLACE" || action == "REMOVE")
    requires IdentityRead(clauses) == id
    ensures Executed(rules, clauses) == if action == "REPLACE" then rules[id := clauses] else rules - {id}
  {
  }

  lemma SentExecutes(rules: Rules, r: Rule, action: string)
    requires WellFormed(r) && IsWord(action)
    ensures Sent(rules, r, action) == Executed(rules, SetClauses(r, action))
  {
    SetReadsBack(r, action);
  }

  lemma SetIsStored(rules: Rules, r: Rule)
    requires WellFormed(r)
    ensures Sent(rules, r, "REPLACE") == rules[IdentityOf(r) := SetClauses(r, "REPLACE")]
  {
    SentExecutes(rules, r, "REPLACE");
    SetNames(r, "REPLACE");
    IdentityIsRead(r, "REPLACE");
    ExecutedIs(rules, SetClauses(r, "REPLACE"), IdentityOf(r), "REPLACE");
  }

  lemma OneReplaced<K, V>(m: map<K, V>, k: K, v: V)
    ensures m[k := v] - {k} == m - {k} && (m - {k}) - {k} == m - {k}
  {
  }

  // A record that says about every field exactly what the resource gives.
  ghost predicate SaysAll(record: seq<Clause>, r: Rule) {
    forall f :: Held(record, Keyword(r, f)) == if Set(r, f) then Some(Desired(r, f)) else None
  }

  lemma SetSaysAll(r: Rule)
    ensures SaysAll(SetClauses(r, "REPLACE"), r)
  {
    forall f
      ensures Held(SetClauses(r, "REPLACE"), Keyword(r, f)) == if Set(r, f) then Some(Desired(r, f)) else None
    {
      FieldIsHeld(r, "REPLACE", f);
    }
  }

  // After SET the queue manager has the rule, with exactly the values the resource gives; after
  // the removal it has it no more. Every other rule is as it was.
  lemma SentIs(rules: Rules, r: Rule, action: string)
    requires WellFormed(r) && (action == "REPLACE" || action == "REMOVE")
    ensures var after, id := Sent(rules, r, action), IdentityOf(r);
            && after - {id} == rules - {id}
            && (id in after <==> action == "REPLACE")
            && (action == "REPLACE" ==> SaysAll(after[id], r))
  {
    SentExecutes(rules, r, action);
    SetNames(r, action);
    IdentityIsRead(r, action);
    ExecutedIs(rules, SetClauses(r, action), IdentityOf(r), action);
    OneReplaced(rules, IdentityOf(r), SetClauses(r, action));
    if action == "REPLACE" {
      SetSaysAll(r);
    }
  }

  // Removing undoes setting: what remains is what was there before, without the rule.
  lemma RemoveUndoesSet(rules: Rules, r: Rule)
    requires WellFormed(r)
    ensures Sent(Sent(rules, r, "REPLACE"), r, "REMOVE") == rules - {IdentityOf(r)}
  {
    SentIs(rules, r, "REPLACE");
    SentIs(Sent(rules, r, "REPLACE"), r, "REMOVE");
    WithoutOne(Sent(Sent(rules, r, "REPLACE"), r, "REMOVE"), IdentityOf(r));
  }

  lemma WithoutOne<K, V>(m: map<K, V>, k: K)
    requires k !in m
    ensures m - {k} == m
  {
  }

  /* ---------- what DISPLAY reports ---------- */

  function StateFrom(r: Rule, attrs: Attrs): State {
    var address := Lookup(attrs, "address");
    var addrlist := Lookup(attrs, "addrlist");
    State(
      if r.ruleType == "BLOCKADDR" && addrlist != "" then addrlist else address,
      Lookup(attrs, "userlist"),
      Lookup(attrs, "clntuser"),
      Lookup(attrs, "sslpeer"),
      Lookup(attrs, "qmname"),
      Lookup(attrs, "mcauser"),
      Lookup(attrs, "usersrc"),
      Lookup(attrs, "chckclnt"),
      Lookup(attrs, "descr"))
  }

  function Seen(s: State, f: Field): string {
    match f
    case Address => s.address
    case ClientUser => s.clientUser
    case SslPeer => s.sslPeer
    case QmName => s.qmName
    case UserList => s.userList
    case UserSource => s.userSource
    case McaUser => s.mcaUser
    case CheckClient => s.checkClient
    case Description => s.description
  }

  predicate Alike(a: string, b: string) {
    EqualFold(TrimSpace(a), TrimSpace(b))
  }

  predicate Strict(f: Field) {
    f == Address || f == UserList || f == ClientUser || f == SslPeer || f == QmName
  }

  // Whether one field calls for a SET: five are always compared, three only when the rule
  // gives them, the description only when MQ reports one.
  predicate Differs(f: Field, desired: string, seen: string) {
    if Strict(f) then !Alike(desired, seen)
    else if f == Description then TrimSpace(seen) != "" && TrimSpace(desired) != TrimSpace(seen)
    else TrimSpace(desired) != "" && !Alike(desired, seen)
  }

  predicate AnyField(p: Field -> bool) {
    || p(Address) || p(UserList) || p(ClientUser) || p(SslPeer) || p(QmName)
    || p(McaUser) || p(UserSource) || p(CheckClient) || p(Description)
  }

  lemma AnyFieldIff(p: Field -> bool)
    ensures AnyField(p) <==> exists f :: p(f)
  {
    if f :| p(f) {
      assert f == Address || f == ClientUser || f == SslPeer || f == QmName || f == UserList
          || f == UserSource || f == McaUser || f == CheckClient || f == Description;
    }
  }

  predicate NeedsUpdate(r: Rule, observed: Option<State>) {
    observed.None? || AnyField(f => Differs(f, Desired(r, f), Seen(observed.value, f)))
  }

  /* ---------- what is told apart ---------- */

  ghost predicate Blank(s: string) {
    AllCut(s, IsSpace)
  }

  lemma BlankIff(s: string)
    ensures Blank(s) <==> TrimSpace(s) == ""
  {
    if Blank(s) {
      TrimLeftAll(s, IsSpace);
    }
    if TrimSpace(s) == "" {
      var a, b := TrimParts(s, IsSpace);
      assert s == a + b;
    }
  }

  lemma AlikeIff(a: string, b: string)
    ensures Alike(a, b) <==> CoresAgree(a, b, SameLetters)
  {
    EqualFoldIff(TrimSpace(a), TrimSpace(b));
    CoresAgreeIff(a, b, SameLetters);
  }

  // Blanks around a value and case do not count, but the case of a description does.
  ghost predicate InStep(f: Field, desired: string, seen: string) {
    match f
    case Description => Blank(seen) || CoresAgree(desired, seen, SameText)
    case McaUser => Blank(desired) || CoresAgree(desired, seen, SameLetters)
    case UserSource => Blank(desired) || CoresAgree(desired, seen, SameLetters)
    case CheckClient => Blank(desired) || CoresAgree(desired, seen, SameLetters)
    case _ => CoresAgree(desired, seen, SameLetters)
  }

  lemma StrictDiffersIff(f: Field, desired: string, seen: string)
    requires Strict(f)
    ensures Differs(f, desired, seen) <==> !InStep(f, desired, seen)
  {
    AlikeIff(desired, seen);
  }

  lemma DescriptionDiffersUnless(desired: string, seen: string)
    ensures Differs(Description, desired, seen) <==> !InStep(Description, desired, seen)
  {
    BlankIff(seen);
    CoresAgreeIff(desired, seen, SameText);
  }

  lemma ManagedDiffersIff(f: Field, desired: string, seen: string)
    requires f == McaUser || f == UserSource || f == CheckClient
    ensures Differs(f, desired, seen) <==> !InStep(f, desired, seen)
  {
    BlankIff(desired);
    AlikeIff(desired, seen);
  }

  lemma DiffersIff(f: Field, desired: string, seen: string)
    ensures Differs(f, desired, seen) <==> !InStep(f, desired, seen)
  {
    if f == Description {
      DescriptionDiffersUnless(desired, seen);
    } else if Strict(f) {
      StrictDiffersIff(f, desired, seen);
    } else {
      ManagedDiffersIff(f, desired, seen);
    }
  }

  // All nine fields pass a test of what is wanted against what is seen.
  ghost predicate Nine(r: Rule, s: State, test: (Field, string, string) -> bool) {
    && test(Address, r.address, s.address) && test(UserList, r.userList, s.userList)
    && test(ClientUser, r.clientUser, s.clientUser) && test(SslPeer, r.sslPeer, s.sslPeer)
    && test(QmName, r.qmName, s.qmName) && test(McaUser, r.mcaUser, s.mcaUser)
    && test(UserSource, r.userSource, s.userSource) && test(CheckClient, r.checkClient, s.checkClient)
    && test(Description, r.description, s.description)
  }

  lemma NineIff(r: Rule, s: State, differs: Field -> bool, test: (Field, string, string) -> bool)
    requires forall f :: differs(f) <==> !test(f, Desired(r, f), Seen(s, f))
    ensures AnyField(differs) <==> !Nine(r, s, test)
  {
  }

  // Whatever the queue manager reports: an update is needed exactly if there is no rule or one
  // of its nine fields is out of step. A field the resource leaves blank must be blank in MQ,
  // but for the three that it then does not manage; a description must agree if MQ shows one.
  lemma UpdateIff(r: Rule, observed: Option<State>)
    ensures !NeedsUpdate(r, observed) <==> observed.Some? && Nine(r, observed.value, InStep)
  {
    if observed.Some? {
      var s := observed.value;
      var differs := f => Differs(f, Desired(r, f), Seen(s, f));
      forall f
        ensures differs(f) <==> !InStep(f, Desired(r, f), Seen(s, f))
      {
        DiffersIff(f, Desired(r, f), Seen(s, f));
      }
      NineIff(r, s, differs, InStep);
    }
  }
}
