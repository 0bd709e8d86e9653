/**
 MQSC text: quoting and command clauses on the way out, KEY(value) pairs of DISPLAY output on
 the way back.
 */
module Mqsc {
  import opened Options
  import opened Text

  /* ---------- quoted clauses ---------- */

  function Quote(s: string): string {
    if s == [] then []
    else if s[0] == '\'' then "''" + Quote(s[1..])
    else [s[0]] + Quote(s[1..])
  }

  // How MQSC reads a literal after its opening quote: a doubled quote stands for one, a
  // single one ends the literal.
  function ScanQuoted(s: string): Option<(string, string)> {
    if s == [] then None
    else if s[0] != '\'' then Prepend(s[0], ScanQuoted(s[1..]))
    else if |s| > 1 && s[1] == '\'' then Prepend('\'', ScanQuoted(s[2..]))
    else Some(("", s[1..]))
  }

  function Prepend(c: char, r: Option<(string, string)>): Option<(string, string)> {
    match r
    case None => None
    case Some(p) => Some(([c] + p.0, p.1))
  }

  // A quoted literal is read back whole and ends exactly at its closing quote.
  lemma {:induction false} QuoteReadsBack(v: string, rest: string)
    requires rest == [] || rest[0] != '\''
    ensures ScanQuoted(Quote(v) + "'" + rest) == Some((v, rest))
  {
    var text := Quote(v) + "'" + rest;
    if v == [] {
      assert text == "'" + rest;
    } else {
      QuoteReadsBack(v[1..], rest);
      var tail := Quote(v[1..]) + "'" + rest;
      assert v == [v[0]] + v[1..];
      if v[0] == '\'' {
        assert text == "''" + tail;
        assert text[2..] == tail;
      } else {
        assert text == [v[0]] + tail;
        assert text[1..] == tail;
      }
    }
  }

  lemma QuoteInjective(a: string, b: string)
    requires Quote(a) == Quote(b)
    ensures a == b
  {
    QuoteReadsBack(a, "");
    QuoteReadsBack(b, "");
  }

  datatype Clause = Clause(key: string, value: string, quoted: bool)

  function Print(c: Clause): string {
    c.key + "(" + Printed(c.value, c.quoted) + ")"
  }

  function Printed(value: string, quoted: bool): string {
    if quoted then "'" + Quote(value) + "'" else value
  }

  function PrintAll(clauses: seq<Clause>): string {
    Join(Mapped(clauses, Print), " ")
  }

  function IndexOfChar(s: string, c: char): (i: nat)
    ensures i <= |s| && c !in s[..i] && (i < |s| ==> s[i] == c)
  {
    if s == [] || s[0] == c then 0 else 1 + IndexOfChar(s[1..], c)
  }

  lemma {:induction false} IndexAfter(a: string, c: char, rest: string)
    requires c !in a
    ensures IndexOfChar(a + [c] + rest, c) == |a|
  {
    if a == [] {
      assert a + [c] + rest == [c] + rest;
    } else {
      IndexAfter(a[1..], c, rest);
      assert (a + [c] + rest)[1..] == a[1..] + [c] + rest;
    }
  }

  // One clause as MQSC reads it, with the text that follows it.
  function ReadClause(s: string): Option<(Clause, string)> {
    var k := IndexOfChar(s, '(');
    if k == |s| then None
    else ReadValue(s[..k], s[k + 1..])
  }

  function ReadValue(key: string, s: string): Option<(Clause, string)> {
    if s != [] && s[0] == '\'' then
      match ScanQuoted(s[1..])
      case None => None
      case Some(p) => if p.1 != [] && p.1[0] == ')' then Some((Clause(key, p.0, true), p.1[1..])) else None
    else
      var c := IndexOfChar(s, ')');
      if c == |s| then None else Some((Clause(key, s[..c], false), s[c + 1..]))
  }

  function ReadAll(s: string): Option<seq<Clause>>
    decreases |s|
  {
    match ReadClause(s)
    case None => None
    case Some(p) =>
      if p.1 == [] then Some([p.0])
      else if |p.1| >= |s| || p.1[0] != ' ' then None
      else Extend(p.0, ReadAll(p.1[1..]))
  }

  // A whole command: its verb, then the clauses.
  function ReadCommand(verb: string, command: string): Option<seq<Clause>> {
    if verb <= command then ReadAll(command[|verb|..]) else None
  }

  predicate IsWord(s: string) {
    ')' !in s && '\'' !in s
  }

  // Unquoted values are words; a quoted value is any text.
  predicate Readable(c: Clause) {
    '(' !in c.key && (c.quoted || (')' !in c.value && (c.value == [] || c.value[0] != '\'')))
  }

  lemma KeyReadsBack(key: string, body: string)
    requires '(' !in key
    ensures ReadClause(key + "(" + body) == ReadValue(key, body)
  {
    var text := key + ['('] + body;
    IndexAfter(key, '(', body);
    assert text[..|key|] == key && text[|key| + 1..] == body;
  }

  lemma QuotedReadsBack(key: string, value: string, rest: string)
    ensures ReadValue(key, "'" + (Quote(value) + "'" + (")" + rest))) == Some((Clause(key, value, true), rest))
  {
    QuoteReadsBack(value, ")" + rest);
    assert ("'" + (Quote(value) + "'" + (")" + rest)))[1..] == Quote(value) + "'" + (")" + rest);
    assert (")" + rest)[1..] == rest;
  }

  lemma WordReadsBack(key: string, value: string, rest: string)
    requires ')' !in value && (value == [] || value[0] != '\'')
    ensures ReadValue(key, value + [')'] + rest) == Some((Clause(key, value, false), rest))
  {
    var body := value + [')'] + rest;
    IndexAfter(value, ')', rest);
    assert body[..|value|] == value && body[|value| + 1..] == rest;
  }

  lemma ClauseReadsBack(c: Clause, rest: string)
    requires Readable(c)
    ensures ReadClause(Print(c) + rest) == Some((c, rest))
  {
    var body := Printed(c.value, c.quoted) + ")" + rest;
    assert Print(c) + rest == c.key + "(" + body;
    KeyReadsBack(c.key, body);
    if c.quoted {
      assert body == "'" + (Quote(c.value) + "'" + (")" + rest));
      QuotedReadsBack(c.key, c.value, rest);
    } else {
      WordReadsBack(c.key, c.value, rest);
    }
  }

  lemma ReadsLast(c: Clause)
    requires Readable(c)
    ensures ReadAll(Print(c)) == Some([c])
  {
    ClauseReadsBack(c, "");
    assert Print(c) + "" == Print(c);
  }

  lemma ReadsOneMore(c: Clause, t: string)
    requires Readable(c)
    ensures ReadAll(Print(c) + " " + t) == Extend(c, ReadAll(t))
  {
    ClauseReadsBack(c, " " + t);
    assert Print(c) + (" " + t) == Print(c) + " " + t;
    assert (" " + t)[1..] == t;
  }

  function Extend<T>(item: T, r: Option<seq<T>>): Option<seq<T>> {
    match r
    case None => None
    case Some(more) => Some([item] + more)
  }

  // Reading items joined by blanks, given how one item is read.
  lemma {:induction false} JoinedReadsBack<T>(items: seq<T>, show: T -> string, parse: string -> Option<seq<T>>)
    requires items != []
    requires forall i :: 0 <= i < |items| ==> parse(show(items[i])) == Some([items[i]])
    requires forall i, t :: 0 <= i < |items| ==> parse(show(items[i]) + " " + t) == Extend(items[i], parse(t))
    ensures parse(Join(Mapped(items, show), " ")) == Some(items)
  {
    var texts := Mapped(items, show);
    if |items| == 1 {
      assert items == [items[0]];
    } else {
      assert texts[1..] == Mapped(items[1..], show);
      JoinedReadsBack(items[1..], show, parse);
      assert items == [items[0]] + items[1..];
    }
  }

  // A printed command is read back clause by clause, whatever quotes, parentheses or blanks
  // its quoted values hold.
  lemma CommandReadsBack(clauses: seq<Clause>)
    requires clauses != [] && forall i :: 0 <= i < |clauses| ==> Readable(clauses[i])
    ensures ReadAll(PrintAll(clauses)) == Some(clauses)
  {
    forall i | 0 <= i < |clauses|
      ensures ReadAll(Print(clauses[i])) == Some([clauses[i]])
    {
      ReadsLast(clauses[i]);
    }
    forall i, t | 0 <= i < |clauses|
      ensures ReadAll(Print(clauses[i]) + " " + t) == Extend(clauses[i], ReadAll(t))
    {
      ReadsOneMore(clauses[i], t);
    }
    JoinedReadsBack(clauses, Print, ReadAll);
  }

  lemma CommandIsRead(verb: string, clauses: seq<Clause>)
    requires clauses != [] && forall i :: 0 <= i < |clauses| ==> Readable(clauses[i])
    ensures ReadCommand(verb, verb + PrintAll(clauses)) == Some(clauses)
  {
    assert (verb + PrintAll(clauses))[|verb|..] == PrintAll(clauses);
    CommandReadsBack(clauses);
  }

  /* ---------- the value of a keyword ---------- */

  // What the last clause of a keyword says.
  function Held(clauses: seq<Clause>, key: string): Option<string> {
    if clauses == [] then None
    else if clauses[|clauses|-1].key == key then Some(clauses[|clauses|-1].value)
    else Held(clauses[..|clauses|-1], key)
  }

  lemma {:induction false} HeldSum(a: seq<Clause>, b: seq<Clause>, key: string)
    ensures Held(a + b, key) == if Held(b, key).Some? then Held(b, key) else Held(a, key)
  {
    if b == [] {
      assert a + b == a;
    } else {
      assert (a + b)[..|a + b|-1] == a + b[..|b|-1];
      HeldSum(a, b[..|b|-1], key);
    }
  }

  lemma HeldOne(c: Clause, key: string)
    ensures Held([c], key) == if c.key == key then Some(c.value) else None
  {
    assert Held([c][..0], key) == None;
  }
}
