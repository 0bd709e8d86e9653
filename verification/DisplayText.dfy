/**
 Parsing the text lines of a DISPLAY command into attributes.
 */
module DisplayText {
  import opened Options
  import opened Text
  import opened Mqsc
  import opened Attributes

  /* ---------- the pairs of a text ---------- */

  predicate IsUpper(c: char) {
    'A' <= c <= 'Z'
  }

  predicate IsKeyChar(c: char) {
    IsUpper(c) || IsDigit(c)
  }

  predicate IsKeyword(s: string) {
    s != [] && IsUpper(s[0]) && forall i :: 0 <= i < |s| ==> IsKeyChar(s[i])
  }

  // The longest run of key characters at the front.
  function KeyRun(s: string): (n: nat)
    ensures n <= |s| && (forall i :: 0 <= i < n ==> IsKeyChar(s[i])) && (n < |s| ==> !IsKeyChar(s[n]))
  {
    if s == [] || !IsKeyChar(s[0]) then 0 else 1 + KeyRun(s[1..])
  }

  datatype Pair = Pair(key: string, raw: string)

  // A pair that starts at the front of the text: a keyword, then everything up to the first
  // closing parenthesis.
  function MatchAt(s: string): (m: Option<Pair>)
    ensures m.Some? ==> IsKeyword(m.value.key) && ')' !in m.value.raw && PairText(m.value) <= s
  {
    var k := KeyRun(s);
    if k == 0 || !IsUpper(s[0]) || k == |s| || s[k] != '(' then None
    else
      var c := IndexOfChar(s[k + 1..], ')');
      if k + 1 + c == |s| then None
      else
        var p := Pair(s[..k], s[k + 1..][..c]);
        assert PairText(p) == s[..k + c + 2];
        Some(p)
  }

  function PairText(p: Pair): string {
    p.key + "(" + p.raw + ")"
  }

  // All pairs from left to right, none overlapping.
  function Pairs(s: string): seq<Pair>
    decreases |s|
  {
    if s == [] then []
    else
      match MatchAt(s)
      case Some(p) => [p] + Pairs(s[|PairText(p)|..])
      case None => Pairs(s[1..])
  }

  lemma {:induction false} KeyRunOf(key: string, rest: string)
    requires (forall i :: 0 <= i < |key| ==> IsKeyChar(key[i])) && rest != [] && !IsKeyChar(rest[0])
    ensures KeyRun(key + rest) == |key|
  {
    if key == [] {
      assert key + rest == rest;
    } else {
      KeyRunOf(key[1..], rest);
      assert (key + rest)[1..] == key[1..] + rest;
    }
  }

  lemma MatchesPrinted(p: Pair, rest: string)
    requires IsKeyword(p.key) && ')' !in p.raw
    ensures MatchAt(PairText(p) + rest) == Some(p)
  {
    var text := PairText(p) + rest;
    var body := p.raw + [')'] + rest;
    assert text == p.key + ("(" + body);
    KeyRunOf(p.key, "(" + body);
    assert text[|p.key| + 1..] == body;
    IndexAfter(p.raw, ')', rest);
    assert text[..|p.key|] == p.key && body[..|p.raw|] == p.raw;
  }

  lemma PairsPrinted(p: Pair, rest: string)
    requires IsKeyword(p.key) && ')' !in p.raw
    ensures Pairs(PairText(p) + rest) == [p] + Pairs(rest)
  {
    MatchesPrinted(p, rest);
    assert (PairText(p) + rest)[|PairText(p)|..] == rest;
  }

  lemma PairsBlank(t: string)
    ensures Pairs(" " + t) == Pairs(t)
  {
    assert (" " + t)[1..] == t;
    assert KeyRun(" " + t) == 0;
  }

  lemma PairLast(p: Pair)
    requires IsKeyword(p.key) && ')' !in p.raw
    ensures Pairs(PairText(p)) == [p]
  {
    PairsPrinted(p, "");
    assert PairText(p) + "" == PairText(p);
  }

  lemma Spaced(a: string, t: string)
    ensures a + (" " + t) == a + " " + t
  {
  }

  lemma PairAndMore(p: Pair, t: string)
    requires IsKeyword(p.key) && ')' !in p.raw
    ensures Pairs(PairText(p) + " " + t) == [p] + Pairs(t)
  {
    PairsBlank(t);
    Spaced(PairText(p), t);
    PairsPrinted(p, " " + t);
  }

  // No pair reaches over a closing parenthesis, so the pairs of a text that ends on one do
  // not depend on what follows.
  predicate Shut(u: string) {
    u != [] && u[|u|-1] == ')'
  }

  lemma KeyRunShut(u: string, b: string)
    requires Shut(u)
    ensures KeyRun(u) < |u| && KeyRun(u + b) == KeyRun(u)
  {
    var k := KeyRun(u);
    assert k == |u| ==> IsKeyChar(u[|u|-1]);
    KeyRunOf(u[..k], u[k..] + b);
    assert u[..k] + (u[k..] + b) == u + b;
  }

  lemma NoMatchShut(u: string, b: string)
    requires Shut(u) && MatchAt(u).None?
    ensures MatchAt(u + b).None?
  {
    KeyRunShut(u, b);
    var k := KeyRun(u);
    if u[k] == '(' {
      assert u[k + 1..][|u| - k - 2] == ')';
    }
  }

  lemma MatchShut(u: string, b: string)
    requires Shut(u)
    ensures MatchAt(u + b) == MatchAt(u)
  {
    match MatchAt(u)
    case Some(p) =>
      var rest := u[|PairText(p)|..] + b;
      assert u + b == PairText(p) + rest;
      MatchesPrinted(p, rest);
    case None => NoMatchShut(u, b);
  }

  // How far the next match reaches, and what it yields.
  function Reach(m: Option<Pair>): nat {
    if m.Some? then |PairText(m.value)| else 1
  }

  function Yield(m: Option<Pair>): seq<Pair> {
    if m.Some? then [m.value] else []
  }

  lemma PairsAtMatch(s: string, p: Pair)
    requires MatchAt(s) == Some(p) && s != []
    ensures 0 < |PairText(p)| <= |s| && Pairs(s) == [p] + Pairs(s[|PairText(p)|..])
  {
  }

  lemma PairsAtNone(s: string)
    requires s != [] && MatchAt(s).None?
    ensures Pairs(s) == Pairs(s[1..]) && [] + Pairs(s[1..]) == Pairs(s[1..])
  {
  }

  lemma PairsStep(s: string) returns (n: nat, y: seq<Pair>)
    requires s != []
    ensures n == Reach(MatchAt(s)) && y == Yield(MatchAt(s))
    ensures 0 < n <= |s| && Pairs(s) == y + Pairs(s[n..])
  {
    n, y := Reach(MatchAt(s)), Yield(MatchAt(s));
    match MatchAt(s)
    case Some(p) => PairsAtMatch(s, p);
    case None => PairsAtNone(s);
  }

  lemma PairsStepShut(u: string, t: string, b: string) returns (n: nat, y: seq<Pair>)
    requires Shut(u) && t == u + b
    ensures 0 < n <= |u| && Pairs(u) == y + Pairs(u[n..]) && Pairs(t) == y + Pairs(t[n..])
  {
    MatchShut(u, b);
    n, y := PairsStep(u);
    var _, _ := PairsStep(t);
  }

  lemma Glue(pairs: string -> seq<Pair>, u: string, b: string, n: nat, y: seq<Pair>)
    requires n <= |u| && pairs(u) == y + pairs(u[n..]) && pairs(u + b) == y + pairs((u + b)[n..])
    requires pairs(u[n..] + b) == pairs(u[n..]) + pairs(b)
    ensures pairs(u + b) == pairs(u) + pairs(b)
  {
    assert (u + b)[n..] == u[n..] + b;
  }

  lemma {:induction false} PairsSum(u: string, b: string)
    requires u == [] || Shut(u)
    ensures Pairs(u + b) == Pairs(u) + Pairs(b)
    decreases |u|
  {
    if u == [] {
      assert u + b == b;
    } else {
      var n, y := PairsStepShut(u, u + b, b);
      PairsSum(u[n..], b);
      Glue(Pairs, u, b, n, y);
    }
  }

  // What is found in the printed pairs, one after the other. A value with a closing
  // parenthesis is cut there, and the rest of it may hold further pairs.
  function Found(pairs: seq<Pair>): seq<Pair> {
    if pairs == [] then [] else Pairs(PairText(pairs[0])) + Found(pairs[1..])
  }

  lemma {:induction false} FoundSum(a: seq<Pair>, b: seq<Pair>)
    ensures Found(a + b) == Found(a) + Found(b)
  {
    if a == [] {
      assert a + b == b;
    } else {
      assert (a + b)[1..] == a[1..] + b;
      FoundSum(a[1..], b);
    }
  }

  lemma FoundOne(p: Pair)
    ensures Found([p]) == Pairs(PairText(p))
  {
    assert [p][1..] == [];
  }

  lemma PairTextAndMore(p: Pair, t: string)
    ensures Pairs(PairText(p) + " " + t) == Pairs(PairText(p)) + Pairs(t)
  {
    PairsBlank(t);
    Spaced(PairText(p), t);
    PairsSum(PairText(p), " " + t);
  }

  lemma {:induction false} JoinedIsFound(pairs: seq<Pair>)
    ensures Pairs(Join(Mapped(pairs, PairText), " ")) == Found(pairs)
  {
    if |pairs| == 1 {
      FoundOne(pairs[0]);
      assert pairs == [pairs[0]];
    } else if |pairs| > 1 {
      assert Mapped(pairs, PairText)[1..] == Mapped(pairs[1..], PairText);
      PairTextAndMore(pairs[0], Join(Mapped(pairs[1..], PairText), " "));
      JoinedIsFound(pairs[1..]);
    }
  }

  predicate Clean(pairs: seq<Pair>) {
    forall i :: 0 <= i < |pairs| ==> IsKeyword(pairs[i].key) && ')' !in pairs[i].raw
  }

  // Printed pairs whose values hold no closing parenthesis are found again, in order.
  lemma PairsReadBack(pairs: seq<Pair>)
    requires pairs != [] && Clean(pairs)
    ensures Pairs(Join(Mapped(pairs, PairText), " ")) == pairs
  {
    var parse := s => Some(Pairs(s));
    forall i | 0 <= i < |pairs|
      ensures parse(PairText(pairs[i])) == Some([pairs[i]])
    {
      PairLast(pairs[i]);
    }
    forall i, t | 0 <= i < |pairs|
      ensures parse(PairText(pairs[i]) + " " + t) == Extend(pairs[i], parse(t))
    {
      PairAndMore(pairs[i], t);
    }
    JoinedReadsBack(pairs, PairText, parse);
  }

  /* ---------- the text after the message header ---------- */

  function IndexOf(s: string, sub: string): (i: Option<nat>)
    ensures i.Some? ==> i.value + |sub| <= |s|
  {
    if |s| < |sub| then None
    else if s[..|sub|] == sub then Some(0)
    else if s == [] then None
    else (match IndexOf(s[1..], sub) case None => None case Some(i) => Some(i + 1))
  }

  const MARKER := "details."
  const BLANK_MARKER := "details "

  function AfterMarker(s: string): string {
    CutAfter(s, IndexOf(s, MARKER), IndexOf(s, BLANK_MARKER), TrimSpace)
  }

  // Both markers are eight characters long.
  function CutAfter(s: string, dot: Option<nat>, blank: Option<nat>, trim: string -> string): string
    requires dot.Some? ==> dot.value + 8 <= |s|
    requires blank.Some? ==> blank.value + 8 <= |s|
  {
    match dot
    case Some(i) => trim(s[i + 8..])
    case None =>
      match blank
      case Some(i) => trim(s[i + 8..])
      case None => s
  }

  ghost predicate OccursAt(s: string, sub: string, i: nat) {
    i + |sub| <= |s| && s[i..i + |sub|] == sub
  }

  ghost predicate FirstAt(s: string, sub: string, i: nat) {
    OccursAt(s, sub, i) && forall j: nat :: j < i ==> !OccursAt(s, sub, j)
  }

  ghost predicate Nowhere(s: string, sub: string) {
    forall j: nat :: !OccursAt(s, sub, j)
  }

  lemma OccursLater(s: string, sub: string, j: nat)
    requires s != []
    ensures OccursAt(s, sub, j + 1) <==> OccursAt(s[1..], sub, j)
  {
    if j + 1 + |sub| <= |s| {
      assert s[1..][j..j + |sub|] == s[j + 1..j + 1 + |sub|];
    }
  }

  lemma {:induction false} IndexOfIs(s: string, sub: string)
    requires sub != []
    ensures match IndexOf(s, sub)
            case Some(i) => FirstAt(s, sub, i)
            case None => Nowhere(s, sub)
  {
    if |s| >= |sub| && s[..|sub|] != sub {
      IndexOfIs(s[1..], sub);
      forall j: nat
        ensures OccursAt(s, sub, j) <==> 0 < j && OccursAt(s[1..], sub, j - 1)
      {
        if 0 < j {
          OccursLater(s, sub, j - 1);
        }
      }
    }
  }

  lemma FirstIsFound(s: string, sub: string, i: nat)
    requires sub != []
    ensures FirstAt(s, sub, i) ==> IndexOf(s, sub) == Some(i)
    ensures Nowhere(s, sub) ==> IndexOf(s, sub) == None
  {
    IndexOfIs(s, sub);
  }

  // What is cut off in front: everything up to the first dot marker or, if there is none, up
  // to the first blank marker.
  ghost predicate CutsAfter(s: string, dot: string, blank: string, rest: string, trim: string -> string) {
    && (forall i: nat :: FirstAt(s, dot, i) && i + 8 <= |s| ==> rest == trim(s[i + 8..]))
    && (forall i: nat :: Nowhere(s, dot) && FirstAt(s, blank, i) && i + 8 <= |s| ==> rest == trim(s[i + 8..]))
    && (Nowhere(s, dot) && Nowhere(s, blank) ==> rest == s)
  }

  lemma CutIs(s: string, dot: string, blank: string, trim: string -> string)
    requires |dot| == |blank| == 8
    ensures CutsAfter(s, dot, blank, CutAfter(s, IndexOf(s, dot), IndexOf(s, blank), trim), trim)
  {
    forall i: nat
      ensures FirstAt(s, dot, i) ==> IndexOf(s, dot) == Some(i)
      ensures FirstAt(s, blank, i) ==> IndexOf(s, blank) == Some(i)
    {
      FirstIsFound(s, dot, i);
      FirstIsFound(s, blank, i);
    }
    FirstIsFound(s, dot, 0);
    FirstIsFound(s, blank, 0);
  }

  lemma AfterMarkerIs(s: string)
    ensures CutsAfter(s, "details.", "details ", AfterMarker(s), TrimSpace)
  {
    CutIs(s, "details.", "details ", TrimSpace);
  }

  // The first marker is the one that ends the header, since it holds the first full stop.
  lemma {:induction false} MarkerEndsHeader(header: string, rest: string)
    requires '.' !in header
    ensures IndexOf(header + MARKER + rest, MARKER) == Some(|header|)
  {
    var text := header + MARKER + rest;
    if header == [] {
      assert text[..8] == MARKER;
    } else {
      assert text[7] == if |header| > 7 then header[7] else MARKER[7 - |header|];
      assert MARKER[7] == '.';
      assert text[..8] != MARKER;
      MarkerEndsHeader(header[1..], rest);
      assert text[1..] == header[1..] + MARKER + rest;
    }
  }

  lemma TrimGap(gap: string, body: string)
    requires AllCut(gap, IsSpace) && body != [] && Bare(body, IsSpace)
    ensures TrimSpace(gap + body) == body
  {
    TrimLeftGap(gap + body, |gap|, IsSpace);
    assert (gap + body)[|gap|..] == body;
    TrimBare(body, IsSpace);
  }

  lemma BodyIsFound(header: string, gap: string, body: string)
    requires '.' !in header && body != [] && Bare(body, IsSpace)
    requires forall i :: 0 <= i < |gap| ==> IsSpace(gap[i])
    ensures AfterMarker(header + MARKER + gap + body) == body
  {
    var text := header + MARKER + gap + body;
    assert text == header + MARKER + (gap + body);
    MarkerEndsHeader(header, gap + body);
    assert text[|header| + |MARKER|..] == gap + body;
    TrimGap(gap, body);
  }

  /* ---------- attributes ---------- */

  function Cleaned(raw: string): string {
    Trim(TrimSpace(raw), IsQuote)
  }

  // Later pairs win.
  function FillWith(into: Attrs, pairs: seq<Pair>, name: Pair -> string, value: Pair -> string): Attrs
    decreases |pairs|
  {
    if pairs == [] then into
    else FillWith(into[name(pairs[0]) := value(pairs[0])], pairs[1..], name, value)
  }

  function AttributeName(p: Pair): string {
    ToLower(p.key)
  }

  function AttributeValue(p: Pair): string {
    Cleaned(p.raw)
  }

  function Fill(into: Attrs, pairs: seq<Pair>): Attrs {
    FillWith(into, pairs, AttributeName, AttributeValue)
  }

  function Parsed(lines: seq<string>): Attrs {
    Fill(map[], Pairs(AfterMarker(Join(lines, " "))))
  }

  method ParseDisplayAttributes(lines: seq<string>) returns (attrs: Attrs)
    ensures attrs == Parsed(lines)
  {
    attrs := map[];
    var rest := AfterMarker(Join(lines, " "));
    while rest != []
      invariant Fill(attrs, Pairs(rest)) == Parsed(lines)
      decreases |rest|
    {
      match MatchAt(rest) {
        case Some(p) =>
          assert ([p] + Pairs(rest[|PairText(p)|..]))[1..] == Pairs(rest[|PairText(p)|..]);
          attrs := attrs[ToLower(p.key) := Cleaned(p.raw)];
          rest := rest[|PairText(p)|..];
        case None =>
          rest := rest[1..];
      }
    }
  }

  predicate IsAttributeKey(k: string) {
    k != [] && 'a' <= k[0] <= 'z' && forall i :: 0 <= i < |k| ==> 'a' <= k[i] <= 'z' || IsDigit(k[i])
  }

  // What the parser promises of every entry, on any input whatever.
  predicate WellShaped(k: string, v: string) {
    IsAttributeKey(k) && ')' !in v && Bare(v, IsQuote)
  }

  lemma YieldShaped(m: Option<Pair>, rest: seq<Pair>)
    requires (m.Some? ==> IsKeyword(m.value.key) && ')' !in m.value.raw) && Clean(rest)
    ensures Clean(Yield(m) + rest)
  {
  }

  lemma {:induction false} PairsShaped(s: string)
    ensures Clean(Pairs(s))
    decreases |s|
  {
    if s != [] {
      var n, y := PairsStep(s);
      PairsShaped(s[n..]);
      YieldShaped(MatchAt(s), Pairs(s[n..]));
    }
  }

  lemma LowerKeyword(key: string)
    requires IsKeyword(key)
    ensures IsAttributeKey(ToLower(key))
  {
  }

  lemma QuotesCut(t: string)
    requires ')' !in t
    ensures ')' !in Trim(t, IsQuote) && Bare(Trim(t, IsQuote), IsQuote)
  {
    TrimAddsNothing(t, IsQuote, ')');
  }

  lemma CleanedShaped(raw: string)
    requires ')' !in raw
    ensures ')' !in Cleaned(raw) && Bare(Cleaned(raw), IsQuote)
  {
    TrimAddsNothing(raw, IsSpace, ')');
    QuotesCut(TrimSpace(raw));
  }

  ghost predicate AllShaped(attrs: Attrs) {
    forall k :: k in attrs ==> WellShaped(k, attrs[k])
  }

  lemma {:induction false} FillKeeps(into: Attrs, pairs: seq<Pair>, name: Pair -> string, value: Pair -> string,
                                     ok: (string, string) -> bool, k: string)
    requires forall l :: l in into ==> ok(l, into[l])
    requires forall i :: 0 <= i < |pairs| ==> ok(name(pairs[i]), value(pairs[i]))
    requires k in FillWith(into, pairs, name, value)
    ensures ok(k, FillWith(into, pairs, name, value)[k])
    decreases |pairs|
  {
    if pairs != [] {
      FillKeeps(into[name(pairs[0]) := value(pairs[0])], pairs[1..], name, value, ok, k);
    }
  }

  lemma PairShaped(p: Pair)
    requires IsKeyword(p.key) && ')' !in p.raw
    ensures WellShaped(AttributeName(p), AttributeValue(p))
  {
    LowerKeyword(p.key);
    CleanedShaped(p.raw);
  }

  lemma FillShaped(into: Attrs, pairs: seq<Pair>)
    requires AllShaped(into) && Clean(pairs)
    ensures AllShaped(Fill(into, pairs))
  {
    forall i | 0 <= i < |pairs|
      ensures WellShaped(AttributeName(pairs[i]), AttributeValue(pairs[i]))
    {
      PairShaped(pairs[i]);
    }
    forall k | k in Fill(into, pairs)
      ensures WellShaped(k, Fill(into, pairs)[k])
    {
      FillKeeps(into, pairs, AttributeName, AttributeValue, WellShaped, k);
    }
  }

  lemma ParsedShaped(lines: seq<string>)
    ensures AllShaped(Parsed(lines))
  {
    var text := AfterMarker(Join(lines, " "));
    PairsShaped(text);
    FillShaped(map[], Pairs(text));
  }

  /* ---------- looking a value up again ---------- */

  ghost predicate Shows(pairs: seq<Pair>, key: string, raw: string) {
    Pair(key, raw) in pairs && forall i :: 0 <= i < |pairs| && pairs[i].key == key ==> pairs[i].raw == raw
  }

  ghost predicate Absent(pairs: seq<Pair>, key: string) {
    forall i :: 0 <= i < |pairs| ==> pairs[i].key != key
  }

  lemma KeywordsStayApart(a: string, b: string)
    requires IsKeyword(a) && IsKeyword(b) && ToLower(a) == ToLower(b)
    ensures a == b
  {
    forall i | 0 <= i < |a|
      ensures a[i] == b[i]
    {
      assert ToLower(a)[i] == ToLower(b)[i];
    }
  }

  // The last value of a keyword, which is the one that counts.
  function LastOf(pairs: seq<Pair>, key: string): Option<string> {
    if pairs == [] then None
    else if pairs[|pairs|-1].key == key then Some(pairs[|pairs|-1].raw)
    else LastOf(pairs[..|pairs|-1], key)
  }

  lemma {:induction false} LastOfSum(a: seq<Pair>, b: seq<Pair>, key: string)
    ensures LastOf(a + b, key) == if LastOf(b, key).Some? then LastOf(b, key) else LastOf(a, key)
    decreases |b|
  {
    if b == [] {
      assert a + b == a;
    } else {
      assert (a + b)[..|a + b|-1] == a + b[..|b|-1];
      LastOfSum(a, b[..|b|-1], key);
    }
  }

  lemma {:induction false} FillSnoc(into: Attrs, pairs: seq<Pair>, p: Pair, name: Pair -> string, value: Pair -> string)
    ensures FillWith(into, pairs + [p], name, value) == FillWith(into, pairs, name, value)[name(p) := value(p)]
    decreases |pairs|
  {
    if pairs == [] {
      assert pairs + [p] == [p] && [p][1..] == [];
    } else {
      assert (pairs + [p])[1..] == pairs[1..] + [p];
      FillSnoc(into[name(pairs[0]) := value(pairs[0])], pairs[1..], p, name, value);
    }
  }

  function CleanedOr(raw: Option<string>): string {
    if raw.Some? then Cleaned(raw.value) else ""
  }

  // A keyword is told from another by its attribute name.
  lemma {:induction false} LastFilled(pairs: seq<Pair>, name: Pair -> string, value: Pair -> string, key: string, low: string)
    requires forall i :: 0 <= i < |pairs| ==> (name(pairs[i]) == low <==> pairs[i].key == key)
    ensures Lookup(FillWith(map[], pairs, name, value), low) ==
      if LastOf(pairs, key).Some? then value(Pair(key, LastOf(pairs, key).value)) else ""
  {
    if pairs != [] {
      var most, p := pairs[..|pairs|-1], pairs[|pairs|-1];
      assert pairs == most + [p];
      FillSnoc(map[], most, p, name, value);
      LastFilled(most, name, value, key, low);
      if p.key == key {
        assert p == Pair(key, p.raw);
      }
    }
  }

  lemma LastIsFound(pairs: seq<Pair>, key: string)
    requires IsKeyword(key) && KeywordsOnly(pairs)
    ensures Lookup(Fill(map[], pairs), ToLower(key)) == CleanedOr(LastOf(pairs, key))
  {
    forall i | 0 <= i < |pairs|
      ensures AttributeName(pairs[i]) == ToLower(key) <==> pairs[i].key == key
    {
      if AttributeName(pairs[i]) == ToLower(key) {
        KeywordsStayApart(pairs[i].key, key);
      }
    }
    LastFilled(pairs, AttributeName, AttributeValue, key, ToLower(key));
  }

  lemma {:induction false} FillLookup(into: Attrs, pairs: seq<Pair>, name: Pair -> string, value: Pair -> string,
                                      k: string, v: string)
    requires forall i :: 0 <= i < |pairs| && name(pairs[i]) == k ==> value(pairs[i]) == v
    ensures Lookup(FillWith(into, pairs, name, value), k) ==
            if exists i :: 0 <= i < |pairs| && name(pairs[i]) == k then v else Lookup(into, k)
    decreases |pairs|
  {
    if pairs != [] {
      FillLookup(into[name(pairs[0]) := value(pairs[0])], pairs[1..], name, value, k, v);
      assert forall i :: 1 <= i < |pairs| ==> pairs[i] == pairs[1..][i - 1];
    }
  }

  // A keyword shown with one value only is looked up as that value, cleaned.
  lemma ShownIsFound(pairs: seq<Pair>, key: string, raw: string)
    requires IsKeyword(key) && forall i :: 0 <= i < |pairs| ==> IsKeyword(pairs[i].key)
    ensures Shows(pairs, key, raw) ==> Lookup(Fill(map[], pairs), ToLower(key)) == Cleaned(raw)
    ensures Absent(pairs, key) ==> Lookup(Fill(map[], pairs), ToLower(key)) == ""
  {
    forall i | 0 <= i < |pairs| && AttributeName(pairs[i]) == ToLower(key)
      ensures pairs[i].key == key
    {
      KeywordsStayApart(pairs[i].key, key);
    }
    if Shows(pairs, key, raw) {
      var i :| 0 <= i < |pairs| && pairs[i] == Pair(key, raw);
      assert AttributeName(pairs[i]) == ToLower(key);
      FillLookup(map[], pairs, AttributeName, AttributeValue, ToLower(key), Cleaned(raw));
    } else if Absent(pairs, key) {
      FillLookup(map[], pairs, AttributeName, AttributeValue, ToLower(key), "");
    }
  }

  /* ---------- displayed text ---------- */

  ghost predicate KeywordsOnly(pairs: seq<Pair>) {
    forall i :: 0 <= i < |pairs| ==> IsKeyword(pairs[i].key)
  }

  // The text lines carry the pairs after a header that ends at the first full stop.
  ghost predicate Displays(lines: seq<string>, pairs: seq<Pair>) {
    exists header, gap ::
      '.' !in header && AllCut(gap, IsSpace)
      && Join(lines, " ") == header + MARKER + gap + Join(Mapped(pairs, PairText), " ")
  }

  lemma JoinedIsBare(pairs: seq<Pair>)
    requires pairs != [] && KeywordsOnly(pairs)
    ensures var body := Join(Mapped(pairs, PairText), " "); body != [] && Bare(body, IsSpace)
  {
    JoinEndsOn(Mapped(pairs, PairText), " ");
  }

  lemma EndsOfSum(a: string, b: string, s: string)
    requires a != [] && b != [] && s == a + b
    ensures s[0] == a[0] && s[|s|-1] == b[|b|-1]
  {
  }

  lemma {:induction false} JoinEndsOn(texts: seq<string>, sep: string)
    requires texts != [] && sep != [] && forall i :: 0 <= i < |texts| ==> texts[i] != []
    ensures Join(texts, sep) != []
    ensures Join(texts, sep)[0] == texts[0][0]
    ensures Join(texts, sep)[|Join(texts, sep)|-1] == texts[|texts|-1][|texts[|texts|-1]|-1]
  {
    if |texts| > 1 {
      var rest := Join(texts[1..], sep);
      JoinEndsOn(texts[1..], sep);
      assert Join(texts, sep) == texts[0] + (sep + rest);
      EndsOfSum(sep, rest, sep + rest);
      EndsOfSum(texts[0], sep + rest, Join(texts, sep));
    }
  }

  // What is parsed from displayed text, whatever its values.
  lemma ParsedIsFound(lines: seq<string>, pairs: seq<Pair>)
    requires Displays(lines, pairs) && pairs != [] && KeywordsOnly(pairs)
    ensures Parsed(lines) == Fill(map[], Found(pairs))
  {
    var body := Join(Mapped(pairs, PairText), " ");
    var header, gap :| '.' !in header && AllCut(gap, IsSpace) && Join(lines, " ") == header + MARKER + gap + body;
    JoinedIsBare(pairs);
    BodyIsFound(header, gap, body);
    JoinedIsFound(pairs);
  }

  lemma ParsedIs(lines: seq<string>, pairs: seq<Pair>)
    requires Displays(lines, pairs) && pairs != [] && Clean(pairs)
    ensures Parsed(lines) == Fill(map[], pairs)
  {
    ParsedIsFound(lines, pairs);
    JoinedIsFound(pairs);
    PairsReadBack(pairs);
  }
}
