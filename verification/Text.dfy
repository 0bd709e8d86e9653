/**
 ASCII text as the operator handles it: case folding, trimming, decimal numbers, and joining
 and splitting on a separator.
 */
module Text {
  import opened Options

  /* ---------- case ---------- */

  function LowerChar(c: char): char {
    if 'A' <= c <= 'Z' then c - 'A' + 'a' else c
  }

  function UpperChar(c: char): char {
    if 'a' <= c <= 'z' then c - 'a' + 'A' else c
  }

  function Mapped<A, B>(s: seq<A>, f: A -> B): (r: seq<B>)
    ensures |r| == |s| && forall i :: 0 <= i < |s| ==> r[i] == f(s[i])
  {
    seq(|s|, i requires 0 <= i < |s| => f(s[i]))
  }

  function ToLower(s: string): string {
    Mapped(s, LowerChar)
  }

  function ToUpper(s: string): string {
    Mapped(s, UpperChar)
  }

  predicate EqualFold(a: string, b: string) {
    ToLower(a) == ToLower(b)
  }

  lemma LowerIdempotent(s: string)
    ensures ToLower(ToLower(s)) == ToLower(s)
  {
  }

  lemma LowerUpper(s: string)
    ensures ToLower(ToUpper(s)) == ToLower(s)
  {
  }

  lemma UpperIdempotent(s: string)
    ensures ToUpper(ToUpper(s)) == ToUpper(s)
  {
  }

  lemma FoldedUpper(a: string, b: string)
    requires EqualFold(a, b)
    ensures ToUpper(a) == ToUpper(b)
  {
    forall i | 0 <= i < |ToLower(a)|
      ensures ToUpper(a)[i] == ToUpper(b)[i]
    {
      assert ToLower(a)[i] == ToLower(b)[i];
    }
  }

  /* ---------- trimming ---------- */

  predicate IsSpace(c: char) {
    c == ' ' || c == '\t' || c == '\n' || c == '\r' || c as int == 11 || c as int == 12
  }

  predicate IsQuote(c: char) {
    c == '\''
  }

  function TrimLeft(s: string, cut: char -> bool): (r: string)
    ensures |r| <= |s| && r == s[|s| - |r|..]
    ensures r != [] ==> !cut(r[0])
  {
    if s != [] && cut(s[0]) then TrimLeft(s[1..], cut) else s
  }

  function TrimRight(s: string, cut: char -> bool): (r: string)
    ensures r <= s
    ensures r != [] ==> !cut(r[|r|-1])
  {
    if s != [] && cut(s[|s|-1]) then TrimRight(s[..|s|-1], cut) else s
  }

  function Trim(s: string, cut: char -> bool): (r: string)
    ensures |r| <= |s|
    ensures r != [] ==> !cut(r[0]) && !cut(r[|r|-1])
  {
    var l := TrimLeft(s, cut);
    var r := TrimRight(l, cut);
    assert r != [] ==> r[0] == l[0];
    r
  }

  lemma TrimKeeps(s: string, cut: char -> bool, c: char)
    requires c in Trim(s, cut)
    ensures c in s
  {
    var l := TrimLeft(s, cut);
    var i :| 0 <= i < |Trim(s, cut)| && Trim(s, cut)[i] == c;
    assert l[i] == c && s[|s| - |l| + i] == c;
  }

  lemma TrimAddsNothing(s: string, cut: char -> bool, c: char)
    requires c !in s
    ensures c !in Trim(s, cut)
  {
    if c in Trim(s, cut) {
      TrimKeeps(s, cut, c);
    }
  }

  function TrimSpace(s: string): string {
    Trim(s, IsSpace)
  }

  lemma {:induction false} TrimLeftKeeps(s: string, c: char)
    requires c in s && !IsSpace(c)
    ensures c in TrimLeft(s, IsSpace)
  {
    if IsSpace(s[0]) {
      assert s == [s[0]] + s[1..];
      TrimLeftKeeps(s[1..], c);
    }
  }

  lemma {:induction false} TrimRightKeeps(s: string, c: char)
    requires c in s && !IsSpace(c)
    ensures c in TrimRight(s, IsSpace)
  {
    if IsSpace(s[|s|-1]) {
      assert s == s[..|s|-1] + [s[|s|-1]];
      TrimRightKeeps(s[..|s|-1], c);
    }
  }

  lemma TrimSpaceKeeps(s: string, c: char)
    requires c in s && !IsSpace(c)
    ensures c in TrimSpace(s)
  {
    TrimLeftKeeps(s, c);
    TrimRightKeeps(TrimLeft(s, IsSpace), c);
  }

  // No character to cut at either end.
  predicate Bare(s: string, cut: char -> bool) {
    s == [] || (!cut(s[0]) && !cut(s[|s|-1]))
  }

  lemma TrimBare(s: string, cut: char -> bool)
    ensures Trim(s, cut) == s <==> Bare(s, cut)
  {
  }

  ghost predicate AllCut(s: string, cut: char -> bool) {
    forall i :: 0 <= i < |s| ==> cut(s[i])
  }

  lemma {:induction false} LeftPart(s: string, cut: char -> bool) returns (a: string)
    ensures s == a + TrimLeft(s, cut) && AllCut(a, cut)
  {
    if s != [] && cut(s[0]) {
      a := LeftPart(s[1..], cut);
      a := [s[0]] + a;
    } else {
      a := [];
    }
  }

  lemma {:induction false} RightPart(s: string, cut: char -> bool) returns (b: string)
    ensures s == TrimRight(s, cut) + b && AllCut(b, cut)
  {
    if s != [] && cut(s[|s|-1]) {
      b := RightPart(s[..|s|-1], cut);
      b := b + [s[|s|-1]];
    } else {
      b := [];
    }
  }

  lemma TrimParts(s: string, cut: char -> bool) returns (a: string, b: string)
    ensures s == a + Trim(s, cut) + b && AllCut(a, cut) && AllCut(b, cut)
    ensures a + b == [] ==> Bare(s, cut)
  {
    a := LeftPart(s, cut);
    var l := TrimLeft(s, cut);
    b := RightPart(l, cut);
    Regroup(a, TrimRight(l, cut), b, l, s);
    if a + b == [] {
      WholeIsBare(a, b, s, cut);
    }
  }

  lemma Regroup(a: string, t: string, b: string, l: string, s: string)
    requires s == a + l && l == t + b
    ensures s == a + t + b
  {
  }

  lemma WholeIsBare(a: string, b: string, s: string, cut: char -> bool)
    requires a + b == [] && s == a + Trim(s, cut) + b
    ensures Bare(s, cut)
  {
    assert a == [] && b == [];
    TrimBare(s, cut);
  }

  lemma {:induction false} TrimLeftGap(s: string, n: nat, cut: char -> bool)
    requires n < |s| && !cut(s[n]) && forall i :: 0 <= i < n ==> cut(s[i])
    ensures TrimLeft(s, cut) == s[n..]
  {
    if 0 < n {
      TrimLeftGap(s[1..], n - 1, cut);
      assert s[1..][n - 1..] == s[n..];
    }
  }

  lemma {:induction false} TrimRightGap(s: string, n: nat, cut: char -> bool)
    requires 0 < n <= |s| && !cut(s[n-1]) && forall i :: n <= i < |s| ==> cut(s[i])
    ensures TrimRight(s, cut) == s[..n]
  {
    if n < |s| {
      TrimRightGap(s[..|s|-1], n, cut);
      assert s[..|s|-1][..n] == s[..n];
    } else {
      assert s[..n] == s;
    }
  }

  lemma {:induction false} TrimLeftAll(s: string, cut: char -> bool)
    requires AllCut(s, cut)
    ensures TrimLeft(s, cut) == []
  {
    if s != [] {
      TrimLeftAll(s[1..], cut);
    }
  }

  lemma TrimLeftPadded(front: string, rest: string, cut: char -> bool)
    requires AllCut(front, cut) && rest != [] && !cut(rest[0])
    ensures TrimLeft(front + rest, cut) == rest
  {
    TrimLeftGap(front + rest, |front|, cut);
    assert (front + rest)[|front|..] == rest;
  }

  lemma TrimRightPadded(core: string, back: string, cut: char -> bool)
    requires AllCut(back, cut) && core != [] && !cut(core[|core|-1])
    ensures TrimRight(core + back, cut) == core
  {
    TrimRightGap(core + back, |core|, cut);
    assert (core + back)[..|core|] == core;
  }

  // Trimming undoes padding.
  lemma TrimPadded(front: string, core: string, back: string, cut: char -> bool)
    requires AllCut(front, cut) && AllCut(back, cut) && Bare(core, cut)
    ensures Trim(front + core + back, cut) == core
  {
    if core == [] {
      TrimLeftAll(front + core + back, cut);
    } else {
      assert front + core + back == front + (core + back);
      TrimLeftPadded(front, core + back, cut);
      TrimRightPadded(core, back, cut);
    }
  }

  // Trimming looks at characters one by one, so it commutes with any mapping that keeps
  // what is cut.
  lemma {:induction false} TrimLeftMapped(s: string, f: char -> char, cut: char -> bool)
    requires forall c :: cut(f(c)) <==> cut(c)
    ensures TrimLeft(Mapped(s, f), cut) == Mapped(TrimLeft(s, cut), f)
  {
    if s != [] && cut(s[0]) {
      assert Mapped(s, f)[1..] == Mapped(s[1..], f);
      TrimLeftMapped(s[1..], f, cut);
    }
  }

  lemma {:induction false} TrimRightMapped(s: string, f: char -> char, cut: char -> bool)
    requires forall c :: cut(f(c)) <==> cut(c)
    ensures TrimRight(Mapped(s, f), cut) == Mapped(TrimRight(s, cut), f)
  {
    if s != [] && cut(s[|s|-1]) {
      assert Mapped(s, f)[..|s|-1] == Mapped(s[..|s|-1], f);
      TrimRightMapped(s[..|s|-1], f, cut);
    }
  }

  lemma TrimSpaceUpper(s: string)
    ensures TrimSpace(ToUpper(s)) == ToUpper(TrimSpace(s))
  {
    TrimLeftMapped(s, UpperChar, IsSpace);
    TrimRightMapped(TrimLeft(s, IsSpace), UpperChar, IsSpace);
  }

  /* ---------- decimal numbers ---------- */

  predicate IsDigit(c: char) {
    '0' <= c <= '9'
  }

  function DigitChar(d: nat): char
    requires d < 10
  {
    '0' + d as char
  }

  predicate AllDigits(s: string) {
    s != [] && forall i :: 0 <= i < |s| ==> IsDigit(s[i])
  }

  function Digits(n: nat): (s: string)
    ensures AllDigits(s)
    ensures n < 10 ==> |s| == 1
  {
    if n < 10 then [DigitChar(n)] else Digits(n / 10) + [DigitChar(n % 10)]
  }

  function Value(s: string): int
    requires forall i :: 0 <= i < |s| ==> IsDigit(s[i])
  {
    if s == [] then 0 else 10 * Value(s[..|s|-1]) + (s[|s|-1] as int - '0' as int)
  }

  function Itoa(n: int): string {
    if n < 0 then "-" + Digits(-n) else Digits(n)
  }

  // strconv's decimal syntax: an optional sign, then at least one digit; out of range fails.
  function ParseSigned(s: string, limit: int): Option<int> {
    var digits := if s != [] && (s[0] == '+' || s[0] == '-') then s[1..] else s;
    if !AllDigits(digits) then None
    else
      var n := if s[0] == '-' then -Value(digits) else Value(digits);
      if -limit <= n < limit then Some(n) else None
  }

  const INT64_LIMIT: int := 0x8000_0000_0000_0000
  const INT32_LIMIT: int := 0x8000_0000

  function Atoi(s: string): Option<int> {
    ParseSigned(s, INT64_LIMIT)
  }

  lemma {:induction false} ValueOfDigits(n: nat)
    ensures Value(Digits(n)) == n
  {
    if n >= 10 {
      ValueOfDigits(n / 10);
      assert Digits(n)[..|Digits(n)|-1] == Digits(n / 10);
    } else {
      assert Digits(n)[..0] == [];
    }
  }

  lemma ParsePlain(digits: string, limit: int)
    requires AllDigits(digits) && 0 <= Value(digits) < limit
    ensures ParseSigned(digits, limit) == Some(Value(digits))
  {
    assert IsDigit(digits[0]);
  }

  lemma ParseMinus(digits: string, limit: int)
    requires AllDigits(digits) && 0 < Value(digits) <= limit
    ensures ParseSigned("-" + digits, limit) == Some(-Value(digits))
  {
    assert ("-" + digits)[1..] == digits;
  }

  lemma ParseItoa(n: int, limit: int)
    requires -limit <= n < limit
    ensures ParseSigned(Itoa(n), limit) == Some(n)
  {
    if n < 0 {
      ValueOfDigits(-n);
      ParseMinus(Digits(-n), limit);
    } else {
      ValueOfDigits(n);
      ParsePlain(Digits(n), limit);
    }
  }

  // A parsed text carries no character outside digits and sign.
  lemma ParsedIsPlain(s: string, limit: int)
    requires ParseSigned(s, limit).Some?
    ensures 'e' !in s
    ensures s != [] && !IsSpace(s[0]) && !IsSpace(s[|s|-1])
  {
    var digits := if s[0] == '+' || s[0] == '-' then s[1..] else s;
    forall i | 0 <= i < |s|
      ensures s[i] == '+' || s[i] == '-' || IsDigit(s[i])
    {
      if digits != s && 0 < i {
        assert digits[i-1] == s[i];
      }
    }
  }

  lemma SignedDigits(digits: string)
    requires AllDigits(digits)
    ensures NumberChars(digits) && NumberChars("-" + digits)
  {
    var s := "-" + digits;
    assert forall i :: 0 < i < |s| ==> s[i] == digits[i - 1];
  }

  predicate NumberChars(s: string) {
    s != [] && forall i :: 0 <= i < |s| ==> s[i] == '-' || IsDigit(s[i])
  }

  lemma NumberIsPlain(s: string)
    requires NumberChars(s)
    ensures 'e' !in s && TrimSpace(s) == s
  {
    TrimBare(s, IsSpace);
  }

  lemma ItoaIsPlain(n: int)
    ensures 'e' !in Itoa(n)
    ensures TrimSpace(Itoa(n)) == Itoa(n) && Itoa(n) != []
  {
    SignedDigits(if n < 0 then Digits(-n) else Digits(n));
    NumberIsPlain(Itoa(n));
  }

  /* ---------- join and split ---------- */

  function Join(parts: seq<string>, sep: string): string {
    if parts == [] then ""
    else if |parts| == 1 then parts[0]
    else parts[0] + sep + Join(parts[1..], sep)
  }

  function Split(s: string, sep: char): (parts: seq<string>)
    ensures parts != []
    ensures forall i :: 0 <= i < |parts| ==> sep !in parts[i]
  {
    if s == [] then [""]
    else
      var rest := Split(s[1..], sep);
      if s[0] == sep then [""] + rest else [[s[0]] + rest[0]] + rest[1..]
  }

  lemma {:induction false} SplitFirst(part: string, rest: string, sep: char)
    requires sep !in part
    ensures Split(part, sep) == [part]
    ensures Split(part + [sep] + rest, sep) == [part] + Split(rest, sep)
  {
    if part == [] {
      assert part + [sep] + rest == [sep] + rest;
    } else {
      SplitFirst(part[1..], rest, sep);
      assert (part + [sep] + rest)[1..] == part[1..] + [sep] + rest;
      assert [part[0]] + part[1..] == part;
    }
  }

  lemma {:induction false} SplitJoin(parts: seq<string>, sep: char)
    requires parts != [] && forall i :: 0 <= i < |parts| ==> sep !in parts[i]
    ensures Split(Join(parts, [sep]), sep) == parts
  {
    SplitFirst(parts[0], Join(parts[1..], [sep]), sep);
    if |parts| > 1 {
      SplitJoin(parts[1..], sep);
    }
  }
}
