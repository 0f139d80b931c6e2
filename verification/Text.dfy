/**
 The string functions of Go's `strconv`, `strings` and `fmt` that the key formats are built on:
 decimal printing and parsing, splitting at a separator, prefixes.
 */
module Text {
  import opened Options

  // ---------- decimals

  const DIGITS := "0123456789"

  predicate IsDigit(ch: char) {
    '0' <= ch <= '9'
  }

  function DigitValue(ch: char): nat
    requires IsDigit(ch)
  {
    ch as int - '0' as int
  }

  function FormatNat(n: nat): (s: string)
    ensures s != "" && forall i :: 0 <= i < |s| ==> IsDigit(s[i])
  {
    if n < 10 then [DIGITS[n]] else FormatNat(n / 10) + [DIGITS[n % 10]]
  }

  /** `%d` and strconv.FormatInt in base 10. */
  function FormatInt(i: int): string {
    if i < 0 then "-" + FormatNat(-i) else FormatNat(i)
  }

  function ParseNat(s: string): Option<int> {
    if s == "" then None
    else
      var last := s[|s| - 1];
      if !IsDigit(last) then None
      else if |s| == 1 then Some(DigitValue(last))
      else
        var front := ParseNat(s[..|s| - 1]);
        if front.None? then None else Some(10 * front.value + DigitValue(last))
  }

  const INT64 := 0x8000_0000_0000_0000
  const INT32 := 0x8000_0000

  /** strconv.Atoi where int has 64 bits: an optional sign, at least one digit, no overflow. */
  function Atoi(s: string): Option<int> {
    var signed := s != "" && (s[0] == '-' || s[0] == '+');
    var digits := ParseNat(if signed then s[1..] else s);
    if digits.None? then None
    else
      var v := if signed && s[0] == '-' then -digits.value else digits.value;
      if -INT64 <= v < INT64 then Some(v) else None
  }

  /** The conversion int32(x), which wraps around. */
  function ToInt32(x: int): (r: int)
    ensures -INT32 <= r < INT32 && (x - r) % (2 * INT32) == 0
  {
    (x + INT32) % (2 * INT32) - INT32
  }

  lemma {:induction false} ParseFormatNat(n: nat)
    ensures ParseNat(FormatNat(n)) == Some(n)
  {
    if n >= 10 {
      ParseFormatNat(n / 10);
      var s := FormatNat(n);
      assert s[..|s| - 1] == FormatNat(n / 10);
    }
  }

  /** Printing a nonnegative number gives no sign, printing a negative one a minus and its amount. */
  lemma FormatShape(i: int)
    ensures i >= 0 ==> IsDigit(FormatInt(i)[0]) && ParseNat(FormatInt(i)) == Some(i)
    ensures i < 0 ==> FormatInt(i)[0] == '-' && ParseNat(FormatInt(i)[1..]) == Some(-i)
  {
    if i < 0 {
      ParseFormatNat(-i);
      assert FormatInt(i)[1..] == FormatNat(-i);
    } else {
      ParseFormatNat(i);
      assert IsDigit(FormatNat(i)[0]);
    }
  }

  /** Parsing inverts printing on all 64-bit integers. */
  lemma AtoiFormat(i: int)
    requires -INT64 <= i < INT64
    ensures Atoi(FormatInt(i)) == Some(i)
  {
    FormatShape(i);
  }

  // ---------- what is no decimal

  predicate AllDigits(s: string) {
    forall i :: 0 <= i < |s| ==> IsDigit(s[i])
  }

  /** Digits and nothing else, at least one. */
  lemma {:induction false} ParseNatIff(s: string)
    ensures ParseNat(s).Some? <==> s != "" && AllDigits(s)
    ensures ParseNat(s).Some? ==> ParseNat(s).value >= 0
  {
    if |s| > 1 {
      var front := s[..|s| - 1];
      ParseNatIff(front);
      assert s == front + [s[|s| - 1]];
    }
  }

  /** Zeros in front do not count. */
  lemma {:induction false} LeadingZero(s: string)
    requires s != "" && AllDigits(s)
    ensures ParseNat("0" + s) == ParseNat(s)
  {
    var t := "0" + s;
    assert t[|t| - 1] == s[|s| - 1] && t[..|t| - 1] == "0" + s[..|s| - 1];
    if |s| > 1 {
      LeadingZero(s[..|s| - 1]);
    } else {
      assert t[..|t| - 1] == "0";
      assert s[..0] == "";
    }
  }

  /** Without zeros in front, what is parsed is printed again. */
  lemma {:induction false} FormatParseNat(s: string)
    requires s != "" && AllDigits(s) && (s[0] == '0' ==> s == "0")
    ensures ParseNat(s).Some? && ParseNat(s).value >= 0 && FormatNat(ParseNat(s).value) == s
    ensures s != "0" ==> ParseNat(s).value > 0
  {
    var front, last := s[..|s| - 1], s[|s| - 1];
    DigitBack(last);
    if front != "" {
      assert front[0] == s[0];
      FormatParseNat(front);
      ParseNext(s, ParseNat(front).value);
      FormatNext(ParseNat(front).value, DigitValue(last));
      assert s == front + [last];
    } else {
      FormatDigit(s);
    }
  }

  lemma ParseNext(s: string, front: nat)
    requires |s| > 1 && IsDigit(s[|s| - 1]) && ParseNat(s[..|s| - 1]) == Some(front)
    ensures ParseNat(s) == Some(10 * front + DigitValue(s[|s| - 1]))
  {
  }

  lemma FormatDigit(s: string)
    requires |s| == 1 && IsDigit(s[0])
    ensures ParseNat(s) == Some(DigitValue(s[0])) && FormatNat(DigitValue(s[0])) == s
  {
    DigitBack(s[0]);
  }

  lemma DigitBack(ch: char)
    requires IsDigit(ch)
    ensures DIGITS[DigitValue(ch)] == ch && (DigitValue(ch) == 0 ==> ch == '0')
  {
  }

  lemma FormatNext(n: nat, digit: nat)
    requires n > 0 && digit < 10
    ensures FormatNat(10 * n + digit) == FormatNat(n) + [DIGITS[digit]]
  {
  }

  /** A sign, if there is one, and the digits after it. */
  function Unsigned(s: string): string {
    if s != "" && (s[0] == '-' || s[0] == '+') then s[1..] else s
  }

  /** What Atoi accepts: a sign or none, digits and nothing else, and no more than 64 bits. */
  lemma AtoiIff(s: string)
    ensures ParseNat(Unsigned(s)).Some? <==> Unsigned(s) != "" && AllDigits(Unsigned(s))
    ensures Atoi(s).Some? <==>
              && ParseNat(Unsigned(s)).Some?
              && ParseNat(Unsigned(s)).value < INT64 + (if s[0] == '-' then 1 else 0)
    ensures Atoi(s).Some? ==>
              Atoi(s).value == if s[0] == '-' then -ParseNat(Unsigned(s)).value else ParseNat(Unsigned(s)).value
  {
    ParseNatIff(Unsigned(s));
  }

  /** For instance a revision file that ends in a newline cannot be read. */
  lemma NewlineIsRejected(s: string)
    ensures Atoi(s + "\n").None?
  {
    var t := s + "\n";
    AtoiIff(t);
    var digits := Unsigned(t);
    assert digits != "" ==> digits[|digits| - 1] == '\n';
  }

  lemma FormatInjective(i: int, j: int)
    requires FormatInt(i) == FormatInt(j)
    ensures i == j
  {
    FormatShape(i);
    FormatShape(j);
  }

  /** Printed integers contain neither of the separators used in keys. */
  lemma FormatHasNo(i: int, sep: char)
    requires sep != '-' && !IsDigit(sep)
    ensures sep !in FormatInt(i)
  {
  }

  lemma Int32Fits(i: int)
    requires -INT32 <= i < INT32
    ensures ToInt32(i) == i
  {
  }

  // ---------- splitting

  /** strings.Split for a one-character separator. */
  function Split(s: string, sep: char): (parts: seq<string>)
    ensures |parts| >= 1
  {
    if s == "" then [""]
    else
      var rest := Split(s[1..], sep);
      if s[0] == sep then [""] + rest else [[s[0]] + rest[0]] + rest[1..]
  }

  function Join(parts: seq<string>, sep: char): string
    requires parts != []
  {
    if |parts| == 1 then parts[0] else parts[0] + [sep] + Join(parts[1..], sep)
  }

  lemma {:induction false} SplitConcat(a: string, b: string, sep: char)
    ensures Split(a + [sep] + b, sep) == Split(a, sep) + Split(b, sep)
  {
    var s := a + [sep] + b;
    if a == "" {
      assert s[1..] == b;
    } else {
      assert s[1..] == a[1..] + [sep] + b;
      SplitConcat(a[1..], b, sep);
    }
  }

  lemma {:induction false} SplitNone(s: string, sep: char)
    requires sep !in s
    ensures Split(s, sep) == [s]
  {
    if s != "" {
      SplitNone(s[1..], sep);
      assert [s[0]] + s[1..] == s;
    }
  }

  lemma {:induction false} SplitSome(s: string, sep: char)
    requires sep in s
    ensures |Split(s, sep)| >= 2
  {
    if s[0] != sep {
      assert sep in s[1..];
      SplitSome(s[1..], sep);
    }
  }

  lemma {:induction false} JoinSplit(s: string, sep: char)
    ensures Join(Split(s, sep), sep) == s
  {
    if s != "" {
      JoinSplit(s[1..], sep);
      var rest := Split(s[1..], sep);
      if s[0] == sep {
        JoinEmpty(rest, sep);
        assert s == [sep] + s[1..];
      } else {
        JoinFirst(s[0], rest, sep);
        assert s == [s[0]] + s[1..];
      }
    }
  }

  lemma JoinEmpty(rest: seq<string>, sep: char)
    requires rest != []
    ensures Join([""] + rest, sep) == [sep] + Join(rest, sep)
  {
    assert ([""] + rest)[1..] == rest;
  }

  lemma JoinFirst(ch: char, rest: seq<string>, sep: char)
    requires rest != []
    ensures Join([[ch] + rest[0]] + rest[1..], sep) == [ch] + Join(rest, sep)
  {
    var parts := [[ch] + rest[0]] + rest[1..];
    assert parts[1..] == rest[1..];
    if |rest| > 1 {
      assert ([ch] + rest[0]) + [sep] + Join(rest[1..], sep) == [ch] + (rest[0] + [sep] + Join(rest[1..], sep));
    }
  }

  lemma SplitInjective(s: string, t: string, sep: char)
    requires Split(s, sep) == Split(t, sep)
    ensures s == t
  {
    JoinSplit(s, sep);
    JoinSplit(t, sep);
  }

  /** strings.SplitN(s, sep, 2). */
  function SplitN2(s: string, sep: char): (parts: seq<string>)
    ensures 1 <= |parts| <= 2
  {
    if s == "" then [""]
    else if s[0] == sep then ["", s[1..]]
    else
      var rest := SplitN2(s[1..], sep);
      [[s[0]] + rest[0]] + rest[1..]
  }

  lemma {:induction false} SplitN2Concat(a: string, b: string, sep: char)
    requires sep !in a
    ensures SplitN2(a + [sep] + b, sep) == [a, b]
  {
    var s := a + [sep] + b;
    if a == "" {
      assert s[1..] == b;
    } else {
      assert s[1..] == a[1..] + [sep] + b;
      SplitN2Concat(a[1..], b, sep);
      assert [a[0]] + a[1..] == a;
    }
  }

  /** What SplitN has cut in two. */
  lemma {:induction false} SplitN2Join(s: string, sep: char)
    ensures var parts := SplitN2(s, sep);
      sep !in parts[0] && s == if |parts| == 2 then parts[0] + [sep] + parts[1] else parts[0]
  {
    if s != "" && s[0] == sep {
      assert s == [sep] + s[1..];
    } else if s != "" {
      SplitN2Join(s[1..], sep);
      SplitN2First(s, sep, SplitN2(s[1..], sep));
    }
  }

  lemma SplitN2First(s: string, sep: char, rest: seq<string>)
    requires s != "" && s[0] != sep && 1 <= |rest| <= 2 && sep !in rest[0]
    requires s[1..] == if |rest| == 2 then rest[0] + [sep] + rest[1] else rest[0]
    ensures var parts := [[s[0]] + rest[0]] + rest[1..];
      |parts| == |rest| && sep !in parts[0] && s == if |parts| == 2 then parts[0] + [sep] + parts[1] else parts[0]
  {
    assert s == [s[0]] + s[1..];
  }

  /** Where the first separator is. */
  lemma {:induction false} CutAtFirst(s: string, sep: char) returns (a: string, b: string)
    requires sep in s
    ensures s == a + [sep] + b && sep !in a
  {
    if s[0] == sep {
      a, b := "", s[1..];
    } else {
      assert sep in s[1..];
      a, b := CutAtFirst(s[1..], sep);
      a := [s[0]] + a;
    }
  }

  /** strings.HasPrefix. */
  predicate HasPrefix(s: string, prefix: string) {
    prefix <= s
  }

  /** strings.TrimPrefix. */
  function TrimPrefix(s: string, prefix: string): string {
    if prefix <= s then s[|prefix|..] else s
  }
}
