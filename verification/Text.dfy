/**
 The string operations behind the DSN code: splitting at a separator, decimal
 printing, and the integer parsing and narrowing of Go.
 */
module Text {

  /** Cuts a string at every separator; the result always has at least one piece. */
  function Split(s: string, sep: char): (pieces: seq<string>)
    ensures |pieces| >= 1
  {
    if s == "" then [""]
    else
      var rest := Split(s[1..], sep);
      if s[0] == sep then [""] + rest else [[s[0]] + rest[0]] + rest[1..]
  }

  /** A prefix without separators only lengthens the first piece. */
  lemma {:induction false} SplitPrefix(a: string, b: string, sep: char)
    requires sep !in a
    ensures Split(a + b, sep)[0] == a + Split(b, sep)[0]
    ensures Split(a + b, sep)[1..] == Split(b, sep)[1..]
  {
    if a == "" {
      assert a + b == b;
    } else {
      assert (a + b)[1..] == a[1..] + b;
      SplitPrefix(a[1..], b, sep);
    }
  }

  /** The text up to the first separator is the first piece; splitting goes on behind it. */
  lemma SplitAtFirst(a: string, b: string, sep: char)
    requires sep !in a
    ensures Split(a + [sep] + b, sep) == [a] + Split(b, sep)
  {
    assert a + [sep] + b == a + ([sep] + b);
    assert ([sep] + b)[1..] == b;
    assert Split([sep] + b, sep) == [""] + Split(b, sep);
    SplitPrefix(a, [sep] + b, sep);
    var pieces := Split(a + ([sep] + b), sep);
    assert pieces == [a + ""] + pieces[1..];
    assert a + "" == a;
  }

  lemma SplitNone(a: string, sep: char)
    requires sep !in a
    ensures Split(a, sep) == [a]
  {
    SplitPrefix(a, "", sep);
    assert a + "" == a;
    var pieces := Split(a, sep);
    assert pieces == [pieces[0]] + pieces[1..];
  }

  /** Splitting two texts joined by a separator splits each of them. */
  lemma {:induction false} SplitAcross(a: string, b: string, sep: char)
    ensures Split(a + [sep] + b, sep) == Split(a, sep) + Split(b, sep)
  {
    if a == "" {
      assert a + [sep] + b == [sep] + b && ([sep] + b)[1..] == b;
    } else {
      assert (a + [sep] + b)[1..] == a[1..] + [sep] + b;
      SplitAcross(a[1..], b, sep);
    }
  }

  lemma {:induction false} SeveralPiecesIff(s: string, sep: char)
    ensures |Split(s, sep)| >= 2 <==> sep in s
  {
    if s != "" { SeveralPiecesIff(s[1..], sep); }
  }

  function Lower(s: string): string {
    if s == "" then ""
    else [if 'A' <= s[0] <= 'Z' then s[0] - 'A' + 'a' else s[0]] + Lower(s[1..])
  }

  /** Lowering changes the capital letters of ASCII, each to its small letter, and nothing else. */
  lemma {:induction false} LowerIsPointwise(s: string)
    ensures |Lower(s)| == |s|
    ensures forall i :: 0 <= i < |s| ==>
              if 'A' <= s[i] <= 'Z' then Lower(s)[i] as int == s[i] as int + 32 else Lower(s)[i] == s[i]
  {
    if s != "" { LowerIsPointwise(s[1..]); }
  }

  /** The text in letters of either case. */
  predicate Spells(s: string, small: string, capital: string) {
    |s| == |small| == |capital| && forall i :: 0 <= i < |s| ==> s[i] == small[i] || s[i] == capital[i]
  }

  /** What lowers to a word of small letters is that word in letters of either case. */
  lemma LowersToIff(s: string, small: string, capital: string)
    requires |small| == |capital|
    requires forall i :: 0 <= i < |small| ==> 'a' <= small[i] <= 'z' && small[i] as int == capital[i] as int + 32
    ensures Lower(s) == small <==> Spells(s, small, capital)
  {
    LowerIsPointwise(s);
    if Lower(s) == small {
      forall i | 0 <= i < |s| ensures s[i] == small[i] || s[i] == capital[i] {
        assert Lower(s)[i] == small[i];
      }
    }
    if Spells(s, small, capital) {
      forall i | 0 <= i < |s| ensures Lower(s)[i] == small[i] {}
    }
  }

  predicate IsDigit(c: char) { '0' <= c <= '9' }

  predicate AllDigits(s: string) { forall i :: 0 <= i < |s| ==> IsDigit(s[i]) }

  function DigitChar(d: nat): (c: char)
    requires d < 10
    ensures IsDigit(c) && c as int - '0' as int == d
  {
    '0' + d as char
  }

  function PrintNat(n: nat): (s: string)
    ensures s != "" && AllDigits(s)
  {
    if n < 10 then [DigitChar(n)] else PrintNat(n / 10) + [DigitChar(n % 10)]
  }

  function PrintInt(n: int): string {
    if n < 0 then "-" + PrintNat(-n) else PrintNat(n)
  }

  function DigitsValue(s: string): nat
    requires AllDigits(s)
  {
    if s == "" then 0
    else 10 * DigitsValue(s[..|s| - 1]) + (s[|s| - 1] as int - '0' as int)
  }

  lemma {:induction false} PrintNatValue(n: nat)
    ensures DigitsValue(PrintNat(n)) == n
  {
    var s := PrintNat(n);
    if n < 10 {
      assert s[..|s| - 1] == "";
    } else {
      PrintNatValue(n / 10);
      assert s[..|s| - 1] == PrintNat(n / 10);
    }
  }

  predicate IsPowerOfTen(power: nat, exponent: nat) {
    if exponent == 0 then power == 1 else power % 10 == 0 && IsPowerOfTen(power / 10, exponent - 1)
  }

  /** Numbers are printed in base ten: as many digits as needed, without leading zeros. */
  lemma {:induction false} NoLeadingZeros(n: nat)
    ensures PrintNat(n)[0] == '0' ==> n == 0
    ensures n == 0 ==> PrintNat(n) == "0"
    ensures forall power: nat :: IsPowerOfTen(power, |PrintNat(n)|) ==> n < power && (n > 0 ==> power <= 10 * n)
  {
    if n >= 10 {
      NoLeadingZeros(n / 10);
      forall power: nat | IsPowerOfTen(power, |PrintNat(n)|) ensures n < power <= 10 * n {
        assert IsPowerOfTen(power / 10, |PrintNat(n / 10)|);
      }
    } else {
      assert IsPowerOfTen(1, 0);
    }
  }

  const MAX_INT64: int := 0x7fff_ffff_ffff_ffff

  /** A 64-bit integer: the nearest one when the value is out of range. */
  function Clamp64(n: int): int {
    if n > MAX_INT64 then MAX_INT64 else if n < -MAX_INT64 - 1 then -MAX_INT64 - 1 else n
  }

  /**
   The number a text stands for when the caller drops the parse error: zero for
   text that is no number, the nearest 64-bit integer for one out of range.
   */
  function Atoi(s: string): int {
    var digits := if s != "" && (s[0] == '-' || s[0] == '+') then s[1..] else s;
    if digits == "" || !AllDigits(digits) then 0
    else if s[0] == '-' then Clamp64(0 - DigitsValue(digits))
    else Clamp64(DigitsValue(digits))
  }

  predicate IsInt32(n: int) { -0x8000_0000 <= n < 0x8000_0000 }

  /** Narrowing to 32 bits keeps the low bits in two's complement. */
  function ToInt32(n: int): (r: int)
    ensures -0x8000_0000 <= r < 0x8000_0000 && (r - n) % 0x1_0000_0000 == 0
  {
    (n + 0x8000_0000) % 0x1_0000_0000 - 0x8000_0000
  }

  lemma AtoiOfPrinted(n: int, m: nat)
    requires m == if n < 0 then -n else n
    requires DigitsValue(PrintNat(m)) == m
    ensures Atoi(PrintInt(n)) == Clamp64(n)
  {
    var s := PrintInt(n);
    var digits := PrintNat(m);
    if n < 0 {
      assert s[0] == '-' && s[1..] == digits;
    } else {
      assert IsDigit(s[0]);
    }
  }

  /** Printing an integer of any size and reading it back gives the nearest 64-bit integer. */
  lemma PrintThenAtoi(n: int)
    ensures var read := Atoi(PrintInt(n));
            && -0x8000_0000_0000_0000 <= read <= 0x7fff_ffff_ffff_ffff
            && (read < n ==> read == 0x7fff_ffff_ffff_ffff) && (read > n ==> read == -0x8000_0000_0000_0000)
  {
    var m := if n < 0 then -n else n;
    PrintNatValue(m);
    AtoiOfPrinted(n, m);
  }

  /** Printing a 32-bit integer and reading it back gives the same integer. */
  lemma PrintThenParse(n: int)
    requires IsInt32(n)
    ensures ToInt32(Atoi(PrintInt(n))) == n
  {
    var m := if n < 0 then -n else n;
    PrintNatValue(m);
    AtoiOfPrinted(n, m);
    assert (n + 0x8000_0000) % 0x1_0000_0000 == n + 0x8000_0000;
  }

  /** A printed integer is free of every character that is neither a digit nor the minus sign. */
  lemma PrintedCharacters(n: int, c: char)
    requires !IsDigit(c) && c != '-'
    ensures c !in PrintInt(n)
  {
    assert AllDigits(PrintNat(if n < 0 then -n else n));
  }
}
