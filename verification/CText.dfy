/** C strings, and the C library's decimal text: printf's %d and atoi. */
module CText {

  const INT_MIN := -0x8000_0000
  const INT_MAX := 0x7FFF_FFFF

  predicate Int32(n: int) {
    INT_MIN <= n <= INT_MAX
  }

  /** The C string that starts a buffer. */
  function CStr(s: seq<char>): string {
    if s == [] || s[0] == '\0' then [] else [s[0]] + CStr(s[1..])
  }

  predicate IsDigit(c: char) {
    '0' <= c <= '9'
  }

  predicate AllDigits(s: string) {
    forall i :: 0 <= i < |s| ==> IsDigit(s[i])
  }

  function DigitValue(c: char): nat
    requires IsDigit(c)
  {
    c as int - '0' as int
  }

  function Digits(n: nat): string {
    if n < 10 then [('0' as int + n) as char] else Digits(n / 10) + [('0' as int + n % 10) as char]
  }

  /** "%d" */
  function Decimal(n: int): string {
    if n < 0 then "-" + Digits(-n) else Digits(n)
  }

  function ReadDigits(s: string, value: nat): nat {
    if s == [] || !IsDigit(s[0]) then value else ReadDigits(s[1..], value * 10 + DigitValue(s[0]))
  }

  predicate IsSpace(c: char) {
    c == ' ' || '\t' <= c <= '\r'
  }

  function Atoi(s: string): int {
    if s == [] then 0
    else if IsSpace(s[0]) then Atoi(s[1..])
    else if s[0] == '-' then 0 - ReadDigits(s[1..], 0)
    else if s[0] == '+' then ReadDigits(s[1..], 0)
    else ReadDigits(s, 0)
  }

  lemma {:induction false} DigitsAreDigits(n: nat)
    ensures Digits(n) != [] && AllDigits(Digits(n))
  {
    if n >= 10 { DigitsAreDigits(n / 10); }
  }

  lemma {:induction false} DigitsRead(n: nat, rest: string)
    ensures ReadDigits(Digits(n) + rest, 0) == ReadDigits(rest, n)
  {
    if n < 10 {
      assert (Digits(n) + rest)[1..] == rest;
    } else {
      var last := [('0' as int + n % 10) as char];
      assert Digits(n) + rest == Digits(n / 10) + (last + rest);
      DigitsRead(n / 10, last + rest);
      assert (last + rest)[1..] == rest;
    }
  }

  predicate Ends(rest: string) {
    rest == [] || !IsDigit(rest[0])
  }

  /** atoi gives back a printed number, whatever follows it, as long as that is not a digit. */
  lemma AtoiOfDecimal(n: int, rest: string)
    requires Ends(rest)
    ensures Atoi(Decimal(n) + rest) == n
  {
    if n < 0 {
      DigitsRead(-n, rest);
      assert (Decimal(n) + rest)[1..] == Digits(-n) + rest;
    } else {
      DigitsRead(n, rest);
      DigitsAreDigits(n);
      assert IsDigit((Digits(n) + rest)[0]);
    }
  }

  /** A decimal number and nothing else. */
  predicate IsDecimal(s: string) {
    if s != [] && s[0] == '-' then s[1..] != [] && AllDigits(s[1..]) else s != [] && AllDigits(s)
  }

  lemma DecimalIsDecimal(n: int)
    ensures IsDecimal(Decimal(n)) && Atoi(Decimal(n)) == n
    ensures forall i :: 0 <= i < |Decimal(n)| ==> Decimal(n)[i] == '-' || IsDigit(Decimal(n)[i])
  {
    AtoiOfDecimal(n, []);
    assert Decimal(n) + [] == Decimal(n);
    DigitsAreDigits(if n < 0 then -n else n);
    if n < 0 { assert Decimal(n)[1..] == Digits(-n); }
  }

  function Power10(k: nat): nat {
    if k == 0 then 1 else 10 * Power10(k - 1)
  }

  /** A number has at most `k` digits if and only if it is less than 10^k. */
  lemma {:induction false} DigitCount(n: nat, k: nat)
    requires k > 0
    ensures |Digits(n)| <= k <==> n < Power10(k)
  {
    if n >= 10 {
      if k == 1 {
        DigitsAreDigits(n / 10);
      } else {
        DigitCount(n / 10, k - 1);
      }
    } else {
      PowerPositive(k - 1);
    }
  }

  lemma {:induction false} PowerPositive(k: nat)
    ensures Power10(k) > 0
  {
    if k > 0 { PowerPositive(k - 1); }
  }

  lemma Int32Length(n: int)
    requires Int32(n)
    ensures |Decimal(n)| <= 11
  {
    DigitCount(if n < 0 then -n else n, 10);
    assert Power10(5) == 100000;
    assert Power10(10) == 100000 * 100000;
  }

  lemma TwoDigits(n: nat)
    requires 10 <= n < 100
    ensures Digits(n) == [('0' as int + n / 10) as char, ('0' as int + n % 10) as char]
  {
  }

  lemma ThreeZeroes(n: nat)
    requires n > 0
    ensures Digits(n * 1000) == Digits(n) + "000"
  {
    OneZero(n);
    OneZero(n * 10);
    OneZero(n * 100);
    hide Digits;
  }

  lemma OneZero(n: nat)
    requires n > 0
    ensures Digits(n * 10) == Digits(n) + "0"
  {
  }
}
