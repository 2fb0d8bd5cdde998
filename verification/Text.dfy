/** Decimal text of 64-bit integers, as strconv.FormatInt and strconv.ParseInt (base 10) produce and read it. */
module Text {
  import opened Options

  const MIN_INT64: int := -0x8000_0000_0000_0000
  const MAX_INT64: int := 0x7FFF_FFFF_FFFF_FFFF

  type Int64 = n: int | MIN_INT64 <= n <= MAX_INT64

  predicate IsDigit(c: char) {
    '0' <= c <= '9'
  }

  predicate AllDigits(s: string) {
    forall i :: 0 <= i < |s| ==> IsDigit(s[i])
  }

  function DigitChar(d: int): char
    requires 0 <= d < 10
  {
    '0' + d as char
  }

  function Digits(n: nat): (s: string)
    ensures |s| > 0 && AllDigits(s)
  {
    if n < 10 then [DigitChar(n)] else Digits(n / 10) + [DigitChar(n % 10)]
  }

  function FormatInt(n: int): string {
    if n < 0 then "-" + Digits(-n) else Digits(n)
  }

  function DigitsValue(s: string): int
    requires AllDigits(s)
  {
    if s == "" then 0
    else DigitsValue(s[..|s| - 1]) * 10 + (s[|s| - 1] as int - '0' as int)
  }

  // None stands for the error return: no digits, a stray character, or a value outside 64 bits.
  function ParseInt(s: string): Option<Int64> {
    if s == "" then None
    else
      var digits := if s[0] == '-' || s[0] == '+' then s[1..] else s;
      if digits == "" || !AllDigits(digits) then None
      else
        var v: int := if s[0] == '-' then -DigitsValue(digits) else DigitsValue(digits);
        if MIN_INT64 <= v <= MAX_INT64 then Some(v) else None
  }

  /** A number is read from digits, with a sign or without, when it fits in 64 bits; nothing else is one. */
  lemma ParseIntIff(s: string)
    ensures var digits := if s != "" && (s[0] == '-' || s[0] == '+') then s[1..] else s;
      && (ParseInt(s).Some? ==> digits != "" && AllDigits(digits))
      && (digits != "" && AllDigits(digits) ==>
            var v := if s[0] == '-' then -DigitsValue(digits) else DigitsValue(digits);
            ParseInt(s) == if MIN_INT64 <= v <= MAX_INT64 then Some(v) else None)
  {
  }

  lemma {:induction false} DigitsValueOfDigits(n: nat)
    ensures DigitsValue(Digits(n)) == n
  {
    if n >= 10 {
      DigitsValueOfDigits(n / 10);
      var s := Digits(n);
      assert s[..|s| - 1] == Digits(n / 10);
    } else {
      assert Digits(n)[..0] == "";
    }
  }

  lemma ParseUndoesFormat(n: Int64)
    ensures ParseInt(FormatInt(n)) == Some(n)
  {
    var m: int := n;
    DigitsValueOfDigits(if m < 0 then -m else m);
    var s := FormatInt(n);
    if m < 0 {
      assert s[1..] == Digits(-m);
    } else {
      assert IsDigit(s[0]);
    }
  }
}
