/** Decimal numerals: how whole numbers and paise amounts are printed, and a reference reader for both. */
module Decimal {
  import opened Common
  import opened Rounding

  function Digit(d: int): char
    requires 0 <= d < 10
  {
    '0' + d as char
  }

  predicate AllDigits(s: string) {
    forall i :: 0 <= i < |s| ==> '0' <= s[i] <= '9'
  }

  function ToDecimal(n: nat): (s: string)
    ensures |s| > 0 && AllDigits(s)
    ensures |s| > 1 ==> s[0] != '0'
  {
    if n < 10 then [Digit(n)] else ToDecimal(n / 10) + [Digit(n % 10)]
  }

  function Value(s: string): nat
    requires AllDigits(s)
  {
    if s == "" then 0 else 10 * Value(s[..|s| - 1]) + (s[|s| - 1] - '0') as int
  }

  lemma {:induction false} ValueOfDecimal(n: nat)
    ensures Value(ToDecimal(n)) == n
  {
    if n >= 10 {
      ValueOfDecimal(n / 10);
      var s := ToDecimal(n);
      assert s[..|s| - 1] == ToDecimal(n / 10);
    }
  }

  /** The digits a text begins with. */
  function LeadingDigits(s: string): string {
    if s == "" || !('0' <= s[0] <= '9') then "" else [s[0]] + LeadingDigits(s[1..])
  }

  lemma {:induction false} LeadingDigitsOf(digits: string, rest: string)
    requires AllDigits(digits) && (rest == "" || !('0' <= rest[0] <= '9'))
    ensures LeadingDigits(digits + rest) == digits
  {
    if digits == "" {
      assert digits + rest == rest;
    } else {
      assert (digits + rest)[1..] == digits[1..] + rest;
      LeadingDigitsOf(digits[1..], rest);
    }
  }

  /** `padStart(2, '0')` of a number below 100. */
  function TwoDigits(n: int): string
    requires 0 <= n < 100
  {
    [Digit(n / 10), Digit(n % 10)]
  }

  function Sign(n: int): string {
    if n < 0 then "-" else ""
  }

  function RemoveCommas(s: string): string {
    if s == "" then "" else (if s[0] == ',' then "" else [s[0]]) + RemoveCommas(s[1..])
  }

  lemma {:induction false} RemoveCommasAppend(s: string, t: string)
    ensures RemoveCommas(s + t) == RemoveCommas(s) + RemoveCommas(t)
  {
    if s == "" {
      assert s + t == t;
    } else {
      assert (s + t)[1..] == s[1..] + t;
      RemoveCommasAppend(s[1..], t);
    }
  }

  lemma {:induction false} RemoveCommasOfDigits(s: string)
    requires AllDigits(s)
    ensures RemoveCommas(s) == s
  {
    if s != "" {
      RemoveCommasOfDigits(s[1..]);
    }
  }

  /** `(paise / 100).toFixed(2)`. */
  function RateText(paise: int): string {
    Sign(paise) + ToDecimal(Abs(paise) / 100) + "." + TwoDigits(Abs(paise) % 100)
  }

  /** Reference reader: digits with commas anywhere, a point and two decimals, as paise. */
  function ReadUnsigned(s: string): Option<nat> {
    if |s| < 4 || s[|s| - 3] != '.' then None
    else
      var whole, cents := RemoveCommas(s[..|s| - 3]), s[|s| - 2..];
      if AllDigits(whole) && AllDigits(cents) then Some(100 * Value(whole) + Value(cents)) else None
  }

  /** The same after an optional minus. */
  function ReadPaise(s: string): Option<int> {
    if |s| > 0 && s[0] == '-' then
      var magnitude := ReadUnsigned(s[1..]);
      if magnitude.Some? then Some(0 - magnitude.value as int) else None
    else ReadUnsigned(s)
  }

  lemma ValueOfTwoDigits(n: int)
    requires 0 <= n < 100
    ensures AllDigits(TwoDigits(n)) && Value(TwoDigits(n)) == n
  {
    var s := TwoDigits(n);
    assert s[..1] == [Digit(n / 10)] && s[..1][..0] == "";
    assert Value(s[..1]) == 10 * Value(s[..1][..0]) + n / 10;
  }

  lemma TwoDigitsLength(n: int)
    requires 0 <= n < 100
    ensures |TwoDigits(n)| == 2
  {}

  lemma ReadUnsignedBack(amount: nat, grouped: string)
    requires grouped != "" && RemoveCommas(grouped) == ToDecimal(amount / 100)
    ensures ReadUnsigned(grouped + "." + TwoDigits(amount % 100)) == Some(amount)
  {
    hide TwoDigits, Value, RemoveCommas, ToDecimal;
    var cents := TwoDigits(amount % 100);
    var s := grouped + "." + cents;
    assert |cents| == 2 by { TwoDigitsLength(amount % 100); }
    ValueOfDecimal(amount / 100);
    ValueOfTwoDigits(amount % 100);
    assert s[..|s| - 3] == grouped;
    assert s[|s| - 2..] == cents;
  }

  /** Any comma grouping of the whole rupees reads back as the same amount. */
  lemma ReadBack(paise: int, grouped: string)
    requires grouped != "" && grouped[0] != '-'
    requires RemoveCommas(grouped) == ToDecimal(Abs(paise) / 100)
    ensures ReadPaise(Sign(paise) + grouped + "." + TwoDigits(Abs(paise) % 100)) == Some(paise)
  {
    hide ReadUnsigned, TwoDigits, ToDecimal, RemoveCommas;
    var body := grouped + "." + TwoDigits(Abs(paise) % 100);
    var s := Sign(paise) + grouped + "." + TwoDigits(Abs(paise) % 100);
    ReadUnsignedBack(Abs(paise), grouped);
    if paise < 0 {
      assert s == "-" + body;
      assert s[1..] == body;
    } else {
      assert s == body;
    }
  }

  lemma RateTextReadsBack(paise: int)
    ensures ReadPaise(RateText(paise)) == Some(paise)
  {
    RemoveCommasOfDigits(ToDecimal(Abs(paise) / 100));
    ReadBack(paise, ToDecimal(Abs(paise) / 100));
  }
}
