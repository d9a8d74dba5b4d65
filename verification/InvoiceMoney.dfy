/** The printed money of an invoice: Indian digit grouping that loses nothing. */
module InvoiceMoney {
  import opened Common
  import opened Decimal
  import opened Rounding

  /**
   * The regular expression `\B(?=(\d{2})+(?!\d))` over a string of digits: a comma before every
   * position but the first that an even number of digits follows. This prints from position `i` on.
   */
  function CommaPairs(s: string, i: nat): string
    requires i <= |s|
    decreases |s| - i
  {
    if i == |s| then ""
    else (if 0 < i && (|s| - i) % 2 == 0 then "," else "") + [s[i]] + CommaPairs(s, i + 1)
  }

  function Grouped(whole: string): string {
    if |whole| > 3 then CommaPairs(whole[..|whole| - 3], 0) + "," + whole[|whole| - 3..] else whole
  }

  function FormatMoney(paise: int, currency: string): string {
    currency + " " + Sign(paise) + Grouped(ToDecimal(Abs(paise) / 100)) + "." + TwoDigits(Abs(paise) % 100)
  }

  /** The character `d` places from the end. */
  function FromEnd(s: string, d: nat): char
    requires d < |s|
  {
    s[|s| - 1 - d]
  }

  lemma RemoveFromFront(c: char, s: string)
    ensures RemoveCommas([c] + s) == (if c == ',' then "" else [c]) + RemoveCommas(s)
  {
    assert ([c] + s)[1..] == s;
  }

  lemma {:induction false} CommaPairsRemoved(s: string, i: nat)
    requires i <= |s| && AllDigits(s)
    ensures RemoveCommas(CommaPairs(s, i)) == s[i..]
    decreases |s| - i
  {
    if i < |s| {
      var rest := CommaPairs(s, i + 1);
      CommaPairsRemoved(s, i + 1);
      RemoveFromFront(s[i], rest);
      RemoveFromFront(',', [s[i]] + rest);
      assert s[i..] == [s[i]] + s[i + 1..];
      hide RemoveCommas;
      assert CommaPairs(s, i) == if 0 < i && (|s| - i) % 2 == 0 then [','] + ([s[i]] + rest) else [s[i]] + rest;
    }
  }

  /** Commas exactly where the distance from the end leaves `r` modulo 3, at or past `from`. */
  ghost predicate CommasAt(e: string, from: nat, r: nat) {
    forall d: nat | d < |e| :: FromEnd(e, d) == ',' <==> from <= d && d % 3 == r
  }

  lemma CommasAtPrepend(c: char, e: string, from: nat, r: nat)
    requires CommasAt(e, from, r)
    requires c == ',' <==> from <= |e| && |e| % 3 == r
    ensures CommasAt([c] + e, from, r)
  {
    forall d: nat | d < |e| + 1 ensures FromEnd([c] + e, d) == ',' <==> from <= d && d % 3 == r {
      if d < |e| {
        assert FromEnd([c] + e, d) == FromEnd(e, d);
      }
    }
  }

  lemma NoCommas()
    ensures CommasAt("", 0, 2)
  {}

  lemma CommaPairsStep(s: string, i: nat)
    requires i < |s|
    ensures var rest := [s[i]] + CommaPairs(s, i + 1);
      CommaPairs(s, i) == if 0 < i && (|s| - i) % 2 == 0 then [','] + rest else rest
  {}

  /** How long the grouped text is, modulo a pair and its comma. */
  lemma {:induction false} CommaPairsModulo(s: string, i: nat)
    requires i <= |s|
    ensures |CommaPairs(s, i)| % 3 == (if (|s| - i) % 2 == 1 then 1 else if i == 0 && |s| > 0 then 2 else 0)
    decreases |s| - i
  {
    if i < |s| {
      CommaPairsModulo(s, i + 1);
      CommaPairsStep(s, i);
      hide CommaPairs;
    }
  }

  lemma {:induction false} CommaPairsSpaced(s: string, i: nat)
    requires i <= |s| && AllDigits(s)
    ensures CommasAt(CommaPairs(s, i), 0, 2)
    decreases |s| - i
  {
    hide CommasAt;
    if i == |s| {
      NoCommas();
    } else {
      var rest := CommaPairs(s, i + 1);
      CommaPairsSpaced(s, i + 1);
      CommaPairsModulo(s, i + 1);
      CommaPairsStep(s, i);
      hide CommaPairs;
      assert s[i] != ',';
      CommasAtPrepend(s[i], rest, 0, 2);
      if 0 < i && (|s| - i) % 2 == 0 {
        CommasAtPrepend(',', [s[i]] + rest, 0, 2);
      }
    }
  }

  lemma CommasAtAppendGroup(e: string, last: string)
    requires CommasAt(e, 0, 2) && |last| == 3 && AllDigits(last)
    ensures CommasAt(e + "," + last, 1, 0)
  {
    var g := e + "," + last;
    forall d: nat | d < |g| ensures FromEnd(g, d) == ',' <==> 1 <= d && d % 3 == 0 {
      if d >= 4 {
        assert FromEnd(g, d) == FromEnd(e, d - 4);
      } else if d == 3 {
        assert FromEnd(g, d) == ',';
      } else {
        assert FromEnd(g, d) == last[2 - d];
      }
    }
  }

  lemma RemoveCommasAppendGroup(e: string, last: string)
    requires AllDigits(last)
    ensures RemoveCommas(e + "," + last) == RemoveCommas(e) + last
  {
    assert RemoveCommas(e + ",") == RemoveCommas(e) by {
      RemoveCommasAppend(e, ",");
      assert ","[1..] == "" && RemoveCommas(",") == "";
    }
    hide RemoveCommas;
    RemoveCommasOfDigits(last);
    RemoveCommasAppend(e + ",", last);
  }

  lemma GroupedLong(whole: string)
    requires AllDigits(whole) && |whole| > 3
    ensures RemoveCommas(Grouped(whole)) == whole
    ensures CommasAt(Grouped(whole), 1, 0)
  {
    hide RemoveCommas, CommasAt, CommaPairs;
    var head, last := whole[..|whole| - 3], whole[|whole| - 3..];
    CommaPairsRemoved(head, 0);
    CommaPairsSpaced(head, 0);
    RemoveCommasAppendGroup(CommaPairs(head, 0), last);
    CommasAtAppendGroup(CommaPairs(head, 0), last);
  }

  lemma GroupedFirst(whole: string)
    requires |whole| > 3
    ensures |Grouped(whole)| > |whole| && Grouped(whole)[0] == whole[0]
  {
    var head := whole[..|whole| - 3];
    CommaPairsLength(head, 0);
    assert CommaPairs(head, 0) == [head[0]] + CommaPairs(head, 1);
  }

  /**
   * Three digits at the end, then pairs: counted from the end, the commas stand exactly at the
   * positive multiples of three. So no group is empty, none leads, and the first has one or two
   * digits once there are more than three; dropping the commas gives the digits back.
   */
  lemma GroupingShape(whole: string)
    requires AllDigits(whole) && whole != ""
    ensures var g := Grouped(whole);
      && RemoveCommas(g) == whole
      && CommasAt(g, 1, 0)
      && |g| > 0 && g[0] == whole[0]
      && (|whole| > 3 ==> |g| > 4 && (g[1] == ',' || g[2] == ','))
  {
    if |whole| <= 3 {
      RemoveCommasOfDigits(whole);
    } else {
      hide Grouped, RemoveCommas;
      GroupedLong(whole);
      GroupedFirst(whole);
      var g := Grouped(whole);
      assert FromEnd(g, |g| - 1) == g[0] && FromEnd(g, |g| - 2) == g[1] && FromEnd(g, |g| - 3) == g[2];
    }
  }

  lemma {:induction false} CommaPairsLength(s: string, i: nat)
    requires i <= |s|
    ensures |CommaPairs(s, i)| >= |s| - i
    decreases |s| - i
  {
    if i < |s| {
      CommaPairsLength(s, i + 1);
    }
  }

  /** Every amount, in every currency, can be read back off the invoice. */
  lemma FormatMoneyReadsBack(paise: int, currency: string)
    ensures var s := FormatMoney(paise, currency);
      && |currency| < |s| && s[..|currency| + 1] == currency + " "
      && ReadPaise(s[|currency| + 1..]) == Some(paise)
  {
    hide Grouped, RemoveCommas, TwoDigits, ReadPaise;
    var whole := ToDecimal(Abs(paise) / 100);
    GroupingShape(whole);
    ReadBack(paise, Grouped(whole));
    var s, cents := FormatMoney(paise, currency), TwoDigits(Abs(paise) % 100);
    assert s[|currency| + 1..] == Sign(paise) + Grouped(whole) + "." + cents;
  }
}
