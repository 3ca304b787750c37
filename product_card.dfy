/**
 * The product card's choice of which price to show, and the price label.
 *
 * A product's `prices` rows hold relationships that may be unexpanded ids,
 * `null`, or expanded price documents. The card shows the first active
 * monthly recurring price, else the first active one-time price, else
 * nothing. Money is integer cents; the label is the exact dollar amount with
 * two decimals.
 */
module ProductCard {
  import opened Base
  import SC = StripeCollections

  /** The price document fields the card reads. */
  datatype Price = Price(active: bool, pricingType: SC.PricingType, interval: Option<SC.Interval>,
                         unitAmount: Option<nat>)

  /** A relationship value: the document id when not expanded, `null`, or the document. */
  datatype PriceRef = Unexpanded(id: DocId) | NullRef | Expanded(price: Price)

  /** One row of `product.prices`. */
  datatype PriceEntry = PriceEntry(price: PriceRef)

  // ---------------------------------------------------------------------
  // Display-price selection
  // ---------------------------------------------------------------------

  predicate IsMonthly(e: PriceEntry)
  {
    && e.price.Expanded? && e.price.price.active
    && e.price.price.pricingType == SC.Recurring && e.price.price.interval == Some(SC.Month)
  }

  predicate IsOneTime(e: PriceEntry)
  {
    e.price.Expanded? && e.price.price.active && e.price.price.pricingType == SC.OneTime
  }

  /**
   * The price the card shows. A monthly match is an expanded document, so
   * it is truthy and the one-time search runs only when there is none.
   */
  function DisplayPrice(prices: Option<seq<PriceEntry>>): (r: Option<Price>)
    ensures r.Some? ==> r.value.active
    ensures r.Some? ==> (r.value.pricingType == SC.Recurring && r.value.interval == Some(SC.Month))
                        || r.value.pricingType == SC.OneTime
    ensures r.Some? <==>
      prices.Some? && exists i :: 0 <= i < |prices.value| && (IsMonthly(prices.value[i]) || IsOneTime(prices.value[i]))
  {
    if prices.None? then None
    else
      var s := prices.value;
      var monthly := Find(s, IsMonthly);
      if monthly.Some? then Some(s[monthly.value].price.price)
      else
        var oneTime := Find(s, IsOneTime);
        if oneTime.Some? then Some(s[oneTime.value].price.price) else None
  }

  /** The first qualifying monthly price is shown, whatever one-time prices precede it. */
  lemma {:induction false} FirstMonthlyIsShown(s: seq<PriceEntry>, k: nat)
    requires k < |s| && IsMonthly(s[k])
    requires forall j :: 0 <= j < k ==> !IsMonthly(s[j])
    ensures DisplayPrice(Some(s)) == Some(s[k].price.price)
  {
    var m := Find(s, IsMonthly);
    assert m == Some(k);
  }

  /** With no qualifying monthly price, the first qualifying one-time price is shown. */
  lemma {:induction false} FirstOneTimeIsShown(s: seq<PriceEntry>, k: nat)
    requires forall j :: 0 <= j < |s| ==> !IsMonthly(s[j])
    requires k < |s| && IsOneTime(s[k])
    requires forall j :: 0 <= j < k ==> !IsOneTime(s[j])
    ensures DisplayPrice(Some(s)) == Some(s[k].price.price)
  {
    var m := Find(s, IsMonthly);
    assert m.None?;
    var o := Find(s, IsOneTime);
    assert o == Some(k);
  }

  /**
   * Unexpanded and `null` references and inactive prices are never shown;
   * a product whose active expanded prices are all recurring with another
   * interval than a month (or none) shows no price.
   */
  lemma {:induction false} OtherIntervalsShowNothing(s: seq<PriceEntry>)
    requires forall j :: 0 <= j < |s| && s[j].price.Expanded? && s[j].price.price.active ==>
      s[j].price.price.pricingType == SC.Recurring && s[j].price.price.interval != Some(SC.Month)
    ensures DisplayPrice(Some(s)).None?
  {
    forall i | 0 <= i < |s|
      ensures !IsMonthly(s[i]) && !IsOneTime(s[i])
    {
    }
  }

  // ---------------------------------------------------------------------
  // The label
  // ---------------------------------------------------------------------

  /** The amount and the optional `/interval` suffix as rendered. */
  datatype PriceLabel = PriceLabel(amountText: string, intervalText: Option<string>)

  predicate IsDigit(c: char)
  {
    '0' <= c <= '9'
  }

  predicate AllDigits(s: string)
  {
    forall i :: 0 <= i < |s| ==> IsDigit(s[i])
  }

  function DigitChar(d: nat): (c: char)
    requires d < 10
    ensures IsDigit(c) && c as int - '0' as int == d
  {
    ('0' as int + d) as char
  }

  /** Decimal notation of `n`, without leading zeros. */
  function NatToDecimal(n: nat): (s: string)
    ensures |s| >= 1 && AllDigits(s)
    ensures |s| > 1 ==> s[0] != '0'
  {
    if n < 10 then [DigitChar(n)] else NatToDecimal(n / 10) + [DigitChar(n % 10)]
  }

  /** The value of a string of decimal digits. */
  function ParseDecimal(s: string): nat
    requires AllDigits(s)
  {
    if s == [] then 0 else ParseDecimal(s[..|s| - 1]) * 10 + (s[|s| - 1] as int - '0' as int)
  }

  lemma {:induction false} DecimalRoundTrip(n: nat)
    ensures ParseDecimal(NatToDecimal(n)) == n
  {
    if n >= 10 {
      var s := NatToDecimal(n);
      assert s[..|s| - 1] == NatToDecimal(n / 10);
      DecimalRoundTrip(n / 10);
    }
  }

  /** Two digits, zero-padded: the cents part after the point. */
  function TwoDigits(n: nat): (s: string)
    requires n < 100
    ensures |s| == 2 && AllDigits(s) && ParseDecimal(s) == n
  {
    var s := [DigitChar(n / 10), DigitChar(n % 10)];
    assert s[..1] == [DigitChar(n / 10)] && s[..1][..0] == [];
    assert ParseDecimal(s[..1]) == n / 10;
    s
  }

  /** `$` followed by `cents / 100` written with exactly two decimals. */
  function AmountText(cents: nat): string
  {
    "$" + NatToDecimal(cents / 100) + "." + TwoDigits(cents % 100)
  }

  /** Reads back an amount: `$`, whole dollars, a point and two digits of cents. */
  function ParseAmount(s: string): Option<nat>
  {
    if |s| >= 5 && s[0] == '$' && s[|s| - 3] == '.' && AllDigits(s[1..|s| - 3]) && AllDigits(s[|s| - 2..])
    then Some(ParseDecimal(s[1..|s| - 3]) * 100 + ParseDecimal(s[|s| - 2..]))
    else None
  }

  /** The amount text always reads back as the exact number of cents it was made from. */
  lemma {:induction false} AmountRoundTrip(cents: nat)
    ensures ParseAmount(AmountText(cents)) == Some(cents)
  {
    var dollars := NatToDecimal(cents / 100);
    var t := AmountText(cents);
    assert t[1..|t| - 3] == dollars;
    assert t[|t| - 2..] == TwoDigits(cents % 100);
    DecimalRoundTrip(cents / 100);
  }

  /**
   * The label of the shown price: `unitAmount`, 0 when missing, in dollars
   * with two decimals; the `/interval` suffix exactly for a recurring price
   * that has an interval.
   */
  function Label(p: Price): (l: PriceLabel)
    ensures ParseAmount(l.amountText) == Some(if p.unitAmount.Some? then p.unitAmount.value else 0)
    ensures l.intervalText.Some? <==> p.pricingType == SC.Recurring && p.interval.Some?
    ensures l.intervalText.Some? ==> l.intervalText.value == "/" + SC.IntervalKey(p.interval.value)
  {
    var cents := if p.unitAmount.Some? then p.unitAmount.value else 0;
    AmountRoundTrip(cents);
    PriceLabel(AmountText(cents),
               if p.pricingType == SC.Recurring && p.interval.Some?
               then Some("/" + SC.IntervalKey(p.interval.value)) else None)
  }
}
