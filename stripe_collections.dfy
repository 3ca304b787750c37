/**
 * The Stripe-backed Payload collections: the product and price `beforeChange`
 * hooks that mirror provider prices locally, link a price to its product and
 * create a price at the provider, and the select options built from the
 * enum tables.
 *
 * The provider (`stripe.prices.list`, `stripe.prices.create`), the document
 * store (`payload.find`) and `ensurePriceExist` are function-valued
 * parameters: the model says what the hooks do with their answers, not what
 * those answers are.
 */
module StripeCollections {
  import opened Base

  /** Stripe product ids look like `prod_...`. */
  const ProductIdPrefix := "prod_"
  const InvalidProductIdMessage := "Invalid Stripe Product ID"

  // ---------------------------------------------------------------------
  // Enum tables and select options
  // ---------------------------------------------------------------------

  datatype PricingType = OneTime | Recurring
  datatype Interval = Day | Week | Month | Year

  /** The key a pricing type is stored under. */
  function PricingTypeKey(t: PricingType): string
  {
    match t
    case OneTime => "one_time"
    case Recurring => "recurring"
  }

  /** The key an interval is stored (and displayed) under. */
  function IntervalKey(i: Interval): string
  {
    match i
    case Day => "day"
    case Week => "week"
    case Month => "month"
    case Year => "year"
  }

  /** `Object.entries` of the three constant tables, in declaration order. */
  const PricingTypeTable: seq<(string, string)> :=
    [("one_time", "One Time"), ("recurring", "Recurring")]
  const PricingPlanIntervalTable: seq<(string, string)> :=
    [("day", "Day"), ("week", "Week"), ("month", "Month"), ("year", "Year")]
  const SubscriptionStatusTable: seq<(string, string)> :=
    [("trialing", "Trialing"), ("active", "Active"), ("canceled", "Canceled"),
     ("incomplete", "Incomplete"), ("incomplete_expired", "Incomplete Expired"),
     ("past_due", "Past Due"), ("unpaid", "Unpaid"), ("paused", "Paused")]

  datatype SelectOption = SelectOption(value: string, labelText: string)

  /** Each table entry becomes one option, keeping count and order. */
  function FormatOptions(entries: seq<(string, string)>): (options: seq<SelectOption>)
    ensures |options| == |entries|
    ensures forall i :: 0 <= i < |entries| ==>
      options[i].value == entries[i].0 && options[i].labelText == entries[i].1
  {
    if entries == [] then []
    else [SelectOption(entries[0].0, entries[0].1)] + FormatOptions(entries[1..])
  }

  const AllIntervals: seq<Interval> := [Day, Week, Month, Year]
  const AllPricingTypes: seq<PricingType> := [OneTime, Recurring]

  /**
   * The options of the two price selects are the enum values, one per
   * constructor and in declaration order: distinct values are stored under
   * distinct keys, and the subscription status select has all eight statuses.
   */
  lemma {:induction false} PriceSelectOptionsMatchEnums()
    ensures forall i: Interval :: i in AllIntervals
    ensures forall t: PricingType :: t in AllPricingTypes
    ensures forall i: Interval, j: Interval :: IntervalKey(i) == IntervalKey(j) ==> i == j
    ensures forall t: PricingType, u: PricingType :: PricingTypeKey(t) == PricingTypeKey(u) ==> t == u
    ensures |FormatOptions(PricingPlanIntervalTable)| == |AllIntervals|
    ensures forall k :: 0 <= k < |AllIntervals| ==>
      FormatOptions(PricingPlanIntervalTable)[k].value == IntervalKey(AllIntervals[k])
    ensures |FormatOptions(PricingTypeTable)| == |AllPricingTypes|
    ensures forall k :: 0 <= k < |AllPricingTypes| ==>
      FormatOptions(PricingTypeTable)[k].value == PricingTypeKey(AllPricingTypes[k])
    ensures |FormatOptions(SubscriptionStatusTable)| == 8
  {
    var intervals := FormatOptions(PricingPlanIntervalTable);
    assert intervals[0].value == PricingPlanIntervalTable[0].0 == IntervalKey(Day);
    assert intervals[1].value == PricingPlanIntervalTable[1].0 == IntervalKey(Week);
    assert intervals[2].value == PricingPlanIntervalTable[2].0 == IntervalKey(Month);
    assert intervals[3].value == PricingPlanIntervalTable[3].0 == IntervalKey(Year);
    var types := FormatOptions(PricingTypeTable);
    assert types[0].value == PricingTypeTable[0].0 == PricingTypeKey(OneTime);
    assert types[1].value == PricingTypeTable[1].0 == PricingTypeKey(Recurring);
    forall i: Interval ensures i in AllIntervals {
      match i
      case Day => case Week => case Month => case Year =>
    }
    forall t: PricingType ensures t in AllPricingTypes {
      match t
      case OneTime => case Recurring =>
    }
    // the first letter of a key already tells the values apart
    forall i: Interval, j: Interval | IntervalKey(i) == IntervalKey(j) ensures i == j {
      assert IntervalKey(i)[0] == IntervalKey(j)[0];
    }
    forall t: PricingType, u: PricingType | PricingTypeKey(t) == PricingTypeKey(u) ensures t == u {
      assert PricingTypeKey(t)[0] == PricingTypeKey(u)[0];
    }
  }

  // ---------------------------------------------------------------------
  // Price collection: create-only hook and product back-link
  // ---------------------------------------------------------------------

  /** What a `beforeChange` hook does: hand the data on, or throw. */
  datatype HookOutcome = Continue | Threw(message: string)

  /** A Payload product document as the back-link lookup returns it. */
  datatype ProductDoc = ProductDoc(id: DocId, stripeID: string)

  /** The answer of `stripe.prices.create`: the new price's id, or the error it threw. */
  datatype PriceCreation = PriceCreated(id: string) | PriceCreationFailed(message: string)

  datatype RecurringParams = RecurringParams(interval: Option<Interval>, intervalCount: int)

  datatype PriceCreateParams = PriceCreateParams(
    product: string,
    unitAmount: nat,
    currency: string,
    recurring: Option<RecurringParams>)

  /** The `data` of a price write, as the hooks see and change it. */
  class PriceData {
    var stripeID: Option<string>
    var stripeProductId: Option<string>
    var product: Option<DocId>
    var unitAmount: nat  // cents; the field has `min: 0`
    var currency: string
    var pricingType: PricingType
    var interval: Option<Interval>
    var intervalCount: Option<int>

    constructor (stripeProductId: Option<string>, unitAmount: nat, currency: string,
                 pricingType: PricingType, interval: Option<Interval>, intervalCount: Option<int>)
      ensures this.stripeID == None && this.product == None
      ensures this.stripeProductId == stripeProductId && this.unitAmount == unitAmount
      ensures this.currency == currency && this.pricingType == pricingType
      ensures this.interval == interval && this.intervalCount == intervalCount
    {
      this.stripeID := None;
      this.stripeProductId := stripeProductId;
      this.product := None;
      this.unitAmount := unitAmount;
      this.currency := currency;
      this.pricingType := pricingType;
      this.interval := interval;
      this.intervalCount := intervalCount;
    }
  }

  /** `intervalCount || 1`: a missing or zero count becomes one. */
  function IntervalCountOrOne(count: Option<int>): int
  {
    if count.Some? && count.value != 0 then count.value else 1
  }

  /** The request the create hook sends to `stripe.prices.create`. */
  function PriceCreateRequest(productId: string, unitAmount: nat, currency: string,
                              pricingType: PricingType, interval: Option<Interval>,
                              intervalCount: Option<int>): (req: PriceCreateParams)
    ensures req.product == productId && req.unitAmount == unitAmount && req.currency == currency
    ensures req.recurring.Some? <==> pricingType == Recurring
    ensures req.recurring.Some? ==>
      req.recurring.value.interval == interval && req.recurring.value.intervalCount != 0
    ensures req.recurring.Some? && intervalCount.Some? && intervalCount.value != 0 ==>
      req.recurring.value.intervalCount == intervalCount.value
    ensures req.recurring.Some? && (intervalCount.None? || intervalCount.value == 0) ==>
      req.recurring.value.intervalCount == 1
  {
    PriceCreateParams(
      productId, unitAmount, currency,
      if pricingType == Recurring
      then Some(RecurringParams(interval, IntervalCountOrOne(intervalCount)))
      else None)
  }

  /**
   * The first `beforeChange` hook of the price collection. It does nothing
   * unless the operation is a create; then it rejects a product id without
   * the `prod_` prefix, asks the provider to create the price, and records
   * the provider's price id in `stripeID`. A provider error is rethrown.
   */
  method CreatePriceInProvider(data: PriceData, operation: Operation,
                               createPrice: PriceCreateParams -> PriceCreation)
    returns (outcome: HookOutcome, sent: Option<PriceCreateParams>)
    modifies data`stripeID
    ensures operation == Update ==>
      outcome == Continue && sent == None && data.stripeID == old(data.stripeID)
    ensures operation == Create && !HasPrefix(data.stripeProductId, ProductIdPrefix) ==>
      outcome == Threw(InvalidProductIdMessage) && sent == None &&
      data.stripeID == old(data.stripeID)
    ensures operation == Create && HasPrefix(data.stripeProductId, ProductIdPrefix) ==>
      var req := PriceCreateRequest(data.stripeProductId.value, data.unitAmount, data.currency,
                                    data.pricingType, data.interval, data.intervalCount);
      sent == Some(req) &&
      match createPrice(req)
      case PriceCreated(id) => outcome == Continue && data.stripeID == Some(id)
      case PriceCreationFailed(message) =>
        outcome == Threw(message) && data.stripeID == old(data.stripeID)
  {
    if operation != Create {
      return Continue, None;
    }
    if !HasPrefix(data.stripeProductId, ProductIdPrefix) {
      return Threw(InvalidProductIdMessage), None;
    }
    var req := PriceCreateRequest(data.stripeProductId.value, data.unitAmount, data.currency,
                                  data.pricingType, data.interval, data.intervalCount);
    sent := Some(req);
    var created := createPrice(req);
    match created {
      case PriceCreated(id) =>
        data.stripeID := Some(id);
        outcome := Continue;
      case PriceCreationFailed(message) =>
        outcome := Threw(message);
    }
  }

  /**
   * The back-link hook: when the price carries a `prod_` product id, look up
   * the local products with that Stripe id and link the first one, if its id
   * is truthy. `lookedUp` is the key the lookup was made with, if any.
   */
  method PopulateProductLink(data: PriceData, findProducts: string -> seq<ProductDoc>)
    returns (lookedUp: Option<string>)
    modifies data`product
    ensures !HasPrefix(data.stripeProductId, ProductIdPrefix) ==>
      lookedUp == None && data.product == old(data.product)
    ensures HasPrefix(data.stripeProductId, ProductIdPrefix) ==>
      var docs := findProducts(data.stripeProductId.value);
      lookedUp == data.stripeProductId &&
      (|docs| > 0 && TruthyId(docs[0].id) ==> data.product == Some(docs[0].id)) &&
      (!(|docs| > 0 && TruthyId(docs[0].id)) ==> data.product == old(data.product))
  {
    if !Truthy(data.stripeProductId) {
      return None;
    }
    if !StartsWith(data.stripeProductId.value, ProductIdPrefix) {
      return None;
    }
    lookedUp := data.stripeProductId;
    var docs := findProducts(data.stripeProductId.value);
    var productId: DocId := if |docs| > 0 then docs[0].id else 0;
    if TruthyId(productId) {
      data.product := Some(productId);
    }
  }

  /**
   * The price collection's `beforeChange` chain: the create hook first, then
   * the back-link hook, which does not run once the first one has thrown.
   */
  method PriceBeforeChange(data: PriceData, operation: Operation,
                           createPrice: PriceCreateParams -> PriceCreation,
                           findProducts: string -> seq<ProductDoc>)
    returns (outcome: HookOutcome, sent: Option<PriceCreateParams>, lookedUp: Option<string>)
    modifies data`stripeID, data`product
    ensures outcome.Threw? ==>
      operation == Create && lookedUp == None && data.product == old(data.product) &&
      data.stripeID == old(data.stripeID)
    ensures operation == Create && !HasPrefix(data.stripeProductId, ProductIdPrefix) ==>
      outcome == Threw(InvalidProductIdMessage) && sent == None
    ensures operation == Create && HasPrefix(data.stripeProductId, ProductIdPrefix) ==>
      var req := PriceCreateRequest(data.stripeProductId.value, data.unitAmount, data.currency,
                                    data.pricingType, data.interval, data.intervalCount);
      sent == Some(req) &&
      match createPrice(req)
      case PriceCreated(id) => outcome == Continue && data.stripeID == Some(id)
      case PriceCreationFailed(message) =>
        outcome == Threw(message) && data.stripeID == old(data.stripeID)
    ensures operation == Update ==> outcome == Continue && sent == None && data.stripeID == old(data.stripeID)
    ensures outcome == Continue ==>
      lookedUp == (if HasPrefix(data.stripeProductId, ProductIdPrefix)
                   then data.stripeProductId else None)
    ensures outcome == Continue && !HasPrefix(data.stripeProductId, ProductIdPrefix) ==>
      data.product == old(data.product)
    ensures outcome == Continue && HasPrefix(data.stripeProductId, ProductIdPrefix) ==>
      var docs := findProducts(data.stripeProductId.value);
      (|docs| > 0 && TruthyId(docs[0].id) ==> data.product == Some(docs[0].id)) &&
      (!(|docs| > 0 && TruthyId(docs[0].id)) ==> data.product == old(data.product))
  {
    outcome, sent := CreatePriceInProvider(data, operation, createPrice);
    if outcome.Threw? {
      return outcome, sent, None;
    }
    lookedUp := PopulateProductLink(data, findProducts);
  }

  // ---------------------------------------------------------------------
  // Product collection: mirroring the provider's prices
  // ---------------------------------------------------------------------

  /** A price as `stripe.prices.list` returns it; only its id is used here. */
  datatype ProviderPrice = ProviderPrice(id: string, product: string)

  /** A local price document: its Payload id and the provider price id it mirrors. */
  datatype PriceDoc = PriceDoc(id: DocId, stripeID: string)

  /** One row of a product's `prices` array: a relationship to a price document. */
  datatype PriceRow = PriceRow(price: DocId)

  /** The `data` of a product write, as `populatePrices` sees and changes it. */
  class ProductData {
    var stripeID: Option<string>
    var prices: Option<seq<PriceRow>>

    constructor (stripeID: Option<string>, prices: Option<seq<PriceRow>>)
      ensures this.stripeID == stripeID && this.prices == prices
    {
      this.stripeID := stripeID;
      this.prices := prices;
    }
  }

  function PriceIds(listed: seq<ProviderPrice>): (ids: seq<string>)
    ensures |ids| == |listed|
    ensures forall i :: 0 <= i < |listed| ==> ids[i] == listed[i].id
  {
    seq(|listed|, i requires 0 <= i < |listed| => listed[i].id)
  }

  function StripeIds(docs: seq<PriceDoc>): set<string>
  {
    set d | d in docs :: d.stripeID
  }

  /** The listed prices whose id is not among the existing ones, in provider order. */
  function MissingPrices(listed: seq<ProviderPrice>, existing: set<string>): seq<ProviderPrice>
  {
    if listed == [] then []
    else (if listed[0].id in existing then [] else [listed[0]]) + MissingPrices(listed[1..], existing)
  }

  /** The non-null results, in order: `filter((doc) => doc != null)`. */
  function Present(results: seq<Option<PriceDoc>>): seq<PriceDoc>
  {
    if results == [] then []
    else Present(results[..|results| - 1]) +
         (if results[|results| - 1].Some? then [results[|results| - 1].value] else [])
  }

  /** `ensurePriceExist` applied to each requested price, in order. */
  function Results(requested: seq<ProviderPrice>, ensure: ProviderPrice -> Option<PriceDoc>)
    : (results: seq<Option<PriceDoc>>)
    ensures |results| == |requested|
    ensures forall i :: 0 <= i < |requested| ==> results[i] == ensure(requested[i])
  {
    seq(|requested|, i requires 0 <= i < |requested| => ensure(requested[i]))
  }

  function Rows(docs: seq<PriceDoc>): (rows: seq<PriceRow>)
    ensures |rows| == |docs|
    ensures forall i :: 0 <= i < |docs| ==> rows[i] == PriceRow(docs[i].id)
  {
    seq(|docs|, i requires 0 <= i < |docs| => PriceRow(docs[i].id))
  }

  /**
   * `populatePrices`, the product collection's `beforeChange` hook. For a
   * product with a `prod_` Stripe id it lists the provider's prices, finds the
   * local documents mirroring them, asks `ensurePriceExist` for each listed
   * price that has no local document (sequentially, in provider order), and
   * rewrites `prices` as the found documents followed by the non-null new ones.
   * `requested` lists the prices passed to `ensurePriceExist`.
   */
  method PopulatePrices(data: ProductData,
                        listPrices: string -> seq<ProviderPrice>,
                        findPrices: seq<string> -> seq<PriceDoc>,
                        ensure: ProviderPrice -> Option<PriceDoc>)
    returns (requested: seq<ProviderPrice>)
    modifies data`prices
    ensures !HasPrefix(data.stripeID, ProductIdPrefix) ==>
      requested == [] && data.prices == old(data.prices)
    ensures HasPrefix(data.stripeID, ProductIdPrefix) ==>
      var listed := listPrices(data.stripeID.value);
      var found := findPrices(PriceIds(listed));
      requested == MissingPrices(listed, StripeIds(found)) &&
      data.prices == Some(Rows(found + Present(Results(requested, ensure))))
  {
    requested := [];
    if !Truthy(data.stripeID) {
      return;
    }
    if !StartsWith(data.stripeID.value, ProductIdPrefix) {
      return;
    }
    var listed := listPrices(data.stripeID.value);
    var docs := findPrices(PriceIds(listed));
    var missing := MissingPrices(listed, StripeIds(docs));
    if |missing| > 0 {
      var results: seq<Option<PriceDoc>> := [];
      var i := 0;
      while i < |missing|
        invariant 0 <= i <= |missing|
        invariant requested == missing[..i]
        invariant results == Results(requested, ensure)
      {
        results := results + [ensure(missing[i])];
        requested := requested + [missing[i]];
        i := i + 1;
      }
      assert requested == missing;
      docs := docs + Present(results);
    } else {
      assert Present(Results(missing, ensure)) == [];
      assert docs + Present(Results(missing, ensure)) == docs;
    }
    data.prices := Some(Rows(docs));
  }

  /**
   * A listed price is requested exactly as often as the provider lists it
   * when its id has no local document, and never otherwise.
   */
  lemma {:induction false} MissingPricesAreTheAbsentOnes(listed: seq<ProviderPrice>, existing: set<string>)
    ensures forall p ::
      multiset(MissingPrices(listed, existing))[p] == (if p.id in existing then 0 else multiset(listed)[p])
  {
    if listed != [] {
      MissingPricesAreTheAbsentOnes(listed[1..], existing);
      assert listed == [listed[0]] + listed[1..];
    }
  }

  /**
   * With distinct provider ids, each listed price without a local document
   * goes to `ensurePriceExist` exactly once.
   */
  lemma {:induction false} MissingPricesRequestedOnce(listed: seq<ProviderPrice>, existing: set<string>, k: nat)
    requires k < |listed|
    requires forall i, j :: 0 <= i < j < |listed| ==> listed[i].id != listed[j].id
    ensures multiset(MissingPrices(listed, existing))[listed[k]] ==
      (if listed[k].id in existing then 0 else 1)
  {
    MissingPricesAreTheAbsentOnes(listed, existing);
    DistinctIdsOccurOnce(listed, k);
  }

  lemma {:induction false} DistinctIdsOccurOnce(listed: seq<ProviderPrice>, k: nat)
    requires k < |listed|
    requires forall i, j :: 0 <= i < j < |listed| ==> listed[i].id != listed[j].id
    ensures multiset(listed)[listed[k]] == 1
  {
    assert listed == listed[..k] + [listed[k]] + listed[k + 1..];
    assert listed[k] !in listed[..k] by {
      forall i | 0 <= i < k ensures listed[..k][i] != listed[k] {
        assert listed[..k][i].id == listed[i].id;
      }
    }
    assert listed[k] !in listed[k + 1..] by {
      forall j | k < j < |listed| ensures listed[j] != listed[k] {
        assert listed[j].id != listed[k].id;
      }
    }
  }

  /** Dropping the null results keeps every present document, as often as it occurs, and nothing else. */
  lemma {:induction false} PresentKeepsExactlyTheDocuments(results: seq<Option<PriceDoc>>)
    ensures forall d :: multiset(Present(results))[d] == multiset(results)[Some(d)]
  {
    if results != [] {
      var init := results[..|results| - 1];
      var last := results[|results| - 1];
      PresentKeepsExactlyTheDocuments(init);
      assert results == init + [last];
      assert Present(results) == Present(init) + (if last.Some? then [last.value] else []);
    }
  }

  /** Only null results are dropped: with none, every result is kept. */
  lemma {:induction false} PresentDropsOnlyNulls(results: seq<Option<PriceDoc>>)
    ensures |Present(results)| <= |results|
    ensures (forall i :: 0 <= i < |results| ==> results[i].Some?) ==> |Present(results)| == |results|
  {
    if results != [] {
      PresentDropsOnlyNulls(results[..|results| - 1]);
    }
  }

  /**
   * When every listed price already has a local document, nothing is
   * requested and the product's `prices` become exactly the found documents.
   */
  lemma {:induction false} NothingMissingKeepsFoundDocs(listed: seq<ProviderPrice>, found: seq<PriceDoc>,
                                                        ensure: ProviderPrice -> Option<PriceDoc>)
    requires forall i :: 0 <= i < |listed| ==> listed[i].id in StripeIds(found)
    ensures MissingPrices(listed, StripeIds(found)) == []
    ensures Rows(found + Present(Results(MissingPrices(listed, StripeIds(found)), ensure))) == Rows(found)
  {
    if listed != [] {
      NothingMissingKeepsFoundDocs(listed[1..], found, ensure);
    }
    assert Present(Results([], ensure)) == [];
    assert found + [] == found;
  }
}
