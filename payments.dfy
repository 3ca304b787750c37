/**
 * `GET /api/payments`: the payment history of the signed-in user. The
 * customer ids come from a metadata search on the user's `uid` when there is
 * one, else from the user's own `stripeCustomerId`; each customer's charges
 * and invoices are normalised into one record shape, concatenated (all
 * charges, then all invoices) and stably sorted, newest first.
 *
 * The provider's `customers.search`, `charges.list` and `invoices.list` are
 * function-valued parameters; `None` stands for a call that threw.
 */
module Payments {
  import opened Base

  /** The session user, as far as this route reads it. */
  datatype SessionUser = SessionUser(uid: Option<string>, stripeCustomerId: Option<string>)

  /** A provider charge, with the provider's field names. */
  datatype Charge = Charge(
    id: string, amount: int, currency: string, status: string, created: int,
    receipt_url: Option<string>, description: Option<string>)

  /** A provider invoice, with the provider's field names. */
  datatype Invoice = Invoice(
    id: string, amount_paid: int, currency: string, status: Option<string>, created: int,
    hosted_invoice_url: Option<string>, description: Option<string>)

  /** Charges carry a `receiptUrl`, invoices an `invoiceUrl`. */
  datatype PaymentLink = ReceiptUrl(receiptUrl: Option<string>) | InvoiceUrl(invoiceUrl: Option<string>)

  /** One record of the merged history. */
  datatype Payment = Payment(
    id: string, amount: int, currency: string, status: Option<string>, created: int,
    link: PaymentLink, description: Option<string>)

  datatype ProviderCall = SearchCustomers(query: string) | ListCharges(customer: string) | ListInvoices(customer: string)

  datatype Body = ErrorBody(error: string) | PaymentsBody(payments: seq<Payment>)
  datatype Response = Response(status: int, body: Body)

  const Unauthorized := Response(401, ErrorBody("Unauthorized"))
  const FetchFailed := Response(500, ErrorBody("Failed to fetch payment history"))

  // ---------------------------------------------------------------------
  // Customer ids
  // ---------------------------------------------------------------------

  const QueryPrefix := "metadata['uid']:'"
  const QuerySuffix := "'"

  /** The metadata search query; the uid is inserted as it is, unescaped. */
  function SearchQuery(uid: string): string
  {
    QueryPrefix + uid + QuerySuffix
  }

  /** Reads the uid back out of a search query. */
  function UidOfQuery(query: string): Option<string>
  {
    if |query| >= |QueryPrefix| + |QuerySuffix| && StartsWith(query, QueryPrefix) && EndsWith(query, QuerySuffix)
    then Some(query[|QueryPrefix|..|query| - |QuerySuffix|])
    else None
  }

  /** The query carries the uid verbatim: it reads back exactly. */
  lemma SearchQueryRoundTrip(uid: string)
    ensures UidOfQuery(SearchQuery(uid)) == Some(uid)
    ensures |SearchQuery(uid)| == |uid| + 18
  {
    var q := SearchQuery(uid);
    assert q[..|QueryPrefix|] == QueryPrefix;
    assert q[|q| - |QuerySuffix|..] == QuerySuffix;
    assert q[|QueryPrefix|..|q| - |QuerySuffix|] == uid;
  }

  /** Where the customer ids come from. */
  datatype IdSource = ByUid(query: string) | Direct(customerId: string) | NoIds

  /** A truthy `uid` wins over `stripeCustomerId`; with neither there are no ids. */
  function IdSourceOf(user: SessionUser): (src: IdSource)
    ensures src.ByUid? <==> Truthy(user.uid)
    ensures src.ByUid? ==> UidOfQuery(src.query) == user.uid
    ensures src.Direct? <==> !Truthy(user.uid) && Truthy(user.stripeCustomerId)
    ensures src.Direct? ==> Some(src.customerId) == user.stripeCustomerId
  {
    if Truthy(user.uid) then
      SearchQueryRoundTrip(user.uid.value);
      ByUid(SearchQuery(user.uid.value))
    else if Truthy(user.stripeCustomerId) then Direct(user.stripeCustomerId.value)
    else NoIds
  }

  /** The calls made to resolve the ids. */
  function IdCalls(src: IdSource): seq<ProviderCall>
  {
    if src.ByUid? then [SearchCustomers(src.query)] else []
  }

  /** The ids a source resolves to; `None` when the search threw. */
  function ResolvedIds(src: IdSource, searchCustomers: string -> Option<seq<string>>): Option<seq<string>>
  {
    match src
    case ByUid(query) => searchCustomers(query)
    case Direct(id) => Some([id])
    case NoIds => Some([])
  }

  // ---------------------------------------------------------------------
  // Fetching
  // ---------------------------------------------------------------------

  /** `Promise.all` over the ids: every answer, in id order, or `None` if any call threw. */
  function Gather<T>(ids: seq<string>, fetch: string -> Option<T>): (r: Option<seq<T>>)
    ensures r.Some? <==> forall i :: 0 <= i < |ids| ==> fetch(ids[i]).Some?
    ensures r.Some? ==>
      |r.value| == |ids| && (forall i :: 0 <= i < |ids| ==> fetch(ids[i]) == Some(r.value[i]))
  {
    if ids == [] then Some([])
    else
      var init := Gather(ids[..|ids| - 1], fetch);
      var last := fetch(ids[|ids| - 1]);
      if init.Some? && last.Some? then Some(init.value + [last.value]) else None
  }

  function FetchCalls(ids: seq<string>): (calls: seq<ProviderCall>)
    ensures |calls| == 2 * |ids|
    ensures forall i :: 0 <= i < |ids| ==>
      calls[i] == ListCharges(ids[i]) && calls[|ids| + i] == ListInvoices(ids[i])
  {
    seq(|ids|, i requires 0 <= i < |ids| => ListCharges(ids[i])) +
    seq(|ids|, i requires 0 <= i < |ids| => ListInvoices(ids[i]))
  }

  /**
   * One provider call per id, in id order; the answers are gathered as
   * `Promise.all` would, and `calls` records each call as `call` names it.
   */
  method FetchEach<T>(ids: seq<string>, fetch: string -> Option<T>, call: string -> ProviderCall)
    returns (results: Option<seq<T>>, calls: seq<ProviderCall>)
    ensures results == Gather(ids, fetch)
    ensures |calls| == |ids| && forall i :: 0 <= i < |ids| ==> calls[i] == call(ids[i])
  {
    var answers: seq<T> := [];
    var ok := true;
    calls := [];
    var i := 0;
    while i < |ids|
      invariant 0 <= i <= |ids|
      invariant |calls| == i && forall k :: 0 <= k < i ==> calls[k] == call(ids[k])
      invariant ok <==> Gather(ids[..i], fetch).Some?
      invariant ok ==> Gather(ids[..i], fetch) == Some(answers)
    {
      calls := calls + [call(ids[i])];
      var answer := fetch(ids[i]);
      assert ids[..i + 1][..i] == ids[..i];
      if ok && answer.Some? {
        answers := answers + [answer.value];
      } else {
        ok := false;
      }
      i := i + 1;
    }
    assert ids[..i] == ids;
    results := if ok then Some(answers) else None;
  }

  // ---------------------------------------------------------------------
  // Normalising and merging
  // ---------------------------------------------------------------------

  function FromCharge(c: Charge): (p: Payment)
    ensures p.id == c.id && p.amount == c.amount && p.created == c.created
    ensures p.link == ReceiptUrl(c.receipt_url) && p.status == Some(c.status)
    ensures p.currency == c.currency && p.description == c.description
  {
    Payment(c.id, c.amount, c.currency, Some(c.status), c.created, ReceiptUrl(c.receipt_url), c.description)
  }

  function FromInvoice(v: Invoice): (p: Payment)
    ensures p.id == v.id && p.amount == v.amount_paid && p.created == v.created
    ensures p.link == InvoiceUrl(v.hosted_invoice_url) && p.status == v.status
    ensures p.currency == v.currency && p.description == v.description
  {
    Payment(v.id, v.amount_paid, v.currency, v.status, v.created, InvoiceUrl(v.hosted_invoice_url), v.description)
  }

  /** `flatMap` of `FromCharge` over the per-customer lists. */
  function ChargePayments(lists: seq<seq<Charge>>): seq<Payment>
  {
    if lists == [] then []
    else seq(|lists[0]|, i requires 0 <= i < |lists[0]| => FromCharge(lists[0][i])) + ChargePayments(lists[1..])
  }

  /** `flatMap` of `FromInvoice` over the per-customer lists. */
  function InvoicePayments(lists: seq<seq<Invoice>>): seq<Payment>
  {
    if lists == [] then []
    else seq(|lists[0]|, i requires 0 <= i < |lists[0]| => FromInvoice(lists[0][i])) + InvoicePayments(lists[1..])
  }

  function TotalLength<T>(lists: seq<seq<T>>): nat
  {
    if lists == [] then 0 else |lists[0]| + TotalLength(lists[1..])
  }

  lemma {:induction false} ChargePaymentsLength(lists: seq<seq<Charge>>)
    ensures |ChargePayments(lists)| == TotalLength(lists)
  {
    if lists != [] {
      ChargePaymentsLength(lists[1..]);
    }
  }

  lemma {:induction false} InvoicePaymentsLength(lists: seq<seq<Invoice>>)
    ensures |InvoicePayments(lists)| == TotalLength(lists)
  {
    if lists != [] {
      InvoicePaymentsLength(lists[1..]);
    }
  }

  /** The history: all charges then all invoices, sorted newest first. */
  function MergePayments(charges: seq<seq<Charge>>, invoices: seq<seq<Invoice>>): seq<Payment>
  {
    SortByCreatedDesc(ChargePayments(charges) + InvoicePayments(invoices))
  }

  // ---------------------------------------------------------------------
  // Stable sort, descending by `created`
  // ---------------------------------------------------------------------

  predicate NewestFirst(s: seq<Payment>)
  {
    forall i, j :: 0 <= i < j < |s| ==> s[i].created >= s[j].created
  }

  /** The records created at instant `t`, in order. */
  function CreatedAt(s: seq<Payment>, t: int): seq<Payment>
  {
    if s == [] then []
    else (if s[0].created == t then [s[0]] else []) + CreatedAt(s[1..], t)
  }

  /**
   * Puts `x`, which came before every record of `s`, into `s`: after the
   * strictly newer records and before the rest, so ties keep their order.
   */
  function InsertByCreated(x: Payment, s: seq<Payment>): seq<Payment>
  {
    if s == [] then [x]
    else if s[0].created <= x.created then [x] + s
    else [s[0]] + InsertByCreated(x, s[1..])
  }

  /** `sort((a, b) => b.created - a.created)`; the array sort is stable. */
  function SortByCreatedDesc(s: seq<Payment>): seq<Payment>
  {
    if s == [] then [] else InsertByCreated(s[0], SortByCreatedDesc(s[1..]))
  }

  lemma {:induction false} InsertByCreatedKeeps(x: Payment, s: seq<Payment>)
    ensures multiset(InsertByCreated(x, s)) == multiset(s) + multiset{x}
  {
    if s != [] && s[0].created > x.created {
      InsertByCreatedKeeps(x, s[1..]);
      assert s == [s[0]] + s[1..];
    }
  }

  lemma {:induction false} InsertByCreatedSorted(x: Payment, s: seq<Payment>)
    requires NewestFirst(s)
    ensures NewestFirst(InsertByCreated(x, s))
  {
    if s != [] && s[0].created > x.created {
      var rest := InsertByCreated(x, s[1..]);
      InsertByCreatedSorted(x, s[1..]);
      InsertByCreatedKeeps(x, s[1..]);
      var r := [s[0]] + rest;
      forall j | 0 < j < |r| ensures r[0].created >= r[j].created {
        assert r[j] == rest[j - 1];
        assert r[j] in multiset(s[1..]) + multiset{x};
        if r[j] != x {
          assert r[j] in s[1..];
        }
      }
    }
  }

  lemma {:induction false} InsertByCreatedStable(x: Payment, s: seq<Payment>, t: int)
    ensures CreatedAt(InsertByCreated(x, s), t) == (if x.created == t then [x] else []) + CreatedAt(s, t)
  {
    if s == [] {
    } else if s[0].created <= x.created {
      assert ([x] + s)[1..] == s;
    } else {
      var rest := InsertByCreated(x, s[1..]);
      InsertByCreatedStable(x, s[1..], t);
      var r := [s[0]] + rest;
      assert r[0] == s[0] && r[1..] == rest;
      assert CreatedAt(r, t) == (if s[0].created == t then [s[0]] else []) + CreatedAt(rest, t);
      assert CreatedAt(s, t) == (if s[0].created == t then [s[0]] else []) + CreatedAt(s[1..], t);
    }
  }

  /**
   * The sort is newest first, a permutation of its input, and stable: the
   * records of any one instant come out in the order they went in.
   */
  lemma {:induction false} SortByCreatedDescFacts(s: seq<Payment>)
    ensures NewestFirst(SortByCreatedDesc(s))
    ensures multiset(SortByCreatedDesc(s)) == multiset(s)
    ensures |SortByCreatedDesc(s)| == |s|
    ensures forall t :: CreatedAt(SortByCreatedDesc(s), t) == CreatedAt(s, t)
  {
    if s != [] {
      var rest := SortByCreatedDesc(s[1..]);
      SortByCreatedDescFacts(s[1..]);
      InsertByCreatedKeeps(s[0], rest);
      InsertByCreatedSorted(s[0], rest);
      forall t ensures CreatedAt(SortByCreatedDesc(s), t) == CreatedAt(s, t) {
        InsertByCreatedStable(s[0], rest, t);
      }
      assert s == [s[0]] + s[1..];
    }
    assert |multiset(SortByCreatedDesc(s))| == |multiset(s)|;
  }

  lemma {:induction false} CreatedAtAppend(a: seq<Payment>, b: seq<Payment>, t: int)
    ensures CreatedAt(a + b, t) == CreatedAt(a, t) + CreatedAt(b, t)
  {
    if a == [] {
      assert a + b == b;
    } else {
      var ab := a + b;
      var head := if a[0].created == t then [a[0]] else [];
      assert ab[0] == a[0] && ab[1..] == a[1..] + b;
      CreatedAtAppend(a[1..], b, t);
      assert CreatedAt(ab, t) == head + CreatedAt(a[1..] + b, t);
      assert CreatedAt(a, t) == head + CreatedAt(a[1..], t);
    }
  }

  /**
   * The merged history holds every charge and every invoice once, newest
   * first; among records of the same instant, charges come before invoices
   * and each keeps its customer order.
   */
  lemma MergePaymentsFacts(charges: seq<seq<Charge>>, invoices: seq<seq<Invoice>>)
    ensures var merged := MergePayments(charges, invoices);
      && |merged| == TotalLength(charges) + TotalLength(invoices)
      && multiset(merged) == multiset(ChargePayments(charges)) + multiset(InvoicePayments(invoices))
      && NewestFirst(merged)
      && forall t :: CreatedAt(merged, t) ==
           CreatedAt(ChargePayments(charges), t) + CreatedAt(InvoicePayments(invoices), t)
  {
    var all := ChargePayments(charges) + InvoicePayments(invoices);
    SortByCreatedDescFacts(all);
    ChargePaymentsLength(charges);
    InvoicePaymentsLength(invoices);
    forall t ensures CreatedAt(all, t) == CreatedAt(ChargePayments(charges), t) + CreatedAt(InvoicePayments(invoices), t) {
      CreatedAtAppend(ChargePayments(charges), InvoicePayments(invoices), t);
    }
  }

  /** A charge at 100 and an invoice at 200 come out invoice first. */
  lemma NewerInvoiceFirst(c: Charge, v: Invoice)
    requires c.created == 100 && v.created == 200
    ensures MergePayments([[c]], [[v]]) == [FromInvoice(v), FromCharge(c)]
  {
    assert ChargePayments([[c]]) == [FromCharge(c)];
    assert InvoicePayments([[v]]) == [FromInvoice(v)];
    var all := [FromCharge(c)] + [FromInvoice(v)];
    assert all[1..] == [FromInvoice(v)];
    assert SortByCreatedDesc(all[1..]) == [FromInvoice(v)];
    assert InsertByCreated(FromCharge(c), [FromInvoice(v)]) == [FromInvoice(v), FromCharge(c)];
  }

  // ---------------------------------------------------------------------
  // The route
  // ---------------------------------------------------------------------

  /**
   * The route handler. `calls` lists the provider calls made, in order; the
   * concurrent fan-out is modelled as all charge lists, then all invoice
   * lists, each in customer order, and it fails as a whole if any call threw.
   */
  method Get(session: Option<SessionUser>,
             searchCustomers: string -> Option<seq<string>>,
             listCharges: string -> Option<seq<Charge>>,
             listInvoices: string -> Option<seq<Invoice>>)
    returns (response: Response, calls: seq<ProviderCall>)
    ensures session.None? ==> response == Unauthorized && calls == []
    ensures session.Some? ==>
      var src := IdSourceOf(session.value);
      match ResolvedIds(src, searchCustomers)
      case None => response == FetchFailed && calls == IdCalls(src)
      case Some(ids) =>
        if ids == [] then response == Response(200, PaymentsBody([])) && calls == IdCalls(src)
        else
          calls == IdCalls(src) + FetchCalls(ids) &&
          var charges := Gather(ids, listCharges);
          var invoices := Gather(ids, listInvoices);
          if charges.Some? && invoices.Some?
          then response == Response(200, PaymentsBody(MergePayments(charges.value, invoices.value)))
          else response == FetchFailed
  {
    calls := [];
    if session.None? {
      return Unauthorized, calls;
    }
    var user := session.value;
    var customerIds: seq<string> := [];
    if Truthy(user.uid) {
      var query := SearchQuery(user.uid.value);
      calls := calls + [SearchCustomers(query)];
      var found := searchCustomers(query);
      if found.None? {
        return FetchFailed, calls;
      }
      customerIds := found.value;
    } else if Truthy(user.stripeCustomerId) {
      customerIds := [user.stripeCustomerId.value];
    }
    ghost var idCalls := calls;
    if |customerIds| == 0 {
      return Response(200, PaymentsBody([])), calls;
    }

    var charges, chargeCalls := FetchEach(customerIds, listCharges, id => ListCharges(id));
    var invoices, invoiceCalls := FetchEach(customerIds, listInvoices, id => ListInvoices(id));
    calls := calls + chargeCalls + invoiceCalls;
    assert calls == idCalls + FetchCalls(customerIds);
    if charges.None? || invoices.None? {
      return FetchFailed, calls;
    }
    var payments := MergePayments(charges.value, invoices.value);
    response := Response(200, PaymentsBody(payments));
  }
}
