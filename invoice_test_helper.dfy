/**
 * The invoice API helper: request wrappers that throw on a non-ok response,
 * the subtotal of a new invoice, the query of an invoice search, the
 * field-wise comparison of a UI invoice with an API invoice, and a
 * deletion that tolerates an invoice already gone. Each HTTP call is given
 * as a function from what is sent to the response it receives.
 */
module InvoiceTestHelper {
  import opened Wrappers
  import opened Text

  /** The request wrappers that throw on a non-ok response. */
  datatype Call = CreateInvoiceCall | GetInvoiceCall | VoidInvoiceCall | SearchInvoicesCall

  /** What a wrapper reads of a response: `ok()`, `status()`, `text()` and the decoded `json()`. */
  datatype ApiResponse<T> = ApiResponse(ok: bool, status: int, text: string, json: T)

  /** The error a wrapper throws: the call, the status and the response text. */
  datatype HelperError = RequestFailed(call: Call, status: int, text: string)

  datatype InvoiceItem = InvoiceItem(productId: int, productName: string, quantity: int, price: int)

  /** The non-float fields of an invoice as the API returns it. */
  datatype ApiInvoice = ApiInvoice(id: int, invoiceNumber: string, date: string, customer: Option<string>, status: string)

  /** The body `createTestInvoice` posts, without the float-valued tax and total. */
  datatype InvoiceRequest = InvoiceRequest(
    customer: string,
    items: seq<InvoiceItem>,
    subtotal: int,
    discount: int,
    paymentMethod: string,
    status: string)

  /** The shared tail of every wrapper: throw unless `response.ok()`, else return the decoded body. */
  function Unwrap<T>(call: Call, response: ApiResponse<T>): (r: Result<T, HelperError>)
    ensures r.Failure? <==> !response.ok
    ensures r.Success? ==> r.value == response.json
    ensures r.Failure? ==> r.error == RequestFailed(call, response.status, response.text)
  {
    if !response.ok then Failure(RequestFailed(call, response.status, response.text))
    else Success(response.json)
  }

  /** The amount of one line: quantity times price. */
  function LineAmount(item: InvoiceItem): int {
    item.quantity * item.price
  }

  /** The sum of the line amounts, the reference for the subtotal. */
  function Sum(items: seq<InvoiceItem>): int
    decreases |items|
  {
    if items == [] then 0 else LineAmount(items[0]) + Sum(items[1..])
  }

  /** `items.reduce((sum, item) => sum + item.quantity * item.price, acc)`: a left fold. */
  function Reduce(items: seq<InvoiceItem>, acc: int): int
    decreases |items|
  {
    if items == [] then acc else Reduce(items[1..], acc + LineAmount(items[0]))
  }

  /** The fold computes the sum of the line amounts on top of its start value. */
  lemma {:induction false} ReduceIsSum(items: seq<InvoiceItem>, acc: int)
    ensures Reduce(items, acc) == acc + Sum(items)
    decreases |items|
  {
    if items != [] {
      ReduceIsSum(items[1..], acc + LineAmount(items[0]));
    }
  }

  /** The subtotal of two batches of items is the sum of their subtotals. */
  lemma {:induction false} SumAppend(a: seq<InvoiceItem>, b: seq<InvoiceItem>)
    ensures Sum(a + b) == Sum(a) + Sum(b)
    decreases |a|
  {
    if a == [] {
      assert a + b == b;
    } else {
      assert (a + b)[0] == a[0];
      assert (a + b)[1..] == a[1..] + b;
      SumAppend(a[1..], b);
    }
  }

  /** Items with non-negative quantities and prices have a non-negative subtotal. */
  lemma {:induction false} SumNonNegative(items: seq<InvoiceItem>)
    requires forall i | 0 <= i < |items| :: items[i].quantity >= 0 && items[i].price >= 0
    ensures Sum(items) >= 0
    decreases |items|
  {
    if items != [] {
      SumNonNegative(items[1..]);
    }
  }

  /** The body of `createTestInvoice`. */
  function InvoiceBody(items: seq<InvoiceItem>, customer: Option<string>): (body: InvoiceRequest)
    ensures body.subtotal == Sum(items)
    ensures body.discount == 0
    ensures body.items == items
    ensures TruthyText(customer) ==> body.customer == customer.value
    ensures !TruthyText(customer) ==> body.customer == "Test Customer"
    ensures body.paymentMethod == "Cash" && body.status == "Paid"
  {
    ReduceIsSum(items, 0);
    var name := if TruthyText(customer) then customer.value else "Test Customer";
    InvoiceRequest(name, items, Reduce(items, 0), 0, "Cash", "Paid")
  }

  /** `createTestInvoice`: post the body, throw unless the response is ok. */
  function CreateTestInvoice(items: seq<InvoiceItem>, customer: Option<string>,
                             post: InvoiceRequest -> ApiResponse<ApiInvoice>): (r: Result<ApiInvoice, HelperError>)
    ensures r.Failure? <==> !post(InvoiceBody(items, customer)).ok
    ensures r.Success? ==> r.value == post(InvoiceBody(items, customer)).json
    ensures r.Failure? ==> r.error.call == CreateInvoiceCall
  {
    Unwrap(CreateInvoiceCall, post(InvoiceBody(items, customer)))
  }

  /** `getInvoiceById`. */
  function GetInvoiceById(invoiceId: int, get: int -> ApiResponse<ApiInvoice>): (r: Result<ApiInvoice, HelperError>)
    ensures r.Failure? <==> !get(invoiceId).ok
    ensures r.Success? ==> r.value == get(invoiceId).json
    ensures r.Failure? ==> r.error.call == GetInvoiceCall
  {
    Unwrap(GetInvoiceCall, get(invoiceId))
  }

  /** `voidInvoice`: posts the reason; nothing is returned. */
  function VoidInvoice(invoiceId: int, reason: string, post: (int, string) -> ApiResponse<()>): (r: Outcome<HelperError>)
    ensures r.Fail? <==> !post(invoiceId, reason).ok
    ensures r.Fail? ==> r.error.call == VoidInvoiceCall
  {
    match Unwrap(VoidInvoiceCall, post(invoiceId, reason))
    case Success(_) => Pass
    case Failure(e) => Fail(e)
  }

  /** The filters of an invoice search; amounts are integers here. */
  datatype SearchFilters = SearchFilters(
    dateFrom: Option<string>,
    dateTo: Option<string>,
    invoiceNumber: Option<string>,
    customer: Option<string>,
    status: Option<string>,
    amountFrom: Option<int>,
    amountTo: Option<int>)

  datatype Param = Param(key: string, value: string)

  /** The order in which `searchInvoices` appends its parameters. */
  const ParamOrder: seq<string> := ["dateFrom", "dateTo", "invoiceNumber", "customer", "status", "amountFrom", "amountTo"]

  /** The position of a parameter name in `ParamOrder`; 7 for any other name. */
  function KeyIndex(key: string): (k: nat)
    ensures k <= 7
    ensures k < 7 ==> ParamOrder[k] == key
  {
    if key == "dateFrom" then 0
    else if key == "dateTo" then 1
    else if key == "invoiceNumber" then 2
    else if key == "customer" then 3
    else if key == "status" then 4
    else if key == "amountFrom" then 5
    else if key == "amountTo" then 6
    else 7
  }

  lemma KeyIndexOfParamOrder(k: nat)
    requires k < 7
    ensures KeyIndex(ParamOrder[k]) == k
  {
  }

  function TextSlot(s: Option<string>): Option<string> {
    if TruthyText(s) then s else None
  }

  function AmountSlot(n: Option<int>): Option<string> {
    if TruthyNumber(n) then Some(IntToString(n.value)) else None
  }

  /** The value filter number `k` contributes when it is truthy, None when it is not. */
  function Slot(f: SearchFilters, k: nat): (v: Option<string>)
    requires k < 7
  {
    if k == 0 then TextSlot(f.dateFrom)
    else if k == 1 then TextSlot(f.dateTo)
    else if k == 2 then TextSlot(f.invoiceNumber)
    else if k == 3 then TextSlot(f.customer)
    else if k == 4 then TextSlot(f.status)
    else if k == 5 then AmountSlot(f.amountFrom)
    else AmountSlot(f.amountTo)
  }

  function SlotParam(f: SearchFilters, k: nat): seq<Param>
    requires k < 7
  {
    if Slot(f, k).Some? then [Param(ParamOrder[k], Slot(f, k).value)] else []
  }

  /** The parameters of the first `k` filters, in `ParamOrder`. */
  function Emitted(f: SearchFilters, k: nat): seq<Param>
    requires k <= 7
    decreases k
  {
    if k == 0 then [] else Emitted(f, k - 1) + SlotParam(f, k - 1)
  }

  /** Every parameter of the first `k` filters is named after one of them and carries that filter's truthy value. */
  lemma {:induction false} EmittedValues(f: SearchFilters, k: nat)
    requires k <= 7
    ensures forall i | 0 <= i < |Emitted(f, k)| ::
      KeyIndex(Emitted(f, k)[i].key) < k && Slot(f, KeyIndex(Emitted(f, k)[i].key)) == Some(Emitted(f, k)[i].value)
    decreases k
  {
    if k > 0 {
      EmittedValues(f, k - 1);
      KeyIndexOfParamOrder(k - 1);
      var init: seq<Param> := Emitted(f, k - 1);
      var last: seq<Param> := SlotParam(f, k - 1);
      assert Emitted(f, k) == init + last;
      forall i | 0 <= i < |init + last|
        ensures KeyIndex((init + last)[i].key) < k && Slot(f, KeyIndex((init + last)[i].key)) == Some((init + last)[i].value)
      {
        if i < |init| {
          assert (init + last)[i] == init[i];
        } else {
          assert (init + last)[i] == last[i - |init|];
        }
      }
    }
  }

  /** The parameters of the first `k` filters are in strictly increasing `ParamOrder` position. */
  lemma {:induction false} EmittedOrdered(f: SearchFilters, k: nat)
    requires k <= 7
    ensures forall i, j | 0 <= i < j < |Emitted(f, k)| :: KeyIndex(Emitted(f, k)[i].key) < KeyIndex(Emitted(f, k)[j].key)
    decreases k
  {
    if k > 0 {
      EmittedOrdered(f, k - 1);
      EmittedValues(f, k - 1);
      KeyIndexOfParamOrder(k - 1);
      var init: seq<Param> := Emitted(f, k - 1);
      var last: seq<Param> := SlotParam(f, k - 1);
      assert Emitted(f, k) == init + last;
      forall i, j | 0 <= i < j < |init + last|
        ensures KeyIndex((init + last)[i].key) < KeyIndex((init + last)[j].key)
      {
        assert i < |init| && (init + last)[i] == init[i];
        assert KeyIndex(init[i].key) < k - 1;
        if j < |init| {
          assert (init + last)[j] == init[j];
        } else {
          assert (init + last)[j] == last[0] && last[0].key == ParamOrder[k - 1];
        }
      }
    }
  }

  /** Every truthy filter among the first `k` is among the parameters, with its value. */
  lemma {:induction false} EmittedComplete(f: SearchFilters, k: nat)
    requires k <= 7
    ensures forall m | 0 <= m < k && Slot(f, m).Some? :: Param(ParamOrder[m], Slot(f, m).value) in Emitted(f, k)
    decreases k
  {
    if k > 0 {
      EmittedComplete(f, k - 1);
      assert Emitted(f, k) == Emitted(f, k - 1) + SlotParam(f, k - 1);
    }
  }

  /** The query grows one slot at a time. */
  lemma EmittedSteps(f: SearchFilters)
    ensures Emitted(f, 1) == SlotParam(f, 0)
    ensures Emitted(f, 2) == Emitted(f, 1) + SlotParam(f, 1)
    ensures Emitted(f, 3) == Emitted(f, 2) + SlotParam(f, 2)
    ensures Emitted(f, 4) == Emitted(f, 3) + SlotParam(f, 3)
    ensures Emitted(f, 5) == Emitted(f, 4) + SlotParam(f, 4)
    ensures Emitted(f, 6) == Emitted(f, 5) + SlotParam(f, 5)
    ensures Emitted(f, 7) == Emitted(f, 6) + SlotParam(f, 6)
  {
    assert Emitted(f, 0) == [];
  }

  /** The seven slots, each written out with its own parameter name. */
  lemma SlotParams(f: SearchFilters)
    ensures SlotParam(f, 0) == if TruthyText(f.dateFrom) then [Param("dateFrom", f.dateFrom.value)] else []
    ensures SlotParam(f, 1) == if TruthyText(f.dateTo) then [Param("dateTo", f.dateTo.value)] else []
    ensures SlotParam(f, 2) == if TruthyText(f.invoiceNumber) then [Param("invoiceNumber", f.invoiceNumber.value)] else []
    ensures SlotParam(f, 3) == if TruthyText(f.customer) then [Param("customer", f.customer.value)] else []
    ensures SlotParam(f, 4) == if TruthyText(f.status) then [Param("status", f.status.value)] else []
    ensures SlotParam(f, 5) ==
      if TruthyNumber(f.amountFrom) then [Param("amountFrom", IntToString(f.amountFrom.value))] else []
    ensures SlotParam(f, 6) ==
      if TruthyNumber(f.amountTo) then [Param("amountTo", IntToString(f.amountTo.value))] else []
  {
  }

  /** The query `searchInvoices` sends for the given filters. */
  function QueryParams(f: SearchFilters): seq<Param> {
    Emitted(f, 7)
  }

  /** A parameter name occurs at most once, and names keep the fixed order. */
  lemma QueryParamsOrdered(f: SearchFilters)
    ensures forall i, j | 0 <= i < j < |QueryParams(f)| ::
      KeyIndex(QueryParams(f)[i].key) < KeyIndex(QueryParams(f)[j].key)
    ensures forall i | 0 <= i < |QueryParams(f)| :: QueryParams(f)[i].key in ParamOrder
  {
    EmittedValues(f, 7);
    EmittedOrdered(f, 7);
  }

  /** Filter `k` is in the query, with its value, iff it is truthy. */
  lemma QueryParamPresent(f: SearchFilters, k: nat)
    requires k < 7
    ensures Slot(f, k).Some? ==> Param(ParamOrder[k], Slot(f, k).value) in QueryParams(f)
    ensures Slot(f, k).None? ==> forall i | 0 <= i < |QueryParams(f)| :: QueryParams(f)[i].key != ParamOrder[k]
  {
    EmittedValues(f, 7);
    EmittedComplete(f, 7);
    KeyIndexOfParamOrder(k);
  }

  /** Empty texts and zero amounts are left out of the query. */
  lemma FalsyFiltersOmitted(f: SearchFilters)
    requires f.customer == Some("") && f.amountFrom == Some(0)
    ensures forall i | 0 <= i < |QueryParams(f)| :: QueryParams(f)[i].key != "customer" && QueryParams(f)[i].key != "amountFrom"
  {
    QueryParamPresent(f, 3);
    QueryParamPresent(f, 5);
  }

  /** The `URLSearchParams` of `searchInvoices`: the truthy filters appended one by one. */
  method BuildQuery(f: SearchFilters) returns (params: seq<Param>)
    ensures params == QueryParams(f)
  {
    SlotParams(f);
    EmittedSteps(f);
    params := [];
    if TruthyText(f.dateFrom) { params := params + [Param("dateFrom", f.dateFrom.value)]; }
    assert params == Emitted(f, 1);
    if TruthyText(f.dateTo) { params := params + [Param("dateTo", f.dateTo.value)]; }
    assert params == Emitted(f, 2);
    if TruthyText(f.invoiceNumber) { params := params + [Param("invoiceNumber", f.invoiceNumber.value)]; }
    assert params == Emitted(f, 3);
    if TruthyText(f.customer) { params := params + [Param("customer", f.customer.value)]; }
    assert params == Emitted(f, 4);
    if TruthyText(f.status) { params := params + [Param("status", f.status.value)]; }
    assert params == Emitted(f, 5);
    if TruthyNumber(f.amountFrom) { params := params + [Param("amountFrom", IntToString(f.amountFrom.value))]; }
    assert params == Emitted(f, 6);
    if TruthyNumber(f.amountTo) { params := params + [Param("amountTo", IntToString(f.amountTo.value))]; }
    assert params == Emitted(f, 7);
  }

  /**
   * `searchInvoices`: build the query from the truthy filters, send it,
   * throw unless the response is ok.
   */
  method SearchInvoices(f: SearchFilters, get: seq<Param> -> ApiResponse<seq<ApiInvoice>>)
    returns (params: seq<Param>, result: Result<seq<ApiInvoice>, HelperError>)
    ensures params == QueryParams(f)
    ensures result.Failure? <==> !get(params).ok
    ensures result.Success? ==> result.value == get(params).json
    ensures result.Failure? ==> result.error.call == SearchInvoicesCall
  {
    params := BuildQuery(f);
    result := Unwrap(SearchInvoicesCall, get(params));
  }

  /** The compared fields of an invoice read from the UI; each may be unset. */
  datatype UiInvoice = UiInvoice(
    invoiceNumber: Option<string>,
    total: Option<real>,
    status: Option<string>,
    customer: Option<string>,
    date: Option<string>)

  /**
   * The reference for `verifyInvoiceData`: every field the UI record sets
   * agrees with the API record. `totalWithinTolerance` and `sameDay` are the
   * outcomes of the float and date comparisons.
   */
  predicate Agrees(ui: UiInvoice, api: ApiInvoice, totalWithinTolerance: bool, sameDay: bool) {
    (TruthyText(ui.invoiceNumber) ==> ui.invoiceNumber.value == api.invoiceNumber) &&
    (ui.total.Some? ==> totalWithinTolerance) &&
    (TruthyText(ui.status) ==> ui.status.value == api.status) &&
    (TruthyText(ui.customer) ==> api.customer == ui.customer) &&
    (TruthyText(ui.date) ==> sameDay)
  }

  /** `checks.every(check => check === true)`. */
  predicate Every(checks: seq<bool>) {
    forall i | 0 <= i < |checks| :: checks[i]
  }

  /** Pushing a check keeps every earlier check and adds the new one. */
  lemma EveryPush(checks: seq<bool>, c: bool)
    ensures Every(checks + [c]) <==> Every(checks) && c
  {
    if Every(checks) && c {
      forall i | 0 <= i < |checks + [c]|
        ensures (checks + [c])[i]
      {
        if i < |checks| {
          assert (checks + [c])[i] == checks[i];
        }
      }
    }
    if Every(checks + [c]) {
      assert (checks + [c])[|checks|] == c;
      forall i | 0 <= i < |checks|
        ensures checks[i]
      {
        assert (checks + [c])[i] == checks[i];
      }
    }
  }

  /** `verifyInvoiceData`: push one check per field the UI record sets, then require every check. */
  method VerifyInvoiceData(ui: UiInvoice, api: ApiInvoice, totalWithinTolerance: bool, sameDay: bool)
    returns (matches: bool)
    ensures matches <==> Agrees(ui, api, totalWithinTolerance, sameDay)
  {
    var checks: seq<bool> := [];
    if TruthyText(ui.invoiceNumber) {
      EveryPush(checks, ui.invoiceNumber.value == api.invoiceNumber);
      checks := checks + [ui.invoiceNumber.value == api.invoiceNumber];
    }
    assert Every(checks) <==> (TruthyText(ui.invoiceNumber) ==> ui.invoiceNumber.value == api.invoiceNumber);
    ghost var soFar := Every(checks);
    if ui.total.Some? {
      EveryPush(checks, totalWithinTolerance);
      checks := checks + [totalWithinTolerance];
    }
    assert Every(checks) <==> soFar && (ui.total.Some? ==> totalWithinTolerance);
    soFar := Every(checks);
    if TruthyText(ui.status) {
      EveryPush(checks, ui.status.value == api.status);
      checks := checks + [ui.status.value == api.status];
    }
    assert Every(checks) <==> soFar && (TruthyText(ui.status) ==> ui.status.value == api.status);
    soFar := Every(checks);
    if TruthyText(ui.customer) {
      EveryPush(checks, api.customer == ui.customer);
      checks := checks + [api.customer == ui.customer];
    }
    assert Every(checks) <==> soFar && (TruthyText(ui.customer) ==> api.customer == ui.customer);
    soFar := Every(checks);
    if TruthyText(ui.date) {
      EveryPush(checks, sameDay);
      checks := checks + [sameDay];
    }
    assert Every(checks) <==> soFar && (TruthyText(ui.date) ==> sameDay);
    matches := Every(checks);
  }

  /** A UI record that sets none of the compared fields agrees with every API record. */
  lemma NothingSetAgrees(ui: UiInvoice, api: ApiInvoice, totalWithinTolerance: bool, sameDay: bool)
    requires ui.invoiceNumber in {None, Some("")} && ui.total.None? && ui.status in {None, Some("")}
    requires ui.customer in {None, Some("")} && ui.date in {None, Some("")}
    ensures Agrees(ui, api, totalWithinTolerance, sameDay)
  {
  }

  /** A set invoice number, status or customer that differs from the API record fails the comparison. */
  lemma DifferingFieldDisagrees(ui: UiInvoice, api: ApiInvoice, totalWithinTolerance: bool, sameDay: bool)
    requires (TruthyText(ui.invoiceNumber) && ui.invoiceNumber.value != api.invoiceNumber) ||
             (TruthyText(ui.status) && ui.status.value != api.status) ||
             (TruthyText(ui.customer) && api.customer != ui.customer)
    ensures !Agrees(ui, api, totalWithinTolerance, sameDay)
  {
  }

  /** The warning `deleteInvoice` logs. */
  datatype DeleteWarning = DeleteWarning(invoiceId: int, status: int)

  /**
   * `deleteInvoice`: it never throws; a non-ok response is logged as a
   * warning unless its status is 404 (the invoice is already gone).
   */
  function DeleteInvoice(invoiceId: int, response: ApiResponse<()>): (warning: Option<DeleteWarning>)
    ensures warning.Some? <==> !response.ok && response.status != 404
    ensures warning.Some? ==> warning.value == DeleteWarning(invoiceId, response.status)
  {
    if !response.ok && response.status != 404 then Some(DeleteWarning(invoiceId, response.status)) else None
  }
}
