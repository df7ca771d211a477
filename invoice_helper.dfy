/**
 * The invoice verifier: it reads the invoice list, picks the invoice whose
 * order code matches (exactly, else by substring in either direction),
 * fetches that invoice's detail and checks that the detail's order code is
 * exactly the one asked for. HTTP calls are given as their responses.
 */
module InvoiceHelper {
  import opened Wrappers
  import opened Text
  import Seqs

  /** The fields of an invoice list item or invoice detail the verifier reads. */
  datatype Invoice = Invoice(id: int, code: string, orderCode: string)

  /** What the `Data` property of a response holds: an array of invoices or one invoice object. */
  datatype Payload = Items(items: seq<Invoice>) | Record(invoice: Invoice)

  datatype ResponseStatus = ResponseStatus(errorCode: Option<string>, message: Option<string>)

  /**
   * A decoded JSON response. `direct` holds the top-level invoice fields of
   * a response that is itself an invoice object rather than an envelope.
   */
  datatype Envelope = Envelope(
    responseStatus: Option<ResponseStatus>,
    direct: Option<Invoice>,
    data: Option<Payload>,
    message: Option<string>)

  datatype HttpResponse = HttpResponse(ok: bool, status: int, body: Envelope)

  /** The errors the verifier throws. */
  datatype Failure =
    | OperationFailed(operation: string, reason: string)
    | HttpFailed(status: int)
    | InvoiceListFailed(cause: Failure)
    | InvoiceDetailFailed(cause: Failure)
    | NoInvoices
    | NotFound(orderCode: string)
    | NotAList
    | OrderCodeMismatch(expected: string, actual: string)

  const ListOperation := "Get invoice list"
  const DetailOperation := "Get invoice detail"

  predicate HasErrorCode(e: Envelope) {
    e.responseStatus.Some? && TruthyText(e.responseStatus.value.errorCode)
  }

  /** `response.Id` is truthy: the response is an invoice object with a non-zero id. */
  predicate HasTopLevelId(e: Envelope) {
    e.direct.Some? && e.direct.value.id != 0
  }

  /** `response.Data?.Id` is truthy: an array has no `Id`. */
  predicate HasDataId(e: Envelope) {
    e.data.Some? && e.data.value.Record? && e.data.value.invoice.id != 0
  }

  /** `ResponseStatus.Message || 'Unknown error'`. */
  function StatusMessage(e: Envelope): string
    requires e.responseStatus.Some?
  {
    var m := e.responseStatus.value.message;
    if TruthyText(m) then m.value else "Unknown error"
  }

  /** `validateApiResponse`: throws on an error code or on a response without the data the operation needs. */
  function ValidateApiResponse(response: Envelope, operation: string): (r: Outcome<Failure>)
    ensures HasErrorCode(response) ==> r == Fail(OperationFailed(operation, StatusMessage(response)))
    ensures !HasErrorCode(response) && Contains(operation, "invoice detail") ==>
      (r.Fail? <==> !HasTopLevelId(response) && !HasDataId(response))
    ensures !HasErrorCode(response) && !Contains(operation, "invoice detail") ==>
      (r.Fail? <==> response.data.None?)
    ensures r.Fail? ==> r.error.OperationFailed? && r.error.operation == operation
  {
    if HasErrorCode(response) then
      Fail(OperationFailed(operation, StatusMessage(response)))
    else if Contains(operation, "invoice detail") then
      if !HasTopLevelId(response) && !HasDataId(response) then
        Fail(OperationFailed(operation, "No invoice data in response"))
      else Pass
    else if response.data.None? then
      Fail(OperationFailed(operation, "No data in response"))
    else Pass
  }

  /** The detail operation's name takes the detail branch of the validation. */
  lemma DetailOperationKind()
    ensures Contains(DetailOperation, "invoice detail")
  {
    assert DetailOperation[4..4 + |"invoice detail"|] == "invoice detail";
    ContainsAt(DetailOperation, "invoice detail", 4);
  }

  /** The list operation's name, which has no 'd', takes the other branch. */
  lemma ListOperationKind()
    ensures !Contains(ListOperation, "invoice detail")
  {
    assert "invoice detail"[8] == 'd';
    assert forall i | 0 <= i < |ListOperation| :: ListOperation[i] != 'd';
    NotContainsMissingChar(ListOperation, "invoice detail", 'd');
  }

  /** The validation of a list response: no error code, and some `Data`. */
  lemma ValidateList(response: Envelope)
    ensures ValidateApiResponse(response, ListOperation).Pass? <==> !HasErrorCode(response) && response.data.Some?
  {
    ListOperationKind();
  }

  /** The validation of a detail response: no error code, and a truthy `Id` or `Data.Id`. */
  lemma ValidateDetail(response: Envelope)
    ensures ValidateApiResponse(response, DetailOperation).Pass? <==>
      !HasErrorCode(response) && (HasTopLevelId(response) || HasDataId(response))
  {
    DetailOperationKind();
  }

  /** The envelope normalisation of `getInvoiceDetail`. */
  function NormaliseDetail(data: Envelope): Envelope {
    if HasTopLevelId(data) then Envelope(None, None, Some(Record(data.direct.value)), Some("Success"))
    else data
  }

  /**
   * A direct invoice object with a truthy `Id` is wrapped as
   * `{Data: obj, Message: 'Success'}`; anything else (an envelope, or an
   * object whose `Id` is 0) is returned unchanged; so normalising twice changes nothing.
   */
  lemma NormaliseDetailSpec(data: Envelope)
    ensures HasTopLevelId(data) ==>
      NormaliseDetail(data).data == Some(Record(data.direct.value)) &&
      NormaliseDetail(data).message == Some("Success") &&
      !HasErrorCode(NormaliseDetail(data))
    ensures !HasTopLevelId(data) ==> NormaliseDetail(data) == data
    ensures NormaliseDetail(NormaliseDetail(data)) == NormaliseDetail(data)
  {
  }

  /** `getInvoiceList` on the response of the list request. */
  function GetInvoiceList(response: HttpResponse): (r: Result<Envelope, Failure>)
    ensures r.Success? <==> response.ok && ValidateApiResponse(response.body, ListOperation).Pass?
    ensures r.Success? ==> r.value == response.body && r.value.data.Some?
    ensures !response.ok ==> r == Failure(InvoiceListFailed(HttpFailed(response.status)))
    ensures r.Failure? ==> r.error.InvoiceListFailed?
  {
    ValidateList(response.body);
    if !response.ok then Failure(InvoiceListFailed(HttpFailed(response.status)))
    else match ValidateApiResponse(response.body, ListOperation)
      case Fail(e) => Failure(InvoiceListFailed(e))
      case Pass => Success(response.body)
  }

  /** `getInvoiceDetail` on the response of the detail request. */
  function GetInvoiceDetail(response: HttpResponse): (r: Result<Envelope, Failure>)
    ensures r.Success? <==> response.ok && ValidateApiResponse(response.body, DetailOperation).Pass?
    ensures r.Success? ==> r.value == NormaliseDetail(response.body)
    ensures r.Success? ==> r.value.data.Some? && r.value.data.value.Record? && r.value.data.value.invoice.id != 0
    ensures !response.ok ==> r == Failure(InvoiceDetailFailed(HttpFailed(response.status)))
    ensures r.Failure? ==> r.error.InvoiceDetailFailed?
  {
    ValidateDetail(response.body);
    if !response.ok then Failure(InvoiceDetailFailed(HttpFailed(response.status)))
    else match ValidateApiResponse(response.body, DetailOperation)
      case Fail(e) => Failure(InvoiceDetailFailed(e))
      case Pass => Success(NormaliseDetail(response.body))
  }

  /** `invoiceDetail.Data.OrderCode` of a successfully fetched detail. */
  function DetailOrderCode(detail: Envelope): string
    requires detail.data.Some? && detail.data.value.Record?
  {
    detail.data.value.invoice.orderCode
  }

  predicate ExactMatch(invoice: Invoice, target: string) {
    invoice.orderCode == target
  }

  /** The tolerant fallback: either order code contains the other. */
  predicate LooseMatch(invoice: Invoice, target: string) {
    Contains(invoice.orderCode, target) || Contains(target, invoice.orderCode)
  }

  lemma ExactImpliesLoose(invoice: Invoice, target: string)
    requires ExactMatch(invoice, target)
    ensures LooseMatch(invoice, target)
  {
  }

  /** `findInvoiceByOrderCode`: an exact match first, else the loose fallback. */
  function FindInvoiceByOrderCode(invoices: seq<Invoice>, target: string): Option<Invoice> {
    match Seqs.Find(invoices, inv => ExactMatch(inv, target))
    case Some(i) => Some(invoices[i])
    case None =>
      match Seqs.Find(invoices, inv => LooseMatch(inv, target))
      case Some(i) => Some(invoices[i])
      case None => None
  }

  /**
   * What the lookup returns: the first invoice whose order code equals the
   * target; if there is none, the first one that matches loosely; None
   * exactly when no invoice matches even loosely.
   */
  lemma FindInvoiceByOrderCodeSpec(invoices: seq<Invoice>, target: string)
    ensures var r := FindInvoiceByOrderCode(invoices, target);
      (exists i | 0 <= i < |invoices| :: ExactMatch(invoices[i], target)) ==>
      exists i | 0 <= i < |invoices| ::
        r == Some(invoices[i]) && ExactMatch(invoices[i], target) &&
        forall j | 0 <= j < i :: !ExactMatch(invoices[j], target)
    ensures var r := FindInvoiceByOrderCode(invoices, target);
      (forall i | 0 <= i < |invoices| :: !ExactMatch(invoices[i], target)) && r.Some? ==>
      exists i | 0 <= i < |invoices| ::
        r == Some(invoices[i]) && LooseMatch(invoices[i], target) &&
        forall j | 0 <= j < i :: !LooseMatch(invoices[j], target)
    ensures FindInvoiceByOrderCode(invoices, target).None? <==>
      forall i | 0 <= i < |invoices| :: !LooseMatch(invoices[i], target)
    ensures var r := FindInvoiceByOrderCode(invoices, target);
      r.Some? ==> r.value in invoices && LooseMatch(r.value, target)
  {
    match Seqs.Find(invoices, inv => ExactMatch(inv, target))
    case Some(i) =>
      ExactImpliesLoose(invoices[i], target);
    case None =>
  }

  /** An invoice without an order code is a loose match for every target, since `includes('')` holds. */
  lemma EmptyOrderCodeMatchesAnyTarget(invoice: Invoice, target: string)
    requires invoice.orderCode == ""
    ensures LooseMatch(invoice, target)
  {
  }

  /** The fallback can pick an invoice whose order code is not the one asked for. */
  lemma FallbackPicksInexactCode()
    ensures FindInvoiceByOrderCode([Invoice(1, "HD000001", "DH-0042")], "0042") ==
      Some(Invoice(1, "HD000001", "DH-0042"))
  {
    var invoices := [Invoice(1, "HD000001", "DH-0042")];
    assert "DH-0042"[3..3 + |"0042"|] == "0042";
    ContainsAt("DH-0042", "0042", 3);
    assert !ExactMatch(invoices[0], "0042");
    assert LooseMatch(invoices[0], "0042");
    FindInvoiceByOrderCodeSpec(invoices, "0042");
  }

  /** The invoices of a successful list response whose `Data` is an array. */
  function Listed(listResponse: HttpResponse): Option<seq<Invoice>> {
    match GetInvoiceList(listResponse)
    case Success(env) =>
      (match env.data
       case Some(Items(xs)) => Some(xs)
       case _ => None)
    case Failure(_) => None
  }

  /**
   * `verifyInvoice(orderCode)`. `detailResponse(id)` is the response the
   * detail request for invoice `id` receives; `detailId` is the invoice whose
   * detail was requested, if any.
   */
  method VerifyInvoice(orderCode: string, listResponse: HttpResponse, detailResponse: int -> HttpResponse)
    returns (outcome: Outcome<Failure>, detailId: Option<int>)
    ensures GetInvoiceList(listResponse).Failure? ==>
      outcome == Fail(GetInvoiceList(listResponse).error) && detailId.None?
    ensures Listed(listResponse) == Some([]) ==> outcome == Fail(NoInvoices) && detailId.None?
    ensures GetInvoiceList(listResponse).Success? && Listed(listResponse).None? ==>
      outcome == Fail(NotAList) && detailId.None?
    ensures (Listed(listResponse).Some? && Listed(listResponse).value != [] &&
             FindInvoiceByOrderCode(Listed(listResponse).value, orderCode).None?) ==>
      outcome == Fail(NotFound(orderCode)) && detailId.None?
    ensures Listed(listResponse).Some? && FindInvoiceByOrderCode(Listed(listResponse).value, orderCode).Some? ==>
      detailId == Some(FindInvoiceByOrderCode(Listed(listResponse).value, orderCode).value.id)
    ensures detailId.Some? && GetInvoiceDetail(detailResponse(detailId.value)).Failure? ==>
      outcome == Fail(GetInvoiceDetail(detailResponse(detailId.value)).error)
    ensures (detailId.Some? && GetInvoiceDetail(detailResponse(detailId.value)).Success? &&
             DetailOrderCode(GetInvoiceDetail(detailResponse(detailId.value)).value) != orderCode) ==>
      outcome == Fail(OrderCodeMismatch(orderCode, DetailOrderCode(GetInvoiceDetail(detailResponse(detailId.value)).value)))
    ensures outcome.Pass? <==>
      detailId.Some? && GetInvoiceDetail(detailResponse(detailId.value)).Success? &&
      DetailOrderCode(GetInvoiceDetail(detailResponse(detailId.value)).value) == orderCode
  {
    detailId := None;
    var list := GetInvoiceList(listResponse);
    if list.Failure? {
      return Fail(list.error), None;
    }
    var invoices: seq<Invoice>;
    match list.value.data {
      case None =>
        return Fail(NoInvoices), None;
      case Some(Record(_)) =>
        // `invoices.find` on a non-array throws a TypeError
        return Fail(NotAList), None;
      case Some(Items(xs)) =>
        invoices := xs;
    }
    if invoices == [] {
      return Fail(NoInvoices), None;
    }
    var target := FindInvoiceByOrderCode(invoices, orderCode);
    if target.None? {
      return Fail(NotFound(orderCode)), None;
    }
    detailId := Some(target.value.id);
    var detail := GetInvoiceDetail(detailResponse(target.value.id));
    if detail.Failure? {
      return Fail(detail.error), detailId;
    }
    var actual := DetailOrderCode(detail.value);
    if actual != orderCode {
      return Fail(OrderCodeMismatch(orderCode, actual)), detailId;
    }
    outcome := Pass;
  }

  /**
   * `getInvoiceByOrderCode(orderCode)`: the same lookup without the empty
   * list check and without the exact comparison of the detail.
   */
  method GetInvoiceByOrderCode(orderCode: string, listResponse: HttpResponse, detailResponse: int -> HttpResponse)
    returns (result: Result<Invoice, Failure>, detailId: Option<int>)
    ensures GetInvoiceList(listResponse).Failure? ==>
      result == Failure(GetInvoiceList(listResponse).error) && detailId.None?
    ensures GetInvoiceList(listResponse).Success? && Listed(listResponse).None? ==>
      result == Failure(NotAList) && detailId.None?
    ensures Listed(listResponse).Some? && FindInvoiceByOrderCode(Listed(listResponse).value, orderCode).None? ==>
      result == Failure(NotFound(orderCode)) && detailId.None?
    ensures Listed(listResponse).Some? && FindInvoiceByOrderCode(Listed(listResponse).value, orderCode).Some? ==>
      detailId == Some(FindInvoiceByOrderCode(Listed(listResponse).value, orderCode).value.id)
    ensures detailId.Some? && GetInvoiceDetail(detailResponse(detailId.value)).Failure? ==>
      result == Failure(GetInvoiceDetail(detailResponse(detailId.value)).error)
    ensures result.Success? <==> detailId.Some? && GetInvoiceDetail(detailResponse(detailId.value)).Success?
    ensures result.Success? ==>
      result.value == GetInvoiceDetail(detailResponse(detailId.value)).value.data.value.invoice &&
      result.value.id != 0
  {
    var list := GetInvoiceList(listResponse);
    if list.Failure? {
      return Failure(list.error), None;
    }
    var invoices: seq<Invoice>;
    match list.value.data {
      case Some(Items(xs)) =>
        invoices := xs;
      case _ =>
        // `find` on a missing or non-array `Data` throws a TypeError
        return Failure(NotAList), None;
    }
    var target := FindInvoiceByOrderCode(invoices, orderCode);
    if target.None? {
      return Failure(NotFound(orderCode)), None;
    }
    detailId := Some(target.value.id);
    var detail := GetInvoiceDetail(detailResponse(target.value.id));
    if detail.Failure? {
      return Failure(detail.error), detailId;
    }
    result := Success(detail.value.data.value.invoice);
  }
}
