/**
 * The cashier scenario's steps: create a test category and product through
 * the API, wait for the product to show on the POS screen, record the order
 * code of the invoice the cashier creates, verify that invoice through the
 * API, and delete the test data. DOM lookups and HTTP calls are given as
 * their results.
 */
module CashierSteps {
  import opened Wrappers
  import opened Text
  import opened Api
  import opened World
  import InvoiceHelper
  import CleanupTestData

  /** The errors the steps throw. */
  datatype StepError =
    | PageNotInitialized
    | CategoryDataMissing
    | ProductCreationFailed
    | ProductNotVisible
    | OrderCodeMissing
    | MissingVerificationData
    | PageUndefined
    | VerificationFailed(cause: InvoiceHelper.Failure)

  /** The name of the category the data step creates: `Test-Cat-<Date.now()>`. */
  function CategoryName(stamp: nat): (name: string)
    ensures StartsWith(name, "Test-Cat-") && name[|"Test-Cat-"|..] == NatToString(stamp)
  {
    var name := "Test-Cat-" + NatToString(stamp);
    assert name[..|"Test-Cat-"|] == "Test-Cat-";
    name
  }

  const TestProductName := "Test Product"

  /** The product the data step posts: in the created category, with code `TEST-PROD-<Date.now()>`. */
  function ProductCreation(categoryId: Option<int>, stamp: nat): (r: Request)
    ensures r.CreateProduct? && r.name == TestProductName
    ensures StartsWith(r.code, "TEST-PROD-") && r.code[|"TEST-PROD-"|..] == NatToString(stamp)
    ensures r.categoryId == categoryId
    ensures r.price == TestProductPrice
  {
    var code := "TEST-PROD-" + NatToString(stamp);
    assert code[..|"TEST-PROD-"|] == "TEST-PROD-";
    CreateProduct(TestProductName, code, categoryId, TestProductPrice)
  }

  /**
   * The check of the product response: `productId` becomes `Data[0].Id`
   * when `Data` is a non-empty array; otherwise the step throws.
   */
  function ProductIdOf(data: Option<seq<Created>>): (r: Result<Option<int>, StepError>)
    ensures r.Success? <==> data.Some? && |data.value| > 0
    ensures r.Success? ==> r.value == data.value[0].id
    ensures r.Failure? ==> r.error == ProductCreationFailed
  {
    if data.Some? && |data.value| > 0 then Success(data.value[0].id) else Failure(ProductCreationFailed)
  }

  /** The category and the product the data step creates are both picked up by the cleanup script. */
  lemma CreatedDataIsCleanable(categoryStamp: nat, productStamp: nat, categoryId: Option<int>, productId: Option<int>)
    ensures CleanupTestData.IsTestCategory(CleanupTestData.Item(categoryId, Some(CategoryName(categoryStamp)), None))
    ensures CleanupTestData.IsTestProduct(
      CleanupTestData.Item(productId, Some(TestProductName), Some(ProductCreation(categoryId, productStamp).code)))
  {
    ContainsAt(CategoryName(categoryStamp), "Test", 0);
    ContainsAt(TestProductName, "Test", 0);
  }

  /**
   * The data step. `accessToken` is the login response's `access_token`;
   * `categoryData` is the category response's `Data` (None when missing,
   * which makes `categoryData.Data.Id` throw); `productData` is the product
   * response's `Data`.
   */
  method CreateTestData(world: CashierWorld, accessToken: Option<string>, categoryStamp: nat, productStamp: nat,
                        categoryData: Option<Created>, productData: Option<seq<Created>>)
    returns (sent: seq<Request>, outcome: Outcome<StepError>)
    modifies world
    ensures world.authToken == accessToken
    ensures world.categoryName == Some(CategoryName(categoryStamp))
    ensures categoryData.None? ==>
      outcome == Fail(CategoryDataMissing) &&
      sent == [AuthLogin, CreateCategory(CategoryName(categoryStamp))] &&
      world.categoryId == old(world.categoryId) && world.productName == old(world.productName)
    ensures categoryData.Some? ==>
      world.categoryId == categoryData.value.id &&
      world.productName == Some(TestProductName) &&
      sent == [AuthLogin, CreateCategory(CategoryName(categoryStamp)), ProductCreation(categoryData.value.id, productStamp)] &&
      (outcome.Pass? <==> ProductIdOf(productData).Success?) &&
      (outcome.Fail? ==> outcome.error == ProductCreationFailed)
    ensures outcome.Pass? ==> world.productId == ProductIdOf(productData).value
    ensures outcome.Fail? ==> world.productId == old(world.productId)
    ensures world.orderCode == old(world.orderCode)
    ensures world.browser == old(world.browser) && world.context == old(world.context) && world.page == old(world.page)
  {
    sent := [AuthLogin];
    world.authToken := accessToken;
    world.categoryName := Some(CategoryName(categoryStamp));
    sent := sent + [CreateCategory(world.categoryName.value)];
    if categoryData.None? {
      return sent, Fail(CategoryDataMissing);
    }
    world.categoryId := categoryData.value.id;
    world.productName := Some(TestProductName);
    sent := sent + [ProductCreation(world.categoryId, productStamp)];
    if productData.Some? && |productData.value| > 0 {
      world.productId := productData.value[0].id;
      outcome := Pass;
    } else {
      outcome := Fail(ProductCreationFailed);
    }
  }

  /** The most attempts the wait step makes. */
  const MaxRetries: nat := 12

  datatype WaitEvent = Attempt(index: nat) | Reload

  /** The reload after failed attempt `k`: none after the last allowed attempt. */
  function ReloadAfter(k: nat): seq<WaitEvent> {
    if k + 1 < MaxRetries then [Reload] else []
  }

  /**
   * What the wait loop does from attempt `k` on: look for the product; on
   * success stop; on failure reload unless that was the last allowed
   * attempt, and try again. `visible(k)` is whether attempt `k` saw it.
   */
  function WaitTrace(visible: nat -> bool, k: nat): seq<WaitEvent>
    requires k <= MaxRetries
    decreases MaxRetries - k
  {
    if k == MaxRetries then []
    else if visible(k) then [Attempt(k)]
    else [Attempt(k)] + ReloadAfter(k) + WaitTrace(visible, k + 1)
  }

  /** The last attempt of the wait from attempt `k` on. */
  function LastAttempt(visible: nat -> bool, k: nat): nat
    requires k < MaxRetries
    decreases MaxRetries - k
  {
    if visible(k) || k + 1 == MaxRetries then k else LastAttempt(visible, k + 1)
  }

  /** Every attempt before the last failed, and the last succeeded or was the twelfth. */
  lemma {:induction false} LastAttemptSpec(visible: nat -> bool, k: nat)
    requires k < MaxRetries
    ensures k <= LastAttempt(visible, k) < MaxRetries
    ensures forall j | k <= j < LastAttempt(visible, k) :: !visible(j)
    ensures visible(LastAttempt(visible, k)) || LastAttempt(visible, k) == MaxRetries - 1
    decreases MaxRetries - k
  {
    if !visible(k) && k + 1 < MaxRetries {
      LastAttemptSpec(visible, k + 1);
    }
  }

  /** The wait from attempt `k` on has an attempt and a reload per failed attempt, then the last attempt. */
  lemma {:induction false} WaitTraceLength(visible: nat -> bool, k: nat)
    requires k < MaxRetries
    ensures |WaitTrace(visible, k)| == 2 * (LastAttempt(visible, k) - k) + 1
    decreases MaxRetries - k
  {
    if !visible(k) && k + 1 < MaxRetries {
      WaitTraceLength(visible, k + 1);
      LastAttemptSpec(visible, k + 1);
      assert ReloadAfter(k) == [Reload];
      assert |WaitTrace(visible, k)| == 2 + |WaitTrace(visible, k + 1)|;
    }
  }

  /** Attempts `k`, `k + 1`, … alternate with reloads. */
  lemma {:induction false} WaitTraceAlternates(visible: nat -> bool, k: nat)
    requires k < MaxRetries
    ensures forall i | 0 <= i < |WaitTrace(visible, k)| ::
      WaitTrace(visible, k)[i] == if i % 2 == 0 then Attempt(k + i / 2) else Reload
    decreases MaxRetries - k
  {
    var t := WaitTrace(visible, k);
    if !visible(k) && k + 1 < MaxRetries {
      WaitTraceAlternates(visible, k + 1);
      var rest := WaitTrace(visible, k + 1);
      assert t == [Attempt(k), Reload] + rest;
      forall i | 0 <= i < |t|
        ensures t[i] == if i % 2 == 0 then Attempt(k + i / 2) else Reload
      {
        if i >= 2 {
          assert t[i] == rest[i - 2];
        }
      }
    }
  }

  /**
   * The shape of the wait: attempts `k`, `k + 1`, … alternate with reloads,
   * the trace ends with an attempt, every attempt but the last failed, and
   * the last one succeeded or was the twelfth.
   */
  lemma WaitTraceShape(visible: nat -> bool, k: nat)
    requires k < MaxRetries
    ensures |WaitTrace(visible, k)| % 2 == 1
    ensures forall i | 0 <= i < |WaitTrace(visible, k)| ::
      WaitTrace(visible, k)[i] == if i % 2 == 0 then Attempt(k + i / 2) else Reload
    ensures k + |WaitTrace(visible, k)| / 2 < MaxRetries
    ensures forall j | k <= j < k + |WaitTrace(visible, k)| / 2 :: !visible(j)
    ensures visible(k + |WaitTrace(visible, k)| / 2) || k + |WaitTrace(visible, k)| / 2 == MaxRetries - 1
  {
    WaitTraceLength(visible, k);
    LastAttemptSpec(visible, k);
    WaitTraceAlternates(visible, k);
    assert |WaitTrace(visible, k)| / 2 == LastAttempt(visible, k) - k;
  }

  /** The wait makes at most twelve attempts and succeeds iff one of the twelve sees the product. */
  lemma WaitOutcome(visible: nat -> bool)
    ensures |WaitTrace(visible, 0)| <= 2 * MaxRetries - 1
    ensures (exists j | 0 <= j < MaxRetries :: visible(j)) <==> visible(|WaitTrace(visible, 0)| / 2)
  {
    WaitTraceShape(visible, 0);
  }

  /** None of the first `n` attempts sees the product. */
  predicate NoneVisible(visible: nat -> bool, n: nat)
    decreases n
  {
    n == 0 || (!visible(n - 1) && NoneVisible(visible, n - 1))
  }

  lemma {:induction false} NoneVisibleMeans(visible: nat -> bool, n: nat)
    ensures NoneVisible(visible, n) <==> forall j | 0 <= j < n :: !visible(j)
    decreases n
  {
    if n > 0 {
      NoneVisibleMeans(visible, n - 1);
    }
  }

  /** The events of the first `n` attempts when every one of them fails. */
  function FailedAttempts(n: nat): seq<WaitEvent>
    decreases n
  {
    if n == 0 then [] else FailedAttempts(n - 1) + ([Attempt(n - 1)] + ReloadAfter(n - 1))
  }

  /** After `n` failed attempts the wait goes on as it would from attempt `n`. */
  lemma {:induction false} FailedAttemptsThenWait(visible: nat -> bool, n: nat)
    requires n <= MaxRetries && NoneVisible(visible, n)
    ensures FailedAttempts(n) + WaitTrace(visible, n) == WaitTrace(visible, 0)
    decreases n
  {
    if n > 0 {
      FailedAttemptsThenWait(visible, n - 1);
      var step := [Attempt(n - 1)] + ReloadAfter(n - 1);
      assert WaitTrace(visible, n - 1) == step + WaitTrace(visible, n);
      assert FailedAttempts(n) + WaitTrace(visible, n) == FailedAttempts(n - 1) + (step + WaitTrace(visible, n));
    }
  }

  /** The loop of the wait step: `while (!productVisible && retries < maxRetries)`. */
  method WaitLoop(visible: nat -> bool) returns (events: seq<WaitEvent>, productVisible: bool)
    ensures events == WaitTrace(visible, 0)
    ensures productVisible <==> exists j | 0 <= j < MaxRetries :: visible(j)
  {
    productVisible := false;
    var retries: nat := 0;
    events := [];
    while !productVisible && retries < MaxRetries
      invariant retries <= MaxRetries
      invariant NoneVisible(visible, retries)
      invariant !productVisible ==> events == FailedAttempts(retries)
      invariant productVisible ==>
        retries < MaxRetries && visible(retries) && events == FailedAttempts(retries) + [Attempt(retries)]
      decreases MaxRetries - retries, if productVisible then 0 else 1
    {
      if visible(retries) {
        events := events + [Attempt(retries)];
        productVisible := true;
      } else {
        events := events + ([Attempt(retries)] + ReloadAfter(retries));
        retries := retries + 1;
      }
    }
    FailedAttemptsThenWait(visible, retries);
    NoneVisibleMeans(visible, retries);
  }

  /** The wait step: the loop, then throw unless the product was seen. */
  method WaitForProduct(world: CashierWorld, visible: nat -> bool) returns (events: seq<WaitEvent>, outcome: Outcome<StepError>)
    ensures !world.page || !TruthyText(world.productName) ==> events == [] && outcome == Fail(PageNotInitialized)
    ensures world.page && TruthyText(world.productName) ==>
      events == WaitTrace(visible, 0) &&
      (outcome.Pass? <==> exists j | 0 <= j < MaxRetries :: visible(j)) &&
      (outcome.Fail? ==> outcome.error == ProductNotVisible)
  {
    if !world.page || !TruthyText(world.productName) {
      return [], Fail(PageNotInitialized);
    }
    var productVisible;
    events, productVisible := WaitLoop(visible);
    if !productVisible {
      outcome := Fail(ProductNotVisible);
    } else {
      outcome := Pass;
    }
  }

  /** The invoice step: store the order code the cashier page returned. */
  method CreateInvoice(world: CashierWorld, createdOrderCode: string) returns (outcome: Outcome<StepError>)
    modifies world
    ensures !old(world.page) || !TruthyText(old(world.productName)) ==>
      outcome == Fail(PageNotInitialized) && world.orderCode == old(world.orderCode)
    ensures old(world.page) && TruthyText(old(world.productName)) ==>
      outcome == Pass && world.orderCode == Some(createdOrderCode)
    ensures world.authToken == old(world.authToken) && world.productId == old(world.productId)
    ensures world.categoryId == old(world.categoryId) && world.productName == old(world.productName)
    ensures world.categoryName == old(world.categoryName)
    ensures world.browser == old(world.browser) && world.context == old(world.context) && world.page == old(world.page)
  {
    if !world.page || !TruthyText(world.productName) {
      return Fail(PageNotInitialized);
    }
    world.orderCode := Some(createdOrderCode);
    outcome := Pass;
  }

  /** The success check after the invoice step: the order code is defined and not empty. */
  function InvoiceCreated(orderCode: Option<string>): (r: Outcome<StepError>)
    ensures r.Pass? <==> orderCode.Some? && orderCode.value != ""
    ensures r.Fail? ==> r.error == OrderCodeMissing
  {
    if TruthyText(orderCode) then Pass else Fail(OrderCodeMissing)
  }

  /** All the data the verification step needs is present. */
  predicate ReadyToVerify(orderCode: Option<string>, authToken: Option<string>, productName: Option<string>, productId: Option<int>) {
    TruthyText(orderCode) && TruthyText(authToken) && TruthyText(productName) && TruthyNumber(productId)
  }

  /**
   * The verification step: throw before any API call when data is missing;
   * with the data present but no page, the `page!.waitForTimeout` before the
   * verifier raises a TypeError; otherwise run the invoice verifier on the
   * stored order code.
   */
  method VerifyStep(world: CashierWorld, listResponse: InvoiceHelper.HttpResponse,
                    detailResponse: int -> InvoiceHelper.HttpResponse)
    returns (outcome: Outcome<StepError>, apiUsed: bool, detailId: Option<int>)
    ensures apiUsed <==> ReadyToVerify(world.orderCode, world.authToken, world.productName, world.productId) && world.page
    ensures !ReadyToVerify(world.orderCode, world.authToken, world.productName, world.productId) ==>
      outcome == Fail(MissingVerificationData) && detailId.None?
    ensures ReadyToVerify(world.orderCode, world.authToken, world.productName, world.productId) && !world.page ==>
      outcome == Fail(PageUndefined) && detailId.None?
    ensures apiUsed && outcome.Fail? ==> outcome.error.VerificationFailed?
    ensures apiUsed && InvoiceHelper.GetInvoiceList(listResponse).Failure? ==>
      outcome == Fail(VerificationFailed(InvoiceHelper.GetInvoiceList(listResponse).error)) && detailId.None?
    ensures apiUsed && InvoiceHelper.Listed(listResponse) == Some([]) ==>
      outcome == Fail(VerificationFailed(InvoiceHelper.NoInvoices)) && detailId.None?
    ensures apiUsed && InvoiceHelper.GetInvoiceList(listResponse).Success? && InvoiceHelper.Listed(listResponse).None? ==>
      outcome == Fail(VerificationFailed(InvoiceHelper.NotAList)) && detailId.None?
    ensures apiUsed && InvoiceHelper.Listed(listResponse).Some? && InvoiceHelper.Listed(listResponse).value != [] &&
            InvoiceHelper.FindInvoiceByOrderCode(InvoiceHelper.Listed(listResponse).value, world.orderCode.value).None? ==>
      outcome == Fail(VerificationFailed(InvoiceHelper.NotFound(world.orderCode.value))) && detailId.None?
    ensures apiUsed && InvoiceHelper.Listed(listResponse).Some? &&
            InvoiceHelper.FindInvoiceByOrderCode(InvoiceHelper.Listed(listResponse).value, world.orderCode.value).Some? ==>
      detailId == Some(InvoiceHelper.FindInvoiceByOrderCode(InvoiceHelper.Listed(listResponse).value, world.orderCode.value).value.id)
    ensures detailId.Some? && InvoiceHelper.GetInvoiceDetail(detailResponse(detailId.value)).Failure? ==>
      outcome == Fail(VerificationFailed(InvoiceHelper.GetInvoiceDetail(detailResponse(detailId.value)).error))
    ensures detailId.Some? && InvoiceHelper.GetInvoiceDetail(detailResponse(detailId.value)).Success? &&
            InvoiceHelper.DetailOrderCode(InvoiceHelper.GetInvoiceDetail(detailResponse(detailId.value)).value) != world.orderCode.value ==>
      outcome == Fail(VerificationFailed(InvoiceHelper.OrderCodeMismatch(world.orderCode.value,
        InvoiceHelper.DetailOrderCode(InvoiceHelper.GetInvoiceDetail(detailResponse(detailId.value)).value))))
    ensures outcome.Pass? <==>
      apiUsed && detailId.Some? &&
      InvoiceHelper.GetInvoiceDetail(detailResponse(detailId.value)).Success? &&
      InvoiceHelper.DetailOrderCode(InvoiceHelper.GetInvoiceDetail(detailResponse(detailId.value)).value) == world.orderCode.value
  {
    if !ReadyToVerify(world.orderCode, world.authToken, world.productName, world.productId) {
      return Fail(MissingVerificationData), false, None;
    }
    if !world.page {
      return Fail(PageUndefined), false, None;
    }
    apiUsed := true;
    var verdict;
    verdict, detailId := InvoiceHelper.VerifyInvoice(world.orderCode.value, listResponse, detailResponse);
    match verdict {
      case Pass => outcome := Pass;
      case Fail(e) => outcome := Fail(VerificationFailed(e));
    }
  }

  /** The requests a data cleanup sent, and whether it logged a warning. */
  datatype DataCleanup = DataCleanup(sent: seq<Request>, warned: bool)

  /**
   * The reference for the data cleanup shared by the cleanup step and the
   * `After` hook: delete the product if its id is set, then the category if
   * its id is set, both inside one try whose error is only logged.
   */
  function GuardedDeletions(productId: Option<int>, categoryId: Option<int>, deleteThrows: Request -> bool): (r: DataCleanup)
    ensures TruthyNumber(productId) <==> |r.sent| > 0 && r.sent[0] == DeleteProduct(productId)
    ensures DeleteCategory(categoryId) in r.sent <==>
      TruthyNumber(categoryId) && !(TruthyNumber(productId) && deleteThrows(DeleteProduct(productId)))
    ensures |r.sent| <= 2
    ensures forall i | 0 <= i < |r.sent| ::
      (i == 0 && r.sent[i] == DeleteProduct(productId) && TruthyNumber(productId)) ||
      (i == |r.sent| - 1 && r.sent[i] == DeleteCategory(categoryId) && TruthyNumber(categoryId))
    ensures r.warned <==> exists i | 0 <= i < |r.sent| :: deleteThrows(r.sent[i])
  {
    if TruthyNumber(productId) && deleteThrows(DeleteProduct(productId)) then
      DataCleanup([DeleteProduct(productId)], true)
    else
      var first := if TruthyNumber(productId) then [DeleteProduct(productId)] else [];
      if TruthyNumber(categoryId) then
        DataCleanup(first + [DeleteCategory(categoryId)], deleteThrows(DeleteCategory(categoryId)))
      else
        DataCleanup(first, false)
  }

  /** The shared try block: guarded deletions in sequence, the error caught and logged. */
  method DeleteTestData(productId: Option<int>, categoryId: Option<int>, deleteThrows: Request -> bool)
    returns (result: DataCleanup)
    ensures result == GuardedDeletions(productId, categoryId, deleteThrows)
  {
    var sent: seq<Request> := [];
    var warned := false;
    if TruthyNumber(productId) {
      sent := sent + [DeleteProduct(productId)];
      if deleteThrows(DeleteProduct(productId)) {
        return DataCleanup(sent, true);
      }
    }
    if TruthyNumber(categoryId) {
      sent := sent + [DeleteCategory(categoryId)];
      if deleteThrows(DeleteCategory(categoryId)) {
        warned := true;
      }
    }
    result := DataCleanup(sent, warned);
  }

  /** The cleanup step: the shared deletions on the stored ids; it never throws and changes no world field. */
  method CleanupStep(world: CashierWorld, deleteThrows: Request -> bool) returns (result: DataCleanup)
    ensures result == GuardedDeletions(world.productId, world.categoryId, deleteThrows)
  {
    result := DeleteTestData(world.productId, world.categoryId, deleteThrows);
  }
}
