# KiotViet FnB test suite: the decision logic, modelled in Dafny

This project models the decision rules and bookkeeping of the KiotViet FnB end-to-end test suite. The suite is written with Playwright and Cucumber. The browser and the backend are not part of the model. A DOM text becomes an input string, a DOM lookup a predicate on attempt numbers, and an HTTP call the response it receives. A request that may throw becomes a predicate on the request.

The model has one module for each core source file:

- `InvoiceHelper` (`helpers/invoiceHelper.ts`) is the invoice verifier. It validates and normalises response envelopes, matches order codes (exact first, then by substring in either direction), and runs the steps of `verifyInvoice` and `getInvoiceByOrderCode`.
- `InvoiceTestHelper` (`helpers/invoiceTestHelper.ts`) holds:
  - the request wrappers that throw on a non-ok response;
  - the subtotal `reduce`;
  - the `searchInvoices` query;
  - the field-wise `verifyInvoiceData`;
  - the 404-tolerant `deleteInvoice`.
- `CleanupTestData` (`scripts/cleanup-test-data.ts`) holds the selection predicates and the two deletion loops. Each loop catches the errors of its own deletions.
- `DataFixture` (`fixtures/data.fixture.ts`) models the `category`, `product` and `invoices` fixtures. It includes the `createdIds` ledger as a class and the runner's setup-then-reverse-teardown discipline.
- `World` (`support/world.ts`) is the Cucumber world: browser flags and the fields the steps share.
- `CashierSteps` (`steps/cashier.steps.ts`) covers:
  - the data-creation step;
  - the bounded product-wait loop;
  - the invoice and verification steps;
  - the cleanup step.
- `Hooks` (`support/hooks.ts`) models the `Before` and `After` hooks.
- `LoginPage` (`pages/LoginPage.ts`) covers the form fields, `localStorage` and the clicked buttons as a class. It models `fillCredentials`, `loginMan`/`loginPos` and `clearForm`.
- `InvoiceManagementPage` (`pages/InvoiceManagementPage.ts`) covers `getInvoiceCount` and the text cleanup of `getInvoiceData`.

Shared modules:

- `Wrappers` holds Option, Result, Outcome and JavaScript truthiness.
- `Text` holds `includes`, `startsWith`, `trim`, `\d` and `replace(/[^\d.]/g, '')`, plus decimal rendering and parsing of naturals.
- `Seqs` holds `find` and `filter`.
- `Api` holds the backend requests the suite sends.

Some behaviour of the code worth knowing when reading the model:

- **The data step does not check the token or the category id.** It stores whatever `access_token` the login returned and whatever `Data.Id` the category response carried (`steps/cashier.steps.ts:53,79`). It only throws when the category response has no `Data` (the property access raises a TypeError) or the product response has no non-empty `Data` (`steps/cashier.steps.ts:121-127`).
- **Fixture teardown can fail.** The data fixtures' teardowns have no try/catch (`fixtures/data.fixture.ts:28-30,49-51,61-65`). They ignore the HTTP status, and the model sends every deletion. A network error there is not modelled (see below).
- **`verifyInvoice` takes one argument.** The steps call `verifyInvoice` with three arguments, but it declares one (`helpers/invoiceHelper.ts:164`, `steps/cashier.steps.ts:194`). The extra arguments are ignored, and the model uses the one-argument form.
- **The verification step needs a page.** After its data check it calls `this.page!.waitForTimeout(3000)` (`steps/cashier.steps.ts:192`). Without a page this raises a TypeError before the invoice verifier runs.

## Model

| member | source | states |
|---|---|---|
| InvoiceHelper.ValidateApiResponse | helpers/invoiceHelper.ts:61-77 | An error code fails with the status message for every operation. A detail operation fails iff neither top-level `Id` nor `Data.Id` is truthy (id 0 counts as absent). Any other operation fails iff `Data` is missing. Every failure names the operation. |
| InvoiceHelper.ValidateList | helpers/invoiceHelper.ts:97 | The list validation passes iff there is no error code and `Data` is present. |
| InvoiceHelper.ValidateDetail | helpers/invoiceHelper.ts:125 | The detail validation passes iff there is no error code and `Id` or `Data.Id` is truthy. |
| InvoiceHelper.NormaliseDetail | helpers/invoiceHelper.ts:128-134 | Wraps a direct invoice object with a truthy `Id` as an envelope and returns anything else as it is. Its contract is stated by NormaliseDetailSpec. |
| InvoiceHelper.NormaliseDetailSpec | helpers/invoiceHelper.ts:128-134 | A direct invoice object with a truthy `Id` becomes `{Data: obj, Message: 'Success'}` with no error code. Anything else, an envelope or an object whose `Id` is 0, is returned unchanged. Normalising twice equals normalising once. |
| InvoiceHelper.GetInvoiceList | helpers/invoiceHelper.ts:82-105 | Succeeds iff the response is ok and passes list validation, and then returns the body with `Data` present. A non-ok status fails with that status. Every failure is wrapped as a list failure. |
| InvoiceHelper.GetInvoiceDetail | helpers/invoiceHelper.ts:110-140 | Succeeds iff the response is ok and passes detail validation. It then returns the normalised envelope, whose `Data` is one invoice with a non-zero id. Every failure is wrapped as a detail failure. |
| InvoiceHelper.FindInvoiceByOrderCode | helpers/invoiceHelper.ts:145-158 | `findInvoiceByOrderCode`: `find` with the exact test, then `find` with the two-way substring test. Its contract is stated by FindInvoiceByOrderCodeSpec. |
| InvoiceHelper.FindInvoiceByOrderCodeSpec | helpers/invoiceHelper.ts:145-158 | With an exact match, the result is the first exactly matching invoice. Otherwise it is the first invoice whose code contains the target or is contained in it. The result is null iff no invoice matches even loosely. A hit is always a listed invoice that matches loosely. |
| InvoiceHelper.EmptyOrderCodeMatchesAnyTarget | helpers/invoiceHelper.ts:151-154 | An invoice whose order code is empty matches every target loosely, because `includes('')` holds. |
| InvoiceHelper.FallbackPicksInexactCode | helpers/invoiceHelper.ts:149-155 | The substring fallback returns an invoice whose order code differs from the target (`DH-0042` for `0042`). |
| InvoiceHelper.VerifyInvoice | helpers/invoiceHelper.ts:164-202 | A list failure, an empty list, a non-array `Data` and no match each fail. In those cases no detail is requested. Otherwise the detail of the matched invoice is requested. The method passes iff that detail was fetched and its order code equals the requested code exactly, so a substring hit with a different code fails with a mismatch. |
| InvoiceHelper.GetInvoiceByOrderCode | helpers/invoiceHelper.ts:209-219 | The same lookup without the empty-list check and without the exact comparison. It succeeds iff the detail of the matched invoice was fetched, and returns its `Data`, which has a non-zero id. |
| InvoiceTestHelper.Unwrap | helpers/invoiceTestHelper.ts:77-81 | Throws, with the call, status and text, iff the response is not ok. Otherwise it returns the decoded body. |
| InvoiceTestHelper.ReduceIsSum | helpers/invoiceTestHelper.ts:54 | The `reduce` fold from an accumulator equals that accumulator plus the sum of quantity × price. |
| InvoiceTestHelper.SumAppend | helpers/invoiceTestHelper.ts:54 | The subtotal of two batches of items is the sum of their subtotals. |
| InvoiceTestHelper.SumNonNegative | helpers/invoiceTestHelper.ts:54 | Non-negative quantities and prices give a non-negative subtotal. |
| InvoiceTestHelper.InvoiceBody | helpers/invoiceTestHelper.ts:54-74 | The posted subtotal is the sum over the items of quantity × price. The discount is 0. The items are passed through. The customer is the given one if truthy, else 'Test Customer'. The payment method is 'Cash' and the status 'Paid'. |
| InvoiceTestHelper.CreateTestInvoice | helpers/invoiceTestHelper.ts:48-82 | Throws iff the response to the posted body is not ok. Otherwise it returns the response body. |
| InvoiceTestHelper.GetInvoiceById | helpers/invoiceTestHelper.ts:91-108 | Throws iff the response is not ok. Otherwise it returns the response body. |
| InvoiceTestHelper.VoidInvoice | helpers/invoiceTestHelper.ts:117-137 | Throws iff the response is not ok. |
| InvoiceTestHelper.EmittedValues | helpers/invoiceTestHelper.ts:161-167 | Every emitted parameter is named after one of the filters so far and carries that filter's truthy value. |
| InvoiceTestHelper.EmittedOrdered | helpers/invoiceTestHelper.ts:161-167 | The emitted parameters are in strictly increasing position of the fixed order. |
| InvoiceTestHelper.EmittedComplete | helpers/invoiceTestHelper.ts:161-167 | Every truthy filter so far is emitted with its value. |
| InvoiceTestHelper.QueryParams | helpers/invoiceTestHelper.ts:159-167 | The query `searchInvoices` builds from the filters. Its contract is stated by QueryParamsOrdered and QueryParamPresent, and BuildQuery is proved equal to it. |
| InvoiceTestHelper.QueryParamsOrdered | helpers/invoiceTestHelper.ts:159-167 | Parameters follow the order dateFrom, dateTo, invoiceNumber, customer, status, amountFrom, amountTo. Each name occurs at most once, and only these names occur. |
| InvoiceTestHelper.QueryParamPresent | helpers/invoiceTestHelper.ts:161-167 | A filter is in the query, with its value, iff it is truthy. |
| InvoiceTestHelper.FalsyFiltersOmitted | helpers/invoiceTestHelper.ts:164-166 | An empty customer and an amountFrom of 0 are left out of the query. |
| InvoiceTestHelper.BuildQuery | helpers/invoiceTestHelper.ts:159-167 | The seven conditional appends build exactly the query the reference defines. |
| InvoiceTestHelper.SearchInvoices | helpers/invoiceTestHelper.ts:146-181 | Sends that query. Throws iff the response is not ok. Otherwise it returns the response body. |
| InvoiceTestHelper.EveryPush | helpers/invoiceTestHelper.ts:216 | `every` over the checks with one more pushed holds iff it held before and the new check holds. |
| InvoiceTestHelper.Agrees | helpers/invoiceTestHelper.ts:189-216 | One check per field the UI record sets, all of which must hold. It is the reference VerifyInvoiceData is proved equal to. Its contract is stated by NothingSetAgrees and DifferingFieldDisagrees. |
| InvoiceTestHelper.VerifyInvoiceData | helpers/invoiceTestHelper.ts:189-217 | The result is the conjunction of the checks for exactly the fields the UI record sets. |
| InvoiceTestHelper.NothingSetAgrees | helpers/invoiceTestHelper.ts:189-217 | A UI record that sets none of the compared fields agrees with every API record. |
| InvoiceTestHelper.DifferingFieldDisagrees | helpers/invoiceTestHelper.ts:192-207 | A set invoice number, status or customer that differs from the API value makes the comparison false. |
| InvoiceTestHelper.DeleteInvoice | helpers/invoiceTestHelper.ts:225-243 | Never throws. Warns iff the response is not ok and its status is not 404, and the warning carries the invoice id and status. |
| CleanupTestData.IsTestProduct | scripts/cleanup-test-data.ts:45-49 | The product filter, with optional name and code. Its contract is stated by ProductFilterRedundant. |
| CleanupTestData.IsTestCategory | scripts/cleanup-test-data.ts:69-72 | The category filter, with an optional name. Its contract is stated by CategoryFilterRedundant. |
| CleanupTestData.ProductFilterRedundant | scripts/cleanup-test-data.ts:45-49 | The product filter holds iff the name contains 'Test' or the code starts with 'TEST-PROD'. The `=== 'TEST-PRODUCT'` disjunct is implied. |
| CleanupTestData.CategoryFilterRedundant | scripts/cleanup-test-data.ts:69-72 | The category filter holds iff the name contains 'Test'. The 'Test-Cat' disjunct is implied. |
| CleanupTestData.Deletions | scripts/cleanup-test-data.ts:53-60 | One deletion per selected item, in list order. |
| CleanupTestData.DeleteEach | scripts/cleanup-test-data.ts:53-60 | The loop sends a deletion for every selected item, in order, whatever throws. Its warnings are exactly the deletions that threw, in order. |
| CleanupTestData.CleanupRequests | scripts/cleanup-test-data.ts:7-88 | The requests of the script, in order. Its contract is stated by ProductsBeforeCategories, DeletionsAreSelected, SelectedAreDeleted and NoArrayNoDeletions, and Cleanup is proved equal to it. |
| CleanupTestData.Cleanup | scripts/cleanup-test-data.ts:7-88 | The script sends login, the product list, the product deletions, the category list and the category deletions, in that order. Its warnings are the product and category deletions that threw. |
| CleanupTestData.ProductsBeforeCategories | scripts/cleanup-test-data.ts:53-83 | Every product deletion is sent before the category listing, and every category deletion after it. |
| CleanupTestData.DeletionsAreSelected | scripts/cleanup-test-data.ts:44-49 | The i-th deletion of either kind is of the i-th selected item. That item is in the listed array and meets the filter, so unselected items are never deleted. |
| CleanupTestData.SelectedAreDeleted | scripts/cleanup-test-data.ts:45-60 | Every listed item that meets a filter is deleted. |
| CleanupTestData.NoArrayNoDeletions | scripts/cleanup-test-data.ts:44-68 | Without a `Data` array of products (or categories), no deletion of that kind is sent. |
| DataFixture.CategoryCreation | fixtures/data.fixture.ts:19 | The category name is 'category-' followed by the clock reading. |
| DataFixture.CategoryNameReadsBack | fixtures/data.fixture.ts:19 | The digits after 'category-' read back as the clock reading. |
| DataFixture.ProductCreation | fixtures/data.fixture.ts:37-42 | The product has name 'product-<stamp>', code 'P-<stamp>', the yielded category's id and price 10000. |
| DataFixture.InvoiceLedger.constructor | fixtures/data.fixture.ts:56-58 | The ledger is handed to the test empty. |
| DataFixture.InvoiceLedger.Record | fixtures/data.fixture.ts:56-58 | Recording an id appends it to the ledger. |
| DataFixture.InvoiceLedger.Teardown | fixtures/data.fixture.ts:61-65 | One invoice deletion per recorded id, in insertion order. |
| DataFixture.ProductInsideCategory | fixtures/data.fixture.ts:34 | In a valid setup order the category comes before the product that asks for it, and in the reversed order after it. |
| DataFixture.SetupTrace | fixtures/data.fixture.ts:15-58 | The setups of a fixture order, one after the other. Its contract is stated by CategoryCreatedFirst and SetUpAll. |
| DataFixture.TeardownTrace | fixtures/data.fixture.ts:27-65 | The teardowns of a fixture order, last fixture first. Its contract is stated by ProductDeletedFirst and TearDownAll. |
| DataFixture.CategoryCreatedFirst | fixtures/data.fixture.ts:15-46 | In the setup trace the category creation comes before the product creation. |
| DataFixture.ProductDeletedFirst | fixtures/data.fixture.ts:27-51 | In the teardown trace the product deletion comes before the category deletion. |
| DataFixture.DataTestOrder | tests/data-test.spec.ts:3 | The data test's fixtures (auth token, category, product) form a valid setup order and are torn down product, category, token. |
| DataFixture.SetUpAll | fixtures/data.fixture.ts:15-58 | The setups run in order. A ledger exists iff the test asked for `invoices`, and it is fresh and empty. |
| DataFixture.RecordAll | fixtures/data.fixture.ts:58 | The test's pushes append its ids to the ledger in order. |
| DataFixture.TearDownAll | fixtures/data.fixture.ts:27-65 | The teardowns run last fixture first. The invoices teardown deletes the recorded ids in order. |
| DataFixture.RunTest | fixtures/data.fixture.ts:12-67 | A run is every setup, then the test body, then every teardown in reverse order. |
| World.CashierWorld.constructor | support/world.ts:22-34 | A fresh world has no browser and no test data: the constructor (lines 32-34) leaves every field declared at lines 22-30 undefined. |
| World.CashierWorld.Init | support/world.ts:36-47 | The browser, context and page are open, and the test data is unchanged. |
| World.CashierWorld.Cleanup | support/world.ts:49-53 | The page, context and browser are closed, and the test data is unchanged. The source leaves the closed handles in their fields; one flag per handle stands for "defined and open", and nothing reads these fields after cleanup. |
| CashierSteps.CategoryName | steps/cashier.steps.ts:57 | The category name is 'Test-Cat-' followed by the clock reading. |
| CashierSteps.ProductCreation | steps/cashier.steps.ts:83-103 | The product 'Test Product' has code 'TEST-PROD-<stamp>', the created category's id and price 10000. |
| CashierSteps.ProductIdOf | steps/cashier.steps.ts:121-127 | Succeeds iff `Data` is a non-empty array, and then gives `Data[0].Id`. Otherwise it fails with the product-creation error. |
| CashierSteps.CreatedDataIsCleanable | steps/cashier.steps.ts:57-97 | The category and product this step creates both meet the cleanup script's filters. |
| CashierSteps.CreateTestData | steps/cashier.steps.ts:33-130 | Stores the token and category name, and sends login then category creation. Without category `Data` it fails and nothing more is stored. Otherwise it stores the category id and product name and sends the product creation. It passes iff the product response has data, and only then stores `productId`. |
| CashierSteps.LastAttemptSpec | steps/cashier.steps.ts:143-156 | The last attempt is within the twelve. Every attempt before it failed, and it succeeded or was the twelfth. |
| CashierSteps.WaitTrace | steps/cashier.steps.ts:139-156 | The reference sequence of attempts and reloads of the wait. Its contract is stated by WaitTraceLength, WaitTraceAlternates, WaitTraceShape, LastAttemptSpec and WaitOutcome, and WaitLoop is proved equal to it. |
| CashierSteps.WaitTraceLength | steps/cashier.steps.ts:143-156 | The wait has one attempt and one reload per failed attempt, then one last attempt. |
| CashierSteps.WaitTraceAlternates | steps/cashier.steps.ts:148-155 | Attempts and reloads alternate, starting with an attempt. |
| CashierSteps.WaitTraceShape | steps/cashier.steps.ts:143-156 | The wait ends with an attempt and never reloads after the twelfth attempt. At most twelve attempts are made, and it stops at the first successful one. |
| CashierSteps.WaitOutcome | steps/cashier.steps.ts:141-160 | At most 23 events occur. The last attempt reports success iff one of the twelve allowed attempts sees the product. |
| CashierSteps.WaitLoop | steps/cashier.steps.ts:139-156 | The loop's events are the reference wait trace. `productVisible` ends true iff some attempt within the twelve sees the product. |
| CashierSteps.WaitForProduct | steps/cashier.steps.ts:134-161 | Without a page or product name it throws before looking. Otherwise it runs the wait and throws iff no allowed attempt saw the product. |
| CashierSteps.CreateInvoice | steps/cashier.steps.ts:163-169 | Without a page or product name it throws. Otherwise it stores the order code the cashier page returned. No other field, data or browser handle, changes. |
| CashierSteps.InvoiceCreated | steps/cashier.steps.ts:171-174 | Passes iff the order code is defined and not empty. |
| CashierSteps.VerifyStep | steps/cashier.steps.ts:176-198 | The API is used iff order code, token, product name and product id are all set and the page exists. Without the data it throws first. With the data but no page, `page!.waitForTimeout` throws a TypeError before the verifier runs. Once the verifier runs, every failure is a verification failure carrying the verifier's own error: a list failure, no invoices, a non-array `Data` or no match, each with no detail requested. The detail requested is that of the invoice the order-code lookup finds. It passes iff that detail was fetched and its order code equals the stored one. |
| CashierSteps.GuardedDeletions | steps/cashier.steps.ts:219-233 | The product is deleted first, iff its id is set. The category is deleted iff its id is set and the product deletion did not throw. At most two requests are sent: the product deletion only first, the category deletion only last, and nothing else. A warning is logged iff a sent deletion threw. |
| CashierSteps.DeleteTestData | steps/cashier.steps.ts:219-233 | The try block's sequence of guarded deletions is that reference. |
| CashierSteps.CleanupStep | steps/cashier.steps.ts:200-236 | The cleanup step never throws and performs the reference deletions on the stored ids. |
| Hooks.Before | support/hooks.ts:12-14 | The world is initialised: the browser, context and page are open. Every data field is unchanged. |
| Hooks.OuterGuardRedundant | support/hooks.ts:18 | With neither id set, the guarded deletions send nothing and warn of nothing. |
| Hooks.After | support/hooks.ts:16-56 | The data cleanup is the reference guarded deletions on the stored ids. Then the browser is closed in every case. Every data field is unchanged. |
| Hooks.BrowserClosedLast | support/hooks.ts:55 | The browser closing is the last event, and every earlier event is a deletion the data cleanup sent. |
| Hooks.CleanupStepThenAfter | support/hooks.ts:18-46 | After the cleanup step, `After` sends the very same deletions again, starting with the product deletion when its id is set, and closes the browser with the ids still set. Both runs are given the same deletion failures, so this holds when each deletion fails in the hook exactly when it failed in the step. |
| LoginPage.Filled | pages/LoginPage.ts:50-65 | The content of a field after `if (value) { clear; fill(value) }`. Its contract is stated by FilledSpec. |
| LoginPage.FilledSpec | pages/LoginPage.ts:50-65 | A non-empty value replaces the field. An empty value leaves it as it was. Filling twice is filling once. |
| LoginPage.LoginForm.FillCredentials | pages/LoginPage.ts:48-66 | Each field holds its new value if that value is non-empty, else its old content. Storage and clicks are unchanged. |
| LoginPage.LoginForm.Login | pages/LoginPage.ts:68-92 | The shared login fills the credentials and clicks one button. It has no failure outcome. |
| LoginPage.LoginForm.LoginMan | pages/LoginPage.ts:68-79 | The shared login with the management button. |
| LoginPage.LoginForm.LoginPos | pages/LoginPage.ts:81-92 | The shared login with the point-of-sale button. |
| LoginPage.LoginForm.RemoveSessionKeys | pages/LoginPage.ts:132-134 | 'retailer', 'kvSession' and 'retailerId' are removed from storage. |
| LoginPage.LoginForm.RemoveOfflineKeys | pages/LoginPage.ts:136-140 | Every key with prefix 'offline_ss_' is removed, and every other entry stays. |
| LoginPage.LoginForm.ClearForm | pages/LoginPage.ts:129-150 | Storage becomes the cleared storage, and the three fields are empty. |
| LoginPage.ClearedStorage | pages/LoginPage.ts:131-141 | The storage `clearForm` leaves. Its contract is stated by ClearedStorageKeys and ClearedStorageIdempotent, and ClearForm is proved to produce it. |
| LoginPage.ClearedStorageKeys | pages/LoginPage.ts:131-141 | The session keys and the offline keys are gone. Every other key keeps its value, and no key is added. |
| LoginPage.ClearedStorageIdempotent | pages/LoginPage.ts:129-141 | Clearing a cleared storage changes nothing. |
| InvoiceManagementPage.SkipNonDigits | pages/InvoiceManagementPage.ts:193 | The text from its first digit on. Everything skipped is a non-digit. |
| InvoiceManagementPage.LeadingDigits | pages/InvoiceManagementPage.ts:193 | The longest all-digit prefix. The character after it is not a digit. |
| InvoiceManagementPage.FirstDigitRun | pages/InvoiceManagementPage.ts:193 | `match(/\d+/)`: the first maximal run of digits. Its contract is stated by FirstDigitRunNone, FirstDigitRunSome and FirstDigitRunBounds. |
| InvoiceManagementPage.FirstDigitRunNone | pages/InvoiceManagementPage.ts:193-194 | The match finds nothing iff the text has no digit. |
| InvoiceManagementPage.FirstDigitRunSome | pages/InvoiceManagementPage.ts:193 | A found match is a non-empty run of digits that occurs in the text at the first digit. |
| InvoiceManagementPage.FirstDigitRunBounds | pages/InvoiceManagementPage.ts:193 | No digit comes before the match and none right after it, so it is the first maximal run. |
| InvoiceManagementPage.GetInvoiceCount | pages/InvoiceManagementPage.ts:189-195 | `getInvoiceCount` on the label text. Its contract is stated by NoDigitNoCount and CountOfRenderedNumber. |
| InvoiceManagementPage.NoDigitNoCount | pages/InvoiceManagementPage.ts:190-194 | A missing or empty label counts 0, and so does a label without digits. |
| InvoiceManagementPage.FirstDigitRunAfter | pages/InvoiceManagementPage.ts:193 | A digit run after digit-free text and before a non-digit is the run the match finds. |
| InvoiceManagementPage.CountOfRenderedNumber | pages/InvoiceManagementPage.ts:189-195 | A label made of digit-free text, the digits of `n`, then anything not starting with a digit counts `n`. The rest of the text is ignored, and '-' is never part of the count. |
| InvoiceManagementPage.GetInvoiceData | pages/InvoiceManagementPage.ts:201-219 | `getInvoiceData` on the modal's texts, without the wait and `parseFloat`. Its contract is stated by DetailTextsTrimmed, TotalCleanup, TotalDropsOtherChars and TotalKeepsNumberChars. |
| InvoiceManagementPage.TrimmedField | pages/InvoiceManagementPage.ts:204-219 | `(text \|\| '').trim()` neither starts nor ends with whitespace, is the shown text with only whitespace cut off at its two ends, and is empty for a missing text. |
| InvoiceManagementPage.DetailTextsTrimmed | pages/InvoiceManagementPage.ts:213-219 | Invoice number, date, customer and status are all cleaned that way. |
| InvoiceManagementPage.TotalCleanup | pages/InvoiceManagementPage.ts:207-211 | The total keeps only digits and '.', and a missing or empty total becomes '0'. Filtering works piece by piece, so order is kept. A total already made of digits and dots is kept whole. |
| InvoiceManagementPage.TotalDropsOtherChars | pages/InvoiceManagementPage.ts:211 | A character of the total that is neither a digit nor '.' is dropped, not replaced: "1,000" cleans to "1000". |
| InvoiceManagementPage.TotalKeepsNumberChars | pages/InvoiceManagementPage.ts:207-211 | Every digit and '.' of a shown total occurs in the cleaned total as often as it was shown, and no other character occurs. |
| Text.Trim | pages/InvoiceManagementPage.ts:215 | `trim`, which never lengthens the text. Its contract is stated by TrimSpec and TrimIdempotent. |
| Text.TrimSpec | pages/InvoiceManagementPage.ts:215 | `trim` cuts whitespace off the two ends of the text and nothing else: the result is a slice of the text with only whitespace before and after it, and it neither starts nor ends with whitespace. It keeps an already trimmed text, and a text of whitespace only becomes empty. |
| Text.TrimIdempotent | pages/InvoiceManagementPage.ts:215 | Trimming twice is trimming once. |
| Text.KeepNumberChars | pages/InvoiceManagementPage.ts:211 | `replace(/[^\d.]/g, '')`: only digits and '.' remain, and the text never grows. Together, KeepNumberCharsChar and KeepNumberCharsAppend fix the result for every text. |
| Text.KeepNumberCharsChar | pages/InvoiceManagementPage.ts:211 | A single digit or '.' is kept, and any other single character is dropped. |
| Text.KeepNumberCharsDrops | pages/InvoiceManagementPage.ts:211 | A character other than a digit or '.' is dropped wherever it occurs, and the text around it closes up. |
| Text.KeepNumberCharsCounts | pages/InvoiceManagementPage.ts:211 | Each digit and '.' is kept as often as it occurs, and no other character is kept. |
| Text.KeepNumberCharsAppend | pages/InvoiceManagementPage.ts:211 | `replace(/[^\d.]/g, '')` of a concatenation is the concatenation of the replacements. |
| Text.KeepNumberCharsIdempotent | pages/InvoiceManagementPage.ts:211 | Filtering twice is filtering once. |
| Text.DecimalValue | pages/InvoiceManagementPage.ts:194 | The number `parseInt` reads from a run of decimal digits. Its contract is stated by DecimalValueOfNatToString and DecimalValueLeadingZero. |
| Text.DecimalValueOfNatToString | pages/InvoiceManagementPage.ts:194 | `parseInt` of the decimal rendering of `n` is `n`. |
| Text.DecimalValueLeadingZero | pages/InvoiceManagementPage.ts:194 | A leading zero does not change the value read, so `parseInt("007")` is 7. |
| Text.ContainsPrefixOfNeedle | scripts/cleanup-test-data.ts:70-71 | A text containing a needle contains every prefix of it. |
| Seqs.Find | helpers/invoiceHelper.ts:147 | `find` returns the first element satisfying the predicate, or nothing iff none does. |
| Seqs.Filter | scripts/cleanup-test-data.ts:45-49 | `filter` keeps exactly the elements satisfying the predicate, in order, and drops nothing that satisfies it. |
| Seqs.FilterAppend | scripts/cleanup-test-data.ts:45-49 | Filtering a concatenation is concatenating the filtered parts. |

## Left out

- **Browser driving:** selectors, clicks, fills, reloads and timeouts. DOM results are inputs: the count and detail texts, the visibility predicate of the wait, and the order code of the cashier page.
- **HTTP:** requests, headers, bearer tokens, base URLs and `response.json()`. Each call is the response it receives. A thrown network error becomes a predicate on the request. Branch and retailer header constants are not modelled.
- **Floating point:** the 10% tax and the total of `createTestInvoice`, the `< 0.01` tolerance of `verifyInvoiceData`, and `parseFloat` in `getInvoiceData`. `verifyInvoiceData` takes the outcome of the tolerance check as an input, and `getInvoiceData` returns the filtered text `parseFloat` is given.
- **Dates:** `new Date(...).toDateString()` in `verifyInvoiceData`. The same-day comparison is an input.
- **Query encoding:** the percent-encoding of `URLSearchParams`. The query is a sequence of key/value pairs. Amounts are integers, rendered as decimal text.
- **Timing and racing waits:** `Promise.race` in `loginMan`/`loginPos`, the waits and `setDefaultTimeout`. The swallowed timeout means a login has no failure outcome.
- **Cucumber plumbing:** step-text matching, the browser launch options, the common and UI-only steps, and the tests under `tests/` other than the fixture order of the data test.
- InvoiceHelper.FindInvoiceByOrderCodeSpec: order codes are always strings. An invoice without `OrderCode`, for which JavaScript's `includes(undefined)` searches for the text "undefined", is not modelled.
- InvoiceManagementPage.GetInvoiceCount: the count is exact on integers. The precision loss of `parseInt` on very long digit runs is not modelled.
- LoginPage.LoginForm.RemoveOfflineKeys: the keys of the snapshot are visited in an arbitrary order. The result is the same for every order, so the order `Object.keys` uses is not modelled.
- DataFixture.TearDownAll: a network error during a fixture deletion, which would raise out of the fixture, is not modelled.
- **Helper construction:** the constructor configuration of the invoice helpers (base URL, retailer) and `createHeaders` are not modelled.
