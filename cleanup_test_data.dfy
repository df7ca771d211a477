/**
 * The stand-alone cleanup script: log in, list the products and delete the
 * test products, then list the categories and delete the test categories.
 * Each deletion runs in its own try/catch, so a deletion that throws is
 * logged and the loop goes on.
 */
module CleanupTestData {
  import opened Wrappers
  import opened Text
  import opened Api
  import Seqs

  /** A product or category as the list endpoints return it; every field may be missing. */
  datatype Item = Item(id: Option<int>, name: Option<string>, code: Option<string>)

  /**
   * The `Data` property of a list response: missing or falsy, present but
   * not an array, or an array.
   */
  datatype ListData = NoData | NotAnArray | Items(items: seq<Item>)

  /** The product filter: `Name?.includes('Test') || Code?.startsWith('TEST-PROD') || Code === 'TEST-PRODUCT'`. */
  predicate IsTestProduct(p: Item) {
    (p.name.Some? && Contains(p.name.value, "Test")) ||
    (p.code.Some? && StartsWith(p.code.value, "TEST-PROD")) ||
    p.code == Some("TEST-PRODUCT")
  }

  /** The category filter: `Name?.includes('Test-Cat') || Name?.includes('Test')`. */
  predicate IsTestCategory(c: Item) {
    (c.name.Some? && Contains(c.name.value, "Test-Cat")) ||
    (c.name.Some? && Contains(c.name.value, "Test"))
  }

  /** The `Code === 'TEST-PRODUCT'` disjunct adds nothing: that code starts with 'TEST-PROD'. */
  lemma ProductFilterRedundant(p: Item)
    ensures IsTestProduct(p) <==>
      (p.name.Some? && Contains(p.name.value, "Test")) || (p.code.Some? && StartsWith(p.code.value, "TEST-PROD"))
  {
    if p.code == Some("TEST-PRODUCT") {
      assert p.code.value[..|"TEST-PROD"|] == "TEST-PROD";
    }
  }

  /** The `'Test-Cat'` disjunct adds nothing: a name containing it contains 'Test'. */
  lemma CategoryFilterRedundant(c: Item)
    ensures IsTestCategory(c) <==> c.name.Some? && Contains(c.name.value, "Test")
  {
    if c.name.Some? && Contains(c.name.value, "Test-Cat") {
      assert "Test-Cat"[..|"Test"|] == "Test";
      ContainsPrefixOfNeedle(c.name.value, "Test-Cat", "Test");
    }
  }

  /** The items the script selects for deletion, in list order. */
  function Selected(data: ListData, select: Item -> bool): seq<Item> {
    match data
    case Items(xs) => Seqs.Filter(xs, select)
    case _ => []
  }

  function DeleteProductOf(item: Item): Request {
    DeleteProduct(item.id)
  }

  function DeleteCategoryOf(item: Item): Request {
    DeleteCategory(item.id)
  }

  /** The deletion requests for the selected items, one per item, in order. */
  function Deletions(selected: seq<Item>, deletion: Item -> Request): (r: seq<Request>)
    ensures |r| == |selected|
    ensures forall i | 0 <= i < |r| :: r[i] == deletion(selected[i])
  {
    seq(|selected|, i requires 0 <= i < |selected| => deletion(selected[i]))
  }

  function ProductDeletions(data: ListData): seq<Request> {
    Deletions(Selected(data, IsTestProduct), DeleteProductOf)
  }

  function CategoryDeletions(data: ListData): seq<Request> {
    Deletions(Selected(data, IsTestCategory), DeleteCategoryOf)
  }

  /** Every request the script sends, in order. */
  function CleanupRequests(products: ListData, categories: ListData): seq<Request> {
    [AuthLogin, ListProducts] + ProductDeletions(products) + [ListCategories] + CategoryDeletions(categories)
  }

  /**
   * One deletion loop: `for (const x of selected) { try { delete } catch { warn } }`.
   * `deleteThrows(r)` says whether sending deletion `r` throws; `warnings`
   * are the deletions that threw, in order.
   */
  method DeleteEach(selected: seq<Item>, deletion: Item -> Request, deleteThrows: Request -> bool)
    returns (sent: seq<Request>, warnings: seq<Request>)
    ensures sent == Deletions(selected, deletion)
    ensures warnings == Seqs.Filter(sent, deleteThrows)
  {
    sent := [];
    warnings := [];
    for i := 0 to |selected|
      invariant sent == Deletions(selected[..i], deletion)
      invariant warnings == Seqs.Filter(sent, deleteThrows)
    {
      var request := deletion(selected[i]);
      assert selected[..i + 1] == selected[..i] + [selected[i]];
      Seqs.FilterAppend(sent, [request], deleteThrows);
      sent := sent + [request];
      if deleteThrows(request) {
        warnings := warnings + [request];
      }
    }
    assert selected[..|selected|] == selected;
  }

  /** `cleanupTestData`: the requests it sends, and the deletions that threw and were logged. */
  method Cleanup(products: ListData, categories: ListData, deleteThrows: Request -> bool)
    returns (sent: seq<Request>, warnings: seq<Request>)
    ensures sent == CleanupRequests(products, categories)
    ensures warnings == Seqs.Filter(ProductDeletions(products) + CategoryDeletions(categories), deleteThrows)
  {
    sent := [AuthLogin, ListProducts];
    var productsSent: seq<Request> := [];
    var productWarnings: seq<Request> := [];
    if products.Items? {
      var testProducts := Seqs.Filter(products.items, IsTestProduct);
      productsSent, productWarnings := DeleteEach(testProducts, DeleteProductOf, deleteThrows);
    }
    sent := sent + productsSent + [ListCategories];
    var categoriesSent: seq<Request> := [];
    var categoryWarnings: seq<Request> := [];
    if categories.Items? {
      var testCategories := Seqs.Filter(categories.items, IsTestCategory);
      categoriesSent, categoryWarnings := DeleteEach(testCategories, DeleteCategoryOf, deleteThrows);
    }
    sent := sent + categoriesSent;
    warnings := productWarnings + categoryWarnings;
    Seqs.FilterAppend(productsSent, categoriesSent, deleteThrows);
  }

  /** Request `i` of the script, by the part of the run it falls in. */
  lemma RequestAt(pd: seq<Request>, cd: seq<Request>, i: nat)
    requires i < 3 + |pd| + |cd|
    ensures var all := [AuthLogin, ListProducts] + pd + [ListCategories] + cd;
      (i < 2 ==> !all[i].DeleteProduct? && !all[i].DeleteCategory?) &&
      (2 <= i < 2 + |pd| ==> all[i] == pd[i - 2]) &&
      (i == 2 + |pd| ==> all[i] == ListCategories) &&
      (2 + |pd| < i ==> all[i] == cd[i - 3 - |pd|])
  {
    var head: seq<Request> := [AuthLogin, ListProducts];
    var all := head + pd + [ListCategories] + cd;
    var front := head + pd + [ListCategories];
    assert all == front + cd;
    if i < |front| {
      assert all[i] == front[i];
      assert front == (head + pd) + [ListCategories];
      if i < |head + pd| {
        assert front[i] == (head + pd)[i];
      }
    } else {
      assert all[i] == cd[i - |front|];
    }
  }

  /**
   * Product deletions occupy the positions before the category listing and
   * category deletions the positions after it, so every product deletion is
   * sent before every category deletion.
   */
  lemma ProductsBeforeCategories(products: ListData, categories: ListData)
    ensures forall i | 0 <= i < |CleanupRequests(products, categories)| ::
      CleanupRequests(products, categories)[i].DeleteProduct? ==> i < 2 + |ProductDeletions(products)|
    ensures forall j | 0 <= j < |CleanupRequests(products, categories)| ::
      CleanupRequests(products, categories)[j].DeleteCategory? ==> j > 2 + |ProductDeletions(products)|
    ensures CleanupRequests(products, categories)[2 + |ProductDeletions(products)|] == ListCategories
  {
    var pd := ProductDeletions(products);
    var cd := CategoryDeletions(categories);
    var all := CleanupRequests(products, categories);
    assert all == [AuthLogin, ListProducts] + pd + [ListCategories] + cd;
    forall i | 0 <= i < |all|
      ensures all[i].DeleteProduct? ==> i < 2 + |pd|
      ensures all[i].DeleteCategory? ==> i > 2 + |pd|
    {
      RequestAt(pd, cd, i);
      if 2 <= i < 2 + |pd| {
        assert pd[i - 2] == DeleteProductOf(Selected(products, IsTestProduct)[i - 2]);
      } else if 2 + |pd| < i {
        assert cd[i - 3 - |pd|] == DeleteCategoryOf(Selected(categories, IsTestCategory)[i - 3 - |pd|]);
      }
    }
    RequestAt(pd, cd, 2 + |pd|);
  }

  /**
   * Deletion `i` of either kind is of the `i`-th selected item, which is in
   * the listed data and meets the filter: unselected items are never deleted.
   */
  lemma DeletionsAreSelected(products: ListData, categories: ListData, i: nat)
    ensures i < |ProductDeletions(products)| ==>
      products.Items? &&
      Selected(products, IsTestProduct)[i] in products.items &&
      IsTestProduct(Selected(products, IsTestProduct)[i]) &&
      ProductDeletions(products)[i] == DeleteProduct(Selected(products, IsTestProduct)[i].id)
    ensures i < |CategoryDeletions(categories)| ==>
      categories.Items? &&
      Selected(categories, IsTestCategory)[i] in categories.items &&
      IsTestCategory(Selected(categories, IsTestCategory)[i]) &&
      CategoryDeletions(categories)[i] == DeleteCategory(Selected(categories, IsTestCategory)[i].id)
  {
  }

  /** Every listed test item is deleted. */
  lemma SelectedAreDeleted(products: ListData, categories: ListData, item: Item)
    ensures products.Items? && item in products.items && IsTestProduct(item) ==>
      DeleteProduct(item.id) in ProductDeletions(products)
    ensures categories.Items? && item in categories.items && IsTestCategory(item) ==>
      DeleteCategory(item.id) in CategoryDeletions(categories)
  {
    if products.Items? && item in products.items && IsTestProduct(item) {
      var k :| 0 <= k < |Selected(products, IsTestProduct)| && Selected(products, IsTestProduct)[k] == item;
      assert ProductDeletions(products)[k] == DeleteProduct(item.id);
    }
    if categories.Items? && item in categories.items && IsTestCategory(item) {
      var k :| 0 <= k < |Selected(categories, IsTestCategory)| && Selected(categories, IsTestCategory)[k] == item;
      assert CategoryDeletions(categories)[k] == DeleteCategory(item.id);
    }
  }

  /** Without an array of products (or categories) no deletion of that kind is sent. */
  lemma NoArrayNoDeletions(products: ListData, categories: ListData)
    ensures !products.Items? ==> ProductDeletions(products) == []
    ensures !categories.Items? ==> CategoryDeletions(categories) == []
    ensures !products.Items? && !categories.Items? ==>
      CleanupRequests(products, categories) == [AuthLogin, ListProducts, ListCategories]
  {
  }
}
