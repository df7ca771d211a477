/**
 * The Cucumber world a cashier scenario runs in: the browser handles and
 * the test data the steps store between them.
 */
module World {
  import opened Wrappers

  class CashierWorld {
    /** Whether the browser, its context and its page are open. */
    var browser: bool
    var context: bool
    var page: bool
    var authToken: Option<string>
    var categoryId: Option<int>
    var categoryName: Option<string>
    var productId: Option<int>
    var productName: Option<string>
    var orderCode: Option<string>

    /** A fresh world: no browser and no test data. */
    constructor ()
      ensures !browser && !context && !page
      ensures authToken.None? && categoryId.None? && categoryName.None?
      ensures productId.None? && productName.None? && orderCode.None?
    {
      browser := false;
      context := false;
      page := false;
      authToken := None;
      categoryId := None;
      categoryName := None;
      productId := None;
      productName := None;
      orderCode := None;
    }

    /** `init`: launch the browser, open a context and a page. The test data is left as it is. */
    method Init()
      modifies this
      ensures browser && context && page
      ensures authToken == old(authToken) && categoryId == old(categoryId) && categoryName == old(categoryName)
      ensures productId == old(productId) && productName == old(productName) && orderCode == old(orderCode)
    {
      browser := true;
      context := true;
      page := true;
    }

    /**
     * `cleanup`: close whichever of the page, the context and the browser is
     * open. The source closes the handles but leaves the fields set; here a
     * flag stands for "defined and open", so a closed handle reads as unset.
     * Nothing after `cleanup` reads these fields.
     */
    method Cleanup()
      modifies this
      ensures !browser && !context && !page
      ensures authToken == old(authToken) && categoryId == old(categoryId) && categoryName == old(categoryName)
      ensures productId == old(productId) && productName == old(productName) && orderCode == old(orderCode)
    {
      if page { page := false; }
      if context { context := false; }
      if browser { browser := false; }
    }
  }
}
