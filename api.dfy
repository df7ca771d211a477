/**
 * The backend requests the test suite issues, abstracted from URLs, headers
 * and JSON encoding. Fixtures, steps, hooks and the cleanup script record the
 * requests they send as sequences of these values.
 */
module Api {
  import opened Wrappers

  datatype Request =
    | AuthLogin
    | CreateCategory(name: string)
    | CreateProduct(name: string, code: string, categoryId: Option<int>, price: int)
    | ListProducts
    | ListCategories
    | DeleteProduct(productId: Option<int>)
    | DeleteCategory(categoryId: Option<int>)
    | DeleteInvoice(invoiceId: int)

  /** The fields of a created category or product the suite reads back: `Id` and `Name`. */
  datatype Created = Created(id: Option<int>, name: Option<string>)

  /** The base price every test product is created with. */
  const TestProductPrice := 10000
}
