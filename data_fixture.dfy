/**
 * The data fixtures: `category` creates a category and deletes it after the
 * test, `product` creates a product in that category and deletes it, and
 * `invoices` hands the test an empty id ledger and deletes every invoice the
 * test recorded in it. The fixture runner sets fixtures up in dependency
 * order and tears them down in the reverse order.
 */
module DataFixture {
  import opened Wrappers
  import opened Text
  import opened Api

  datatype Fixture = AuthTokenFixture | CategoryFixture | ProductFixture | InvoicesFixture

  /** The fixtures each fixture asks for (besides the built-in request context). */
  function Dependencies(f: Fixture): seq<Fixture> {
    match f
    case AuthTokenFixture => []
    case CategoryFixture => [AuthTokenFixture]
    case ProductFixture => [AuthTokenFixture, CategoryFixture]
    case InvoicesFixture => [AuthTokenFixture]
  }

  /** The body `category` posts: name `category-<Date.now()>`. */
  function CategoryCreation(stamp: nat): (r: Request)
    ensures r.CreateCategory? && StartsWith(r.name, "category-") && Contains(r.name, "category-")
    ensures r.name[|"category-"|..] == NatToString(stamp)
  {
    var name := "category-" + NatToString(stamp);
    assert name[..|"category-"|] == "category-";
    Request.CreateCategory(name)
  }

  /**
   * The body `product` posts: name `product-<Date.now()>`, code
   * `P-<Date.now()>` (a second reading of the clock), the yielded
   * category's id, and the fixed price.
   */
  function ProductCreation(category: Created, nameStamp: nat, codeStamp: nat): (r: Request)
    ensures r.CreateProduct?
    ensures StartsWith(r.name, "product-") && r.name[|"product-"|..] == NatToString(nameStamp)
    ensures StartsWith(r.code, "P-") && r.code[|"P-"|..] == NatToString(codeStamp)
    ensures r.categoryId == category.id
    ensures r.price == TestProductPrice
  {
    var name := "product-" + NatToString(nameStamp);
    var code := "P-" + NatToString(codeStamp);
    assert name[..|"product-"|] == "product-";
    assert code[..|"P-"|] == "P-";
    Request.CreateProduct(name, code, category.id, TestProductPrice)
  }

  /** The category name carries the clock reading it was made from. */
  lemma CategoryNameReadsBack(stamp: nat)
    ensures DecimalValue(CategoryCreation(stamp).name[|"category-"|..]) == stamp
  {
    DecimalValueOfNatToString(stamp);
  }

  /**
   * The `createdIds` array of the `invoices` fixture: the test appends the
   * ids of the invoices it creates; teardown deletes them in order.
   */
  class InvoiceLedger {
    var createdIds: seq<int>

    /** The ledger is handed to the test empty. */
    constructor ()
      ensures createdIds == []
    {
      createdIds := [];
    }

    /** `createdIds.push(id)` in the test body. */
    method Record(id: int)
      modifies this
      ensures createdIds == old(createdIds) + [id]
    {
      createdIds := createdIds + [id];
    }

    /** The teardown loop: one deletion per recorded id, in insertion order. */
    method Teardown() returns (sent: seq<Request>)
      ensures |sent| == |createdIds|
      ensures forall i | 0 <= i < |sent| :: sent[i] == DeleteInvoice(createdIds[i])
    {
      sent := [];
      for i := 0 to |createdIds|
        invariant |sent| == i
        invariant forall j | 0 <= j < i :: sent[j] == DeleteInvoice(createdIds[j])
      {
        sent := sent + [DeleteInvoice(createdIds[i])];
      }
    }
  }

  /** What one run of the fixtures observes from outside. */
  datatype Event = Sent(request: Request) | TestBody

  /** The responses and clock readings one run sees. */
  datatype Environment = Environment(
    categoryStamp: nat,
    productNameStamp: nat,
    productCodeStamp: nat,
    category: Created,
    product: Created)

  function Setup(f: Fixture, env: Environment): seq<Event> {
    match f
    case AuthTokenFixture => [Sent(AuthLogin)]
    case CategoryFixture => [Sent(CategoryCreation(env.categoryStamp))]
    case ProductFixture => [Sent(ProductCreation(env.category, env.productNameStamp, env.productCodeStamp))]
    case InvoicesFixture => []
  }

  function InvoiceDeletions(ids: seq<int>): (r: seq<Event>)
    ensures |r| == |ids|
    ensures forall i | 0 <= i < |r| :: r[i] == Sent(DeleteInvoice(ids[i]))
  {
    seq(|ids|, i requires 0 <= i < |ids| => Sent(DeleteInvoice(ids[i])))
  }

  /** The teardown of a fixture, after the test recorded `ids` in the ledger. */
  function Teardown(f: Fixture, env: Environment, ids: seq<int>): seq<Event> {
    match f
    case AuthTokenFixture => []
    case CategoryFixture => [Sent(DeleteCategory(env.category.id))]
    case ProductFixture => [Sent(DeleteProduct(env.product.id))]
    case InvoicesFixture => InvoiceDeletions(ids)
  }

  /** The setups of `order`, one after the other. */
  function SetupTrace(order: seq<Fixture>, env: Environment): seq<Event>
    decreases |order|
  {
    if order == [] then [] else SetupTrace(order[..|order| - 1], env) + Setup(order[|order| - 1], env)
  }

  /** The teardowns of `order`, last fixture first. */
  function TeardownTrace(order: seq<Fixture>, env: Environment, ids: seq<int>): seq<Event>
    decreases |order|
  {
    if order == [] then [] else TeardownTrace(order[1..], env, ids) + Teardown(order[0], env, ids)
  }

  /** A setup order the runner may use: each fixture once, after the fixtures it asks for. */
  predicate ValidSetupOrder(order: seq<Fixture>) {
    (forall i, j | 0 <= i < j < |order| :: order[i] != order[j]) &&
    (forall i | 0 <= i < |order| :: forall d | d in Dependencies(order[i]) :: d in order[..i])
  }

  function Reverse<T>(xs: seq<T>): (r: seq<T>)
    ensures |r| == |xs|
    ensures forall i | 0 <= i < |xs| :: r[i] == xs[|xs| - 1 - i]
    decreases |xs|
  {
    if xs == [] then [] else [xs[|xs| - 1]] + Reverse(xs[..|xs| - 1])
  }

  /**
   * Under the runner's stack discipline the category is set up before the
   * product that asks for it, and the product is torn down before the
   * category.
   */
  lemma ProductInsideCategory(order: seq<Fixture>, p: nat) returns (c: nat)
    requires ValidSetupOrder(order) && p < |order| && order[p] == ProductFixture
    ensures c < p && order[c] == CategoryFixture
    ensures Reverse(order)[|order| - 1 - p] == ProductFixture
    ensures Reverse(order)[|order| - 1 - c] == CategoryFixture
    ensures |order| - 1 - p < |order| - 1 - c
  {
    assert CategoryFixture in Dependencies(order[p]);
    assert CategoryFixture in order[..p];
    c :| 0 <= c < p && order[..p][c] == CategoryFixture;
  }

  lemma {:induction false} SetupTraceAppend(a: seq<Fixture>, b: seq<Fixture>, env: Environment)
    ensures SetupTrace(a + b, env) == SetupTrace(a, env) + SetupTrace(b, env)
    decreases |b|
  {
    if b == [] {
      assert a + b == a;
    } else {
      assert (a + b)[..|a + b| - 1] == a + b[..|b| - 1];
      assert (a + b)[|a + b| - 1] == b[|b| - 1];
      SetupTraceAppend(a, b[..|b| - 1], env);
    }
  }

  lemma {:induction false} TeardownTraceAppend(a: seq<Fixture>, b: seq<Fixture>, env: Environment, ids: seq<int>)
    ensures TeardownTrace(a + b, env, ids) == TeardownTrace(b, env, ids) + TeardownTrace(a, env, ids)
    decreases |a|
  {
    if a == [] {
      assert a + b == b;
    } else {
      assert (a + b)[1..] == a[1..] + b;
      assert (a + b)[0] == a[0];
      TeardownTraceAppend(a[1..], b, env, ids);
    }
  }

  /** In the setup phase the category is created before the product. */
  lemma CategoryCreatedFirst(order: seq<Fixture>, env: Environment, p: nat) returns (k1: nat, k2: nat)
    requires ValidSetupOrder(order) && p < |order| && order[p] == ProductFixture
    ensures k1 < k2 < |SetupTrace(order, env)|
    ensures SetupTrace(order, env)[k1] == Sent(CategoryCreation(env.categoryStamp))
    ensures SetupTrace(order, env)[k2] == Sent(ProductCreation(env.category, env.productNameStamp, env.productCodeStamp))
  {
    var c := ProductInsideCategory(order, p);
    k1, k2 := SetupPositions(order, env, c, p);
  }

  /** The setups of a prefix of `order`, split at `i`. */
  lemma SetupTracePrefix(order: seq<Fixture>, env: Environment, i: nat, j: nat)
    requires i <= j <= |order|
    ensures SetupTrace(order[..j], env) == SetupTrace(order[..i], env) + SetupTrace(order[i..j], env)
  {
    assert order[..j] == order[..i] + order[i..j];
    SetupTraceAppend(order[..i], order[i..j], env);
  }

  /** The setup of the fixture at position `i`, where it comes in the setup trace. */
  lemma SetupEventAt(order: seq<Fixture>, env: Environment, i: nat, e: Event) returns (k: nat)
    requires i < |order| && Setup(order[i], env) == [e]
    ensures k == |SetupTrace(order[..i], env)| && k < |SetupTrace(order, env)|
    ensures SetupTrace(order, env)[k] == e
  {
    var upTo := order[..i + 1];
    assert upTo[..i] == order[..i];
    assert SetupTrace(upTo, env) == SetupTrace(order[..i], env) + [e];
    SetupTracePrefix(order, env, i + 1, |order|);
    assert order[..|order|] == order;
    k := |SetupTrace(order[..i], env)|;
    assert SetupTrace(order, env) == (SetupTrace(order[..i], env) + [e]) + SetupTrace(order[i + 1..], env);
  }

  /** The setups of a category at position `c` and a product at position `p > c`, in the setup trace. */
  lemma SetupPositions(order: seq<Fixture>, env: Environment, c: nat, p: nat) returns (k1: nat, k2: nat)
    requires c < p < |order| && order[c] == CategoryFixture && order[p] == ProductFixture
    ensures k1 < k2 < |SetupTrace(order, env)|
    ensures SetupTrace(order, env)[k1] == Sent(CategoryCreation(env.categoryStamp))
    ensures SetupTrace(order, env)[k2] == Sent(ProductCreation(env.category, env.productNameStamp, env.productCodeStamp))
  {
    k1 := SetupEventAt(order, env, c, Sent(CategoryCreation(env.categoryStamp)));
    k2 := SetupEventAt(order, env, p, Sent(ProductCreation(env.category, env.productNameStamp, env.productCodeStamp)));
    SetupTracePrefix(order, env, c, p);
    assert order[c..p][..1] == [CategoryFixture];
    SetupTracePrefix(order[c..p], env, 1, p - c);
    assert order[c..p][..p - c] == order[c..p];
    assert SetupTrace([CategoryFixture], env) == [Sent(CategoryCreation(env.categoryStamp))] by {
      assert [CategoryFixture][..0] == [];
    }
  }

  /** In the teardown phase the product is deleted before the category. */
  lemma ProductDeletedFirst(order: seq<Fixture>, env: Environment, ids: seq<int>, p: nat) returns (k1: nat, k2: nat)
    requires ValidSetupOrder(order) && p < |order| && order[p] == ProductFixture
    ensures k1 < k2 < |TeardownTrace(order, env, ids)|
    ensures TeardownTrace(order, env, ids)[k1] == Sent(DeleteProduct(env.product.id))
    ensures TeardownTrace(order, env, ids)[k2] == Sent(DeleteCategory(env.category.id))
  {
    var c := ProductInsideCategory(order, p);
    k1, k2 := TeardownPositions(order, env, ids, c, p);
  }

  /** The teardowns of a category at position `c` and a product at position `p > c`, in the teardown trace. */
  lemma TeardownPositions(order: seq<Fixture>, env: Environment, ids: seq<int>, c: nat, p: nat) returns (k1: nat, k2: nat)
    requires c < p < |order| && order[c] == CategoryFixture && order[p] == ProductFixture
    ensures k1 < k2 < |TeardownTrace(order, env, ids)|
    ensures TeardownTrace(order, env, ids)[k1] == Sent(DeleteProduct(env.product.id))
    ensures TeardownTrace(order, env, ids)[k2] == Sent(DeleteCategory(env.category.id))
  {
    var afterP := TeardownTrace(order[p + 1..], env, ids);
    var between := TeardownTrace(order[c + 1..p], env, ids);
    var before := TeardownTrace(order[..c], env, ids);
    assert order[p..][1..] == order[p + 1..];
    assert order[p..][0] == ProductFixture;
    var fromP := afterP + [Sent(DeleteProduct(env.product.id))];
    assert TeardownTrace(order[p..], env, ids) == fromP;
    assert order[c..p][1..] == order[c + 1..p];
    assert order[c..p][0] == CategoryFixture;
    var fromC := between + [Sent(DeleteCategory(env.category.id))];
    assert TeardownTrace(order[c..p], env, ids) == fromC;
    assert order == order[..c] + (order[c..p] + order[p..]);
    TeardownTraceAppend(order[..c], order[c..p] + order[p..], env, ids);
    TeardownTraceAppend(order[c..p], order[p..], env, ids);
    assert TeardownTrace(order, env, ids) == fromP + fromC + before;
    k1 := |afterP|;
    k2 := |fromP| + |between|;
    assert (fromP + fromC + before)[k1] == fromP[k1];
    assert (fromP + fromC + before)[k2] == fromC[|between|];
  }

  /** The order of the data test, which asks for `category` and `product`. */
  lemma DataTestOrder()
    ensures ValidSetupOrder([AuthTokenFixture, CategoryFixture, ProductFixture])
    ensures Reverse([AuthTokenFixture, CategoryFixture, ProductFixture]) == [ProductFixture, CategoryFixture, AuthTokenFixture]
  {
    var order := [AuthTokenFixture, CategoryFixture, ProductFixture];
    assert order[..1] == [AuthTokenFixture];
    assert order[..2] == [AuthTokenFixture, CategoryFixture];
  }

  /** The setup phase: each fixture in `order` in turn; `invoices` creates the ledger. */
  method SetUpAll(order: seq<Fixture>, env: Environment) returns (trace: seq<Event>, ledger: InvoiceLedger?)
    ensures trace == SetupTrace(order, env)
    ensures ledger != null <==> InvoicesFixture in order
    ensures ledger != null ==> fresh(ledger) && ledger.createdIds == []
  {
    trace := [];
    ledger := null;
    for i := 0 to |order|
      invariant trace == SetupTrace(order[..i], env)
      invariant ledger != null <==> InvoicesFixture in order[..i]
      invariant ledger != null ==> fresh(ledger) && ledger.createdIds == []
    {
      assert order[..i + 1][..i] == order[..i];
      if order[i] == InvoicesFixture {
        ledger := new InvoiceLedger();
      }
      trace := trace + Setup(order[i], env);
    }
    assert order[..|order|] == order;
  }

  /** The test body's pushes of the ids of the invoices it creates. */
  method RecordAll(ledger: InvoiceLedger, ids: seq<int>)
    modifies ledger
    ensures ledger.createdIds == old(ledger.createdIds) + ids
  {
    for k := 0 to |ids|
      invariant ledger.createdIds == old(ledger.createdIds) + ids[..k]
    {
      assert ids[..k + 1] == ids[..k] + [ids[k]];
      ledger.Record(ids[k]);
    }
    assert ids[..|ids|] == ids;
  }

  /** The teardown phase: each fixture of `order` in turn, the last one first. */
  method TearDownAll(order: seq<Fixture>, env: Environment, ledger: InvoiceLedger?, ids: seq<int>)
    returns (trace: seq<Event>)
    requires InvoicesFixture in order ==> ledger != null && ledger.createdIds == ids
    ensures trace == TeardownTrace(order, env, ids)
  {
    trace := [];
    var i := |order|;
    while i > 0
      invariant 0 <= i <= |order|
      invariant trace == TeardownTrace(order[i..], env, ids)
      decreases i
    {
      i := i - 1;
      assert order[i..][1..] == order[i + 1..];
      var teardown: seq<Event>;
      if order[i] == InvoicesFixture {
        var deletions := ledger.Teardown();
        teardown := seq(|deletions|, j requires 0 <= j < |deletions| => Sent(deletions[j]));
        assert teardown == InvoiceDeletions(ids);
      } else {
        teardown := Teardown(order[i], env, ids);
      }
      trace := trace + teardown;
    }
    assert order[0..] == order;
  }

  /**
   * One test with fixtures set up in `order`: every setup, then the test
   * body, which records `testIds` in the ledger when it asked for
   * `invoices`, then every teardown in reverse order. Teardown runs whatever
   * the test body did.
   */
  method RunTest(order: seq<Fixture>, env: Environment, testIds: seq<int>) returns (trace: seq<Event>)
    requires ValidSetupOrder(order)
    ensures trace == SetupTrace(order, env) + [TestBody] + TeardownTrace(order, env, testIds)
  {
    var ledger;
    trace, ledger := SetUpAll(order, env);
    trace := trace + [TestBody];
    if ledger != null {
      RecordAll(ledger, testIds);
    }
    var teardown := TearDownAll(order, env, ledger, testIds);
    trace := trace + teardown;
  }
}
