/**
 * The Cucumber hooks around every scenario: `Before` opens the browser;
 * `After` deletes the scenario's test product and category if either id is
 * set, then closes the browser whatever happened.
 */
module Hooks {
  import opened Wrappers
  import opened Api
  import opened World
  import opened CashierSteps

  /** What the `After` hook does, in order. */
  datatype HookEvent = Sent(request: Request) | BrowserClosed

  /** The requests of a data cleanup as hook events, in order. */
  function SentEvents(sent: seq<Request>): (r: seq<HookEvent>)
    ensures |r| == |sent|
    ensures forall i | 0 <= i < |r| :: r[i] == Sent(sent[i])
  {
    seq(|sent|, i requires 0 <= i < |sent| => Sent(sent[i]))
  }

  /** `Before`: initialise the world (open the browser) before any step. */
  method Before(world: CashierWorld)
    modifies world
    ensures world.browser && world.context && world.page
    ensures world.productId == old(world.productId) && world.categoryId == old(world.categoryId)
    ensures world.authToken == old(world.authToken)
    ensures world.categoryName == old(world.categoryName) && world.productName == old(world.productName)
    ensures world.orderCode == old(world.orderCode)
  {
    world.Init();
  }

  /**
   * The outer guard of `After` (`productId || categoryId`) changes nothing:
   * with neither id set the shared deletions send nothing and warn of
   * nothing, just as skipping them does.
   */
  lemma OuterGuardRedundant(productId: Option<int>, categoryId: Option<int>, deleteThrows: Request -> bool)
    ensures !(TruthyNumber(productId) || TruthyNumber(categoryId)) ==>
      GuardedDeletions(productId, categoryId, deleteThrows) == DataCleanup([], false)
  {
  }

  /**
   * `After`: the guarded data cleanup (its error caught and logged), then
   * the browser cleanup in every case. The data cleanup is the one the
   * cleanup step performs, and no world data is changed.
   */
  method After(world: CashierWorld, deleteThrows: Request -> bool) returns (cleanup: DataCleanup, events: seq<HookEvent>)
    modifies world
    ensures cleanup == GuardedDeletions(old(world.productId), old(world.categoryId), deleteThrows)
    ensures events == SentEvents(cleanup.sent) + [BrowserClosed]
    ensures !world.browser && !world.context && !world.page
    ensures world.productId == old(world.productId) && world.categoryId == old(world.categoryId)
    ensures world.authToken == old(world.authToken)
    ensures world.categoryName == old(world.categoryName) && world.productName == old(world.productName)
    ensures world.orderCode == old(world.orderCode)
  {
    OuterGuardRedundant(world.productId, world.categoryId, deleteThrows);
    if TruthyNumber(world.productId) || TruthyNumber(world.categoryId) {
      cleanup := DeleteTestData(world.productId, world.categoryId, deleteThrows);
    } else {
      cleanup := DataCleanup([], false);
    }
    world.Cleanup();
    events := SentEvents(cleanup.sent) + [BrowserClosed];
  }

  /**
   * The browser is closed last and once: every event of `After` before the
   * last one is a request the data cleanup sent.
   */
  lemma BrowserClosedLast(cleanup: DataCleanup)
    ensures var events := SentEvents(cleanup.sent) + [BrowserClosed];
      events[|events| - 1] == BrowserClosed &&
      forall i | 0 <= i < |events| - 1 :: events[i].Sent? && events[i].request in cleanup.sent
  {
    var events := SentEvents(cleanup.sent) + [BrowserClosed];
    forall i | 0 <= i < |events| - 1
      ensures events[i].Sent? && events[i].request in cleanup.sent
    {
      assert events[i] == SentEvents(cleanup.sent)[i];
    }
  }

  /**
   * A scenario that ends with the cleanup step: the step deletes the test
   * data but leaves the ids set, so `After` sends the very same deletions
   * again. Both runs are given the same `deleteThrows`, so this holds when
   * each deletion fails in the hook exactly when it failed in the step.
   */
  method CleanupStepThenAfter(world: CashierWorld, deleteThrows: Request -> bool)
    returns (stepCleanup: DataCleanup, hookCleanup: DataCleanup)
    modifies world
    ensures stepCleanup == GuardedDeletions(old(world.productId), old(world.categoryId), deleteThrows)
    ensures hookCleanup == stepCleanup
    ensures TruthyNumber(old(world.productId)) ==> hookCleanup.sent[0] == DeleteProduct(old(world.productId))
    ensures !world.browser && !world.context && !world.page
    ensures world.productId == old(world.productId) && world.categoryId == old(world.categoryId)
  {
    stepCleanup := CleanupStep(world, deleteThrows);
    var events;
    hookCleanup, events := After(world, deleteThrows);
  }
}
