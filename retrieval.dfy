/**
 * retrieveEntities: list the local order ids changed since the cursor, fetch
 * and store every order the retrieval filter lets through, and advance the
 * cursor to the listing's new since id. Any failure leaves the cursor where it
 * was; orders stored before the failure stay stored.
 */
module Retrieval {

  import opened Base
  import opened Statuses
  import opened Payload
  import opened Entities
  import opened Reconciler

  /**
   * The answer of getOrderIdsSinceResult: its localOrderIds and newSinceId
   * entries when they are set, and how many other entries it has.
   */
  datatype Listing = Listing(localOrderIds: Option<seq<string>>, newSinceId: Option<int>, otherKeys: nat)

  /**
   * The REST client, as the answers it gives: the listing for each cursor and
   * the order details for each local order id. A call without an answer fails.
   */
  datatype RestApi = RestApi(listings: map<int, Listing>, details: map<string, OrderData>)

  /** count($results): the number of entries of the listing. */
  function ResultCount(l: Listing): nat {
    (if l.localOrderIds.Some? then 1 else 0) + (if l.newSinceId.Some? then 1 else 0) + l.otherKeys
  }

  /** The store after a run over order ids, and the failure that stopped it, if any. */
  datatype Outcome = Outcome(store: EntityStore, error: Option<Error>)

  /**
   * The loop over the listed ids: fetch each order's details (a failed call
   * stops the loop), skip the orders the retrieval filter rejects and store
   * the others (a failing storeOrderData stops the loop).
   */
  function StoreAll(st: EntityStore, details: map<string, OrderData>, ids: seq<string>, sinceId: int): (r: Outcome)
    ensures r.error.None? ==> forall k :: 0 <= k < |ids| ==> ids[k] in details
  {
    if ids == [] then Outcome(st, None)
    else
      var previous := StoreAll(st, details, ids[..|ids| - 1], sinceId);
      var id := ids[|ids| - 1];
      if previous.error.Some? then previous
      else if id !in details then Outcome(previous.store, Some(RestFailure(id)))
      else if !IsOrderToBeRetrieved(details[id].status, sinceId) then previous
      else match StoreOrder(previous.store, details[id])
        case Err(e) => Outcome(previous.store, Some(e))
        case Ok(s) => Outcome(s, None)
  }

  /** The state retrieveEntities leaves: the store, the cursor, and the result count or the failure. */
  datatype Retrieval = Retrieval(store: EntityStore, sinceId: int, result: Result<nat>)

  /**
   * retrieveEntities: without a REST client nothing happens and the sync
   * fails; a failed listing, a listing without localOrderIds and a failure
   * while storing fail it too, with the cursor unchanged. Otherwise the cursor
   * moves to the listing's newSinceId (or stays) and the result is the number
   * of the listing's entries.
   */
  function Retrieve(st: EntityStore, sinceId: int, api: Option<RestApi>): (r: Retrieval)
    ensures api.None? ==> r == Retrieval(st, sinceId, Err(NoApi))
    ensures api.Some? && sinceId !in api.value.listings ==> r == Retrieval(st, sinceId, Err(ListingFailure))
    ensures api.Some? && sinceId in api.value.listings && api.value.listings[sinceId].localOrderIds.None? ==>
      r == Retrieval(st, sinceId, Err(MissingLocalOrderIds))
    // the cursor moves only on success, and then to newSinceId when the listing has one
    ensures r.result.Err? ==> r.sinceId == sinceId
    ensures r.result.Ok? ==> (api.Some? && sinceId in api.value.listings
      && r.sinceId == api.value.listings[sinceId].newSinceId.GetOr(sinceId)
      && r.result.value == ResultCount(api.value.listings[sinceId]))
  {
    match api
    case None => Retrieval(st, sinceId, Err(NoApi))
    case Some(rest) =>
      if sinceId !in rest.listings then Retrieval(st, sinceId, Err(ListingFailure))
      else
        var listing := rest.listings[sinceId];
        match listing.localOrderIds
        case None => Retrieval(st, sinceId, Err(MissingLocalOrderIds))
        case Some(ids) =>
          var outcome := StoreAll(st, rest.details, ids, sinceId);
          if outcome.error.Some? then Retrieval(outcome.store, sinceId, Err(outcome.error.value))
          else Retrieval(outcome.store, listing.newSinceId.GetOr(sinceId), Ok(ResultCount(listing)))
  }

  // ------------------------------------------------------------ properties

  /** storeOrderData keeps every order and every link, and links the stored order's local id. */
  lemma StoreOrderGrows(st: EntityStore, p: OrderData)
    requires StoreOrder(st, p).Ok?
    ensures st.orders.Keys <= StoreOrder(st, p).value.orders.Keys
    ensures StoreOrder(st, p).value.orderLinks.Keys == st.orderLinks.Keys + {p.orderId}
  {
    var r := StoreOrder(st, p).value;
    StoreOrderOrders(st, p);
    StoreOrderLinkMap(st, p);
    assert r.orderLinks == st.orderLinks[p.orderId := TargetOrder(st, p)];
  }

  /**
   * A failure of the loop names a listed id whose details are missing, or is
   * storeOrderData's missing address name for the local order id of a listed order.
   */
  lemma {:induction false} StoreAllFailure(st: EntityStore, details: map<string, OrderData>, ids: seq<string>, sinceId: int)
    requires StoreAll(st, details, ids, sinceId).error.Some?
    ensures var e := StoreAll(st, details, ids, sinceId).error.value;
      || (e.RestFailure? && e.localOrderId in ids && e.localOrderId !in details)
      || (e.NoAddressName? && exists k :: 0 <= k < |ids| && ids[k] in details && details[ids[k]].orderId == e.orderRef)
    decreases |ids|
  {
    var front := ids[..|ids| - 1];
    var previous := StoreAll(st, details, front, sinceId);
    var id := ids[|ids| - 1];
    if previous.error.Some? {
      StoreAllFailure(st, details, front, sinceId);
      var e := previous.error.value;
      if e.NoAddressName? {
        var k :| 0 <= k < |front| && front[k] in details && details[front[k]].orderId == e.orderRef;
        assert ids[k] == front[k];
      }
    } else if id in details {
      StoreOrderFails(previous.store, details[id]);
    }
  }

  /** Once the loop has failed, the remaining ids change nothing: the failure and the store stay. */
  lemma {:induction false} StoreAllStops(st: EntityStore, details: map<string, OrderData>, ids: seq<string>, sinceId: int,
                                         i: nat)
    requires i <= |ids| && StoreAll(st, details, ids[..i], sinceId).error.Some?
    ensures StoreAll(st, details, ids, sinceId) == StoreAll(st, details, ids[..i], sinceId)
    decreases |ids| - i
  {
    if i < |ids| {
      var front := ids[..|ids| - 1];
      assert front[..i] == ids[..i];
      StoreAllStops(st, details, front, sinceId, i);
    } else {
      assert ids[..i] == ids;
    }
  }

  /** The loop loses no order and no link: the store only grows. */
  lemma {:induction false} StoreAllGrows(st: EntityStore, details: map<string, OrderData>, ids: seq<string>, sinceId: int)
    ensures st.orders.Keys <= StoreAll(st, details, ids, sinceId).store.orders.Keys
    ensures st.orderLinks.Keys <= StoreAll(st, details, ids, sinceId).store.orderLinks.Keys
    decreases |ids|
  {
    if ids != [] {
      var previous := StoreAll(st, details, ids[..|ids| - 1], sinceId);
      StoreAllGrows(st, details, ids[..|ids| - 1], sinceId);
      var id := ids[|ids| - 1];
      if previous.error.None? && id in details && IsOrderToBeRetrieved(details[id].status, sinceId)
        && StoreOrder(previous.store, details[id]).Ok? {
        StoreOrderGrows(previous.store, details[id]);
      }
    }
  }

  /**
   * One more id after a run without failure keeps every link and, when the
   * filter lets its order through, links the order's local id.
   */
  lemma StoreAllLast(st: EntityStore, details: map<string, OrderData>, ids: seq<string>, sinceId: int)
    requires ids != [] && StoreAll(st, details, ids, sinceId).error.None?
    ensures StoreAll(st, details, ids[..|ids| - 1], sinceId).error.None? && ids[|ids| - 1] in details
    ensures StoreAll(st, details, ids[..|ids| - 1], sinceId).store.orderLinks.Keys
      <= StoreAll(st, details, ids, sinceId).store.orderLinks.Keys
    ensures IsOrderToBeRetrieved(details[ids[|ids| - 1]].status, sinceId) ==>
      details[ids[|ids| - 1]].orderId in StoreAll(st, details, ids, sinceId).store.orderLinks
  {
    var previous := StoreAll(st, details, ids[..|ids| - 1], sinceId);
    var id := ids[|ids| - 1];
    if IsOrderToBeRetrieved(details[id].status, sinceId) {
      StoreOrderGrows(previous.store, details[id]);
    }
  }

  /**
   * After a loop without failure, every listed order the retrieval filter
   * lets through has its local order id linked.
   */
  lemma {:induction false} StoreAllLinks(st: EntityStore, details: map<string, OrderData>, ids: seq<string>, sinceId: int,
                                         k: nat)
    requires StoreAll(st, details, ids, sinceId).error.None?
    requires k < |ids| && IsOrderToBeRetrieved(details[ids[k]].status, sinceId)
    ensures details[ids[k]].orderId in StoreAll(st, details, ids, sinceId).store.orderLinks
    decreases |ids|
  {
    StoreAllLast(st, details, ids, sinceId);
    if k < |ids| - 1 {
      var front := ids[..|ids| - 1];
      assert ids[k] == front[k];
      StoreAllLinks(st, details, front, sinceId, k);
    }
  }

  /** A listing of orders the filter rejects leaves the store as it is. */
  lemma {:induction false} StoreAllSkipsFiltered(st: EntityStore, details: map<string, OrderData>, ids: seq<string>, sinceId: int)
    requires forall k :: 0 <= k < |ids| ==> ids[k] in details && !IsOrderToBeRetrieved(details[ids[k]].status, sinceId)
    ensures StoreAll(st, details, ids, sinceId) == Outcome(st, None)
    decreases |ids|
  {
    if ids != [] {
      var front := ids[..|ids| - 1];
      assert forall k :: 0 <= k < |front| ==> front[k] == ids[k];
      StoreAllSkipsFiltered(st, details, front, sinceId);
    }
  }

  /**
   * On the first sync (cursor 1) a listing of shipped, completed, closed and
   * partially shipped orders stores nothing; the cursor still advances.
   */
  lemma FirstSyncSkipsFinishedOrders(st: EntityStore, rest: RestApi)
    requires 1 in rest.listings && rest.listings[1].localOrderIds.Some?
    requires var ids := rest.listings[1].localOrderIds.value;
      forall k :: 0 <= k < |ids| ==> (ids[k] in rest.details
        && rest.details[ids[k]].status in {Some(Shipped), Some(Completed), Some(Closed), Some(PartiallyShipped)})
    ensures Retrieve(st, 1, Some(rest))
      == Retrieval(st, rest.listings[1].newSinceId.GetOr(1), Ok(ResultCount(rest.listings[1])))
  {
    var ids := rest.listings[1].localOrderIds.value;
    StoreAllSkipsFiltered(st, rest.details, ids, 1);
  }

  /** Orders stored before a failure stay stored: a failed sync keeps the orders and links it had made. */
  lemma RetrieveKeeps(st: EntityStore, sinceId: int, api: Option<RestApi>)
    ensures st.orders.Keys <= Retrieve(st, sinceId, api).store.orders.Keys
    ensures st.orderLinks.Keys <= Retrieve(st, sinceId, api).store.orderLinks.Keys
  {
    if api.Some? && sinceId in api.value.listings && api.value.listings[sinceId].localOrderIds.Some? {
      StoreAllGrows(st, api.value.details, api.value.listings[sinceId].localOrderIds.value, sinceId);
    }
  }

  /**
   * A successful sync has stored every listed order the filter lets through:
   * its local order id is linked afterwards.
   */
  lemma RetrieveLinks(st: EntityStore, sinceId: int, rest: RestApi, k: nat)
    requires Retrieve(st, sinceId, Some(rest)).result.Ok?
    requires sinceId in rest.listings && rest.listings[sinceId].localOrderIds.Some?
    requires var ids := rest.listings[sinceId].localOrderIds.value;
      k < |ids| && ids[k] in rest.details && IsOrderToBeRetrieved(rest.details[ids[k]].status, sinceId)
    ensures var ids := rest.listings[sinceId].localOrderIds.value;
      rest.details[ids[k]].orderId in Retrieve(st, sinceId, Some(rest)).store.orderLinks
  {
    StoreAllLinks(st, rest.details, rest.listings[sinceId].localOrderIds.value, sinceId, k);
  }
}
