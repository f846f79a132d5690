/**
 * Marketplace order statuses, the status classes the gateway works with, the
 * retrieval filter, and the small pure lookups of the gateway (order unique
 * id, store id choice, shipping method, total codes).
 */
module Statuses {

  import opened Base
  import opened PhpStrings

  const Paid := "paid"
  const PartiallyShipped := "partially_shipped"
  const Shipped := "shipped"
  const Completed := "completed"
  const Closed := "closed"
  const WaitForDelivery := "wait_seller_delivery"
  const WaitForGoods := "wait_seller_send_goods"

  /** Statuses in which the order may be shipped (and pre-transit stock is held). */
  const ShippableStatuses: seq<string> := [Paid, PartiallyShipped, WaitForDelivery, WaitForGoods]
  /** Statuses whose orders are never imported. */
  const ExcludeStatuses: seq<string> := [Shipped, Completed, Closed]
  /** Statuses whose orders are not imported by the very first sync (cursor 1). */
  const InitialExcludeStatuses: seq<string> := [PartiallyShipped, Shipped, Completed, Closed]

  const OrderUniquePrefix := "MMS-"
  const PaymentCode := "mmspay"
  const FallbackSku := "<undefined on mms>"
  const BundleSkuSeparator := "**"

  /**
   * in_array($status, $list): a missing status (NULL) equals no listed status,
   * since every listed status is a non-empty, non-numeric string.
   */
  predicate InList(status: Option<string>, list: seq<string>) {
    status.Some? && status.value in list
  }

  predicate IsShippableOrderStatus(status: Option<string>) {
    InList(status, ShippableStatuses)
  }

  predicate HasOrderStatusClosed(status: Option<string>) {
    status == Some(Closed)
  }

  /**
   * PHP's loose `==` between two statuses: equal strings, or both null-like
   * (NULL equals "").
   */
  predicate SameStatus(a: Option<string>, b: Option<string>) {
    Text(a) == Text(b)
  }

  /**
   * isOrderToBeRetrieved: skip excluded statuses always, and the initially
   * excluded ones on the first sync (cursor 1); a missing status is retrieved.
   */
  function IsOrderToBeRetrieved(status: Option<string>, sinceId: int): (retrieve: bool)
    ensures status == Some("shipped") || status == Some("completed") || status == Some("closed") ==> !retrieve
    ensures sinceId == 1 && status == Some("partially_shipped") ==> !retrieve
    ensures sinceId != 1 && status == Some("partially_shipped") ==> retrieve
    ensures status.None? ==> retrieve
    ensures status.Some? && status.value !in {"shipped", "completed", "closed", "partially_shipped"} ==> retrieve
  {
    if InList(status, ExcludeStatuses) then false
    else if sinceId == 1 && InList(status, InitialExcludeStatuses) then false
    else true
  }

  /** getUniqueIdFromOrderData: the prefix followed by the marketplace order reference. */
  function UniqueIdFromReference(reference: string): string {
    OrderUniquePrefix + reference
  }

  /** isMmsOrder: strpos($uniqueId, 'MMS-') === 0. */
  predicate IsMmsOrder(uniqueId: string) {
    FindFrom(uniqueId, OrderUniquePrefix, 0) == Some(0)
  }

  /**
   * Every unique id the gateway builds is an MMS order id, and distinct
   * references give distinct unique ids.
   */
  lemma UniqueIdIsMms(reference: string, other: string)
    ensures IsMmsOrder(UniqueIdFromReference(reference))
    ensures UniqueIdFromReference(reference) == UniqueIdFromReference(other) ==> reference == other
  {
    var u := UniqueIdFromReference(reference);
    assert OccursAt(u, OrderUniquePrefix, 0) by {
      assert u[0..4] == OrderUniquePrefix;
    }
    if u == UniqueIdFromReference(other) {
      assert reference == u[4..] == other;
    }
  }

  /** isMmsOrder holds exactly for ids that start with the prefix. */
  lemma IsMmsOrderMeansPrefix(uniqueId: string)
    ensures IsMmsOrder(uniqueId) <==> |uniqueId| >= 4 && uniqueId[..4] == OrderUniquePrefix
  {
    if |uniqueId| >= 4 && uniqueId[..4] == OrderUniquePrefix {
      assert OccursAt(uniqueId, OrderUniquePrefix, 0);
    }
  }

  /** The argument of getEntityStoreId: an order, a store id, or anything else. */
  datatype StoreArgument = OrderArgument(orderStoreId: int) | StoreIdArgument(storeId: int) | OtherArgument

  /** getEntityStoreId: 0 for global entities, else the store id of the argument, else NULL. */
  function EntityStoreId(arg: StoreArgument, global: bool): (storeId: Option<int>)
    ensures global ==> storeId == Some(0)
    ensures !global ==> (storeId.None? <==> arg.OtherArgument?)
    ensures !global && arg.OrderArgument? ==> storeId == Some(arg.orderStoreId)
    ensures !global && arg.StoreIdArgument? ==> storeId == Some(arg.storeId)
  {
    if global then Some(0)
    else match arg
      case StoreIdArgument(id) => Some(id)
      case OrderArgument(id) => Some(id)
      case OtherArgument => None
  }

  /** The marketplace shipping types with a known shipping method. */
  const ShippingMap: map<string, string> := map["direct_mail" := "int_ems_china_3-8_tracked"]

  /** getShippingMethod: the mapped method of the item's shipping type, or NULL. */
  function MappedShippingMethod(shippingType: Option<string>): (shipping: Option<string>)
    ensures shipping.Some? <==> shippingType == Some("direct_mail")
    ensures shipping.Some? ==> shipping.value == "int_ems_china_3-8_tracked"
  {
    if shippingType.Some? && shippingType.value in ShippingMap then Some(ShippingMap[shippingType.value])
    else None
  }
}
