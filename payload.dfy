/**
 * The order payload the marketplace REST API returns for one order, reduced to
 * the fields the gateway reads. A field that is missing or NULL in the payload
 * is `None`. The store id is the one getStoreIdFromMarketPlaceId derives from
 * the payload's marketplace_id.
 */
module Payload {

  import opened Base

  /** One entry of the payload's `addresses` list: the keys that are set, with their values. */
  type AddressData = map<string, string>

  /**
   * The `item` entry of an order item. `elements` stands for the values found
   * under `item` when the aggregator iterates over it: each is the map of
   * `local_order_item_financials` fields that element carries.
   */
  datatype ItemInfo = ItemInfo(
    itemId: Option<string>,        // item_id: the local product id
    variationId: Option<string>,   // variation_id: the local stock item id
    masterSku: Option<string>,
    sku: Option<string>,
    weight: Option<real>,
    elements: seq<map<string, real>>)

  /** One entry of the payload's `order_items` list. */
  datatype OrderItemData = OrderItemData(
    orderItemId: Option<string>,        // order_item_id: the local order item id
    quantity: Option<real>,
    name: Option<string>,
    shippingType: Option<string>,
    financials: map<string, real>,      // the order item's own local_order_item_financials
    item: Option<ItemInfo>)

  /**
   * The order payload. `placedAt` is `created_at` converted to the entity
   * service's date format, which happens outside the model.
   */
  datatype OrderData = OrderData(
    orderId: string,                    // order_id: the local order id
    reference: string,                  // marketplace_order_reference
    status: Option<string>,
    placedAt: string,
    addresses: Option<seq<AddressData>>,
    orderItems: Option<seq<OrderItemData>>,
    rateApplied: Option<real>,          // marketplace_to_local_exchange_rate_applied
    rateEstimated: Option<real>,        // marketplace_to_local_exchange_rate_estimated
    storeId: int)                       // the entity store named by marketplace_id

  /** The order items createItems walks over (none when the key is missing). */
  function Items(p: OrderData): seq<OrderItemData> {
    p.orderItems.GetOr([])
  }

  /** The SKU an order item names: master_sku, else sku, else none. */
  function ItemSku(it: OrderItemData): Option<string> {
    if it.item.Some? && it.item.value.masterSku.Some? then it.item.value.masterSku
    else if it.item.Some? then it.item.value.sku
    else None
  }
}
