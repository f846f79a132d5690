/**
 * The part of the entity service the order gateway reads and writes, as one
 * value: the node's orders, their local-id links, order items, products,
 * stock items, addresses, customers and order comments. Every map is keyed by
 * the entity's unique id within the store the gateway uses for it.
 */
module Entities {

  import opened Base
  import opened Statuses
  import opened Addresses

  /**
   * An order: its store, its attributes, the unique id of the original order
   * its family (getAllOrders) hangs on, and the unique ids of its order items.
   */
  datatype OrderEntity = OrderEntity(storeId: int, attrs: map<Attr, Value>, family: string, items: seq<string>)

  /** The attributes createItems gives an order item. */
  datatype ItemFields = ItemFields(
    product: Value,
    sku: string,
    productName: string,
    quantity: real,
    itemPrice: real,
    totalPrice: real,
    totalTax: real,
    totalDiscount: real,
    weight: real,
    itemTax: real,
    itemDiscount: real)

  /** An order item: the unique id of its parent order, its store, its local id and its attributes. */
  datatype OrderItemEntity = OrderItemEntity(order: string, storeId: int, localId: Option<string>, fields: ItemFields)

  /** A stock item: its numeric attributes (a missing one reads as 0) and its local id link. */
  datatype StockItem = StockItem(attrs: map<string, real>, localId: Option<string>)

  /** An address entity as createAddressEntity fills it. */
  datatype AddressEntity = AddressEntity(
    name: NameArray,
    company: Option<string>,
    street: Option<string>,
    region: Option<string>,
    city: Option<string>,
    postcode: Option<string>,
    countryCode: Option<string>,
    telephone: Option<string>)

  /** A customer entity as createCustomerEntity fills it. */
  datatype CustomerEntity = CustomerEntity(name: NameArray, customerType: string)

  /** An order comment: the order's unique id, the comment's source, title and text. */
  datatype Comment = Comment(order: string, source: string, title: string, body: string)

  datatype EntityStore = EntityStore(
    orders: map<string, OrderEntity>,           // by unique id
    orderLinks: map<string, string>,            // local order id -> order unique id
    orderItems: map<string, OrderItemEntity>,   // by unique id
    products: map<string, Option<string>>,      // global products by SKU -> linked local product id
    stock: map<string, StockItem>,              // global stock items by SKU
    addresses: map<string, AddressEntity>,      // by unique id
    customers: map<string, CustomerEntity>,     // by unique id (the e-mail address)
    comments: seq<Comment>)

  /** The status an order's attributes record (getData('status')): a stored string, else NULL. */
  function StatusOf(attrs: map<Attr, Value>): Option<string> {
    if Status in attrs && attrs[Status].Str? then Some(attrs[Status].s) else None
  }

  // ------------------------------------------------------------ stock

  const QtyPreTransit := "qty_pre_transit"
  const Available := "available"

  /** What updateStockQuantities reports: TRUE, FALSE (no stock item) or NULL (status not relevant). */
  datatype StockOutcome = Adjusted | MissingStockItem | WrongStatus

  /**
   * The stock attribute an order status moves: qty_pre_transit while the order
   * is shippable, available once it is closed, none otherwise.
   */
  function StockAttribute(status: Option<string>): (code: Option<string>)
    ensures code == Some(QtyPreTransit) <==> IsShippableOrderStatus(status)
    ensures code == Some(Available) <==> HasOrderStatusClosed(status)
    ensures code.None? <==> !IsShippableOrderStatus(status) && !HasOrderStatusClosed(status)
  {
    if IsShippableOrderStatus(status) then Some(QtyPreTransit)
    else if HasOrderStatusClosed(status) then Some(Available)
    else None
  }

  /** getData($code, 0) on a stock item. */
  function StockLevel(item: StockItem, code: string): real {
    if code in item.attrs then item.attrs[code] else 0.0
  }

  /**
   * updateStockQuantities on the global stock: add the order item's quantity
   * to the attribute its order's status moves, on the stock item with the
   * order item's SKU.
   */
  function AdjustStock(stock: map<string, StockItem>, status: Option<string>, sku: string, quantity: real)
    : (r: (StockOutcome, map<string, StockItem>))
    // NULL exactly for an unrelated status, FALSE exactly for a missing stock item; neither changes stock
    ensures r.0 == WrongStatus <==> !IsShippableOrderStatus(status) && !HasOrderStatusClosed(status)
    ensures r.0 == MissingStockItem <==> (IsShippableOrderStatus(status) || HasOrderStatusClosed(status)) && sku !in stock
    ensures r.0 != Adjusted ==> r.1 == stock
    // otherwise exactly one attribute of exactly one stock item moves, by the quantity
    ensures r.0 == Adjusted ==>
      var code := StockAttribute(status).value;
      r.1.Keys == stock.Keys
      && (forall k :: k in stock && k != sku ==> r.1[k] == stock[k])
      && StockLevel(r.1[sku], code) == StockLevel(stock[sku], code) + quantity
      && (forall c :: c != code ==> StockLevel(r.1[sku], c) == StockLevel(stock[sku], c))
      && r.1[sku].localId == stock[sku].localId
  {
    match StockAttribute(status)
    case None => (WrongStatus, stock)
    case Some(code) =>
      if sku in stock then
        var item := stock[sku];
        (Adjusted, stock[sku := item.(attrs := item.attrs[code := StockLevel(item, code) + quantity])])
      else (MissingStockItem, stock)
  }

  /**
   * Adjustments accumulate instead of being idempotent: two adjustments for the
   * same status and SKU move the stock as one adjustment by the summed quantity.
   */
  lemma AdjustStockAccumulates(stock: map<string, StockItem>, status: Option<string>, sku: string, q1: real, q2: real)
    ensures AdjustStock(AdjustStock(stock, status, sku, q1).1, status, sku, q2)
      == AdjustStock(stock, status, sku, q1 + q2)
  {
    match StockAttribute(status)
    case None =>
    case Some(code) =>
      if sku in stock {
        var item := stock[sku];
        var once := item.(attrs := item.attrs[code := StockLevel(item, code) + q1]);
        assert StockLevel(once, code) == StockLevel(item, code) + q1;
        var twice := once.(attrs := once.attrs[code := StockLevel(once, code) + q2]);
        assert twice == item.(attrs := item.attrs[code := StockLevel(item, code) + (q1 + q2)]);
        assert AdjustStock(stock, status, sku, q1).1 == stock[sku := once];
        assert AdjustStock(stock[sku := once], status, sku, q2).1 == stock[sku := once][sku := twice];
        assert stock[sku := once][sku := twice] == stock[sku := twice];
      }
  }
}
