/**
 * createItems: one order item entity per payload order item, linked to its
 * product and stock item, with its amounts scaled by the bundle multiplier,
 * and with the stock moved by updateStockQuantities.
 */
module ItemBuilder {

  import opened Base
  import opened Statuses
  import opened Payload
  import opened BundleSku
  import opened Entities

  /** The SKU an order item is stored under, the SKU it was sold as, and the bundle multiplier. */
  datatype Resolved = Resolved(sku: string, variationSku: string, multiplier: int)

  /**
   * The SKU of one order item: its own SKU split into bundle SKU and multiplier,
   * or the fallback SKU with multiplier 1 when the payload names none.
   */
  function ResolveSku(it: OrderItemData): (r: Resolved)
    ensures r.multiplier >= 1
    ensures r.variationSku == ItemSku(it).GetOr(FallbackSku)
    ensures ItemSku(it).None? ==> r.sku == FallbackSku && r.multiplier == 1
  {
    match ItemSku(it)
    case None => Resolved(FallbackSku, FallbackSku, 1)
    case Some(s) => var b := Decompose(s); Resolved(b.sku, s, b.multiplier)
  }

  /** The order item's unique id: order unique id, SKU and local item id (NULL as ""), joined by "-". */
  function ItemUniqueId(orderUid: string, sku: string, localId: Option<string>): string {
    orderUid + "-" + sku + "-" + Text(localId)
  }

  /**
   * The local id a product or stock item is linked to after createItems: a
   * differing stored link is unlinked first, then the payload's local id is
   * linked when there is one.
   */
  function Relink(stored: Option<string>, local: Option<string>): (linked: Option<string>)
    ensures local.Some? ==> linked == local
    ensures local.None? ==> linked == stored
  {
    var afterUnlink := if stored.Some? && local.Some? && stored != local then None else stored;
    if local.None? && stored.None? then afterUnlink
    else if local.Some? && stored != local then local
    else afterUnlink
  }

  /** The stock item an order item links: the one under the sold SKU, else the one under the stored SKU. */
  function StockTarget(stock: map<string, StockItem>, variationSku: string, sku: string): (t: Option<string>)
    ensures t.Some? <==> variationSku in stock || sku in stock
    ensures t.Some? ==> t.value in stock && (t.value == variationSku || t.value == sku)
    ensures variationSku in stock ==> t == Some(variationSku)
  {
    if variationSku in stock then Some(variationSku)
    else if sku in stock then Some(sku)
    else None
  }

  /** The local product id the payload gives an order item (item.item_id). */
  function LocalProductId(it: OrderItemData): Option<string> {
    if it.item.Some? then it.item.value.itemId else None
  }

  /** The local stock item id the payload gives an order item (item.variation_id). */
  function LocalStockitemId(it: OrderItemData): Option<string> {
    if it.item.Some? then it.item.value.variationId else None
  }

  /**
   * The product and stock links createItems makes; none for the fallback SKU.
   * Otherwise the product under the SKU is relinked to the local product id,
   * and the stock item StockTarget picks to the local stock item id; nothing
   * else changes, and no stock level moves.
   */
  function LinkItem(st: EntityStore, r: Resolved, it: OrderItemData): (linked: EntityStore)
    ensures linked == st.(products := linked.products, stock := linked.stock)
    ensures linked.products.Keys == st.products.Keys && linked.stock.Keys == st.stock.Keys
    ensures r.sku == FallbackSku ==> linked == st
    ensures r.sku != FallbackSku && r.sku in st.products ==>
      linked.products[r.sku] == Relink(st.products[r.sku], LocalProductId(it))
    ensures forall k :: k in st.products && k != r.sku ==> linked.products[k] == st.products[k]
    ensures var t := StockTarget(st.stock, r.variationSku, r.sku);
      r.sku != FallbackSku && t.Some? ==>
        linked.stock[t.value] == st.stock[t.value].(localId := Relink(st.stock[t.value].localId, LocalStockitemId(it)))
    ensures var t := StockTarget(st.stock, r.variationSku, r.sku);
      forall k :: k in st.stock && !(r.sku != FallbackSku && t == Some(k)) ==> linked.stock[k] == st.stock[k]
    ensures forall k :: k in st.stock ==> linked.stock[k].attrs == st.stock[k].attrs
  {
    if r.sku == FallbackSku then st
    else
      var products :=
        if r.sku in st.products then st.products[r.sku := Relink(st.products[r.sku], LocalProductId(it))]
        else st.products;
      var stock :=
        match StockTarget(st.stock, r.variationSku, r.sku)
        case Some(t) => st.stock[t := st.stock[t].(localId := Relink(st.stock[t].localId, LocalStockitemId(it)))]
        case None => st.stock;
      st.(products := products, stock := stock)
  }

  /** A financial amount of the item, 0 when missing. */
  function Financial(it: OrderItemData, code: string): real {
    if code in it.financials then it.financials[code] else 0.0
  }

  /**
   * The order item's attributes: the quantity is the ordered quantity times
   * the multiplier, the unit price times the multiplier gives back the price,
   * the totals are the payload's (0 when missing), and the unit tax and
   * discount times the quantity give back the totals (both 0 without a
   * positive quantity).
   */
  function ItemFieldsOf(it: OrderItemData, r: Resolved, product: Value): (f: ItemFields)
    requires r.multiplier >= 1
    ensures f.quantity == it.quantity.GetOr(0.0) * r.multiplier as real
    ensures f.itemPrice * r.multiplier as real == Financial(it, "price")
    ensures f.totalPrice == Financial(it, "payment") && f.totalTax == Financial(it, "tax")
    ensures f.totalDiscount == Financial(it, "discount")
    ensures f.quantity > 0.0 ==> f.itemTax * f.quantity == f.totalTax && f.itemDiscount * f.quantity == f.totalDiscount
    ensures f.quantity <= 0.0 ==> f.itemTax == 0.0 && f.itemDiscount == 0.0
    ensures f.sku == r.sku && f.product == product
  {
    var quantity := it.quantity.GetOr(0.0) * r.multiplier as real;
    var totalTax := Financial(it, "tax");
    var totalDiscount := Financial(it, "discount");
    ItemFields(
      product,
      r.sku,
      Text(it.name),
      quantity,
      if "price" in it.financials then it.financials["price"] / r.multiplier as real else 0.0,
      Financial(it, "payment"),
      totalTax,
      totalDiscount,
      if it.item.Some? && it.item.value.weight.Some? then it.item.value.weight.value else 0.0,
      if quantity > 0.0 then totalTax / quantity else 0.0,
      if quantity > 0.0 then totalDiscount / quantity else 0.0)
  }

  /** Record a new order item on its parent order. */
  function AddItem(orders: map<string, OrderEntity>, orderUid: string, itemUid: string): (r: map<string, OrderEntity>)
    ensures r.Keys == orders.Keys
    ensures forall u :: u in orders && u != orderUid ==> r[u] == orders[u]
    ensures orderUid in orders ==> r[orderUid] == orders[orderUid].(items := orders[orderUid].items + [itemUid])
  {
    if orderUid in orders then orders[orderUid := orders[orderUid].(items := orders[orderUid].items + [itemUid])]
    else orders
  }

  /** The unique id createItems gives an order item of the order. */
  function ItemUid(orderUid: string, it: OrderItemData): string {
    ItemUniqueId(orderUid, ResolveSku(it).sku, it.orderItemId)
  }

  /** The order item entity createItems creates for a payload order item. */
  function ItemEntity(st: EntityStore, orderUid: string, storeId: int, it: OrderItemData): OrderItemEntity {
    var r := ResolveSku(it);
    var product := if r.sku != FallbackSku && r.sku in st.products then Ref("product", r.sku) else Null;
    OrderItemEntity(orderUid, storeId, it.orderItemId, ItemFieldsOf(it, r, product))
  }

  /** Link product and stock item, then create the order item under its order. */
  function NewItem(st: EntityStore, orderUid: string, storeId: int, it: OrderItemData): (s: EntityStore)
    ensures s == st.(products := s.products, stock := s.stock, orders := s.orders, orderItems := s.orderItems)
    ensures s.orderItems == st.orderItems[ItemUid(orderUid, it) := ItemEntity(st, orderUid, storeId, it)]
    ensures s.orders == AddItem(st.orders, orderUid, ItemUid(orderUid, it))
    ensures s.products == LinkItem(st, ResolveSku(it), it).products && s.stock == LinkItem(st, ResolveSku(it), it).stock
    ensures s.products.Keys == st.products.Keys && s.stock.Keys == st.stock.Keys
  {
    var linked := LinkItem(st, ResolveSku(it), it);
    linked.(
      orderItems := linked.orderItems[ItemUid(orderUid, it) := ItemEntity(st, orderUid, storeId, it)],
      orders := AddItem(linked.orders, orderUid, ItemUid(orderUid, it)))
  }

  /**
   * One iteration of createItems: nothing when the order item exists already;
   * otherwise link product and stock item, create the order item under the
   * order, and adjust the stock for the order's status.
   */
  function ItemStep(st: EntityStore, orderUid: string, storeId: int, status: Option<string>, it: OrderItemData)
    : EntityStore
  {
    if ItemUid(orderUid, it) in st.orderItems then st
    else
      var created := NewItem(st, orderUid, storeId, it);
      var e := ItemEntity(st, orderUid, storeId, it);
      created.(stock := AdjustStock(created.stock, status, e.fields.sku, e.fields.quantity).1)
  }

  /** createItems over the payload's order items, in order. */
  function CreateItems(st: EntityStore, orderUid: string, storeId: int, status: Option<string>, items: seq<OrderItemData>)
    : EntityStore
  {
    if items == [] then st
    else ItemStep(CreateItems(st, orderUid, storeId, status, items[..|items| - 1]), orderUid, storeId, status, items[|items| - 1])
  }

  // ------------------------------------------------------------ properties

  /**
   * A new order item is created with its parent, store, local id and
   * attributes and is added to its order; an existing one leaves the store as
   * it is.
   */
  lemma ItemStepCreates(st: EntityStore, orderUid: string, storeId: int, status: Option<string>, it: OrderItemData,
                        s: EntityStore)
    requires s == ItemStep(st, orderUid, storeId, status, it)
    ensures ItemUid(orderUid, it) in st.orderItems ==> s == st
    ensures ItemUid(orderUid, it) !in st.orderItems ==>
      s.orderItems == st.orderItems[ItemUid(orderUid, it) := ItemEntity(st, orderUid, storeId, it)]
    ensures ItemUid(orderUid, it) !in st.orderItems && orderUid in st.orders ==>
      s.orders[orderUid].items == st.orders[orderUid].items + [ItemUid(orderUid, it)]
  {
    var uid := ItemUid(orderUid, it);
    if uid !in st.orderItems {
      var created := NewItem(st, orderUid, storeId, it);
      assert s.orderItems == created.orderItems && s.orders == created.orders;
    }
  }

  /**
   * The stock levels after one updateStockQuantities: the stock item under the
   * SKU has gained the quantity in the attribute the status moves, and every
   * other level of every stock item is as before.
   */
  ghost predicate LevelsMoved(before: map<string, StockItem>, after: map<string, StockItem>, status: Option<string>,
                        sku: string, quantity: real)
  {
    && after.Keys == before.Keys
    && (forall k, c :: k in before && !(k == sku && Some(c) == StockAttribute(status)) ==>
          StockLevel(after[k], c) == StockLevel(before[k], c))
    && (StockAttribute(status).Some? && sku in before ==>
          StockLevel(after[sku], StockAttribute(status).value) == StockLevel(before[sku], StockAttribute(status).value) + quantity)
  }

  /**
   * A new order item moves the stock once, after the links are made: the stock
   * item under its SKU gains the item's quantity (ItemFieldsOf: the ordered
   * quantity times the multiplier) in the attribute the order's status moves;
   * no other stock level changes, and the stock items keep the links LinkItem
   * gave them.
   */
  lemma ItemStepStock(st: EntityStore, orderUid: string, storeId: int, status: Option<string>, it: OrderItemData)
    requires ItemUid(orderUid, it) !in st.orderItems
    ensures LevelsMoved(st.stock, ItemStep(st, orderUid, storeId, status, it).stock, status, ResolveSku(it).sku,
                        ItemEntity(st, orderUid, storeId, it).fields.quantity)
    ensures forall k :: k in st.stock ==>
      ItemStep(st, orderUid, storeId, status, it).stock[k].localId == LinkItem(st, ResolveSku(it), it).stock[k].localId
  {
    ItemStepStockIs(st, orderUid, storeId, status, it);
    AdjustRelinked(st.stock, LinkItem(st, ResolveSku(it), it).stock, status, ResolveSku(it).sku,
                   ItemEntity(st, orderUid, storeId, it).fields.quantity);
  }

  /** The stock after a new order item: the linked stock adjusted by the item's SKU and quantity. */
  lemma ItemStepStockIs(st: EntityStore, orderUid: string, storeId: int, status: Option<string>, it: OrderItemData)
    requires ItemUid(orderUid, it) !in st.orderItems
    ensures ItemStep(st, orderUid, storeId, status, it).stock
      == AdjustStock(LinkItem(st, ResolveSku(it), it).stock, status, ResolveSku(it).sku,
                     ItemEntity(st, orderUid, storeId, it).fields.quantity).1
  {
    ItemEntityOf(st, orderUid, storeId, it);
  }

  /** Adjusting a stock whose links alone were changed moves the levels as adjusting the original would. */
  lemma AdjustRelinked(before: map<string, StockItem>, linked: map<string, StockItem>, status: Option<string>,
                       sku: string, quantity: real)
    requires linked.Keys == before.Keys
    requires forall k :: k in before ==> linked[k].attrs == before[k].attrs
    ensures LevelsMoved(before, AdjustStock(linked, status, sku, quantity).1, status, sku, quantity)
    ensures forall k :: k in before ==> AdjustStock(linked, status, sku, quantity).1[k].localId == linked[k].localId
  {
    assert forall k, c :: k in before ==> StockLevel(linked[k], c) == StockLevel(before[k], c);
  }

  /**
   * The order item created for a payload order item: its parent, store and
   * local id, its SKU, its amounts (ItemFieldsOf), and a product reference
   * exactly when a product exists under a real SKU.
   */
  lemma ItemEntityOf(st: EntityStore, orderUid: string, storeId: int, it: OrderItemData)
    ensures var e := ItemEntity(st, orderUid, storeId, it);
      var r := ResolveSku(it);
      e.order == orderUid && e.storeId == storeId && e.localId == it.orderItemId
      && e.fields.sku == r.sku
      && (e.fields.product != Null <==> r.sku != FallbackSku && r.sku in st.products)
  {
  }

  /** What one iteration leaves alone: links, addresses, customers, comments, other orders, existing order items. */
  predicate ItemsFrame(st: EntityStore, s: EntityStore, orderUid: string) {
    s.orderLinks == st.orderLinks && s.addresses == st.addresses && s.customers == st.customers
    && s.comments == st.comments
    && s.orders.Keys == st.orders.Keys
    && (forall u :: u in st.orders && u != orderUid ==> s.orders[u] == st.orders[u])
    && (forall u :: u in st.orders ==>
          s.orders[u].attrs == st.orders[u].attrs && s.orders[u].family == st.orders[u].family
          && s.orders[u].storeId == st.orders[u].storeId)
    && (forall u :: u in st.orderItems ==> u in s.orderItems && s.orderItems[u] == st.orderItems[u])
    && s.products.Keys == st.products.Keys && s.stock.Keys == st.stock.Keys
  }

  lemma ItemStepFrame(st: EntityStore, orderUid: string, storeId: int, status: Option<string>, it: OrderItemData)
    ensures ItemsFrame(st, ItemStep(st, orderUid, storeId, status, it), orderUid)
  {
    var uid := ItemUid(orderUid, it);
    if uid !in st.orderItems {
      var s := ItemStep(st, orderUid, storeId, status, it);
      var created := NewItem(st, orderUid, storeId, it);
      assert ItemsFrame(st, created, orderUid);
      assert s == created.(stock := s.stock);
    }
  }

  lemma FrameTransitive(a: EntityStore, b: EntityStore, c: EntityStore, orderUid: string)
    requires ItemsFrame(a, b, orderUid) && ItemsFrame(b, c, orderUid)
    ensures ItemsFrame(a, c, orderUid)
  {
  }

  /**
   * createItems only adds order items, extends its own order's item list and
   * moves product links and stock: nothing else in the store changes and no
   * existing order item is overwritten.
   */
  lemma {:induction false} CreateItemsFrame(st: EntityStore, orderUid: string, storeId: int, status: Option<string>,
                                            items: seq<OrderItemData>)
    ensures ItemsFrame(st, CreateItems(st, orderUid, storeId, status, items), orderUid)
  {
    if items != [] {
      var prefix := items[..|items| - 1];
      var mid := CreateItems(st, orderUid, storeId, status, prefix);
      CreateItemsFrame(st, orderUid, storeId, status, prefix);
      ItemStepFrame(mid, orderUid, storeId, status, items[|items| - 1]);
      FrameTransitive(st, mid, CreateItems(st, orderUid, storeId, status, items), orderUid);
    }
  }

  /** After createItems every order item of the payload exists. */
  lemma {:induction false} CreateItemsCreatesAll(st: EntityStore, orderUid: string, storeId: int, status: Option<string>,
                                                 items: seq<OrderItemData>)
    ensures forall k :: 0 <= k < |items| ==> ItemUid(orderUid, items[k]) in CreateItems(st, orderUid, storeId, status, items).orderItems
  {
    if items != [] {
      var prefix := items[..|items| - 1];
      var mid := CreateItems(st, orderUid, storeId, status, prefix);
      CreateItemsCreatesAll(st, orderUid, storeId, status, prefix);
      ItemStepFrame(mid, orderUid, storeId, status, items[|items| - 1]);
      forall k | 0 <= k < |items|
        ensures ItemUid(orderUid, items[k]) in CreateItems(st, orderUid, storeId, status, items).orderItems
      {
        if k < |items| - 1 {
          assert items[k] == prefix[k];
        }
      }
    }
  }

  /** createItems changes nothing when every order item of the payload exists already. */
  lemma {:induction false} CreateItemsNoop(st: EntityStore, orderUid: string, storeId: int, status: Option<string>,
                                           items: seq<OrderItemData>)
    requires forall k :: 0 <= k < |items| ==> ItemUid(orderUid, items[k]) in st.orderItems
    ensures CreateItems(st, orderUid, storeId, status, items) == st
  {
    if items != [] {
      var prefix := items[..|items| - 1];
      assert forall k :: 0 <= k < |prefix| ==> prefix[k] == items[k];
      CreateItemsNoop(st, orderUid, storeId, status, prefix);
    }
  }

  /**
   * Running createItems again on the same payload changes nothing: no order
   * item is created twice and the stock is not moved twice.
   */
  lemma CreateItemsIdempotent(st: EntityStore, orderUid: string, storeId: int, status: Option<string>,
                              items: seq<OrderItemData>)
    ensures var once := CreateItems(st, orderUid, storeId, status, items);
      CreateItems(once, orderUid, storeId, status, items) == once
  {
    CreateItemsCreatesAll(st, orderUid, storeId, status, items);
    CreateItemsNoop(CreateItems(st, orderUid, storeId, status, items), orderUid, storeId, status, items);
  }

  // ------------------------------------------- the loop's leftover variables

  /**
   * The SKU variable of createItems' loop after the given order items, as the
   * loop is written: an item without master_sku and sku does not assign it, so
   * it keeps the (bundle-split) SKU of the item before; only when no earlier
   * item set it does the fallback SKU apply.
   */
  function CarriedSku(items: seq<OrderItemData>): (carried: Option<string>)
    ensures items != [] ==> carried.Some?
    decreases |items|, 0
  {
    if items == [] then None
    else
      var source := SkuSource(items[..|items| - 1], items[|items| - 1]);
      Some(if source.Some? then Decompose(source.value).sku else FallbackSku)
  }

  /**
   * What `isset($sku)` sees for an order item after the given ones, as the
   * loop is written: the item's own SKU, else the SKU carried over from the
   * items before; none only when no item has set the variable yet.
   */
  function SkuSource(before: seq<OrderItemData>, it: OrderItemData): Option<string>
    decreases |before|, 1
  {
    if ItemSku(it).Some? then ItemSku(it) else CarriedSku(before)
  }

  /**
   * `$bundleQuantity` when the k-th order item's fields are computed, as the
   * loop is written: the `isset($sku)` branch always assigns it, from the SKU
   * it splits; the fallback branch does not, and the unset at the end of each
   * creation leaves it NULL (None).
   */
  function MultiplierAsWritten(items: seq<OrderItemData>, k: nat): (m: Option<int>)
    requires k < |items|
  {
    var source := SkuSource(items[..k], items[k]);
    if source.Some? then Some(Decompose(source.value).multiplier) else None
  }

  /**
   * As written, the multiplier is NULL exactly for a first order item without
   * SKU: the fallback branch assigns the fallback SKU, so every later item
   * takes the `isset($sku)` branch. An item with its own SKU gets the
   * multiplier ResolveSku gives it.
   */
  lemma MultiplierUnsetOnlyFirst(items: seq<OrderItemData>, k: nat)
    requires k < |items|
    ensures MultiplierAsWritten(items, k).None? <==> k == 0 && ItemSku(items[0]).None?
    ensures MultiplierAsWritten(items, k).Some? ==> MultiplierAsWritten(items, k).value >= 1
    ensures ItemSku(items[k]).Some? ==> MultiplierAsWritten(items, k) == Some(ResolveSku(items[k]).multiplier)
  {
    if k > 0 {
      assert items[..k] != [];
      assert CarriedSku(items[..k]).Some?;
    } else {
      assert items[..k] == [];
      assert CarriedSku(items[..k]) == None;
      assert SkuSource(items[..k], items[k]) == ItemSku(items[k]);
    }
  }

  /** The SKU the k-th order item is stored under, as the loop is written. */
  function SkuAsWritten(items: seq<OrderItemData>, k: nat): string
    requires k < |items|
  {
    CarriedSku(items[..k + 1]).value
  }

  /** The order quantity as the loop multiplies it, with a multiplier that may be unset (NULL counts as 0). */
  function QuantityAsWritten(quantity: Option<real>, bundleQuantity: Option<int>): (q: real)
    ensures bundleQuantity.None? ==> q == 0.0
    ensures bundleQuantity.Some? ==> q == quantity.GetOr(0.0) * bundleQuantity.value as real
  {
    quantity.GetOr(0.0) * (if bundleQuantity.Some? then bundleQuantity.value as real else 0.0)
  }

  /** item_price as the loop computes it: a division by NULL (0) is an error rather than a price. */
  datatype PriceAsWritten = Price(value: real) | DivisionByZero

  /** The item price as written: the price divided by the multiplier, 0 without a price. */
  function ItemPriceAsWritten(it: OrderItemData, bundleQuantity: Option<int>): (r: PriceAsWritten)
    ensures r.DivisionByZero? <==> "price" in it.financials && (bundleQuantity.None? || bundleQuantity.value == 0)
    ensures r.Price? && bundleQuantity.Some? && bundleQuantity.value != 0 ==>
      r.value * bundleQuantity.value as real == Financial(it, "price")
  {
    if "price" !in it.financials then Price(0.0)
    else if bundleQuantity.None? || bundleQuantity.value == 0 then DivisionByZero
    else Price(it.financials["price"] / bundleQuantity.value as real)
  }

  /**
   * An order item without SKU after one with SKU "ABC" is stored under "ABC"
   * as written, and under the fallback SKU by ResolveSku.
   */
  lemma StaleSkuExample(orderUid: string, stock: map<string, StockItem>)
    requires "ABC" in stock
    ensures var withSku := OrderItemData(Some("1"), Some(1.0), None, None, map[],
                                         Some(ItemInfo(None, None, None, Some("ABC"), None, [])));
      var withoutSku := OrderItemData(Some("2"), Some(1.0), None, None, map[], None);
      var stale := SkuAsWritten([withSku, withoutSku], 1);
      && stale == "ABC"
      && ItemUniqueId(orderUid, stale, withoutSku.orderItemId) == orderUid + "-ABC-2"
      && StockTarget(stock, stale, stale) == Some("ABC")
      && ResolveSku(withoutSku).sku == FallbackSku
      && ItemUid(orderUid, withoutSku) == orderUid + "-" + FallbackSku + "-2"
  {
    var withSku := OrderItemData(Some("1"), Some(1.0), None, None, map[],
                                 Some(ItemInfo(None, None, None, Some("ABC"), None, [])));
    var withoutSku := OrderItemData(Some("2"), Some(1.0), None, None, map[], None);
    var items := [withSku, withoutSku];
    DecomposePlainExample();
    assert [withSku][..0] == [];
    assert SkuSource([], withSku) == Some("ABC");
    assert CarriedSku([withSku]) == Some("ABC");
    assert items[..2] == items && items[..1] == [withSku];
    assert SkuSource([withSku], withoutSku) == Some("ABC");
    assert CarriedSku(items) == Some("ABC");
    assert SkuAsWritten(items, 1) == "ABC";
    assert orderUid + "-" + "ABC" + "-" + "2" == orderUid + "-ABC-2";
    assert ResolveSku(withoutSku).sku == FallbackSku;
    assert orderUid + "-" + FallbackSku + "-" + "2" == orderUid + "-" + FallbackSku + "-2";
  }

  /**
   * A first order item without SKU, ordered twice at price 10: as written its
   * multiplier is NULL, so it gets quantity 0 and its price is divided by
   * zero; with ResolveSku's multiplier 1 it keeps quantity 2 and price 10.
   */
  lemma FallbackQuantityExample()
    ensures var withoutSku := OrderItemData(Some("1"), Some(2.0), None, None, map["price" := 10.0], None);
      var m := MultiplierAsWritten([withoutSku], 0);
      && m.None?
      && QuantityAsWritten(withoutSku.quantity, m) == 0.0
      && ItemPriceAsWritten(withoutSku, m) == DivisionByZero
      && ItemFieldsOf(withoutSku, ResolveSku(withoutSku), Null).quantity == 2.0
      && ItemFieldsOf(withoutSku, ResolveSku(withoutSku), Null).itemPrice == 10.0
  {
    var withoutSku := OrderItemData(Some("1"), Some(2.0), None, None, map["price" := 10.0], None);
    MultiplierUnsetOnlyFirst([withoutSku], 0);
  }
}
