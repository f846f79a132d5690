/**
 * storeOrderData: reconcile one order payload with the entity store. The
 * payload's attributes (Aggregator) are stored on the order the local order id
 * is linked to, or on the order with the payload's unique id (which is then
 * linked), or on a new order created with its addresses and order items. A
 * status change is copied to the order's family and commented, and a move into
 * a shippable or the closed status moves the stock of the order's items.
 */
module Reconciler {

  import opened Base
  import opened PhpStrings
  import opened Statuses
  import opened Payload
  import opened Addresses
  import opened Aggregator
  import opened Entities
  import opened ItemBuilder

  // --------------------------------------------------------- addresses

  /** The address entity createAddressEntity builds from a payload address. */
  function AddressEntityOf(a: AddressData): AddressEntity {
    AddressEntity(
      NameArrayOf(Field(a, "name")),
      OptField(a, "company_name"),
      Street(a),
      OptField(a, "province"),
      OptField(a, "city"),
      OptField(a, "postal_code"),
      OptField(a, "country_code"),
      OptField(a, "contact_phone_1"))
  }

  /**
   * createAddressEntity: the address with the order's address unique id; it is
   * created from the payload address only when it does not exist yet.
   */
  function CreateAddressEntity(addresses: map<string, AddressEntity>, a: AddressData, reference: string, addressType: string)
    : (r: (map<string, AddressEntity>, Value))
    ensures r.1 == Ref("address", AddressUniqueId(reference, addressType))
    ensures forall u :: u in addresses ==> u in r.0 && r.0[u] == addresses[u]
    ensures r.0.Keys == addresses.Keys + {AddressUniqueId(reference, addressType)}
    ensures AddressUniqueId(reference, addressType) !in addresses ==>
      r.0[AddressUniqueId(reference, addressType)] == AddressEntityOf(a)
  {
    var uid := AddressUniqueId(reference, addressType);
    if uid in addresses then (addresses, Ref("address", uid))
    else (addresses[uid := AddressEntityOf(a)], Ref("address", uid))
  }

  /** Which address entities createAddresses makes: none, one shared by billing and shipping, or two. */
  datatype AddressPlan = NoAddresses | Shared(address: AddressData) | Separate(billing: AddressData, shipping: AddressData)

  /**
   * The addresses of an order: the first English address bills and the first
   * Chinese one ships; when one of them is missing the other serves for both,
   * and when both are missing the first address with a language code does.
   */
  function PlanAddresses(addresses: Option<seq<AddressData>>): (plan: AddressPlan)
    ensures var en := FindAddress(addresses, Some("en-"));
      var zh := FindAddress(addresses, Some("zh-"));
      && (plan.Separate? <==> en.Some? && zh.Some?)
      && (plan.Separate? ==> plan.billing == en.value && plan.shipping == zh.value)
      && (plan.NoAddresses? <==> en.None? && zh.None? && FindAddress(addresses, None).None?)
      && (plan.Shared? && en.Some? ==> plan.address == en.value)
      && (plan.Shared? && en.None? && zh.Some? ==> plan.address == zh.value)
      && (plan.Shared? && en.None? && zh.None? ==>
            (FindAddress(addresses, None).Some? && plan.address == FindAddress(addresses, None).value))
  {
    if addresses.None? then NoAddresses
    else
      var en := FindAddress(addresses, Some("en-"));
      var zh := FindAddress(addresses, Some("zh-"));
      if en.None? && zh.None? then
        match FindAddress(addresses, None)
        case None => NoAddresses
        case Some(first) => Shared(first)
      else if en.None? then Shared(zh.value)
      else if zh.None? then Shared(en.value)
      else Separate(en.value, zh.value)
  }

  /**
   * createAddresses as written: when neither an English nor a Chinese address
   * exists, the fallback calls getFirstAddressArray() without the order's
   * data, which fails with an error the gateway does not catch; otherwise it
   * plans what PlanAddresses plans.
   */
  function PlanAddressesAsWritten(addresses: Option<seq<AddressData>>): (r: Result<AddressPlan>)
    ensures r.Err? <==> addresses.Some? && FindAddress(addresses, Some("en-")).None? && FindAddress(addresses, Some("zh-")).None?
    ensures r.Err? ==> r.error == NoLanguageAddress
    ensures r.Ok? ==> r.value == PlanAddresses(addresses)
  {
    if addresses.None? then Ok(NoAddresses)
    else
      var en := FindAddress(addresses, Some("en-"));
      var zh := FindAddress(addresses, Some("zh-"));
      if en.None? && zh.None? then Err(NoLanguageAddress)
      else if en.None? then Ok(Shared(zh.value))
      else if zh.None? then Ok(Shared(en.value))
      else Ok(Separate(en.value, zh.value))
  }

  /**
   * An order whose only address is French: as written, creating the order fails;
   * the intended fallback gives it that address for billing and shipping.
   */
  lemma FirstAddressFallbackExample()
    ensures var fr: AddressData := map["language_code" := "fr-FR"];
      PlanAddressesAsWritten(Some([fr])) == Err(NoLanguageAddress)
      && PlanAddresses(Some([fr])) == Shared(fr)
  {
    var fr: AddressData := map["language_code" := "fr-FR"];
    assert Lower(Prefix(fr["language_code"], 3))[0] == 'f';
    assert !MatchesLanguage(fr, Some("en-"));
    assert !MatchesLanguage(fr, Some("zh-"));
    assert MatchesLanguage(fr, None);
    assert FindAddress(Some([fr]), None) == Some(fr);
  }

  /**
   * createAddresses: the address entities of a new order and the
   * billing_address and shipping_address attributes that refer to them.
   */
  function CreateAddresses(addresses: map<string, AddressEntity>, reference: string, plan: AddressPlan)
    : (r: (map<string, AddressEntity>, map<Attr, Value>))
    ensures forall u :: u in addresses ==> u in r.0 && r.0[u] == addresses[u]
    ensures plan.NoAddresses? ==> r.1 == map[]
    ensures !plan.NoAddresses? ==> (r.1.Keys == {BillingAddress, ShippingAddress}
      && r.1[BillingAddress].Ref? && r.1[BillingAddress].id in r.0
      && r.1[ShippingAddress].Ref? && r.1[ShippingAddress].id in r.0
      && (r.1[BillingAddress] == r.1[ShippingAddress] <==> plan.Shared?))
    // one shared address under order-<reference>, built from the plan's address when it is new
    ensures plan.Shared? ==> var u := AddressUniqueId(reference, "");
      && r.0.Keys == addresses.Keys + {u}
      && r.1[BillingAddress] == Ref("address", u) && r.1[ShippingAddress] == Ref("address", u)
      && (u !in addresses ==> r.0[u] == AddressEntityOf(plan.address))
    // or a billing and a shipping address under order-<reference>-billing and -shipping
    ensures plan.Separate? ==> var b := AddressUniqueId(reference, "billing");
      var s := AddressUniqueId(reference, "shipping");
      && r.0.Keys == addresses.Keys + {b, s}
      && r.1[BillingAddress] == Ref("address", b) && r.1[ShippingAddress] == Ref("address", s)
      && (b !in addresses ==> r.0[b] == AddressEntityOf(plan.billing))
      && (s !in addresses ==> r.0[s] == AddressEntityOf(plan.shipping))
  {
    match plan
    case NoAddresses => (addresses, map[])
    case Shared(a) => SharedAddress(addresses, reference, a)
    case Separate(b, sh) => SeparateAddresses(addresses, reference, b, sh)
  }

  /** One address entity, under order-<reference>, for billing and shipping alike. */
  function SharedAddress(addresses: map<string, AddressEntity>, reference: string, a: AddressData)
    : (r: (map<string, AddressEntity>, map<Attr, Value>))
    ensures var u := AddressUniqueId(reference, "");
      && r.0.Keys == addresses.Keys + {u}
      && (forall k :: k in addresses ==> r.0[k] == addresses[k])
      && r.1.Keys == {BillingAddress, ShippingAddress}
      && r.1[BillingAddress] == Ref("address", u) && r.1[ShippingAddress] == Ref("address", u)
      && (u !in addresses ==> r.0[u] == AddressEntityOf(a))
  {
    var (s, address) := CreateAddressEntity(addresses, a, reference, "");
    (s, map[BillingAddress := address, ShippingAddress := address])
  }

  /** A billing address under order-<reference>-billing and a shipping address under order-<reference>-shipping. */
  function SeparateAddresses(addresses: map<string, AddressEntity>, reference: string, b: AddressData, sh: AddressData)
    : (r: (map<string, AddressEntity>, map<Attr, Value>))
    ensures AddressUniqueId(reference, "billing") != AddressUniqueId(reference, "shipping")
    ensures r.0.Keys == addresses.Keys + {AddressUniqueId(reference, "billing"), AddressUniqueId(reference, "shipping")}
    ensures forall k :: k in addresses ==> r.0[k] == addresses[k]
    ensures r.1.Keys == {BillingAddress, ShippingAddress}
    ensures r.1[BillingAddress] == Ref("address", AddressUniqueId(reference, "billing"))
    ensures r.1[ShippingAddress] == Ref("address", AddressUniqueId(reference, "shipping"))
    ensures AddressUniqueId(reference, "billing") !in addresses ==> r.0[AddressUniqueId(reference, "billing")] == AddressEntityOf(b)
    ensures AddressUniqueId(reference, "shipping") !in addresses ==> r.0[AddressUniqueId(reference, "shipping")] == AddressEntityOf(sh)
  {
    var (s1, billing) := CreateAddressEntity(addresses, b, reference, "billing");
    var (s2, shipping) := CreateAddressEntity(s1, sh, reference, "shipping");
    AddressUniqueIdsDistinct(reference);
    StoredTwice(addresses, s1, s2, AddressUniqueId(reference, "billing"), AddressUniqueId(reference, "shipping"),
                AddressEntityOf(b), AddressEntityOf(sh));
    (s2, map[BillingAddress := billing, ShippingAddress := shipping])
  }

  /** Two address ids stored one after the other, each only when missing. */
  lemma StoredTwice(addresses: map<string, AddressEntity>, s1: map<string, AddressEntity>, s2: map<string, AddressEntity>,
                    u1: string, u2: string, e1: AddressEntity, e2: AddressEntity)
    requires u1 != u2
    requires s1.Keys == addresses.Keys + {u1} && (forall k :: k in addresses ==> s1[k] == addresses[k])
    requires u1 !in addresses ==> s1[u1] == e1
    requires s2.Keys == s1.Keys + {u2} && (forall k :: k in s1 ==> s2[k] == s1[k])
    requires u2 !in s1 ==> s2[u2] == e2
    ensures s2.Keys == addresses.Keys + {u1, u2} && (forall k :: k in addresses ==> s2[k] == addresses[k])
    ensures u1 !in addresses ==> s2[u1] == e1
    ensures u2 !in addresses ==> s2[u2] == e2
  {
  }

  // ---------------------------------------------------------- customer

  /** The customer_email attribute as a string, when it is one. */
  function EmailOf(data: map<Attr, Value>): Option<string> {
    if CustomerEmail in data && data[CustomerEmail].Str? then Some(data[CustomerEmail].s) else None
  }

  /** The customer entity createCustomerEntity builds from the chosen address. */
  function CustomerEntityOf(a: AddressData): CustomerEntity {
    CustomerEntity(NameArrayOf(Field(a, "name")), "MMS customer")
  }

  /**
   * The customer step of storeOrderData: with a truthy customer_email the order
   * refers to the customer with that unique id, which is created (under the
   * chosen address's contact_email_1) when it does not exist; createCustomerEntity
   * fails when no address has a name.
   */
  function CustomerStep(customers: map<string, CustomerEntity>, p: OrderData, data: map<Attr, Value>)
    : (r: Result<(map<string, CustomerEntity>, map<Attr, Value>)>)
    ensures r.Err? <==> Truthy(EmailOf(data)) && EmailOf(data).value !in customers && CustomerAddress(p).Err?
    ensures r.Err? ==> r.error == NoAddressName(p.orderId)
    ensures r.Ok? ==> customers.Keys <= r.value.0.Keys
    ensures r.Ok? ==> forall c :: c in customers && !(Customer in r.value.1 && r.value.1[Customer] == Ref("customer", c)) ==>
      r.value.0[c] == customers[c]
    ensures r.Ok? && !Truthy(EmailOf(data)) ==> r.value == (customers, data)
    ensures r.Ok? && Truthy(EmailOf(data)) ==>
      Customer in r.value.1 && r.value.1 == data[Customer := r.value.1[Customer]]
      && r.value.1[Customer].Ref? && r.value.1[Customer].id in r.value.0
    ensures r.Ok? && Truthy(EmailOf(data)) && EmailOf(data).value in customers ==>
      r.value == (customers, data[Customer := Ref("customer", EmailOf(data).value)])
    // a missing customer is created under the chosen address's contact_email_1 (NULL as ""), which
    // need not be the customer_email looked up: a customer stored under that key is replaced
    ensures r.Ok? && Truthy(EmailOf(data)) && EmailOf(data).value !in customers ==>
      var a := CustomerAddress(p).value;
      var key := Text(OptField(a, "contact_email_1"));
      && r.value.1 == data[Customer := Ref("customer", key)]
      && r.value.0.Keys == customers.Keys + {key}
      && r.value.0[key] == CustomerEntity(NameArrayOf(a["name"]), "MMS customer")
      && forall c :: c in customers && c != key ==> r.value.0[c] == customers[c]
  {
    var email := EmailOf(data);
    if !Truthy(email) then Ok((customers, data))
    else if email.value in customers then Ok((customers, data[Customer := Ref("customer", email.value)]))
    else
      match CustomerAddress(p)
      case Err(e) => Err(e)
      case Ok(a) =>
        var key := Text(OptField(a, "contact_email_1"));
        Ok((customers[key := CustomerEntityOf(a)], data[Customer := Ref("customer", key)]))
  }

  /**
   * The customer is looked up under the first address's e-mail but created
   * under the e-mail of the address with a name, English first: a Chinese
   * address first and an English one second make the step replace the
   * customer stored under the English address's e-mail.
   */
  lemma CustomerKeysDifferExample(stored: CustomerEntity)
    ensures var zh: AddressData := map["language_code" := "zh-CN", "name" := "A", "contact_email_1" := "x@y"];
      var en: AddressData := map["language_code" := "en-GB", "name" := "B C", "contact_email_1" := "b@y"];
      var p := OrderData("7", "R", None, "", Some([zh, en]), None, None, None, 1);
      var r := CustomerStep(map["b@y" := stored], p, map[CustomerEmail := Str("x@y")]);
      && FirstWithKey([zh, en], "contact_email_1") == Some("x@y")
      && r.Ok? && r.value.1[Customer] == Ref("customer", "b@y")
      && r.value.0 == map["b@y" := CustomerEntity(NameArrayOf("B C"), "MMS customer")]
  {
    var zh: AddressData := map["language_code" := "zh-CN", "name" := "A", "contact_email_1" := "x@y"];
    var en: AddressData := map["language_code" := "en-GB", "name" := "B C", "contact_email_1" := "b@y"];
    EnglishAfterChinese(zh, en);
    var p := OrderData("7", "R", None, "", Some([zh, en]), None, None, None, 1);
    assert CustomerAddress(p) == Ok(en);
  }

  /** With a Chinese address first and an English one second, the e-mail comes from the first and the customer from the second. */
  lemma EnglishAfterChinese(zh: AddressData, en: AddressData)
    requires "language_code" in zh && |zh["language_code"]| >= 3 && zh["language_code"][..3] == "zh-"
    requires "language_code" in en && |en["language_code"]| >= 3 && en["language_code"][..3] == "en-"
    requires "contact_email_1" in zh
    ensures FindAddress(Some([zh, en]), Some("en-")) == Some(en)
    ensures FirstWithKey([zh, en], "contact_email_1") == Some(zh["contact_email_1"])
  {
    var addrs := [zh, en];
    LanguageMatchIgnoresCase(zh);
    LanguageMatchIgnoresCase(en);
    assert zh["language_code"][0] == zh["language_code"][..3][0] == 'z';
    assert en["language_code"][0] == en["language_code"][..3][0] == 'e';
    assert en["language_code"][1] == en["language_code"][..3][1] == 'n';
    assert en["language_code"][2] == en["language_code"][..3][2] == '-';
    assert !MatchesLanguage(addrs[0], Some("en-")) && MatchesLanguage(addrs[1], Some("en-"));
    assert FirstMatchingFrom(addrs, Some("en-"), 1) == Some(1);
    assert FirstMatchingFrom(addrs, Some("en-"), 0) == Some(1);
    assert addrs[..1] == [zh];
    assert [zh][..0] == [];
    assert FirstWithKey([zh], "contact_email_1") == Some(zh["contact_email_1"]);
  }

  // ------------------------------------------------------------ orders

  /** How storeOrderData finds the order: by its local id link, by its unique id, or not at all. */
  datatype Path = Linked(uid: string) | Unlinked | New

  function FindOrder(st: EntityStore, p: OrderData): (path: Path)
    ensures path.Linked? ==> path.uid in st.orders
    ensures path.Linked? <==> p.orderId in st.orderLinks && st.orderLinks[p.orderId] in st.orders
    ensures path.Unlinked? ==> UniqueIdFromReference(p.reference) in st.orders
    ensures path.New? ==> UniqueIdFromReference(p.reference) !in st.orders
  {
    if p.orderId in st.orderLinks && st.orderLinks[p.orderId] in st.orders then Linked(st.orderLinks[p.orderId])
    else if UniqueIdFromReference(p.reference) in st.orders then Unlinked
    else New
  }

  /** The comment on a new order. */
  function InitialComment(uid: string): Comment {
    Comment(uid, "MMS/HOPS", "Initial sync", "Order #" + uid + " synced to HOPS.")
  }

  /** The comment on an order whose status changed. */
  function StatusComment(order: string, uid: string, oldStatus: Option<string>, status: Option<string>): Comment {
    Comment(order, "MMS/HOPS", "Status change", "Order #" + uid + " moved from " + Text(oldStatus) + " to " + Text(status))
  }

  /**
   * The new-order path: create the addresses, create the order with the
   * address attributes and the payload's attributes (which win), link it to
   * the local id, create its order items, and comment the initial sync.
   */
  function CreateOrder(st: EntityStore, p: OrderData, uid: string, data: map<Attr, Value>): EntityStore {
    var (addresses, addressData) := CreateAddresses(st.addresses, p.reference, PlanAddresses(p.addresses));
    var placed := OpenOrder(st, p, uid, addresses, addressData + data);
    var filled := CreateItems(placed, uid, p.storeId, p.status, Items(p));
    filled.(comments := filled.comments + [InitialComment(uid)])
  }

  /** The new order with its attributes and no items yet, linked to the local order id. */
  function OpenOrder(st: EntityStore, p: OrderData, uid: string, addresses: map<string, AddressEntity>,
                     attrs: map<Attr, Value>): (r: EntityStore)
    ensures r == st.(addresses := addresses, orders := r.orders, orderLinks := r.orderLinks)
    ensures r.orders == st.orders[uid := OrderEntity(p.storeId, attrs, uid, [])]
    ensures r.orderLinks == st.orderLinks[p.orderId := uid]
  {
    st.(
      addresses := addresses,
      orders := st.orders[uid := OrderEntity(p.storeId, attrs, uid, [])],
      orderLinks := st.orderLinks[p.orderId := uid])
  }

  /** getAllOrders of the order except itself: every other order of its family gets the new status. */
  function CopyStatus(orders: map<string, OrderEntity>, order: string, status: Option<string>)
    : (r: map<string, OrderEntity>)
    requires order in orders
    ensures r.Keys == orders.Keys && r[order] == orders[order]
    ensures forall u :: u in orders && u != order && orders[u].family == orders[order].family ==>
      r[u] == orders[u].(attrs := orders[u].attrs[Status := OptStr(status)])
    ensures forall u :: u in orders && orders[u].family != orders[order].family ==> r[u] == orders[u]
  {
    var family := orders[order].family;
    map u | u in orders ::
      if u != order && orders[u].family == family then orders[u].(attrs := orders[u].attrs[Status := OptStr(status)])
      else orders[u]
  }

  /** updateStockQuantities for each of the given order items, with the order's new status. */
  function AdjustItems(orderItems: map<string, OrderItemEntity>, stock: map<string, StockItem>, items: seq<string>,
                       status: Option<string>): (r: map<string, StockItem>)
    ensures r.Keys == stock.Keys
    ensures StockAttribute(status).None? ==> r == stock
  {
    if items == [] then stock
    else
      var s := AdjustItems(orderItems, stock, items[..|items| - 1], status);
      var item := items[|items| - 1];
      if item in orderItems then AdjustStock(s, status, orderItems[item].fields.sku, orderItems[item].fields.quantity).1
      else s
  }

  /** The summed quantity of the listed order items with the given SKU. */
  function SkuQuantity(orderItems: map<string, OrderItemEntity>, items: seq<string>, sku: string): real {
    if items == [] then 0.0
    else
      var item := items[|items| - 1];
      SkuQuantity(orderItems, items[..|items| - 1], sku)
        + (if item in orderItems && orderItems[item].fields.sku == sku then orderItems[item].fields.quantity else 0.0)
  }

  /**
   * The stock after adjusting for a list of order items: the same stock items,
   * each having gained, in the attribute the status moves, the summed quantity
   * of the listed order items with its SKU; no other level and no link changed.
   */
  ghost predicate ItemsMoved(orderItems: map<string, OrderItemEntity>, stock: map<string, StockItem>, items: seq<string>,
                             status: Option<string>, r: map<string, StockItem>)
  {
    && r.Keys == stock.Keys
    && (forall k, c :: k in stock && Some(c) != StockAttribute(status) ==> StockLevel(r[k], c) == StockLevel(stock[k], c))
    && (StockAttribute(status).Some? ==> forall k :: k in stock ==>
          StockLevel(r[k], StockAttribute(status).value)
            == StockLevel(stock[k], StockAttribute(status).value) + SkuQuantity(orderItems, items, k))
    && (forall k :: k in stock ==> r[k].localId == stock[k].localId)
  }

  /** Adjusting the stock for a list of order items adds up their quantities per SKU. */
  lemma {:induction false} AdjustItemsMoves(orderItems: map<string, OrderItemEntity>, stock: map<string, StockItem>,
                                            items: seq<string>, status: Option<string>)
    ensures ItemsMoved(orderItems, stock, items, status, AdjustItems(orderItems, stock, items, status))
  {
    if items != [] {
      var prefix := items[..|items| - 1];
      AdjustItemsMoves(orderItems, stock, prefix, status);
      AdjustItemsStep(orderItems, stock, items, status);
    }
  }

  /** One more order item: its quantity reaches the stock item with its SKU, if there is one. */
  lemma AdjustItemsStep(orderItems: map<string, OrderItemEntity>, stock: map<string, StockItem>, items: seq<string>,
                        status: Option<string>)
    requires items != []
    requires ItemsMoved(orderItems, stock, items[..|items| - 1], status, AdjustItems(orderItems, stock, items[..|items| - 1], status))
    ensures ItemsMoved(orderItems, stock, items, status, AdjustItems(orderItems, stock, items, status))
  {
    var prefix := items[..|items| - 1];
    var item := items[|items| - 1];
    if item in orderItems {
      var sku := orderItems[item].fields.sku;
      var q := orderItems[item].fields.quantity;
      assert AdjustItems(orderItems, stock, items, status)
        == AdjustStock(AdjustItems(orderItems, stock, prefix, status), status, sku, q).1;
      assert forall k :: SkuQuantity(orderItems, items, k) == SkuQuantity(orderItems, prefix, k) + (if k == sku then q else 0.0);
      AdjustOneItem(orderItems, stock, prefix, items, status, AdjustItems(orderItems, stock, prefix, status), sku, q);
    } else {
      assert forall k :: SkuQuantity(orderItems, items, k) == SkuQuantity(orderItems, prefix, k);
    }
  }

  /** Adjusting for one more order item of the given SKU and quantity adds the quantity to that SKU's sum. */
  lemma AdjustOneItem(orderItems: map<string, OrderItemEntity>, stock: map<string, StockItem>, prefix: seq<string>,
                      items: seq<string>, status: Option<string>, s: map<string, StockItem>, sku: string, q: real)
    requires ItemsMoved(orderItems, stock, prefix, status, s)
    requires forall k :: SkuQuantity(orderItems, items, k) == SkuQuantity(orderItems, prefix, k) + (if k == sku then q else 0.0)
    ensures ItemsMoved(orderItems, stock, items, status, AdjustStock(s, status, sku, q).1)
  {
    var r := AdjustStock(s, status, sku, q);
    if r.0 == Adjusted {
      var code := StockAttribute(status).value;
      forall k | k in stock
        ensures StockLevel(r.1[k], code) == StockLevel(stock[k], code) + SkuQuantity(orderItems, items, k)
      {
        if k == sku {
          assert StockLevel(r.1[k], code) == StockLevel(s[k], code) + q;
        } else {
          assert r.1[k] == s[k];
        }
      }
    } else if StockAttribute(status).Some? {
      forall k | k in stock
        ensures SkuQuantity(orderItems, items, k) == SkuQuantity(orderItems, prefix, k)
      {
        // a missing stock item takes the quantity nowhere: no stock item has that SKU
        assert k != sku;
      }
    }
  }

  /** The order's status moves into a shippable status or into the closed status. */
  predicate MovesStock(oldStatus: Option<string>, status: Option<string>) {
    (IsShippableOrderStatus(status) && !IsShippableOrderStatus(oldStatus))
    || (HasOrderStatusClosed(status) && !HasOrderStatusClosed(oldStatus))
  }

  /**
   * The orders after an update: on a status change every other order of the
   * family gets the new status; the order itself gets the payload's attributes
   * over its own; nothing else changes.
   */
  function UpdatedOrders(orders: map<string, OrderEntity>, order: string, data: map<Attr, Value>, status: Option<string>)
    : (r: map<string, OrderEntity>)
    requires order in orders
    ensures r.Keys == orders.Keys
    ensures r[order] == orders[order].(attrs := orders[order].attrs + data)
    ensures forall u :: u in orders && u != order && orders[u].family != orders[order].family ==> r[u] == orders[u]
    ensures SameStatus(StatusOf(orders[order].attrs), status) ==>
      forall u :: u in orders && u != order ==> r[u] == orders[u]
    ensures !SameStatus(StatusOf(orders[order].attrs), status) ==>
      forall u :: u in orders && u != order && orders[u].family == orders[order].family ==>
        r[u] == orders[u].(attrs := orders[u].attrs[Status := OptStr(status)])
  {
    var previous := orders[order];
    var copied := if !SameStatus(StatusOf(previous.attrs), status) then CopyStatus(orders, order, status) else orders;
    copied[order := previous.(attrs := previous.attrs + data)]
  }

  /** The stock after an update: the order's items adjusted when the status moves stock. */
  function StockAfterUpdate(st: EntityStore, order: string, status: Option<string>): (stock: map<string, StockItem>)
    requires order in st.orders
    ensures !MovesStock(StatusOf(st.orders[order].attrs), status) ==> stock == st.stock
    // a move adds the summed quantity of the order's items of each SKU to the attribute the new status moves
    ensures MovesStock(StatusOf(st.orders[order].attrs), status) ==>
      && StockAttribute(status).Some? && stock.Keys == st.stock.Keys
      && ItemsMoved(st.orderItems, st.stock, st.orders[order].items, status, stock)
  {
    AdjustItemsMoves(st.orderItems, st.stock, st.orders[order].items, status);
    if MovesStock(StatusOf(st.orders[order].attrs), status) then
      AdjustItems(st.orderItems, st.stock, st.orders[order].items, status)
    else st.stock
  }

  /** The comments after an update: the status-change comment is added exactly on a status change. */
  function CommentsAfterUpdate(st: EntityStore, order: string, uid: string, status: Option<string>): (comments: seq<Comment>)
    requires order in st.orders
    ensures SameStatus(StatusOf(st.orders[order].attrs), status) ==> comments == st.comments
    ensures !SameStatus(StatusOf(st.orders[order].attrs), status) ==>
      comments == st.comments + [StatusComment(order, uid, StatusOf(st.orders[order].attrs), status)]
  {
    var oldStatus := StatusOf(st.orders[order].attrs);
    if SameStatus(oldStatus, status) then st.comments
    else st.comments + [StatusComment(order, uid, oldStatus, status)]
  }

  /**
   * The update of an existing order, in the order the gateway takes its steps:
   * the attributes (and the family's status), then the stock when the status
   * moves it, then the status-change comment. Field by field that is: orders
   * as UpdatedOrders gives them, the stock and the comments as
   * StockAfterUpdate and CommentsAfterUpdate give them; links, order items,
   * products, addresses and customers stay.
   */
  function UpdateOrder(st: EntityStore, order: string, uid: string, data: map<Attr, Value>, status: Option<string>)
    : (r: EntityStore)
    requires order in st.orders
    ensures r == st.(orders := UpdatedOrders(st.orders, order, data, status), stock := StockAfterUpdate(st, order, status),
                     comments := CommentsAfterUpdate(st, order, uid, status))
  {
    var oldStatus := StatusOf(st.orders[order].attrs);
    var merged := st.(orders := UpdatedOrders(st.orders, order, data, status));
    var moved := if MovesStock(oldStatus, status)
      then merged.(stock := AdjustItems(merged.orderItems, merged.stock, st.orders[order].items, status))
      else merged;
    if SameStatus(oldStatus, status) then moved
    else moved.(comments := moved.comments + [StatusComment(order, uid, oldStatus, status)])
  }

  /** The payload's attributes without grand_total when the stored order has one. */
  function KeepGrandTotal(attrs: map<Attr, Value>, data: map<Attr, Value>): (kept: map<Attr, Value>)
    ensures forall k :: k in kept ==> k in data && kept[k] == data[k]
    ensures forall k :: k in data && k != GrandTotal ==> k in kept
    ensures GrandTotal in kept <==> GrandTotal in data && !(GrandTotal in attrs && attrs[GrandTotal] != Null)
  {
    if GrandTotal in attrs && attrs[GrandTotal] != Null then data - {GrandTotal} else data
  }

  /**
   * The order part of storeOrderData, after the customer step: update the
   * linked order (keeping a stored grand total), or link and update the order
   * with the payload's unique id, or create the order.
   */
  function Reconcile(st: EntityStore, p: OrderData, data: map<Attr, Value>): EntityStore {
    var uid := UniqueIdFromReference(p.reference);
    match FindOrder(st, p)
    case Linked(order) => UpdateOrder(st, order, uid, KeepGrandTotal(st.orders[order].attrs, data), p.status)
    case Unlinked => UpdateOrder(st.(orderLinks := st.orderLinks[p.orderId := uid]), uid, uid, data, p.status)
    case New => CreateOrder(st, p, uid, data)
  }

  /** storeOrderData on the entity store; it fails only where createCustomerEntity fails. */
  function StoreOrder(st: EntityStore, p: OrderData): Result<EntityStore> {
    match CustomerStep(st.customers, p, OrderDataOf(p))
    case Err(e) => Err(e)
    case Ok((customers, data)) => Ok(Reconcile(st.(customers := customers), p, data))
  }

  // ---------------------------------------------------- new-order path

  /** The stages of the new-order path, as CreateOrder chains them. */
  predicate CreateOrderStages(st: EntityStore, p: OrderData, uid: string, data: map<Attr, Value>,
                              placed: EntityStore, filled: EntityStore)
  {
    var created := CreateAddresses(st.addresses, p.reference, PlanAddresses(p.addresses));
    placed == OpenOrder(st, p, uid, created.0, created.1 + data)
    && filled == CreateItems(placed, uid, p.storeId, p.status, Items(p))
  }

  lemma CreateOrderStaged(st: EntityStore, p: OrderData, uid: string, data: map<Attr, Value>)
    returns (placed: EntityStore, filled: EntityStore)
    ensures CreateOrderStages(st, p, uid, data, placed, filled)
    ensures CreateOrder(st, p, uid, data) == filled.(comments := filled.comments + [InitialComment(uid)])
    ensures ItemsFrame(placed, filled, uid)
    ensures forall k :: 0 <= k < |Items(p)| ==> ItemUid(uid, Items(p)[k]) in filled.orderItems
  {
    var created := CreateAddresses(st.addresses, p.reference, PlanAddresses(p.addresses));
    placed := OpenOrder(st, p, uid, created.0, created.1 + data);
    filled := CreateItems(placed, uid, p.storeId, p.status, Items(p));
    CreateItemsFrame(placed, uid, p.storeId, p.status, Items(p));
    CreateItemsCreatesAll(placed, uid, p.storeId, p.status, Items(p));
  }

  /** A new order is the only order added; the other orders stay as they are. */
  lemma CreateOrderOrders(st: EntityStore, p: OrderData, uid: string, data: map<Attr, Value>)
    requires uid !in st.orders
    ensures var r := CreateOrder(st, p, uid, data);
      && r.orders.Keys == st.orders.Keys + {uid}
      && (forall u :: u in st.orders ==> r.orders[u] == st.orders[u])
  {
    var placed, filled := CreateOrderStaged(st, p, uid, data);
    assert forall u :: u in st.orders ==> placed.orders[u] == st.orders[u];
  }

  /**
   * The new order carries the address attributes and the payload's
   * attributes (which win), heads its own family, and lives in the payload's
   * store.
   */
  lemma CreateOrderContent(st: EntityStore, p: OrderData, uid: string, data: map<Attr, Value>)
    ensures var r := CreateOrder(st, p, uid, data);
      var addressData := CreateAddresses(st.addresses, p.reference, PlanAddresses(p.addresses)).1;
      && uid in r.orders
      && r.orders[uid].attrs == addressData + data && r.orders[uid].family == uid
      && r.orders[uid].storeId == p.storeId
  {
    var placed, filled := CreateOrderStaged(st, p, uid, data);
    var created := CreateAddresses(st.addresses, p.reference, PlanAddresses(p.addresses));
    assert placed.orders[uid] == OrderEntity(p.storeId, created.1 + data, uid, []);
  }

  /**
   * A new order is linked to the local order id, no customer changes, the
   * initial-sync comment is the only comment added, every order item of the
   * payload exists afterwards and no existing order item changes.
   */
  lemma CreateOrderLinks(st: EntityStore, p: OrderData, uid: string, data: map<Attr, Value>)
    ensures var r := CreateOrder(st, p, uid, data);
      && r.orderLinks == st.orderLinks[p.orderId := uid]
      && r.customers == st.customers
      && r.comments == st.comments + [InitialComment(uid)]
      && (forall k :: 0 <= k < |Items(p)| ==> ItemUid(uid, Items(p)[k]) in r.orderItems)
      && (forall i :: i in st.orderItems ==> i in r.orderItems && r.orderItems[i] == st.orderItems[i])
  {
    var placed, filled := CreateOrderStaged(st, p, uid, data);
  }

  // ------------------------------------------------------ storeOrderData

  /** The order storeOrderData reconciles the payload with: the linked one, else the one with the payload's unique id. */
  function TargetOrder(st: EntityStore, p: OrderData): string {
    match FindOrder(st, p)
    case Linked(order) => order
    case _ => UniqueIdFromReference(p.reference)
  }

  /** The customer e-mail the payload's attributes carry: the first contact_email_1, else the default. */
  function PayloadEmail(p: OrderData): string {
    FirstWithKey(p.addresses.GetOr([]), "contact_email_1").GetOr(DefaultEmail)
  }

  /**
   * storeOrderData fails exactly when the payload's customer e-mail is truthy,
   * no customer has it yet, and no address of the payload has a name; the
   * failure names the local order id.
   */
  lemma StoreOrderFails(st: EntityStore, p: OrderData)
    ensures StoreOrder(st, p).Err? <==>
      Truthy(Some(PayloadEmail(p))) && PayloadEmail(p) !in st.customers && CustomerAddress(p).Err?
    ensures StoreOrder(st, p).Err? ==> StoreOrder(st, p).error == NoAddressName(p.orderId)
  {
    OrderDataDefaults(p);
    assert EmailOf(OrderDataOf(p)) == Some(PayloadEmail(p));
  }

  /** The order part of storeOrderData leaves the local order id linked to the order it reconciled. */
  lemma ReconcileLinks(st: EntityStore, p: OrderData, data: map<Attr, Value>)
    ensures FindOrder(Reconcile(st, p, data), p) == Linked(TargetOrder(st, p))
  {
    var r := Reconcile(st, p, data);
    ReconcileLinkMap(st, p, data);
    ReconcileOrders(st, p, data);
    assert r.orderLinks[p.orderId] == TargetOrder(st, p);
    assert TargetOrder(st, p) in r.orders;
  }

  /** The order part of storeOrderData adds an order exactly on the new-order path, and only that one. */
  lemma ReconcileOrders(st: EntityStore, p: OrderData, data: map<Attr, Value>)
    ensures Reconcile(st, p, data).orders.Keys
      == st.orders.Keys + (if FindOrder(st, p).New? then {UniqueIdFromReference(p.reference)} else {})
  {
    if FindOrder(st, p).New? {
      CreateOrderOrders(st, p, UniqueIdFromReference(p.reference), data);
    }
  }

  /**
   * On an existing order the order part of storeOrderData is UpdateOrder on the
   * target order (after linking it, on the unlinked path) with the payload's
   * attributes, less grand_total when the linked order stores one.
   */
  lemma ReconcileUpdates(st: EntityStore, p: OrderData, data: map<Attr, Value>) returns (linked: EntityStore, kept: map<Attr, Value>)
    requires !FindOrder(st, p).New?
    ensures linked == st.(orderLinks := linked.orderLinks) && TargetOrder(st, p) in st.orders
    ensures Reconcile(st, p, data) == UpdateOrder(linked, TargetOrder(st, p), UniqueIdFromReference(p.reference), kept, p.status)
    ensures FindOrder(st, p).Linked? ==> kept == KeepGrandTotal(st.orders[TargetOrder(st, p)].attrs, data)
    ensures FindOrder(st, p).Unlinked? ==> kept == data
    ensures FindOrder(st, p).Linked? ==> linked == st
    ensures FindOrder(st, p).Unlinked? ==> linked.orderLinks == st.orderLinks[p.orderId := UniqueIdFromReference(p.reference)]
  {
    var uid := UniqueIdFromReference(p.reference);
    match FindOrder(st, p)
    case Linked(order) =>
      linked := st;
      kept := KeepGrandTotal(st.orders[order].attrs, data);
    case Unlinked =>
      linked := st.(orderLinks := st.orderLinks[p.orderId := uid]);
      kept := data;
  }

  /**
   * On an existing order the payload's attributes overwrite the stored ones,
   * except that a stored non-NULL grand_total of a linked order is kept.
   */
  lemma ReconcileAttributes(st: EntityStore, p: OrderData, data: map<Attr, Value>)
    requires !FindOrder(st, p).New?
    ensures TargetOrder(st, p) in st.orders && TargetOrder(st, p) in Reconcile(st, p, data).orders
    ensures var stored := st.orders[TargetOrder(st, p)].attrs;
      var merged := Reconcile(st, p, data).orders[TargetOrder(st, p)].attrs;
      var keep := FindOrder(st, p).Linked? && GrandTotal in stored && stored[GrandTotal] != Null;
      (forall k :: k in data && k != GrandTotal ==> k in merged && merged[k] == data[k])
      && (forall k :: k !in data && k in stored ==> k in merged && merged[k] == stored[k])
      && (keep ==> GrandTotal in merged && merged[GrandTotal] == stored[GrandTotal])
      && (!keep && GrandTotal in data ==> GrandTotal in merged && merged[GrandTotal] == data[GrandTotal])
  {
    var linked, kept := ReconcileUpdates(st, p, data);
    var order := TargetOrder(st, p);
    var merged := Reconcile(st, p, data).orders[order].attrs;
    assert merged == st.orders[order].attrs + kept;
  }

  /**
   * On an existing order a status change reaches every other order of its
   * family; orders outside the family are untouched, and without a status
   * change so is every order but the reconciled one.
   */
  lemma ReconcileFamily(st: EntityStore, p: OrderData, data: map<Attr, Value>)
    requires !FindOrder(st, p).New?
    ensures TargetOrder(st, p) in st.orders
    ensures var r := Reconcile(st, p, data);
      var order := TargetOrder(st, p);
      var family := st.orders[order].family;
      var changed := !SameStatus(StatusOf(st.orders[order].attrs), p.status);
      r.orders.Keys == st.orders.Keys
      && (forall u :: u in st.orders && u != order && st.orders[u].family != family ==> r.orders[u] == st.orders[u])
      && (!changed ==> forall u :: u in st.orders && u != order ==> r.orders[u] == st.orders[u])
      && (changed ==> forall u :: u in st.orders && u != order && st.orders[u].family == family ==>
            r.orders[u].attrs == st.orders[u].attrs[Status := OptStr(p.status)])
  {
    var linked, kept := ReconcileUpdates(st, p, data);
  }

  /**
   * On an existing order the stock moves only when the status moves into a
   * shippable or the closed status, and only a status change is commented; a
   * new order gets the initial-sync comment.
   */
  lemma ReconcileStockAndComments(st: EntityStore, p: OrderData, data: map<Attr, Value>)
    ensures var r := Reconcile(st, p, data);
      var order := TargetOrder(st, p);
      var uid := UniqueIdFromReference(p.reference);
      && (FindOrder(st, p).New? ==> r.comments == st.comments + [InitialComment(uid)])
      && (!FindOrder(st, p).New? ==>
            var oldStatus := StatusOf(st.orders[order].attrs);
            && (!MovesStock(oldStatus, p.status) ==> r.stock == st.stock)
            && (SameStatus(oldStatus, p.status) ==> r.comments == st.comments)
            && (!SameStatus(oldStatus, p.status) ==>
                  r.comments == st.comments + [StatusComment(order, uid, oldStatus, p.status)]))
  {
    if FindOrder(st, p).New? {
      CreateOrderLinks(st, p, UniqueIdFromReference(p.reference), data);
    } else {
      var linked, kept := ReconcileUpdates(st, p, data);
    }
  }

  /** The order part of storeOrderData links the local order id to the order it reconciled and changes no other link. */
  lemma ReconcileLinkMap(st: EntityStore, p: OrderData, data: map<Attr, Value>)
    ensures Reconcile(st, p, data).orderLinks == st.orderLinks[p.orderId := TargetOrder(st, p)]
  {
    var uid := UniqueIdFromReference(p.reference);
    if FindOrder(st, p).New? {
      CreateOrderLinks(st, p, uid, data);
    } else {
      var linked, kept := ReconcileUpdates(st, p, data);
      if FindOrder(st, p).Linked? {
        assert linked.orderLinks == st.orderLinks;
        assert st.orderLinks[p.orderId := TargetOrder(st, p)] == st.orderLinks;
      }
    }
  }

  /** A successful storeOrderData is the order part applied after the customer step. */
  lemma StoreOrderStaged(st: EntityStore, p: OrderData) returns (s: EntityStore, data: map<Attr, Value>)
    requires StoreOrder(st, p).Ok?
    ensures StoreOrder(st, p).value == Reconcile(s, p, data)
    ensures s == st.(customers := s.customers) && FindOrder(s, p) == FindOrder(st, p)
    ensures CustomerStep(st.customers, p, OrderDataOf(p)) == Ok((s.customers, data))
  {
    var r := CustomerStep(st.customers, p, OrderDataOf(p)).value;
    s := st.(customers := r.0);
    data := r.1;
  }

  /**
   * After storeOrderData the local order id is linked to an existing order,
   * the one it reconciled; an existing link is kept.
   */
  lemma StoreOrderLinks(st: EntityStore, p: OrderData)
    requires StoreOrder(st, p).Ok?
    ensures FindOrder(StoreOrder(st, p).value, p) == Linked(TargetOrder(st, p))
  {
    var s, data := StoreOrderStaged(st, p);
    ReconcileLinks(s, p, data);
  }

  /** A successful storeOrderData sets the local order id's link to the order it reconciled and no other link. */
  lemma StoreOrderLinkMap(st: EntityStore, p: OrderData)
    requires StoreOrder(st, p).Ok?
    ensures StoreOrder(st, p).value.orderLinks == st.orderLinks[p.orderId := TargetOrder(st, p)]
  {
    var s, data := StoreOrderStaged(st, p);
    ReconcileLinkMap(s, p, data);
  }

  /**
   * storeOrderData creates an order only when the local order id is not linked
   * and no order has the payload's unique id, and then only that one; no
   * existing order disappears.
   */
  lemma StoreOrderOrders(st: EntityStore, p: OrderData)
    requires StoreOrder(st, p).Ok?
    ensures StoreOrder(st, p).value.orders.Keys
      == st.orders.Keys + (if FindOrder(st, p).New? then {UniqueIdFromReference(p.reference)} else {})
  {
    var s, data := StoreOrderStaged(st, p);
    ReconcileOrders(s, p, data);
  }

  /**
   * Reconciling the same payload again creates no order: the first run left the
   * local order id linked, so the second one updates.
   */
  lemma StoreOrderTwice(st: EntityStore, p: OrderData)
    requires StoreOrder(st, p).Ok?
    requires StoreOrder(StoreOrder(st, p).value, p).Ok?
    ensures var once := StoreOrder(st, p).value;
      StoreOrder(once, p).value.orders.Keys == once.orders.Keys
      && FindOrder(once, p) == Linked(TargetOrder(st, p))
  {
    var once := StoreOrder(st, p).value;
    StoreOrderLinks(st, p);
    StoreOrderOrders(once, p);
  }
}
