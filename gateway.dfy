/**
 * The order gateway as an object: the entity store it reads and writes, the
 * retrieval cursor (the since id) the node keeps for it, and the source of
 * uniqid() tokens. Its methods are the gateway's procedures, step by step,
 * each proved to leave the state the model's functions describe.
 */
module Gateway {

  import opened Base
  import opened Statuses
  import opened Payload
  import opened Addresses
  import opened Aggregator
  import opened Entities
  import opened ItemBuilder
  import opened Reconciler
  import opened Retrieval
  import opened Actions

  class OrderGateway {

    /** The entity service's entities, as far as the gateway uses them. */
    var store: EntityStore
    /** The since id of the order retrieval (getLastSinceId / setSinceId). */
    var sinceId: int
    /** The next uniqid() token; every call returns a different one. */
    var clock: nat

    constructor (store0: EntityStore, sinceId0: int)
      ensures store == store0 && sinceId == sinceId0 && clock == 0
    {
      store := store0;
      sinceId := sinceId0;
      clock := 0;
    }

    // ------------------------------------------------------------ stock

    /**
     * updateStockQuantities: add the order item's quantity to the stock
     * attribute the order's status moves, on the stock item with the item's SKU.
     */
    method UpdateStockQuantities(status: Option<string>, sku: string, quantity: real) returns (outcome: StockOutcome)
      modifies this
      ensures (outcome, store.stock) == AdjustStock(old(store.stock), status, sku, quantity)
      ensures store == old(store).(stock := store.stock)
      ensures sinceId == old(sinceId) && clock == old(clock)
    {
      var attributeCode: Option<string> := None;
      if IsShippableOrderStatus(status) {
        attributeCode := Some(QtyPreTransit);
      } else if HasOrderStatusClosed(status) {
        attributeCode := Some(Available);
      }
      if attributeCode.None? {
        return WrongStatus;
      }
      if sku !in store.stock {
        return MissingStockItem;
      }
      var stockitem := store.stock[sku];
      var attributeValue := StockLevel(stockitem, attributeCode.value);
      var updated := stockitem.(attrs := stockitem.attrs[attributeCode.value := attributeValue + quantity]);
      store := store.(stock := store.stock[sku := updated]);
      outcome := Adjusted;
    }

    // ------------------------------------------------------------ items

    /**
     * createItems: every order item of the payload that does not exist yet is
     * created under the order, with product and stock item links, and moves
     * the stock for the order's status.
     */
    method CreateItems(orderUid: string, storeId: int, status: Option<string>, items: seq<OrderItemData>)
      modifies this
      ensures store == ItemBuilder.CreateItems(old(store), orderUid, storeId, status, items)
      ensures sinceId == old(sinceId) && clock == old(clock)
    {
      for i := 0 to |items|
        invariant store == ItemBuilder.CreateItems(old(store), orderUid, storeId, status, items[..i])
        invariant sinceId == old(sinceId) && clock == old(clock)
      {
        assert items[..i + 1][..i] == items[..i];
        var it := items[i];
        if ItemUid(orderUid, it) !in store.orderItems {
          var entity := ItemEntity(store, orderUid, storeId, it);
          store := NewItem(store, orderUid, storeId, it);
          var outcome := UpdateStockQuantities(status, entity.fields.sku, entity.fields.quantity);
        }
      }
      assert items[..|items|] == items;
    }

    // -------------------------------------------------------- addresses

    /**
     * getAddressArrayByLanguageCode: the first address whose language code
     * starts with the code (any address with a language code for NULL), with
     * a fresh uniqid() as its address_id; none when no address matches.
     */
    method AddressArrayByLanguageCode(addresses: Option<seq<AddressData>>, code: Option<string>)
      returns (r: Option<AddressArray>)
      modifies this
      ensures r.None? <==> FindAddress(addresses, code).None?
      ensures r.Some? ==> r.value == AddressArray(FindAddress(addresses, code).value, old(clock))
      ensures clock == old(clock) + (if r.Some? then 1 else 0)
      ensures store == old(store) && sinceId == old(sinceId)
    {
      r := None;
      if addresses.Some? {
        var addrs := addresses.value;
        var i := 0;
        while i < |addrs|
          invariant 0 <= i <= |addrs|
          invariant FirstMatchingFrom(addrs, code, i) == FirstMatchingFrom(addrs, code, 0)
          invariant store == old(store) && sinceId == old(sinceId) && clock == old(clock) && r.None?
        {
          if MatchesLanguage(addrs[i], code) {
            r := Some(AddressArray(addrs[i], clock));
            clock := clock + 1;
            break;
          }
          i := i + 1;
        }
      }
    }

    /**
     * createAddressEntity: the address with the order's address unique id,
     * created from the address array when it does not exist yet.
     */
    method CreateAddressEntity(a: AddressData, reference: string, addressType: string) returns (address: Value)
      modifies this
      ensures (store.addresses, address) == Reconciler.CreateAddressEntity(old(store.addresses), a, reference, addressType)
      ensures store == old(store).(addresses := store.addresses)
      ensures sinceId == old(sinceId) && clock == old(clock)
    {
      var uniqueId := AddressUniqueId(reference, addressType);
      if uniqueId !in store.addresses {
        store := store.(addresses := store.addresses[uniqueId := AddressEntityOf(a)]);
      }
      address := Ref("address", uniqueId);
    }

    /**
     * createAddresses: the English address bills and the Chinese one ships;
     * when one is missing the other serves for both, when both are missing the
     * first address with a language code does. Two equal address arrays make
     * one shared address; arrays fetched separately differ in their uniqid().
     */
    method CreateAddresses(reference: string, addresses: Option<seq<AddressData>>) returns (data: map<Attr, Value>)
      modifies this
      ensures (store.addresses, data) == Reconciler.CreateAddresses(old(store.addresses), reference, PlanAddresses(addresses))
      ensures store == old(store).(addresses := store.addresses)
      ensures sinceId == old(sinceId)
    {
      data := map[];
      if addresses.Some? {
        var billingData := AddressArrayByLanguageCode(addresses, Some("en-"));
        var shippingData := AddressArrayByLanguageCode(addresses, Some("zh-"));
        if billingData.None? && shippingData.None? {
          billingData := AddressArrayByLanguageCode(addresses, None);
          shippingData := billingData;
        } else if billingData.None? {
          billingData := shippingData;
        } else if shippingData.None? {
          shippingData := billingData;
        }
        if billingData.Some? {
          if billingData == shippingData {
            var address := CreateAddressEntity(billingData.value.fields, reference, "");
            data := map[BillingAddress := address, ShippingAddress := address];
          } else {
            var billing := CreateAddressEntity(billingData.value.fields, reference, "billing");
            var shipping := CreateAddressEntity(shippingData.value.fields, reference, "shipping");
            data := map[BillingAddress := billing, ShippingAddress := shipping];
          }
        }
      }
    }

    // --------------------------------------------------------- customer

    /**
     * createCustomerEntity: the customer named after the first English, else
     * Chinese, else any address with a name, under that address's e-mail;
     * without such an address it fails.
     */
    method CreateCustomerEntity(p: OrderData) returns (r: Result<Value>)
      modifies this
      ensures r.Err? <==> CustomerAddress(p).Err?
      ensures r.Err? ==> r.error == NoAddressName(p.orderId) && store == old(store)
      ensures r.Ok? ==>
        var a := CustomerAddress(p).value;
        var key := Text(OptField(a, "contact_email_1"));
        r.value == Ref("customer", key) && store == old(store).(customers := old(store).customers[key := CustomerEntityOf(a)])
      ensures sinceId == old(sinceId)
    {
      var englishAddress := AddressArrayByLanguageCode(p.addresses, Some("en-"));
      var chineseAddress := AddressArrayByLanguageCode(p.addresses, Some("zh-"));
      var firstAddress := AddressArrayByLanguageCode(p.addresses, None);
      var chosen: AddressData;
      if englishAddress.Some? && "name" in englishAddress.value.fields {
        chosen := englishAddress.value.fields;
      } else if chineseAddress.Some? && "name" in chineseAddress.value.fields {
        chosen := chineseAddress.value.fields;
      } else if firstAddress.Some? && "name" in firstAddress.value.fields {
        chosen := firstAddress.value.fields;
      } else {
        return Err(NoAddressName(p.orderId));
      }
      var email := Text(OptField(chosen, "contact_email_1"));
      store := store.(customers := store.customers[email := CustomerEntityOf(chosen)]);
      r := Ok(Ref("customer", email));
    }

    // ----------------------------------------------------------- orders

    /** The status copy to the order's family: every other order of getAllOrders() gets the new status. */
    method CopyFamilyStatus(order: string, status: Option<string>)
      requires order in store.orders
      modifies this
      ensures store == old(store).(orders := CopyStatus(old(store).orders, order, status))
      ensures sinceId == old(sinceId) && clock == old(clock)
    {
      var orders := FamilyWithStatus(store.orders, order, status);
      store := store.(orders := orders);
    }

    /** The loop over getAllOrders(): each order of the family but the order itself gets the status. */
    method FamilyWithStatus(orders0: map<string, OrderEntity>, order: string, status: Option<string>)
      returns (orders: map<string, OrderEntity>)
      requires order in orders0
      ensures orders == CopyStatus(orders0, order, status)
    {
      var family := orders0[order].family;
      var members := set u | u in orders0 && orders0[u].family == family;
      orders := orders0;
      var todo := members;
      while todo != {}
        invariant todo <= members
        invariant orders.Keys == orders0.Keys
        invariant forall u :: u in orders0 ==> (orders[u] ==
          if u in members && u !in todo && u != order then orders0[u].(attrs := orders0[u].attrs[Status := OptStr(status)])
          else orders0[u])
        decreases |todo|
      {
        var u :| u in todo;
        if u != order {
          orders := orders[u := orders[u].(attrs := orders[u].attrs[Status := OptStr(status)])];
        }
        todo := todo - {u};
      }
      assert forall u :: u in orders0 ==> orders[u] == CopyStatus(orders0, order, status)[u];
    }

    /** updateStockQuantities for every order item of the order, in order. */
    method AdjustOrderItems(items: seq<string>, status: Option<string>)
      modifies this
      ensures store == old(store).(stock := AdjustItems(old(store).orderItems, old(store).stock, items, status))
      ensures sinceId == old(sinceId) && clock == old(clock)
    {
      for i := 0 to |items|
        invariant store == old(store).(stock := AdjustItems(old(store).orderItems, old(store).stock, items[..i], status))
        invariant sinceId == old(sinceId) && clock == old(clock)
      {
        assert items[..i + 1][..i] == items[..i];
        if items[i] in store.orderItems {
          var orderitem := store.orderItems[items[i]];
          var outcome := UpdateStockQuantities(status, orderitem.fields.sku, orderitem.fields.quantity);
        }
      }
      assert items[..|items|] == items;
    }

    /**
     * The attribute part of an update: on a status change the rest of the
     * family gets the new status, then the order gets the payload's attributes.
     */
    method UpdateAttributes(order: string, data: map<Attr, Value>, status: Option<string>)
      requires order in store.orders
      modifies this
      ensures store == old(store).(orders := UpdatedOrders(old(store).orders, order, data, status))
      ensures sinceId == old(sinceId) && clock == old(clock)
    {
      var existing := store.orders[order];
      if !SameStatus(StatusOf(existing.attrs), status) {
        CopyFamilyStatus(order, status);
      }
      store := store.(orders := store.orders[order := existing.(attrs := existing.attrs + data)]);
    }

    /**
     * The update of an existing order: on a status change the family gets the
     * new status and a comment records the change; the order gets the data;
     * a move into a shippable or the closed status moves its items' stock.
     */
    method UpdateExisting(order: string, uniqueId: string, data: map<Attr, Value>, status: Option<string>)
      requires order in store.orders
      modifies this
      ensures store == UpdateOrder(old(store), order, uniqueId, data, status)
      ensures sinceId == old(sinceId) && clock == old(clock)
    {
      var existing := store.orders[order];
      var oldStatus := StatusOf(existing.attrs);
      UpdateAttributes(order, data, status);
      if MovesStock(oldStatus, status) {
        AdjustOrderItems(existing.items, status);
      }
      if !SameStatus(oldStatus, status) {
        AddComment(StatusComment(order, uniqueId, oldStatus, status));
      }
    }

    /** addComment: the comment is appended to the order comments. */
    method AddComment(c: Comment)
      modifies this
      ensures store == old(store).(comments := old(store).comments + [c])
      ensures sinceId == old(sinceId) && clock == old(clock)
    {
      store := store.(comments := store.comments + [c]);
    }

    /**
     * The new-order path: the addresses, the order with the address
     * attributes under the payload's, its link, its items, and the
     * initial-sync comment.
     */
    method CreateNewOrder(p: OrderData, uniqueId: string, data: map<Attr, Value>)
      modifies this
      ensures store == CreateOrder(old(store), p, uniqueId, data)
      ensures sinceId == old(sinceId)
    {
      var addressData := CreateAddresses(p.reference, p.addresses);
      store := OpenOrder(store, p, uniqueId, store.addresses, addressData + data);
      CreateItems(uniqueId, p.storeId, p.status, Items(p));
      AddComment(InitialComment(uniqueId));
    }

    /**
     * The customer step: with a truthy customer_email the order refers to the
     * existing customer, or to a customer created from the payload.
     */
    method AttachCustomer(p: OrderData, data0: map<Attr, Value>) returns (r: Result<map<Attr, Value>>)
      modifies this
      ensures var spec := CustomerStep(old(store).customers, p, data0);
        (r.Err? <==> spec.Err?)
        && (r.Err? ==> r.error == spec.error && store == old(store))
        && (r.Ok? ==> r.value == spec.value.1 && store == old(store).(customers := spec.value.0))
      ensures sinceId == old(sinceId)
    {
      var email := EmailOf(data0);
      if !Truthy(email) {
        return Ok(data0);
      }
      if email.value in store.customers {
        return Ok(data0[Customer := Ref("customer", email.value)]);
      }
      var customer := CreateCustomerEntity(p);
      if customer.Err? {
        return Err(customer.error);
      }
      r := Ok(data0[Customer := customer.value]);
    }

    /**
     * storeOrderData: build the order's attributes, attach the customer, then
     * update the linked order, or link and update the order with the
     * payload's unique id, or create the order.
     */
    method StoreOrderData(p: OrderData) returns (r: Result<()>)
      modifies this
      ensures r.Ok? <==> StoreOrder(old(store), p).Ok?
      ensures r.Ok? ==> store == StoreOrder(old(store), p).value
      ensures r.Err? ==> store == old(store) && r.error == StoreOrder(old(store), p).error
      ensures sinceId == old(sinceId)
    {
      var data := BuildOrderData(p);
      var uniqueId := UniqueIdFromReference(p.reference);
      var attached := AttachCustomer(p, data);
      if attached.Err? {
        return Err(attached.error);
      }
      data := attached.value;
      ghost var customerStep := store;
      if p.orderId in store.orderLinks && store.orderLinks[p.orderId] in store.orders {
        var existing := store.orderLinks[p.orderId];
        data := KeepGrandTotal(store.orders[existing].attrs, data);
        UpdateExisting(existing, uniqueId, data, p.status);
      } else if uniqueId in store.orders {
        store := store.(orderLinks := store.orderLinks[p.orderId := uniqueId]);
        UpdateExisting(uniqueId, uniqueId, data, p.status);
      } else {
        CreateNewOrder(p, uniqueId, data);
      }
      assert store == Reconcile(customerStep, p, attached.value);
      r := Ok(());
    }

    // -------------------------------------------------------- retrieval

    /**
     * retrieveEntities: list the ids since the cursor, store every order the
     * filter lets through, then move the cursor; any failure is raised before
     * the cursor moves.
     */
    method RetrieveEntities(api: Option<RestApi>) returns (r: Result<nat>)
      modifies this
      ensures var spec := Retrieve(old(store), old(sinceId), api);
        store == spec.store && sinceId == spec.sinceId && r == spec.result
    {
      var since := sinceId;
      if api.None? {
        return Err(NoApi);
      }
      var rest := api.value;
      if since !in rest.listings {
        return Err(ListingFailure);
      }
      var results := rest.listings[since];
      if results.localOrderIds.None? {
        return Err(MissingLocalOrderIds);
      }
      var failure := StoreListed(rest.details, results.localOrderIds.value, since);
      if failure.Some? {
        return Err(failure.value);
      }
      if results.newSinceId.Some? {
        sinceId := results.newSinceId.value;
      }
      r := Ok(ResultCount(results));
    }

    /**
     * The loop over the listed local order ids: fetch each order's details and
     * store it when the filter lets it through; the first failure stops the loop.
     */
    method StoreListed(details: map<string, OrderData>, ids: seq<string>, since: int) returns (failure: Option<Error>)
      modifies this
      ensures StoreAll(old(store), details, ids, since) == Outcome(store, failure)
      ensures sinceId == old(sinceId)
    {
      for i := 0 to |ids|
        invariant StoreAll(old(store), details, ids[..i], since) == Outcome(store, None)
        invariant sinceId == old(sinceId)
      {
        assert ids[..i + 1][..i] == ids[..i];
        var localOrderId := ids[i];
        if localOrderId !in details {
          StoreAllStops(old(store), details, ids, since, i + 1);
          return Some(RestFailure(localOrderId));
        }
        var orderData := details[localOrderId];
        if IsOrderToBeRetrieved(orderData.status, since) {
          var success := StoreOrderData(orderData);
          if success.Err? {
            StoreAllStops(old(store), details, ids, since, i + 1);
            return Some(success.error);
          }
        }
      }
      assert ids[..|ids|] == ids;
      failure := None;
    }

    // --------------------------------------------------------- actions

    /**
     * preprocessRequestItems: without a request every order item the lookup
     * finds with its recorded quantity; otherwise each requested item, checked
     * against the order, under its local id.
     */
    method PreprocessRequestItems(order: ActionOrder, entities: map<int, ItemRecord>, located: seq<ItemRecord>,
                                  rawItems: Option<seq<(int, Option<real>)>>) returns (r: Result<QtyList>)
      ensures r == Preprocess(order, entities, located, rawItems)
    {
      if rawItems.None? {
        var items := LocatedItems(located);
        r := Ok(items);
      } else {
        r := RequestedItems(order, entities, rawItems.value);
      }
    }

    /** The automatic case: each located order item's local id gets its recorded quantity, in lookup order. */
    method LocatedItems(located: seq<ItemRecord>) returns (items: QtyList)
      ensures items == FromLocated(located)
    {
      items := [];
      for i := 0 to |located|
        invariant items == FromLocated(located[..i])
      {
        assert located[..i + 1][..i] == located[..i];
        items := Put(items, located[i].localId, located[i].quantity);
      }
      assert located[..|located|] == located;
    }

    /**
     * The requested case: each requested item must be an order item of the
     * order in its store, and its quantity (the recorded one for NULL or 0)
     * must not exceed the recorded one; the first failure is thrown.
     */
    method RequestedItems(order: ActionOrder, entities: map<int, ItemRecord>, raw: seq<(int, Option<real>)>)
      returns (r: Result<QtyList>)
      ensures r == FromRaw(order, entities, raw)
    {
      var items: QtyList := [];
      for i := 0 to |raw|
        invariant FromRaw(order, entities, raw[..i]) == Ok(items)
      {
        assert raw[..i + 1][..i] == raw[..i];
        var (entityId, quantity) := raw[i];
        if entityId !in entities || !ValidItem(order, entities[entityId]) {
          assert CheckItem(order, entities, entityId, quantity) == Err(InvalidItem(entityId));
          FromRawStops(order, entities, raw, i + 1);
          return Err(InvalidItem(entityId));
        }
        var item := entities[entityId];
        var q := 0.0;
        if MeansRecorded(quantity) {
          q := item.quantity;
        } else if quantity.value > item.quantity {
          assert CheckItem(order, entities, entityId, quantity) == Err(InvalidItemQuantity(entityId));
          FromRawStops(order, entities, raw, i + 1);
          return Err(InvalidItemQuantity(entityId));
        } else {
          q := quantity.value;
        }
        assert CheckItem(order, entities, entityId, quantity) == Ok((item.localId, q));
        items := Put(items, item.localId, q);
      }
      assert raw[..|raw|] == raw;
      r := Ok(items);
    }

    /** The foreach that turns the preprocessed items into the SOAP call's list of order_item_id and qty entries. */
    method QtyEntryList(items: QtyList) returns (entries: seq<QtyEntry>)
      ensures entries == QtyEntries(items)
    {
      entries := [];
      for i := 0 to |items|
        invariant entries == QtyEntries(items[..i])
      {
        entries := entries + [QtyEntry(items[i].0, items[i].1)];
      }
      assert items[..|items|] == items;
    }

    /**
     * actionShip up to the SOAP call: the preprocessed items (NULL when there
     * are none) and the original order's unique id, else the order's own.
     */
    method ShipmentRequestFor(order: ActionOrder, entities: map<int, ItemRecord>, located: seq<ItemRecord>,
                              itemsShipped: Option<seq<(int, Option<real>)>>) returns (r: Result<ShipmentRequest>)
      ensures r == Shipment(order, entities, located, itemsShipped)
    {
      var preprocessed := PreprocessRequestItems(order, entities, located, itemsShipped);
      if preprocessed.Err? {
        return Err(preprocessed.error);
      }
      var items := QtyEntryList(preprocessed.value);
      var orderId := if order.originalOrder.Some? then order.originalOrder.value else order.uniqueId;
      r := Ok(ShipmentRequest(orderId, if |items| == 0 then None else Some(items)));
    }

    /**
     * actionCreditmemo up to the SOAP call: the refunded items when there are
     * some, else every order item with quantity 0, preprocessed into the qtys list.
     */
    method CreditmemoRequestFor(order: ActionOrder, entities: map<int, ItemRecord>, orderItems: seq<int>,
                                itemsRefunded: Option<seq<(int, Option<real>)>>) returns (r: Result<seq<QtyEntry>>)
      ensures r == CreditmemoQtys(order, entities, orderItems, itemsRefunded)
    {
      var processItems: seq<(int, Option<real>)>;
      if itemsRefunded.Some? && |itemsRefunded.value| > 0 {
        processItems := itemsRefunded.value;
      } else {
        processItems := [];
        for i := 0 to |orderItems|
          invariant processItems == seq(i, k requires 0 <= k < i => (orderItems[k], Some(0.0)))
        {
          processItems := processItems + [(orderItems[i], Some(0.0))];
        }
      }
      var preprocessed := PreprocessRequestItems(order, entities, [], Some(processItems));
      if preprocessed.Err? {
        return Err(preprocessed.error);
      }
      var items := QtyEntryList(preprocessed.value);
      r := Ok(items);
    }
  }
}
