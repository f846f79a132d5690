/**
 * The pure parts of the ship and credit memo actions: turning the requested
 * order items into the local item ids and quantities the remote shop expects
 * (preprocessRequestItems), the items and order id a shipment request sends,
 * the items a credit memo refunds, and the id read back from a SOAP response.
 */
module Actions {

  import opened Base

  /** An order item entity as preprocessRequestItems reads it: type, parent, store, recorded quantity, local id. */
  datatype ItemRecord = ItemRecord(typeStr: string, parentId: int, storeId: int, quantity: real, localId: string)

  /**
   * The order an action is for: its entity id, its store, its unique id and,
   * when it has one, the unique id of its original order.
   */
  datatype ActionOrder = ActionOrder(id: int, storeId: int, uniqueId: string, originalOrder: Option<string>)

  // ------------------------------------------------------- PHP arrays

  /** A PHP array from local item ids to quantities, in insertion order. */
  type QtyList = seq<(string, real)>

  /** The place of the key in the array, if it is one of its keys. */
  function KeyIndex(a: QtyList, key: string): (r: Option<nat>)
    ensures r.Some? ==> r.value < |a| && a[r.value].0 == key
    ensures r.Some? ==> forall j :: 0 <= j < r.value ==> a[j].0 != key
    ensures r.None? ==> forall j :: 0 <= j < |a| ==> a[j].0 != key
  {
    if a == [] then None
    else if a[|a| - 1].0 == key && KeyIndex(a[..|a| - 1], key).None? then Some(|a| - 1)
    else
      var front := KeyIndex(a[..|a| - 1], key);
      assert forall j :: 0 <= j < |a| - 1 ==> a[..|a| - 1][j] == a[j];
      front
  }

  /** `$a[$key]`: the quantity stored under the key, or NULL. */
  function Lookup(a: QtyList, key: string): Option<real> {
    match KeyIndex(a, key)
    case Some(i) => Some(a[i].1)
    case None => None
  }

  /** Every key occurs once, as in a PHP array. */
  predicate DistinctKeys(a: QtyList) {
    forall i, j :: 0 <= i < j < |a| ==> a[i].0 != a[j].0
  }

  /**
   * `$a[$key] = $v`: an existing key keeps its place and takes the new
   * quantity; a new key is appended.
   */
  function Put(a: QtyList, key: string, v: real): (r: QtyList)
    ensures KeyIndex(a, key).Some? ==> |r| == |a| && r[KeyIndex(a, key).value] == (key, v)
    ensures KeyIndex(a, key).None? ==> r == a + [(key, v)]
  {
    match KeyIndex(a, key)
    case Some(i) => a[i := (key, v)]
    case None => a + [(key, v)]
  }

  /**
   * After `$a[$key] = $v` the key has the new quantity, every other key keeps
   * its quantity, the keys stay distinct, and the array grows by one exactly
   * for a new key.
   */
  lemma PutLookup(a: QtyList, key: string, v: real)
    ensures Lookup(Put(a, key, v), key) == Some(v)
    ensures forall k :: k != key ==> Lookup(Put(a, key, v), k) == Lookup(a, k)
    ensures DistinctKeys(a) ==> DistinctKeys(Put(a, key, v))
    ensures |Put(a, key, v)| == |a| + (if Lookup(a, key).None? then 1 else 0)
  {
    var r := Put(a, key, v);
    assert forall j :: 0 <= j < |r| && j != (if KeyIndex(a, key).Some? then KeyIndex(a, key).value else |a|) ==> r[j] == a[j];
    forall k | k != key ensures Lookup(r, k) == Lookup(a, k) {
      var x := KeyIndex(a, k);
      var y := KeyIndex(r, k);
      if x.Some? && y.Some? {
        assert x.value == y.value;
      }
    }
  }

  /** A key has a quantity exactly when it is one of the array's keys. */
  lemma LookupFindsKeys(a: QtyList, key: string)
    ensures Lookup(a, key).Some? <==> exists i :: 0 <= i < |a| && a[i].0 == key
  {
    if exists i :: 0 <= i < |a| && a[i].0 == key {
      var i :| 0 <= i < |a| && a[i].0 == key;
      assert KeyIndex(a, key).Some?;
    }
  }

  // ------------------------------------------- preprocessRequestItems

  /** The item belongs to the order: an order item with the order as parent, in the order's store. */
  predicate ValidItem(order: ActionOrder, item: ItemRecord) {
    item.typeStr == "orderitem" && item.parentId == order.id && item.storeId == order.storeId
  }

  /**
   * The requested quantity means the recorded one when it is NULL or 0
   * (PHP's `== NULL` holds for both).
   */
  predicate MeansRecorded(q: Option<real>) {
    q.None? || q.value == 0.0
  }

  /**
   * One requested item: an unknown or foreign item is invalid, a quantity above
   * the recorded one is refused; otherwise its local id with the requested
   * quantity, or the recorded one for NULL or 0.
   */
  function CheckItem(order: ActionOrder, entities: map<int, ItemRecord>, entityId: int, q: Option<real>)
    : (r: Result<(string, real)>)
    ensures r.Err? <==> (entityId !in entities || !ValidItem(order, entities[entityId])
      || (!MeansRecorded(q) && q.value > entities[entityId].quantity))
    ensures r.Err? && (entityId !in entities || !ValidItem(order, entities[entityId])) ==> r.error == InvalidItem(entityId)
    ensures r.Err? && entityId in entities && ValidItem(order, entities[entityId]) ==> r.error == InvalidItemQuantity(entityId)
    ensures r.Ok? ==> (r.value.0 == entities[entityId].localId && r.value.1 <= entities[entityId].quantity
      && (MeansRecorded(q) ==> r.value.1 == entities[entityId].quantity)
      && (!MeansRecorded(q) ==> r.value.1 == q.value))
  {
    if entityId !in entities || !ValidItem(order, entities[entityId]) then Err(InvalidItem(entityId))
    else
      var item := entities[entityId];
      if MeansRecorded(q) then Ok((item.localId, item.quantity))
      else if q.value > item.quantity then Err(InvalidItemQuantity(entityId))
      else Ok((item.localId, q.value))
  }

  /** The automatic case: every order item the lookup finds, with its recorded quantity. */
  function FromLocated(located: seq<ItemRecord>): QtyList {
    if located == [] then []
    else
      var last := located[|located| - 1];
      Put(FromLocated(located[..|located| - 1]), last.localId, last.quantity)
  }

  /** The requested case: the items in request order; the first invalid one stops it. */
  function FromRaw(order: ActionOrder, entities: map<int, ItemRecord>, raw: seq<(int, Option<real>)>): Result<QtyList> {
    if raw == [] then Ok([])
    else
      match FromRaw(order, entities, raw[..|raw| - 1])
      case Err(e) => Err(e)
      case Ok(items) =>
        var (entityId, q) := raw[|raw| - 1];
        match CheckItem(order, entities, entityId, q)
        case Err(e) => Err(e)
        case Ok((localId, quantity)) => Ok(Put(items, localId, quantity))
  }

  /** Once an item has failed its check, the remaining items change nothing: the failure stays. */
  lemma {:induction false} FromRawStops(order: ActionOrder, entities: map<int, ItemRecord>, raw: seq<(int, Option<real>)>,
                                        i: nat)
    requires i <= |raw| && FromRaw(order, entities, raw[..i]).Err?
    ensures FromRaw(order, entities, raw) == FromRaw(order, entities, raw[..i])
    decreases |raw| - i
  {
    if i < |raw| {
      var front := raw[..|raw| - 1];
      assert front[..i] == raw[..i];
      FromRawStops(order, entities, front, i);
    } else {
      assert raw[..i] == raw;
    }
  }

  /** preprocessRequestItems: all located order items for NULL, else the requested ones. */
  function Preprocess(order: ActionOrder, entities: map<int, ItemRecord>, located: seq<ItemRecord>,
                      raw: Option<seq<(int, Option<real>)>>): Result<QtyList>
  {
    match raw
    case None => Ok(FromLocated(located))
    case Some(requested) => FromRaw(order, entities, requested)
  }

  /** The local ids of some order items are pairwise different. */
  predicate DistinctLocalIds(items: seq<ItemRecord>) {
    forall i, j :: 0 <= i < j < |items| ==> items[i].localId != items[j].localId
  }

  /** The located items as local id and recorded quantity, in order. */
  function Pairs(items: seq<ItemRecord>): (r: QtyList)
    ensures |r| == |items|
  {
    seq(|items|, i requires 0 <= i < |items| => (items[i].localId, items[i].quantity))
  }

  /**
   * With different local ids the automatic case is every located item, in
   * the lookup's order, with its recorded quantity.
   */
  lemma {:induction false} FromLocatedInOrder(located: seq<ItemRecord>)
    requires DistinctLocalIds(located)
    ensures FromLocated(located) == Pairs(located)
  {
    if located != [] {
      var front := located[..|located| - 1];
      var last := located[|located| - 1];
      assert DistinctLocalIds(front) by {
        forall i, j | 0 <= i < j < |front|
          ensures front[i].localId != front[j].localId
        {
          assert front[i] == located[i] && front[j] == located[j];
        }
      }
      FromLocatedInOrder(front);
      forall j | 0 <= j < |front|
        ensures front[j].localId != last.localId
      {
        assert front[j] == located[j];
      }
      PairsNewKey(front, last);
      assert front + [last] == located;
    }
  }

  /** A located item whose local id is new extends the pairs by its own pair. */
  lemma PairsNewKey(front: seq<ItemRecord>, last: ItemRecord)
    requires forall j :: 0 <= j < |front| ==> front[j].localId != last.localId
    ensures Put(Pairs(front), last.localId, last.quantity) == Pairs(front + [last])
  {
    var pairs := Pairs(front);
    assert forall j :: 0 <= j < |pairs| ==> pairs[j].0 == front[j].localId;
    assert KeyIndex(pairs, last.localId).None?;
    assert pairs + [(last.localId, last.quantity)] == Pairs(front + [last]);
  }

  /** In the located items' pairs, each item's local id has that item's quantity. */
  lemma PairsLookup(located: seq<ItemRecord>, k: nat)
    requires DistinctLocalIds(located) && k < |located|
    ensures Lookup(Pairs(located), located[k].localId) == Some(located[k].quantity)
  {
    var key := located[k].localId;
    var x := KeyIndex(Pairs(located), key);
    assert Pairs(located)[k].0 == key;
    assert x.Some? && x.value == k;
  }

  /**
   * The requested case succeeds exactly when every requested item passes its
   * check, and otherwise fails with the first failing item's error.
   */
  lemma {:induction false} FromRawFails(order: ActionOrder, entities: map<int, ItemRecord>, raw: seq<(int, Option<real>)>)
    ensures FromRaw(order, entities, raw).Ok? <==> forall k :: 0 <= k < |raw| ==> CheckItem(order, entities, raw[k].0, raw[k].1).Ok?
    ensures FromRaw(order, entities, raw).Err? ==> exists k :: (0 <= k < |raw|
      && CheckItem(order, entities, raw[k].0, raw[k].1) == Err(FromRaw(order, entities, raw).error)
      && forall j :: 0 <= j < k ==> CheckItem(order, entities, raw[j].0, raw[j].1).Ok?)
  {
    if raw != [] {
      var front := raw[..|raw| - 1];
      FromRawFails(order, entities, front);
      assert forall k :: 0 <= k < |front| ==> front[k] == raw[k];
    }
  }

  /**
   * A successful request gives every requested item, under its local id, the
   * requested quantity (the recorded one for NULL or 0), when the requested
   * items have different local ids.
   */
  lemma {:induction false} FromRawQuantities(order: ActionOrder, entities: map<int, ItemRecord>, raw: seq<(int, Option<real>)>)
    requires FromRaw(order, entities, raw).Ok?
    requires forall i, j :: 0 <= i < j < |raw| && raw[i].0 in entities && raw[j].0 in entities ==>
      entities[raw[i].0].localId != entities[raw[j].0].localId
    ensures forall k :: 0 <= k < |raw| ==>
      CheckItem(order, entities, raw[k].0, raw[k].1).Ok?
      && Lookup(FromRaw(order, entities, raw).value, entities[raw[k].0].localId)
           == Some(CheckItem(order, entities, raw[k].0, raw[k].1).value.1)
  {
    if raw != [] {
      var front := raw[..|raw| - 1];
      assert forall k :: 0 <= k < |front| ==> front[k] == raw[k];
      FromRawQuantities(order, entities, front);
      var last := raw[|raw| - 1];
      var checked := CheckItem(order, entities, last.0, last.1).value;
      PutLookup(FromRaw(order, entities, front).value, checked.0, checked.1);
    }
  }

  /**
   * Requesting every order item with quantity 0 is the same as the automatic
   * case: 0 means the recorded quantity.
   */
  lemma {:induction false} ZeroMeansAll(order: ActionOrder, entities: map<int, ItemRecord>, ids: seq<int>)
    requires forall k :: 0 <= k < |ids| ==> ids[k] in entities && ValidItem(order, entities[ids[k]])
    ensures FromRaw(order, entities, seq(|ids|, i requires 0 <= i < |ids| => (ids[i], Some(0.0))))
      == Ok(FromLocated(seq(|ids|, i requires 0 <= i < |ids| => entities[ids[i]])))
  {
    if ids != [] {
      var front := ids[..|ids| - 1];
      var raw := seq(|ids|, i requires 0 <= i < |ids| => (ids[i], Some(0.0)));
      var items := seq(|ids|, i requires 0 <= i < |ids| => entities[ids[i]]);
      ZeroMeansAll(order, entities, front);
      assert raw[..|raw| - 1] == seq(|front|, i requires 0 <= i < |front| => (front[i], Some(0.0)));
      assert items[..|items| - 1] == seq(|front|, i requires 0 <= i < |front| => entities[front[i]]);
    }
  }

  // ------------------------------------------------ ship and credit memo

  /** One entry of the quantity list a SOAP call sends. */
  datatype QtyEntry = QtyEntry(orderItemId: string, qty: real)

  /** The preprocessed items as quantity entries, in order. */
  function QtyEntries(items: QtyList): (r: seq<QtyEntry>)
    ensures |r| == |items|
    ensures forall i :: 0 <= i < |items| ==> r[i] == QtyEntry(items[i].0, items[i].1)
  {
    seq(|items|, i requires 0 <= i < |items| => QtyEntry(items[i].0, items[i].1))
  }

  /** What salesOrderShipmentCreate is called with: the order increment id and the items, NULL for none. */
  datatype ShipmentRequest = ShipmentRequest(orderIncrementId: string, itemsQty: Option<seq<QtyEntry>>)

  /**
   * actionShip up to the SOAP call: the original order's unique id when there is
   * one, else the order's own, and the preprocessed items, NULL when there are none.
   */
  function Shipment(order: ActionOrder, entities: map<int, ItemRecord>, located: seq<ItemRecord>,
                    itemsShipped: Option<seq<(int, Option<real>)>>): (r: Result<ShipmentRequest>)
    ensures r.Err? <==> Preprocess(order, entities, located, itemsShipped).Err?
    ensures r.Ok? ==> r.value.orderIncrementId == order.originalOrder.GetOr(order.uniqueId)
    ensures r.Ok? ==> (r.value.itemsQty.None? <==> Preprocess(order, entities, located, itemsShipped).value == [])
    ensures r.Ok? && r.value.itemsQty.Some? ==>
      r.value.itemsQty.value == QtyEntries(Preprocess(order, entities, located, itemsShipped).value)
  {
    match Preprocess(order, entities, located, itemsShipped)
    case Err(e) => Err(e)
    case Ok(items) =>
      var orderId := if order.originalOrder.Some? then order.originalOrder.value else order.uniqueId;
      Ok(ShipmentRequest(orderId, if |items| == 0 then None else Some(QtyEntries(items))))
  }

  /**
   * Shipping without an item list ships every order item, in the lookup's
   * order, with its recorded quantity.
   */
  lemma ShipEverything(order: ActionOrder, entities: map<int, ItemRecord>, located: seq<ItemRecord>)
    requires |located| > 0 && DistinctLocalIds(located)
    ensures var r := Shipment(order, entities, located, None);
      r.Ok? && r.value.itemsQty.Some? && |r.value.itemsQty.value| == |located|
      && forall k :: 0 <= k < |located| ==> r.value.itemsQty.value[k] == QtyEntry(located[k].localId, located[k].quantity)
  {
    FromLocatedInOrder(located);
  }

  /**
   * actionCreditmemo's item list: the refunded items when some are given,
   * else every order item with quantity 0, preprocessed either way.
   */
  function CreditmemoQtys(order: ActionOrder, entities: map<int, ItemRecord>, orderItems: seq<int>,
                          itemsRefunded: Option<seq<(int, Option<real>)>>): (r: Result<seq<QtyEntry>>)
    // refunded items given: they are checked, and on success sent with their checked quantities
    ensures itemsRefunded.Some? && |itemsRefunded.value| > 0 ==>
      (r.Err? <==> FromRaw(order, entities, itemsRefunded.value).Err?)
      && (r.Err? ==> r.error == FromRaw(order, entities, itemsRefunded.value).error)
      && (r.Ok? ==> r.value == QtyEntries(FromRaw(order, entities, itemsRefunded.value).value))
    // none given: every order item is requested with quantity 0 (CreditmemoRefundsAll: its recorded quantity)
    ensures !(itemsRefunded.Some? && |itemsRefunded.value| > 0) ==>
      (r.Err? <==> FromRaw(order, entities, ZeroRequest(orderItems)).Err?)
      && (r.Ok? ==> r.value == QtyEntries(FromRaw(order, entities, ZeroRequest(orderItems)).value))
  {
    var process := if itemsRefunded.Some? && |itemsRefunded.value| > 0 then itemsRefunded.value
      else ZeroRequest(orderItems);
    match FromRaw(order, entities, process)
    case Err(e) => Err(e)
    case Ok(items) => Ok(QtyEntries(items))
  }

  /** The fallback request of actionCreditmemo: every order item with quantity 0. */
  function ZeroRequest(orderItems: seq<int>): (raw: seq<(int, Option<real>)>)
    ensures |raw| == |orderItems|
    ensures forall i :: 0 <= i < |orderItems| ==> raw[i] == (orderItems[i], Some(0.0))
  {
    seq(|orderItems|, i requires 0 <= i < |orderItems| => (orderItems[i], Some(0.0)))
  }

  /** A credit memo without an item list refunds every order item with its recorded quantity. */
  lemma CreditmemoRefundsAll(order: ActionOrder, entities: map<int, ItemRecord>, orderItems: seq<int>,
                             itemsRefunded: Option<seq<(int, Option<real>)>>)
    requires itemsRefunded.None? || itemsRefunded == Some([])
    requires forall k :: 0 <= k < |orderItems| ==> orderItems[k] in entities && ValidItem(order, entities[orderItems[k]])
    ensures CreditmemoQtys(order, entities, orderItems, itemsRefunded)
      == Ok(QtyEntries(FromLocated(seq(|orderItems|, i requires 0 <= i < |orderItems| => entities[orderItems[i]]))))
  {
    ZeroMeansAll(order, entities, orderItems);
  }

  // --------------------------------------------------------- SOAP result

  /**
   * A SOAP response: an object (with the id property, or without it), an
   * array of named entries in order, or a plain value.
   */
  datatype SoapResult =
    | SoapObject(property: Option<string>)
    | SoapArray(entries: seq<(string, Option<string>)>)
    | SoapValue(v: Option<string>)

  /** The first entry of the array under the key, when it is set (not NULL). */
  function Named(entries: seq<(string, Option<string>)>, key: string): Option<string> {
    if entries == [] then None
    else if entries[0].0 == key && entries[0].1.Some? then entries[0].1
    else Named(entries[1..], key)
  }

  /**
   * The id the action reads from the response: an object's property; an
   * array's entry under the key when set, else its first entry (array_shift);
   * a plain value as it is. A falsy id (NULL, "" or "0") is a failure.
   */
  function ResultId(result: SoapResult, key: string): (r: Result<string>)
    ensures r.Ok? ==> Truthy(Some(r.value))
    ensures result.SoapObject? ==> (r.Ok? <==> Truthy(result.property)) && (r.Ok? ==> r.value == result.property.value)
    ensures result.SoapValue? ==> (r.Ok? <==> Truthy(result.v)) && (r.Ok? ==> r.value == result.v.value)
    ensures result.SoapArray? && Named(result.entries, key).Some? ==>
      (r.Ok? <==> Truthy(Named(result.entries, key))) && (r.Ok? ==> r.value == Named(result.entries, key).value)
    ensures result.SoapArray? && Named(result.entries, key).None? && result.entries == [] ==> r == Err(NoResultId)
    ensures result.SoapArray? && Named(result.entries, key).None? && result.entries != [] ==>
      (r.Ok? <==> Truthy(result.entries[0].1)) && (r.Ok? ==> r.value == result.entries[0].1.value)
    ensures r.Err? ==> r.error == NoResultId
  {
    var id := match result
      case SoapObject(property) => property
      case SoapArray(entries) =>
        if Named(entries, key).Some? then Named(entries, key)
        else if entries == [] then None
        else entries[0].1
      case SoapValue(v) => v;
    if Truthy(id) then Ok(id.value) else Err(NoResultId)
  }

  /** The array entry under the key is the first set one of that name. */
  lemma {:induction false} NamedIsFirstSet(entries: seq<(string, Option<string>)>, key: string)
    ensures Named(entries, key).Some? ==> exists i :: (0 <= i < |entries| && entries[i] == (key, Named(entries, key))
      && forall j :: 0 <= j < i ==> !(entries[j].0 == key && entries[j].1.Some?))
    ensures Named(entries, key).None? ==> forall j :: 0 <= j < |entries| ==> !(entries[j].0 == key && entries[j].1.Some?)
  {
    if entries != [] && !(entries[0].0 == key && entries[0].1.Some?) {
      NamedIsFirstSet(entries[1..], key);
      if Named(entries, key).Some? {
        var i :| 0 <= i < |entries[1..]| && entries[1..][i] == (key, Named(entries[1..], key))
          && forall j :: 0 <= j < i ==> !(entries[1..][j].0 == key && entries[1..][j].1.Some?);
        assert entries[i + 1] == (key, Named(entries, key));
        forall j | 0 <= j < i + 1 ensures !(entries[j].0 == key && entries[j].1.Some?) {
          if j > 0 {
            assert entries[j] == entries[1..][j - 1];
          }
        }
      } else {
        forall j | 0 <= j < |entries| ensures !(entries[j].0 == key && entries[j].1.Some?) {
          if j > 0 {
            assert entries[j] == entries[1..][j - 1];
          }
        }
      }
    }
  }
}
