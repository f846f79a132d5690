/**
 * The first half of storeOrderData: the order attributes computed from the
 * payload before the entity store is consulted. Customer name and e-mail come
 * from the first address that sets them, the item totals are folded over the
 * financial rows of the order items, the exchange rate is weighted by the
 * price of each row, and defaults fill what is still unset.
 */
module Aggregator {

  import opened Base
  import opened Statuses
  import opened Payload

  /** itemTotalCodes: each total code and whether its row value is quantity times the field (per item). */
  const ItemTotalCodes: seq<(string, bool)> :=
    [("discount", false), ("payment", false), ("price", true), ("shipping", false), ("tax", false), ("weight", false)]
  const DiscountIndex := 0
  /** GRAND_TOTAL_BASE is 'payment': the grand total is the payment total. */
  const PaymentIndex := 1
  const PriceIndex := 2
  const ShippingIndex := 3
  const TaxIndex := 4
  const WeightIndex := 5

  /** addressToOrderMap: address key and the order attribute it fills. */
  const AddressToOrderMap: seq<(string, Attr)> := [("name", CustomerName), ("contact_email_1", CustomerEmail)]

  const DefaultEmail := "magelink_log+mms@lero9.com"
  const DefaultShippingMethod := "int_ems_china_3-8_tracked"

  /** orderDefaults: attribute and the value it gets when unset. */
  const OrderDefaults: seq<(Attr, string)> :=
    [(CustomerEmail, DefaultEmail), (ShippingMethod, DefaultShippingMethod)]

  // ---------------------------------------------------- customer fields

  /** The value of `key` in the first address that sets it. */
  function FirstWithKey(addrs: seq<AddressData>, key: string): Option<string> {
    if addrs == [] then None
    else
      var before := FirstWithKey(addrs[..|addrs| - 1], key);
      if before.Some? then before
      else if key in addrs[|addrs| - 1] then Some(addrs[|addrs| - 1][key])
      else None
  }

  /** FirstWithKey finds exactly the value of the earliest address that has the key. */
  lemma {:induction false} FirstWithKeyIsFirst(addrs: seq<AddressData>, key: string)
    ensures FirstWithKey(addrs, key).None? <==> forall j :: 0 <= j < |addrs| ==> key !in addrs[j]
    ensures FirstWithKey(addrs, key).Some? ==>
      exists k :: 0 <= k < |addrs| && key in addrs[k] && FirstWithKey(addrs, key).value == addrs[k][key]
        && forall j :: 0 <= j < k ==> key !in addrs[j]
    decreases |addrs|
  {
    if addrs != [] {
      var init := addrs[..|addrs| - 1];
      FirstWithKeyIsFirst(init, key);
      assert forall j :: 0 <= j < |init| ==> init[j] == addrs[j];
      if FirstWithKey(init, key).None? && key in addrs[|addrs| - 1] {
        var k := |addrs| - 1;
        assert key in addrs[k] && FirstWithKey(addrs, key).value == addrs[k][key];
      }
    }
  }

  /** One order attribute filled from an optional address value. */
  function FieldEntry(orderKey: Attr, v: Option<string>): map<Attr, Value> {
    if v.Some? then map[orderKey := Str(v.value)] else map[]
  }

  /**
   * The attributes the address loop sets: customer_name from the addresses
   * in `nameSource`, customer_email from those in `emailSource` (the same
   * addresses once the loop is done).
   */
  function CustomerFields(nameSource: seq<AddressData>, emailSource: seq<AddressData>): map<Attr, Value> {
    FieldEntry(CustomerName, FirstWithKey(nameSource, "name"))
    + FieldEntry(CustomerEmail, FirstWithKey(emailSource, "contact_email_1"))
  }

  // -------------------------------------------------------------- rows

  /** One financial row: the order item's quantity and one element's financial fields. */
  datatype Row = Row(quantity: real, financials: map<string, real>)

  /** The rows of one order item: one per element under `item`, none unless quantity and item are set. */
  function ItemRows(it: OrderItemData): seq<Row> {
    if it.quantity.Some? && it.item.Some? then ElementRows(it.quantity.value, it.item.value.elements)
    else []
  }

  function ElementRows(quantity: real, elements: seq<map<string, real>>): seq<Row> {
    seq(|elements|, k requires 0 <= k < |elements| => Row(quantity, elements[k]))
  }

  /** The rows of all order items, in payload order. */
  function Rows(items: seq<OrderItemData>): seq<Row> {
    if items == [] then [] else Rows(items[..|items| - 1]) + ItemRows(items[|items| - 1])
  }

  /** What one row adds to the total of code `c`: nothing when the field is unset. */
  function RowValue(row: Row, c: nat): real
    requires c < |ItemTotalCodes|
  {
    var code := ItemTotalCodes[c].0;
    if code !in row.financials then 0.0
    else if ItemTotalCodes[c].1 then row.quantity * row.financials[code]
    else row.financials[code]
  }

  /** The total of code `c` over the rows. */
  function Total(rows: seq<Row>, c: nat): real
    requires c < |ItemTotalCodes|
  {
    if rows == [] then 0.0 else Total(rows[..|rows| - 1], c) + RowValue(rows[|rows| - 1], c)
  }

  lemma {:induction false} TotalAppend(a: seq<Row>, b: seq<Row>, c: nat)
    requires c < |ItemTotalCodes|
    ensures Total(a + b, c) == Total(a, c) + Total(b, c)
    decreases |b|
  {
    if b != [] {
      assert (a + b)[..|a + b| - 1] == a + b[..|b| - 1];
      assert (a + b)[|a + b| - 1] == b[|b| - 1];
      TotalAppend(a, b[..|b| - 1], c);
    } else {
      assert a + b == a;
    }
  }

  /** The sum of one financial field over the elements (unset counts as 0). */
  function FieldSum(elements: seq<map<string, real>>, code: string): real {
    if elements == [] then 0.0
    else
      var last := elements[|elements| - 1];
      FieldSum(elements[..|elements| - 1], code) + (if code in last then last[code] else 0.0)
  }

  /** An order item's contribution to a total: quantity times the field sum per item, else the plain field sum. */
  function ItemContribution(it: OrderItemData, c: nat): real
    requires c < |ItemTotalCodes|
  {
    if it.quantity.Some? && it.item.Some? then
      var s := FieldSum(it.item.value.elements, ItemTotalCodes[c].0);
      if ItemTotalCodes[c].1 then it.quantity.value * s else s
    else 0.0
  }

  /** The item contributions summed over the order items. */
  function ItemsTotal(items: seq<OrderItemData>, c: nat): real
    requires c < |ItemTotalCodes|
  {
    if items == [] then 0.0 else ItemsTotal(items[..|items| - 1], c) + ItemContribution(items[|items| - 1], c)
  }

  lemma {:induction false} ElementRowsTotal(q: real, elements: seq<map<string, real>>, c: nat)
    requires c < |ItemTotalCodes|
    ensures Total(ElementRows(q, elements), c)
      == if ItemTotalCodes[c].1 then q * FieldSum(elements, ItemTotalCodes[c].0) else FieldSum(elements, ItemTotalCodes[c].0)
    decreases |elements|
  {
    if elements != [] {
      var init := elements[..|elements| - 1];
      assert ElementRows(q, elements)[..|elements| - 1] == ElementRows(q, init);
      ElementRowsTotal(q, init, c);
    }
  }

  /**
   * The totals the fold computes: price_total is the sum over order items of
   * quantity times the item's price fields; every other total is the plain
   * sum of its fields, whatever the quantity.
   */
  lemma {:induction false} TotalIsPerItemSum(items: seq<OrderItemData>, c: nat)
    requires c < |ItemTotalCodes|
    ensures Total(Rows(items), c) == ItemsTotal(items, c)
    decreases |items|
  {
    if items != [] {
      var init := items[..|items| - 1];
      var last := items[|items| - 1];
      assert Rows(items) == Rows(init) + ItemRows(last);
      TotalIsPerItemSum(init, c);
      TotalAppend(Rows(init), ItemRows(last), c);
      ItemRowsTotal(last, c);
    }
  }

  /** The rows of one order item add up to its contribution. */
  lemma ItemRowsTotal(it: OrderItemData, c: nat)
    requires c < |ItemTotalCodes|
    ensures Total(ItemRows(it), c) == ItemContribution(it, c)
  {
    if it.quantity.Some? && it.item.Some? {
      ElementRowsTotal(it.quantity.value, it.item.value.elements, c);
    }
  }

  // ------------------------------------------------------ exchange rate

  /** The order-level rate: the applied rate, else the estimated one, else 0. */
  function OrderRate(p: OrderData): real {
    if p.rateApplied.Some? then p.rateApplied.value
    else if p.rateEstimated.Some? then p.rateEstimated.value
    else 0.0
  }

  /**
   * base_to_currency_rate: each row with a positive rate adds rate times its
   * price to the weighted sum and its price to the price mass; a positive mass
   * divides the sum.
   */
  function StoredRate(p: OrderData): real {
    RateOver(OrderRate(p), Total(Rows(Items(p)), PriceIndex))
  }

  /** The division of the weighted sum by the price mass, for an order rate and a price total. */
  function RateOver(r: real, price: real): real {
    var weighted := if r > 0.0 then r * price else 0.0;
    var mass := if r > 0.0 then price else 0.0;
    if mass > 0.0 then weighted / mass else weighted
  }

  /**
   * The stored rate is the order rate when that rate and the price total are
   * positive, 0 when either the rate is not positive or the price total is 0,
   * and the undivided rate times the price total when that total is negative.
   */
  lemma RateIsOrderRate(p: OrderData)
    ensures var r := OrderRate(p);
      var price := Total(Rows(Items(p)), PriceIndex);
      && (r > 0.0 && price > 0.0 ==> StoredRate(p) == r)
      && (r <= 0.0 || price == 0.0 ==> StoredRate(p) == 0.0)
      && (r > 0.0 && price < 0.0 ==> StoredRate(p) == r * price)
  {
    var r := OrderRate(p);
    var price := Total(Rows(Items(p)), PriceIndex);
    assert StoredRate(p) == RateOver(r, price);
    RateOverCases(r, price);
  }

  /** The three cases of the rate division, for any order rate and price total. */
  lemma RateOverCases(r: real, price: real)
    ensures r > 0.0 && price > 0.0 ==> RateOver(r, price) == r
    ensures r <= 0.0 || price == 0.0 ==> RateOver(r, price) == 0.0
    ensures r > 0.0 && price < 0.0 ==> RateOver(r, price) == r * price
  {
    if r > 0.0 && price > 0.0 {
      assert (r * price) / price == r;
    }
  }

  // -------------------------------------------------------- shipping

  /** The shipping method of the first order item whose shipping type is mapped. */
  function FirstShippingMethod(items: seq<OrderItemData>): Option<string> {
    if items == [] then None
    else
      var before := FirstShippingMethod(items[..|items| - 1]);
      if before.Some? then before else MappedShippingMethod(items[|items| - 1].shippingType)
  }

  /**
   * A shipping method is found exactly when some order item has a mapped
   * shipping type; found or by default, it is the one known method.
   */
  lemma {:induction false} ShippingMethodIsDefault(items: seq<OrderItemData>)
    ensures FirstShippingMethod(items).Some? <==>
      exists k :: 0 <= k < |items| && MappedShippingMethod(items[k].shippingType).Some?
    ensures FirstShippingMethod(items).GetOr(DefaultShippingMethod) == DefaultShippingMethod
    decreases |items|
  {
    if items != [] {
      var front := items[..|items| - 1];
      ShippingMethodIsDefault(front);
      if FirstShippingMethod(front).Some? {
        var k :| 0 <= k < |front| && MappedShippingMethod(front[k].shippingType).Some?;
        assert items[k] == front[k];
      } else if FirstShippingMethod(items).None? {
        forall k | 0 <= k < |items|
          ensures MappedShippingMethod(items[k].shippingType).None?
        {
          if k < |front| {
            assert items[k] == front[k];
          }
        }
      }
    }
  }

  // ------------------------------------------------------ order data

  /** The totals of all codes over some rows, as the fold keeps them. */
  predicate TotalsOf(totals: seq<real>, rows: seq<Row>) {
    |totals| == |ItemTotalCodes| && forall c :: 0 <= c < |ItemTotalCodes| ==> totals[c] == Total(rows, c)
  }

  /** The total attributes of the first `c` codes, as the totals loop writes them. */
  function TotalEntries(totals: seq<real>, c: nat): map<Attr, Value>
    requires c <= |totals| && c <= |ItemTotalCodes|
  {
    if c == 0 then map[]
    else TotalEntries(totals, c - 1)[TotalOf(ItemTotalCodes[c - 1].0) := Num(totals[c - 1])]
  }

  /** One `<code>_total` attribute per code. */
  function TotalsMap(totals: seq<real>): map<Attr, Value>
    requires |totals| == |ItemTotalCodes|
  {
    map[TotalOf("discount") := Num(totals[0]), TotalOf("payment") := Num(totals[1]), TotalOf("price") := Num(totals[2]),
      TotalOf("shipping") := Num(totals[3]), TotalOf("tax") := Num(totals[4]), TotalOf("weight") := Num(totals[5])]
  }

  /** The totals loop writes one `<code>_total` attribute per code. */
  lemma AllTotalEntries(totals: seq<real>)
    requires |totals| == |ItemTotalCodes|
    ensures TotalEntries(totals, |ItemTotalCodes|) == TotalsMap(totals)
  {
    assert TotalEntries(totals, 1) == map[TotalOf("discount") := Num(totals[0])];
    assert TotalEntries(totals, 2) == TotalEntries(totals, 1)[TotalOf("payment") := Num(totals[1])];
    assert TotalEntries(totals, 3) == TotalEntries(totals, 2)[TotalOf("price") := Num(totals[2])];
    assert TotalEntries(totals, 4) == TotalEntries(totals, 3)[TotalOf("shipping") := Num(totals[3])];
    assert TotalEntries(totals, 5) == TotalEntries(totals, 4)[TotalOf("tax") := Num(totals[4])];
  }

  /** isset($data[$key]): the attribute is present and not NULL. */
  predicate IsSet(data: map<Attr, Value>, key: Attr) {
    key in data && data[key] != Null
  }

  /** `key` keeps its value when set, and otherwise gets the default. */
  function Default(data: map<Attr, Value>, key: Attr, defaultValue: string): map<Attr, Value> {
    if IsSet(data, key) then data else data[key := Str(defaultValue)]
  }

  /** The defaults loop over the first `c` defaults. */
  function WithDefaults(data: map<Attr, Value>, c: nat): map<Attr, Value>
    requires c <= |OrderDefaults|
  {
    if c == 0 then data
    else Default(WithDefaults(data, c - 1), OrderDefaults[c - 1].0, OrderDefaults[c - 1].1)
  }

  /** The attributes after the address and order item loops. */
  function CollectedData(p: OrderData): map<Attr, Value> {
    var addrs := p.addresses.GetOr([]);
    var customer := CustomerFields(addrs, addrs);
    if |Items(p)| > 0 then customer[ShippingMethod := OptStr(FirstShippingMethod(Items(p)))] else customer
  }

  /** The totals of all codes over the rows of the payload. */
  function OrderTotals(p: OrderData): (totals: seq<real>)
    ensures TotalsOf(totals, Rows(Items(p)))
  {
    seq(|ItemTotalCodes|, c requires 0 <= c < |ItemTotalCodes| => Total(Rows(Items(p)), c))
  }

  /**
   * The steps after the loops, from the collected attributes and the totals:
   * one attribute per total, price_total dropped, payment_total turned into
   * payment_method, the defaults, then status, placement date, grand total
   * and rate.
   */
  function Assemble(collected: map<Attr, Value>, totals: seq<real>, status: Option<string>, placedAt: string,
                    rate: real): map<Attr, Value>
    requires |totals| == |ItemTotalCodes|
  {
    var written := (collected + TotalsMap(totals)) - {TotalOf("price")};
    var converted := written[PaymentMethod := Payment(PaymentCode, totals[PaymentIndex])] - {TotalOf("payment")};
    Default(Default(converted, CustomerEmail, DefaultEmail), ShippingMethod, DefaultShippingMethod)
      [Status := OptStr(status)]
      [PlacedAt := Str(placedAt)]
      [GrandTotal := Num(totals[PaymentIndex])]
      [BaseToCurrencyRate := Num(rate)]
  }

  /**
   * The order attributes storeOrderData computes from the payload alone.
   * OrderDataTotals, OrderDataDefaults and OrderDataCustomerName say what
   * they come to.
   */
  function OrderDataOf(p: OrderData): map<Attr, Value> {
    Assemble(CollectedData(p), OrderTotals(p), p.status, p.placedAt, StoredRate(p))
  }

  /** The collected attributes are at most the customer fields and the shipping method. */
  predicate CollectedShape(collected: map<Attr, Value>) {
    forall k :: k in collected ==> k == CustomerName || k == CustomerEmail || k == ShippingMethod
  }

  /** The steps after the loops drop price_total and payment_total and write grand total, payment method, status and rate. */
  lemma AssembleTotals(collected: map<Attr, Value>, totals: seq<real>, status: Option<string>, placedAt: string, rate: real)
    requires |totals| == |ItemTotalCodes| && CollectedShape(collected)
    ensures var d := Assemble(collected, totals, status, placedAt, rate);
      && TotalOf("price") !in d && TotalOf("payment") !in d
      && d[GrandTotal] == Num(totals[PaymentIndex]) && d[PaymentMethod] == Payment(PaymentCode, totals[PaymentIndex])
      && d[Status] == OptStr(status) && d[BaseToCurrencyRate] == Num(rate)
  {
  }

  /** The steps after the loops keep the collected customer name and fill the e-mail by default. */
  lemma AssembleCustomer(collected: map<Attr, Value>, totals: seq<real>, status: Option<string>, placedAt: string, rate: real)
    requires |totals| == |ItemTotalCodes| && CollectedShape(collected)
    ensures var d := Assemble(collected, totals, status, placedAt, rate);
      && (CustomerName in d <==> CustomerName in collected)
      && d[CustomerEmail] == (if IsSet(collected, CustomerEmail) then collected[CustomerEmail] else Str(DefaultEmail))
  {
  }

  /** The steps after the loops keep a collected shipping method and fill it by default otherwise. */
  lemma AssembleShipping(collected: map<Attr, Value>, totals: seq<real>, status: Option<string>, placedAt: string, rate: real)
    requires |totals| == |ItemTotalCodes| && CollectedShape(collected)
    ensures var d := Assemble(collected, totals, status, placedAt, rate);
      d[ShippingMethod] == (if IsSet(collected, ShippingMethod) then collected[ShippingMethod] else Str(DefaultShippingMethod))
  {
  }

  /** The collected attributes: customer name and e-mail as found, the first mapped shipping method. */
  lemma CollectedFacts(p: OrderData)
    ensures var c := CollectedData(p);
      var addrs := p.addresses.GetOr([]);
      && CollectedShape(c)
      && (CustomerName in c <==> FirstWithKey(addrs, "name").Some?)
      && (CustomerEmail in c <==> FirstWithKey(addrs, "contact_email_1").Some?)
      && (CustomerEmail in c ==> c[CustomerEmail] == Str(FirstWithKey(addrs, "contact_email_1").value))
      && (ShippingMethod in c ==> c[ShippingMethod] == OptStr(FirstShippingMethod(Items(p))))
  {
  }

  /**
   * The order data keeps no price_total and no payment_total; the grand total
   * and the payment method both carry the payment total.
   */
  lemma OrderDataTotals(p: OrderData)
    ensures var d := OrderDataOf(p);
      var payment := Total(Rows(Items(p)), PaymentIndex);
      && TotalOf("price") !in d && TotalOf("payment") !in d
      && d[GrandTotal] == Num(payment) && d[PaymentMethod] == Payment("mmspay", payment)
  {
    CollectedFacts(p);
    AssembleTotals(CollectedData(p), OrderTotals(p), p.status, p.placedAt, StoredRate(p));
  }

  /**
   * Customer e-mail and shipping method are always set: the e-mail from the
   * first address with contact_email_1 or else the default, the shipping
   * method the single known one.
   */
  lemma OrderDataDefaults(p: OrderData)
    ensures var d := OrderDataOf(p);
      && d[CustomerEmail] == Str(FirstWithKey(p.addresses.GetOr([]), "contact_email_1").GetOr(DefaultEmail))
      && d[ShippingMethod] == Str("int_ems_china_3-8_tracked")
      && d[Status] == OptStr(p.status)
  {
    ShippingMethodIsDefault(Items(p));
    CollectedFacts(p);
    AssembleTotals(CollectedData(p), OrderTotals(p), p.status, p.placedAt, StoredRate(p));
    AssembleCustomer(CollectedData(p), OrderTotals(p), p.status, p.placedAt, StoredRate(p));
    AssembleShipping(CollectedData(p), OrderTotals(p), p.status, p.placedAt, StoredRate(p));
  }

  /** There is a customer name exactly when some address has a name. */
  lemma OrderDataCustomerName(p: OrderData)
    ensures CustomerName in OrderDataOf(p)
      <==> exists j :: 0 <= j < |p.addresses.GetOr([])| && "name" in p.addresses.GetOr([])[j]
  {
    FirstWithKeyIsFirst(p.addresses.GetOr([]), "name");
    CollectedFacts(p);
    AssembleCustomer(CollectedData(p), OrderTotals(p), p.status, p.placedAt, StoredRate(p));
  }

  // ------------------------------------------------------ the loops

  /** The address loop: each address fills the order keys that are still unset. */
  method CollectCustomerFields(addresses: Option<seq<AddressData>>) returns (data: map<Attr, Value>)
    ensures data == CustomerFields(addresses.GetOr([]), addresses.GetOr([]))
  {
    data := map[];
    if addresses.Some? {
      var addrs := addresses.value;
      for i := 0 to |addrs|
        invariant data == CustomerFields(addrs[..i], addrs[..i])
      {
        assert addrs[..i + 1][..i] == addrs[..i];
        for c := 0 to |AddressToOrderMap|
          invariant data == CustomerFields(if c > 0 then addrs[..i + 1] else addrs[..i],
            if c > 1 then addrs[..i + 1] else addrs[..i])
        {
          var (addressKey, orderKey) := AddressToOrderMap[c];
          if orderKey !in data && addressKey in addrs[i] {
            data := data[orderKey := Str(addrs[i][addressKey])];
          }
        }
      }
      assert addrs[..|addrs|] == addrs;
    }
  }

  lemma TotalsOfUnique(a: seq<real>, b: seq<real>, rows: seq<Row>)
    requires TotalsOf(a, rows) && TotalsOf(b, rows)
    ensures a == b
  {
  }

  /** The rate-weighted price sum of some rows. */
  function Weighted(p: OrderData, rows: seq<Row>): real {
    if OrderRate(p) > 0.0 then OrderRate(p) * Total(rows, PriceIndex) else 0.0
  }

  /** The price mass of some rows: their price total, counted only for a positive rate. */
  function Mass(p: OrderData, rows: seq<Row>): real {
    if OrderRate(p) > 0.0 then Total(rows, PriceIndex) else 0.0
  }

  /** One more row adds its rate-weighted price to the weighted sum and its price to the mass, for a positive rate. */
  lemma RateStep(p: OrderData, rows: seq<Row>, row: Row)
    ensures Weighted(p, rows + [row])
      == Weighted(p, rows) + (if OrderRate(p) > 0.0 then OrderRate(p) * RowValue(row, PriceIndex) else 0.0)
    ensures Mass(p, rows + [row]) == Mass(p, rows) + (if OrderRate(p) > 0.0 then RowValue(row, PriceIndex) else 0.0)
  {
    assert (rows + [row])[..|rows|] == rows;
    var r := OrderRate(p);
    assert r * (Total(rows, PriceIndex) + RowValue(row, PriceIndex))
      == r * Total(rows, PriceIndex) + r * RowValue(row, PriceIndex);
  }

  /**
   * The order item loop: each order item with quantity and item adds its
   * element rows; the first mapped shipping type gives the shipping method.
   */
  method AccumulateItems(p: OrderData) returns (totals: seq<real>, weighted: real, mass: real, shipping: Option<string>)
    ensures TotalsOf(totals, Rows(Items(p)))
    ensures weighted == Weighted(p, Rows(Items(p)))
    ensures mass == Mass(p, Rows(Items(p)))
    ensures shipping == FirstShippingMethod(Items(p))
  {
    totals := seq(|ItemTotalCodes|, _ => 0.0);
    weighted, mass, shipping := 0.0, 0.0, None;
    var items := Items(p);
    for i := 0 to |items|
      invariant TotalsOf(totals, Rows(items[..i]))
      invariant weighted == Weighted(p, Rows(items[..i]))
      invariant mass == Mass(p, Rows(items[..i]))
      invariant shipping == FirstShippingMethod(items[..i])
    {
      var it := items[i];
      assert items[..i + 1][..i] == items[..i];
      assert Rows(items[..i + 1]) == Rows(items[..i]) + ItemRows(it);
      if it.quantity.Some? && it.item.Some? {
        totals, weighted, mass := AccumulateElements(p, it, totals, weighted, mass, Rows(items[..i]));
      } else {
        assert Rows(items[..i]) + ItemRows(it) == Rows(items[..i]);
      }
      if shipping.None? {
        shipping := MappedShippingMethod(it.shippingType);
      }
    }
    assert items[..|items|] == items;
  }

  /**
   * The element loop of one order item: every element is a row whose totals
   * are added, and whose price is weighted by the order rate when that rate
   * is positive.
   */
  method AccumulateElements(p: OrderData, it: OrderItemData, totals0: seq<real>, weighted0: real, mass0: real,
                            ghost before: seq<Row>)
    returns (totals: seq<real>, weighted: real, mass: real)
    requires it.quantity.Some? && it.item.Some?
    requires TotalsOf(totals0, before) && weighted0 == Weighted(p, before) && mass0 == Mass(p, before)
    ensures TotalsOf(totals, before + ItemRows(it))
    ensures weighted == Weighted(p, before + ItemRows(it))
    ensures mass == Mass(p, before + ItemRows(it))
  {
    totals, weighted, mass := totals0, weighted0, mass0;
    var q := it.quantity.value;
    var elements := it.item.value.elements;
    assert before + ElementRows(q, elements[..0]) == before;
    for j := 0 to |elements|
      invariant TotalsOf(totals, before + ElementRows(q, elements[..j]))
      invariant weighted == Weighted(p, before + ElementRows(q, elements[..j]))
      invariant mass == Mass(p, before + ElementRows(q, elements[..j]))
    {
      ghost var rows := before + ElementRows(q, elements[..j]);
      var row := Row(q, elements[j]);
      assert before + ElementRows(q, elements[..j + 1]) == rows + [row];
      assert (rows + [row])[..|rows|] == rows;
      var rowTotals;
      totals, rowTotals := AddRow(totals, row, rows);
      var itemRate := if p.rateApplied.Some? then p.rateApplied.value
        else if p.rateEstimated.Some? then p.rateEstimated.value else 0.0;
      RateStep(p, rows, row);
      if itemRate > 0.0 {
        weighted := weighted + itemRate * rowTotals[PriceIndex];
        mass := mass + rowTotals[PriceIndex];
      }
    }
    assert elements[..|elements|] == elements;
  }

  /**
   * The code loop of one row: each financial field the row sets (times the
   * quantity for a per-item code) is the row's value for that code and is
   * added to its total.
   */
  method AddRow(totals0: seq<real>, row: Row, ghost before: seq<Row>) returns (totals: seq<real>, rowTotals: seq<real>)
    requires TotalsOf(totals0, before)
    ensures TotalsOf(totals, before + [row])
    ensures |rowTotals| == |ItemTotalCodes| && forall d :: 0 <= d < |ItemTotalCodes| ==> rowTotals[d] == RowValue(row, d)
  {
    assert (before + [row])[..|before|] == before;
    totals := totals0;
    rowTotals := seq(|ItemTotalCodes|, _ => 0.0);
    for c := 0 to |ItemTotalCodes|
      invariant |totals| == |rowTotals| == |ItemTotalCodes|
      invariant forall d :: 0 <= d < c ==> totals[d] == Total(before, d) + RowValue(row, d)
      invariant forall d :: c <= d < |ItemTotalCodes| ==> totals[d] == Total(before, d)
      invariant forall d :: 0 <= d < c ==> rowTotals[d] == RowValue(row, d)
      invariant forall d :: c <= d < |ItemTotalCodes| ==> rowTotals[d] == 0.0
    {
      var (code, perItem) := ItemTotalCodes[c];
      if code in row.financials {
        var fieldValue := row.financials[code];
        if perItem {
          rowTotals := rowTotals[c := row.quantity * fieldValue];
        } else {
          rowTotals := rowTotals[c := fieldValue];
        }
        totals := totals[c := totals[c] + rowTotals[c]];
      }
    }
  }

  /**
   * storeOrderData up to the store lookup: the address loop, the order item
   * loop, the rate division, and the steps after the loops.
   */
  method BuildOrderData(p: OrderData) returns (data: map<Attr, Value>)
    ensures data == OrderDataOf(p)
  {
    data := CollectCustomerFields(p.addresses);
    var totals, rate, mass, shipping := AccumulateItems(p);
    if |Items(p)| > 0 && !IsSet(data, ShippingMethod) {
      data := data[ShippingMethod := OptStr(shipping)];
    }
    assert data == CollectedData(p);
    if mass > 0.0 {
      rate := rate / mass;
    }
    assert rate == StoredRate(p);
    assert totals == OrderTotals(p) by {
      TotalsOfUnique(totals, OrderTotals(p), Rows(Items(p)));
    }
    data := FinishOrderData(data, totals, p.status, p.placedAt, rate);
  }

  /** The steps after the loops, as storeOrderData takes them. */
  method FinishOrderData(collected: map<Attr, Value>, totals: seq<real>, status: Option<string>, placedAt: string,
                         rate: real)
    returns (data: map<Attr, Value>)
    requires |totals| == |ItemTotalCodes|
    ensures data == Assemble(collected, totals, status, placedAt, rate)
  {
    var grandTotal := totals[PaymentIndex];
    data := collected;
    for c := 0 to |ItemTotalCodes|
      invariant data == collected + TotalEntries(totals, c)
    {
      data := data[TotalOf(ItemTotalCodes[c].0) := Num(totals[c])];
    }
    AllTotalEntries(totals);
    data := data - {TotalOf("price")};
    var paymentTotalCode := TotalOf("payment");
    if IsSet(data, paymentTotalCode) {
      data := data[PaymentMethod := Payment(PaymentCode, data[paymentTotalCode].n)] - {paymentTotalCode};
    }
    ghost var converted := data;
    for c := 0 to |OrderDefaults|
      invariant data == WithDefaults(converted, c)
    {
      var (orderKey, defaultValue) := OrderDefaults[c];
      if !IsSet(data, orderKey) {
        data := data[orderKey := Str(defaultValue)];
      }
    }
    data := data[Status := OptStr(status)];
    data := data[PlacedAt := Str(placedAt)];
    data := data[GrandTotal := Num(grandTotal)];
    data := data[BaseToCurrencyRate := Num(rate)];
  }
}
