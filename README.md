# MMS order gateway — a Dafny model

This project models the order gateway of the Magelink MMS module
(`src/Mms/Gateway/OrderGateway.php`). The gateway pulls orders from the MMS
marketplace REST API and reconciles them into Magelink's entity store. The
model covers these parts of it:

- **Retrieval (`Retrieval`, `Gateway.OrderGateway.RetrieveEntities`).** It lists
  the local order ids changed since the stored cursor (the "since id") and
  fetches each order. It skips the orders the status filter rejects, stores the
  others, and finally moves the cursor. Any failure is raised before the cursor
  moves.
- **The status filter and lookups (`Statuses`).** This covers the shippable,
  excluded and first-sync-excluded statuses, the `MMS-` order unique id, the
  store id choice and the shipping-method map.
- **Building the order's attributes (`Aggregator`).** The address loop fills the
  customer name and e-mail. The order item loop sums the per-code totals and the
  rate-weighted price. Then the totals are renamed, the grand total is taken from
  the payment total, the payment method is built, and the defaults, status,
  placement date and exchange rate are set.
- **Reconciliation (`Reconciler`, `Gateway.OrderGateway.StoreOrderData`).** First
  comes the customer step. Then the order is either:
  - updated through its local-id link, keeping a stored grand total;
  - found by its unique id, linked, and updated;
  - or created, with its addresses, link, order items and the initial-sync
    comment.

  An update copies a changed status to the other orders of the order's family
  and moves stock when the order enters a shippable or the closed status. It
  also comments a status change.
- **Order items (`ItemBuilder`, `BundleSku`).** This covers:
  - SKU resolution (master SKU, else SKU, else the fallback SKU);
  - bundle SKUs `BASE**N` with their multiplier;
  - product and stock item (re)linking;
  - the item's amounts, with per-unit price, tax and discount;
  - the stock adjustment of `updateStockQuantities` (`Entities.AdjustStock`).
- **Addresses and customers (`Addresses`, `Reconciler`).** This covers:
  - choosing an address by language code (English bills, Chinese ships);
  - splitting a name into first, middle and last name;
  - the street built from three address lines;
  - address unique ids;
  - the customer built from the English address if it has a name, else the Chinese one, else the first address with a language code.
- **Shipment and credit-memo preparation (`Actions`).** `preprocessRequestItems`
  checks each requested order item against the order and maps it to its local
  id and quantity (NULL or 0 meaning the recorded quantity). The model also
  covers the item lists `actionShip` and `actionCreditmemo` send, and how the
  shipment or credit-memo id is read from the SOAP response.

The entity service is one value, `Entities.EntityStore`, which holds maps of
orders, local-id links, order items, products, stock items, addresses and
customers, plus the list of order comments. The class `Gateway.OrderGateway`
holds that store, the since-id cursor and a counter that stands for
`uniqid()`. Its methods change the store step by step as the PHP methods do.
Each method is proved equal to a pure function of the old state in the other
modules, and the properties of those functions are proved as lemmas.

PHP semantics the model spells out:
- `NULL` is `None`, and `isset` is presence.
- Loose `==` between statuses: NULL equals "" (`Statuses.SameStatus`).
- Loose `== NULL` on a requested quantity holds for both NULL and 0.
- Truthiness: NULL, "" and "0" are false.
- Assigning to an array key keeps an existing key in its place and appends a new
  one (`Actions.Put`).
- `array_shift` takes the first entry.
- `explode` and `implode`.
- `ltrim`, `rtrim` and `trim` with the default character list.
- `strtolower` on ASCII.
- `intval` on a 64-bit build, saturating.

Amounts are `real`.

Where the system's written description and the code disagree, the model follows
the code:
- `"ABC**03"` is accepted as bundle `ABC` with multiplier 3
  (`BundleSku.DecomposeLeadingZeroExample`). The check compares with the
  zero-stripped segment.
- Linking an order found only by its unique id writes a log line, not an
  "Unlinked order" comment.
- The weighted exchange rate is divided only by a positive price mass. A
  negative mass leaves the undivided sum (`Aggregator.RateIsOrderRate`).
- A stored grand total is kept only on the linked-update path. The unique-id
  path overwrites it.

## Model

| member | source | states |
|---|---|---|
| Statuses.IsOrderToBeRetrieved | src/Mms/Gateway/OrderGateway.php:115-127 | shipped, completed and closed orders are never retrieved; partially shipped ones are skipped exactly on the first sync (cursor 1); a missing or any other status is retrieved |
| Statuses.UniqueIdIsMms | src/Mms/Gateway/OrderGateway.php:431-435 | every order unique id the gateway builds passes isMmsOrder, and different marketplace references give different unique ids |
| Statuses.IsMmsOrderMeansPrefix | src/Mms/Gateway/OrderGateway.php:143-147 | isMmsOrder holds exactly for ids that begin with `MMS-` |
| Statuses.EntityStoreId | src/Mms/Gateway/OrderGateway.php:211-225 | store 0 for global entities; otherwise the given store id, or the order's store, and NULL for any other argument |
| Statuses.MappedShippingMethod | src/Mms/Gateway/OrderGateway.php:330-339 | a shipping method exactly for shipping type `direct_mail`, and then `int_ems_china_3-8_tracked` |
| PhpStrings.LTrimSpec | src/Mms/Gateway/OrderGateway.php:792 | ltrim removes exactly the longest prefix of stripped characters: what is left is a suffix not starting with one |
| PhpStrings.RTrimSpec | src/Mms/Gateway/OrderGateway.php:1107 | rtrim removes exactly the longest suffix of stripped characters |
| PhpStrings.TrimEmpty | src/Mms/Gateway/OrderGateway.php:1111 | trim gives "" exactly for strings made of trimmed whitespace |
| PhpStrings.TrimEnds | src/Mms/Gateway/OrderGateway.php:1107 | a non-empty trimmed string neither starts nor ends with whitespace |
| PhpStrings.Lower | src/Mms/Gateway/OrderGateway.php:948 | strtolower keeps the length, turns every ASCII capital into its lower-case letter and leaves every other character as it is |
| PhpStrings.Prefix | src/Mms/Gateway/OrderGateway.php:948 | substr($s, 0, $n) is the first n characters, or the whole string when shorter |
| PhpStrings.FindFrom | src/Mms/Gateway/OrderGateway.php:145 | strpos finds the first occurrence at or after the offset, and none means there is no occurrence |
| PhpStrings.Explode | src/Mms/Gateway/OrderGateway.php:784 | explode gives at least one piece, and exactly one when the separator does not occur |
| PhpStrings.ImplodeExplode | src/Mms/Gateway/OrderGateway.php:784-796 | implode after explode with the same separator gives back the original string |
| PhpStrings.ExplodePiecesFree | src/Mms/Gateway/OrderGateway.php:784 | no piece explode gives contains the separator |
| PhpStrings.LeadingDigitsSpec | src/Mms/Gateway/OrderGateway.php:793 | the digits intval reads are the longest digit prefix |
| PhpStrings.Saturate | src/Mms/Gateway/OrderGateway.php:793 | an out-of-range integer string converts to the nearest 64-bit bound, and an in-range one to itself |
| PhpStrings.Intval | src/Mms/Gateway/OrderGateway.php:793 | intval always gives a 64-bit integer |
| PhpStrings.NatStringDigits | src/Mms/Gateway/OrderGateway.php:792 | `(string)` of a natural number is a digit string without leading zero whose value is that number |
| PhpStrings.NatStringOfDigits | src/Mms/Gateway/OrderGateway.php:792 | rendering the value of a digit string without leading zero gives the string back |
| PhpStrings.LeadingZerosValue | src/Mms/Gateway/OrderGateway.php:792 | leading zeros do not change the value of a digit string |
| BundleSku.IntvalAfterZeros | src/Mms/Gateway/OrderGateway.php:793 | intval of a segment is the value of the digit run left after its leading zeros, when that value fits a 64-bit int |
| BundleSku.TrimmedDigitsRender | src/Mms/Gateway/OrderGateway.php:792 | a non-empty digit run after the leading zeros has a positive value whose `(string)` is that run again |
| BundleSku.Decompose | src/Mms/Gateway/OrderGateway.php:784-802 | the bundle multiplier is always at least 1 |
| BundleSku.ValidMultiplierDigits | src/Mms/Gateway/OrderGateway.php:792-795 | the multiplier check accepts exactly the segments that are, after their leading zeros, a non-empty digit run with a value that fits a 64-bit int; the multiplier is that value |
| BundleSku.DecomposeSplits | src/Mms/Gateway/OrderGateway.php:795-796 | a SKU with a separator and a valid last segment splits so that base SKU, separator and segment spell the original SKU, and the multiplier is intval of the segment |
| BundleSku.DecomposeKeeps | src/Mms/Gateway/OrderGateway.php:797-802 | a SKU without separator, or with an invalid last segment, is kept whole with multiplier 1 |
| BundleSku.DecomposeAccepts | src/Mms/Gateway/OrderGateway.php:784-796 | with the explode pieces: the base is all pieces but the last rejoined by `**`, and the multiplier is intval of the last |
| BundleSku.DecomposeRejects | src/Mms/Gateway/OrderGateway.php:797-802 | with the explode pieces: one piece, or an invalid last piece, keeps the SKU with multiplier 1 |
| BundleSku.SegmentsOf | src/Mms/Gateway/OrderGateway.php:784-791 | the popped segment is the last explode piece, and there are several pieces exactly when the SKU contains the separator |
| BundleSku.RejoinSegments | src/Mms/Gateway/OrderGateway.php:796 | the pieces before the last, rejoined, then the separator and the last piece give the SKU back |
| BundleSku.LastSegmentHasNoSeparator | src/Mms/Gateway/OrderGateway.php:791 | the popped multiplier segment never contains `**` |
| BundleSku.DecomposeLeadingZeroExample | src/Mms/Gateway/OrderGateway.php:792 | `ABC**03` becomes base `ABC` with multiplier 3 |
| BundleSku.DecomposeRejectedExamples | src/Mms/Gateway/OrderGateway.php:795-801 | `ABC**0`, `ABC**x` and `ABC**-2` are kept whole with multiplier 1 |
| BundleSku.DecomposePlainExample | src/Mms/Gateway/OrderGateway.php:784-785 | `ABC` is kept with multiplier 1 |
| Addresses.FirstMatchingFrom | src/Mms/Gateway/OrderGateway.php:946-953 | the index found is the first address from the start index on whose language code matches; none means no address matches |
| Addresses.FindAddress | src/Mms/Gateway/OrderGateway.php:941-959 | the address picked matches the code and no earlier address does; none means none matches or there is no address list |
| Addresses.LanguageMatchIgnoresCase | src/Mms/Gateway/OrderGateway.php:947-948 | an address is English exactly when its language_code starts with `en-` in any ASCII case, and Chinese exactly when it starts with `zh-` in any case |
| Addresses.NameParts | src/Mms/Gateway/OrderGateway.php:994 | splitting a name gives at least one piece |
| Addresses.NameArrayLossless | src/Mms/Gateway/OrderGateway.php:992-1002 | first, middle and last name joined by spaces give the trimmed pieces joined by spaces; a first name exists exactly for two or more pieces, a middle name for three or more; the last piece is the last name |
| Addresses.JoinedRowsEmpty | src/Mms/Gateway/OrderGateway.php:1107 | two street rows joined by a newline and trimmed are empty exactly when both rows are blank |
| Addresses.StreetNullIffBlankLines | src/Mms/Gateway/OrderGateway.php:1096-1111 | the street is NULL exactly when all three address lines are blank; a set street neither starts nor ends with whitespace |
| Addresses.AddressUniqueIdsDistinct | src/Mms/Gateway/OrderGateway.php:1092 | the shared, billing and shipping address unique ids of one order are pairwise different |
| Addresses.CustomerAddress | src/Mms/Gateway/OrderGateway.php:1011-1028 | the English address is used if it has a name, else the Chinese one, else the first one with a language code; it fails, naming the order id, exactly when none of them has a name |
| Entities.StockAttribute | src/Mms/Gateway/OrderGateway.php:360-366 | qty_pre_transit exactly for shippable statuses, available exactly for closed, none otherwise |
| Entities.AdjustStock | src/Mms/Gateway/OrderGateway.php:346-429 | NULL outcome exactly for an unrelated status, FALSE exactly for a missing stock item, both without change; otherwise only the status's attribute of the SKU's stock item grows by the quantity, and nothing else changes |
| Entities.AdjustStockAccumulates | src/Mms/Gateway/OrderGateway.php:388 | two adjustments of the same SKU and status add up, so a repeated adjustment moves stock twice |
| Aggregator.FirstWithKeyIsFirst | src/Mms/Gateway/OrderGateway.php:452-460 | an order key takes the value of the earliest address that sets it, and stays unset when no address does |
| Aggregator.CollectCustomerFields | src/Mms/Gateway/OrderGateway.php:452-460 | the address loop yields the customer fields of the specification function |
| Aggregator.ElementRowsTotal | src/Mms/Gateway/OrderGateway.php:470-485 | an item's elements add quantity times the field sum for a per-item code, and the plain field sum otherwise |
| Aggregator.ItemRowsTotal | src/Mms/Gateway/OrderGateway.php:467-486 | the rows of one order item add up to its contribution, which is nothing without quantity or item |
| Aggregator.TotalIsPerItemSum | src/Mms/Gateway/OrderGateway.php:463-505 | each total is the sum over order items of their contributions: quantity times price for price_total, plain sums for the others |
| Aggregator.OrderTotals | src/Mms/Gateway/OrderGateway.php:462-505 | the fold gives one total per code over all rows |
| Aggregator.RateStep | src/Mms/Gateway/OrderGateway.php:494-497 | a row adds rate times price to the weighted sum and its price to the mass exactly for a positive order rate |
| Aggregator.RateIsOrderRate | src/Mms/Gateway/OrderGateway.php:487-509 | the stored rate is the order rate when rate and price total are positive, 0 when the rate is not positive or the price total is 0, and rate times price total when that total is negative |
| Aggregator.RateOverCases | src/Mms/Gateway/OrderGateway.php:506-508 | the weighted sum over the mass is the rate for a positive rate and positive price total, 0 for a non-positive rate or a zero total, and rate times total, undivided, for a negative total |
| Aggregator.ShippingMethodIsDefault | src/Mms/Gateway/OrderGateway.php:501-503 | a shipping method is found exactly when some order item has a mapped shipping type, and found or by default it is the one known method |
| Aggregator.AllTotalEntries | src/Mms/Gateway/OrderGateway.php:512-515 | the totals loop writes one `<code>_total` attribute per code |
| Aggregator.AssembleTotals | src/Mms/Gateway/OrderGateway.php:510-536 | price_total and payment_total are removed; grand_total is the payment total; payment_method carries it under `mmspay`; status and rate are written |
| Aggregator.AssembleCustomer | src/Mms/Gateway/OrderGateway.php:527-531 | a collected customer name is kept, and the e-mail is the collected one or else the default |
| Aggregator.AssembleShipping | src/Mms/Gateway/OrderGateway.php:527-531 | a collected shipping method is kept, and otherwise the default is used |
| Aggregator.CollectedFacts | src/Mms/Gateway/OrderGateway.php:452-504 | the collected attributes hold the customer name and e-mail exactly when some address has them (the earliest value) and the first mapped shipping method |
| Aggregator.OrderDataTotals | src/Mms/Gateway/OrderGateway.php:510-524 | the order data has no price_total and no payment_total; grand total and payment method both carry the payment total |
| Aggregator.OrderDataDefaults | src/Mms/Gateway/OrderGateway.php:527-533 | the e-mail is the first address e-mail or the default; the shipping method is always `int_ems_china_3-8_tracked`; the status is the payload's |
| Aggregator.OrderDataCustomerName | src/Mms/Gateway/OrderGateway.php:452-460 | the order has a customer name exactly when some address has a name |
| Aggregator.AddRow | src/Mms/Gateway/OrderGateway.php:473-485 | the code loop adds each field a row sets (times the quantity for a per-item code) to its total, and returns the row's values |
| Aggregator.AccumulateElements | src/Mms/Gateway/OrderGateway.php:470-498 | the element loop extends totals, weighted sum and mass by the item's rows |
| Aggregator.AccumulateItems | src/Mms/Gateway/OrderGateway.php:467-505 | the order item loop yields the totals, weighted sum and mass over all rows, and the first mapped shipping method |
| Aggregator.FinishOrderData | src/Mms/Gateway/OrderGateway.php:507-536 | the steps after the loops give the assembled attributes |
| Aggregator.BuildOrderData | src/Mms/Gateway/OrderGateway.php:446-536 | the attributes storeOrderData computes equal the specification function whose totals, defaults and customer name the lemmas above describe |
| ItemBuilder.ResolveSku | src/Mms/Gateway/OrderGateway.php:773-812 | the sold SKU is master_sku, else sku, else the fallback SKU; the multiplier is at least 1, and 1 for the fallback SKU |
| ItemBuilder.Relink | src/Mms/Gateway/OrderGateway.php:836-849 | after unlink and link, a product or stock item carries the payload's local id when there is one, and keeps its stored link otherwise |
| ItemBuilder.StockTarget | src/Mms/Gateway/OrderGateway.php:857-879 | the stock item linked is the one under the sold SKU, else the one under the stored SKU, and none exactly when neither exists |
| ItemBuilder.LinkItem | src/Mms/Gateway/OrderGateway.php:825-887 | nothing changes for the fallback SKU; otherwise the product under the SKU gets Relink of its link and the local product id, the stock item StockTarget picks gets Relink of its link and the local stock item id, and every other product and stock item, every stock level and every other entity stay |
| ItemBuilder.ItemFieldsOf | src/Mms/Gateway/OrderGateway.php:889-918 | the quantity is the ordered quantity times the multiplier; unit price times multiplier gives back the price; totals are the payload's (0 when missing); unit tax and discount times a positive quantity give back the totals, and are 0 otherwise |
| ItemBuilder.AddItem | src/Mms/Gateway/OrderGateway.php:926-927 | the new order item is appended to its parent order's items, and no other order changes |
| ItemBuilder.NewItem | src/Mms/Gateway/OrderGateway.php:814-929 | the order item is stored under its unique id and added to its order; only links and stock besides change |
| ItemBuilder.ItemStepStock | src/Mms/Gateway/OrderGateway.php:931 | a new order item moves the stock once: the stock item under its SKU gains the item's quantity in the attribute the order's status moves, every other level stays, and the stock items keep the links LinkItem gave them |
| ItemBuilder.ItemStepCreates | src/Mms/Gateway/OrderGateway.php:814-931 | an existing order item leaves the store unchanged; a new one is created with its attributes and appended to its order |
| ItemBuilder.ItemEntityOf | src/Mms/Gateway/OrderGateway.php:889-927 | the new order item has its parent, store, local id and resolved SKU, and a product reference exactly when a product exists under a real SKU |
| ItemBuilder.ItemStepFrame | src/Mms/Gateway/OrderGateway.php:814-931 | one item leaves links, addresses, customers, comments, other orders and existing order items unchanged |
| ItemBuilder.CreateItemsFrame | src/Mms/Gateway/OrderGateway.php:762-934 | createItems changes nothing but order items (which are only added), its order's item list, product and stock links, and stock |
| ItemBuilder.CreateItemsCreatesAll | src/Mms/Gateway/OrderGateway.php:768-933 | afterwards every order item of the payload exists |
| ItemBuilder.CreateItemsNoop | src/Mms/Gateway/OrderGateway.php:824 | when every order item exists already nothing changes |
| ItemBuilder.CreateItemsIdempotent | src/Mms/Gateway/OrderGateway.php:816-824 | running createItems twice on the same payload is the same as once: no item is created twice and no stock moves twice |
| ItemBuilder.CarriedSku | src/Mms/Gateway/OrderGateway.php:773-782 | as written, the SKU variable is set after any order item |
| ItemBuilder.StaleSkuExample | src/Mms/Gateway/OrderGateway.php:773-813 | as written, an item without SKU after one with SKU `ABC` splits the carried `ABC`: its unique id is `<order>-ABC-2` and its stock target is ABC's stock item; ResolveSku gives it the fallback SKU and the unique id `<order>-<fallback>-2` |
| ItemBuilder.MultiplierUnsetOnlyFirst | src/Mms/Gateway/OrderGateway.php:773-811 | as written, `$bundleQuantity` is NULL exactly for a first order item without SKU (the fallback branch sets `$sku`, so later items split it); otherwise it is at least 1, and for an item with its own SKU it is ResolveSku's multiplier |
| ItemBuilder.QuantityAsWritten | src/Mms/Gateway/OrderGateway.php:895 | the quantity times a NULL multiplier is 0, and times a set one their product |
| ItemBuilder.ItemPriceAsWritten | src/Mms/Gateway/OrderGateway.php:896-897 | a set price divided by a NULL or zero multiplier is a division by zero; otherwise the unit price times the multiplier gives back the price, and a missing price is 0 |
| ItemBuilder.FallbackQuantityExample | src/Mms/Gateway/OrderGateway.php:811-906 | as written, a first order item without SKU, ordered twice at price 10, has a NULL multiplier, so quantity 0 and a division by zero for its price; with multiplier 1 it keeps quantity 2 and price 10 |
| Reconciler.CreateAddressEntity | src/Mms/Gateway/OrderGateway.php:1086-1123 | the result refers to the address unique id `order-<reference>[-<type>]`; when no address has that id, one is created from the payload address (AddressEntityOf: name array, company, street, region, city, postcode, country, telephone); no existing address changes |
| Reconciler.PlanAddresses | src/Mms/Gateway/OrderGateway.php:1051-1073 | English bills and Chinese ships when both exist; one serves both when the other is missing; the first address with a language code serves both when both are missing; no address otherwise |
| Reconciler.PlanAddressesAsWritten | src/Mms/Gateway/OrderGateway.php:1055-1056 | as written, the plan fails exactly when addresses exist but none is English or Chinese, and otherwise equals PlanAddresses |
| Reconciler.FirstAddressFallbackExample | src/Mms/Gateway/OrderGateway.php:1055-1056 | a French-only order fails as written, and shares its one address under PlanAddresses |
| Reconciler.CreateAddresses | src/Mms/Gateway/OrderGateway.php:1047-1077 | no attributes without an address; a shared address is stored under `order-<reference>` and both attributes refer to it; separate ones under `order-<reference>-billing` and `-shipping`, referred to by billing_address and shipping_address; each new address is built from the plan's address for it; no existing address changes |
| Reconciler.SharedAddress | src/Mms/Gateway/OrderGateway.php:1064-1066 | both attributes refer to `order-<reference>`, which is stored from the address when missing; no existing address changes |
| Reconciler.SeparateAddresses | src/Mms/Gateway/OrderGateway.php:1067-1071 | billing_address refers to `order-<reference>-billing` and shipping_address to `order-<reference>-shipping`, two different ids, each stored from its own address when missing; no existing address changes |
| Reconciler.CustomerStep | src/Mms/Gateway/OrderGateway.php:539-548 | fails exactly when the e-mail is truthy, unknown and no address has a name; a falsy e-mail changes nothing; a known e-mail refers the order to that customer; an unknown one creates the customer named after the chosen address under that address's contact_email_1, refers the order to it, and leaves every other customer as it was |
| Reconciler.CustomerKeysDifferExample | src/Mms/Gateway/OrderGateway.php:539-548 | with a Chinese address (e-mail x@y) before an English one (e-mail b@y), the lookup key is x@y while the customer is created under b@y, replacing the customer stored there |
| Reconciler.EnglishAfterChinese | src/Mms/Gateway/OrderGateway.php:452-460 | with a Chinese address before an English one, the English lookup picks the second address while customer_email comes from the first |
| Reconciler.FindOrder | src/Mms/Gateway/OrderGateway.php:554-567 | the linked path exactly when the local id links an existing order; otherwise the unique-id path when the unique id exists, and the new-order path when it does not |
| Reconciler.OpenOrder | src/Mms/Gateway/OrderGateway.php:572-585 | the new order is stored with its attributes and no items, and its local id is linked to it |
| Reconciler.CopyStatus | src/Mms/Gateway/OrderGateway.php:640-646 | every other order of the family gets the new status; the order itself and orders outside the family stay |
| Reconciler.UpdatedOrders | src/Mms/Gateway/OrderGateway.php:633-653 | the order gets the payload's attributes over its own; on a status change the rest of its family gets the new status; no other order changes |
| Reconciler.StockAfterUpdate | src/Mms/Gateway/OrderGateway.php:649-661 | the stock stays unless the status moves into a shippable or the closed status; on such a move every stock item gains the summed quantity of the order's items with its SKU in the attribute the new status moves, and no other level or link changes |
| Reconciler.AdjustItems | src/Mms/Gateway/OrderGateway.php:655-661 | adjusting for a list of order items keeps the stock items, and changes nothing for a status that moves no stock |
| Reconciler.AdjustItemsMoves | src/Mms/Gateway/OrderGateway.php:655-661 | with updateStockQuantities (:346-429) applied per order item, each stock item gains the summed quantity of the listed order items with its SKU in the status's attribute; other levels and links stay |
| Reconciler.CommentsAfterUpdate | src/Mms/Gateway/OrderGateway.php:633-639 | a status-change comment is added exactly on a status change |
| Reconciler.UpdateOrder | src/Mms/Gateway/OrderGateway.php:631-665 | an update changes exactly the orders, stock and comments, as the three functions above give them |
| Reconciler.KeepGrandTotal | src/Mms/Gateway/OrderGateway.php:615-621 | the payload's attributes are kept, except grand_total, which is dropped exactly when the stored order has a non-NULL one |
| Reconciler.CreateOrderStaged | src/Mms/Gateway/OrderGateway.php:569-604 | order creation is: open the order, create its items, then add the initial-sync comment; every order item exists afterwards |
| Reconciler.CreateOrderOrders | src/Mms/Gateway/OrderGateway.php:569-585 | creating an order adds exactly that order and leaves the others |
| Reconciler.CreateOrderContent | src/Mms/Gateway/OrderGateway.php:572-584 | the new order holds the address attributes under the payload's, heads its own family, and is in the payload's store |
| Reconciler.CreateOrderLinks | src/Mms/Gateway/OrderGateway.php:585-604 | the local id is linked to the new order; no customer changes; the initial-sync comment is the only comment added; every payload item exists and no existing item changes |
| Reconciler.StoreOrderFails | src/Mms/Gateway/OrderGateway.php:539-548 | storeOrderData fails exactly when the order's e-mail is truthy, no customer has it, and no address has a name; the failure names the order id |
| Reconciler.ReconcileLinks | src/Mms/Gateway/OrderGateway.php:554-614 | afterwards the local order id links the order that was reconciled |
| Reconciler.ReconcileOrders | src/Mms/Gateway/OrderGateway.php:561-603 | an order is added exactly on the new-order path, and only the one with the payload's unique id |
| Reconciler.ReconcileUpdates | src/Mms/Gateway/OrderGateway.php:605-665 | an existing order is updated with the payload's attributes (less a kept grand total on the linked path), after linking it on the unique-id path |
| Reconciler.ReconcileAttributes | src/Mms/Gateway/OrderGateway.php:615-653 | the payload's attributes overwrite the stored ones and others are kept; a stored non-NULL grand total of a linked order is kept |
| Reconciler.ReconcileFamily | src/Mms/Gateway/OrderGateway.php:633-647 | a status change reaches every other order of the family; orders outside it never change; without a change no other order changes |
| Reconciler.ReconcileStockAndComments | src/Mms/Gateway/OrderGateway.php:604-675 | a new order gets the initial-sync comment; an update moves stock only on a move into a shippable or closed status and comments exactly a status change |
| Reconciler.ReconcileLinkMap | src/Mms/Gateway/OrderGateway.php:585-613 | the local order id is linked to the reconciled order, and no other link changes |
| Reconciler.StoreOrderStaged | src/Mms/Gateway/OrderGateway.php:539-665 | a successful storeOrderData is the order step applied after the customer step, which touches customers only |
| Reconciler.StoreOrderLinks | src/Mms/Gateway/OrderGateway.php:554-614 | after storeOrderData the local id links the reconciled order |
| Reconciler.StoreOrderLinkMap | src/Mms/Gateway/OrderGateway.php:585-614 | storeOrderData sets only the link of the payload's local id |
| Reconciler.StoreOrderOrders | src/Mms/Gateway/OrderGateway.php:561-603 | storeOrderData adds an order only on the new-order path, and only that one; no order disappears |
| Reconciler.StoreOrderTwice | src/Mms/Gateway/OrderGateway.php:554-603 | storing the same payload again creates no order, because the first run linked it |
| Retrieval.StoreAll | src/Mms/Gateway/OrderGateway.php:719-724 | without failure every listed id has order details |
| Retrieval.StoreAllFailure | src/Mms/Gateway/OrderGateway.php:719-738 | a failure is a listed id whose order details are missing, or storeOrderData's missing address name for the local order id of a listed order |
| Retrieval.Retrieve | src/Mms/Gateway/OrderGateway.php:692-755 | no client, a failed listing or a listing without localOrderIds fail with the store unchanged; a failure keeps the cursor; success moves it to newSinceId (or keeps it) and returns the listing's entry count |
| Retrieval.StoreOrderGrows | src/Mms/Gateway/OrderGateway.php:554-614 | storeOrderData keeps every order and link and adds the link of the payload's local id |
| Retrieval.StoreAllStops | src/Mms/Gateway/OrderGateway.php:719-738 | once the loop has failed the remaining ids change nothing |
| Retrieval.StoreAllGrows | src/Mms/Gateway/OrderGateway.php:719-724 | the loop loses no order and no link |
| Retrieval.StoreAllLast | src/Mms/Gateway/OrderGateway.php:719-724 | one more id after a clean run keeps every link and links the order's local id when the filter lets it through |
| Retrieval.StoreAllLinks | src/Mms/Gateway/OrderGateway.php:719-724 | after a clean loop every listed order the filter lets through is linked |
| Retrieval.StoreAllSkipsFiltered | src/Mms/Gateway/OrderGateway.php:721 | a listing whose orders the filter all rejects leaves the store as it is |
| Retrieval.FirstSyncSkipsFinishedOrders | src/Mms/Gateway/OrderGateway.php:119-121 | on the first sync, shipped, completed, closed and partially shipped orders store nothing while the cursor still advances |
| Retrieval.RetrieveKeeps | src/Mms/Gateway/OrderGateway.php:728-738 | even a failed sync keeps every order and link it had, including those stored before the failure |
| Retrieval.RetrieveLinks | src/Mms/Gateway/OrderGateway.php:719-754 | after a successful sync every listed order the filter lets through has its local id linked |
| Actions.KeyIndex | src/Mms/Gateway/OrderGateway.php:1235 | the position found holds the key and no earlier entry does; none means the key is absent |
| Actions.Put | src/Mms/Gateway/OrderGateway.php:1235 | assigning to an existing key keeps its place with the new quantity; a new key is appended |
| Actions.PutLookup | src/Mms/Gateway/OrderGateway.php:1214 | after the assignment the key has the new quantity, other keys keep theirs, keys stay distinct, and the array grows exactly for a new key |
| Actions.LookupFindsKeys | src/Mms/Gateway/OrderGateway.php:1235 | a key has a quantity exactly when it is one of the keys |
| Actions.CheckItem | src/Mms/Gateway/OrderGateway.php:1218-1235 | an unknown item, or one of another type, order or store, is an invalid item; a quantity above the recorded one is an invalid quantity; otherwise the item's local id with the requested quantity, or the recorded one for NULL or 0 |
| Actions.FromRawStops | src/Mms/Gateway/OrderGateway.php:1217-1236 | after the first failing item the rest change nothing |
| Actions.FromLocatedInOrder | src/Mms/Gateway/OrderGateway.php:1198-1215 | without a request, every located order item is listed in lookup order with its recorded quantity |
| Actions.PairsLookup | src/Mms/Gateway/OrderGateway.php:1212-1215 | each located item's local id maps to its recorded quantity |
| Actions.PairsNewKey | src/Mms/Gateway/OrderGateway.php:1214 | assigning a local id not yet listed appends it with its quantity, as the next located item does |
| Actions.FromRawFails | src/Mms/Gateway/OrderGateway.php:1217-1236 | a request succeeds exactly when every item passes its check, and otherwise fails with the first failing item's error |
| Actions.FromRawQuantities | src/Mms/Gateway/OrderGateway.php:1217-1236 | after a successful request every requested item's local id has the checked quantity |
| Actions.ZeroMeansAll | src/Mms/Gateway/OrderGateway.php:1226-1227 | requesting every item with quantity 0 equals the automatic case with recorded quantities |
| Actions.QtyEntries | src/Mms/Gateway/OrderGateway.php:1331-1333 | one order_item_id and qty entry per preprocessed item, in order |
| Actions.Shipment | src/Mms/Gateway/OrderGateway.php:1330-1339 | fails exactly when preprocessing fails; the order id is the original order's unique id, else the order's own; the item list is NULL exactly when there are no items, else their entries |
| Actions.ShipEverything | src/Mms/Gateway/OrderGateway.php:1330-1336 | shipping without an item list ships every order item, in lookup order, with its recorded quantity |
| Actions.CreditmemoQtys | src/Mms/Gateway/OrderGateway.php:1257-1270 | with refunded items: fails exactly when preprocessing them fails, with its error, and otherwise sends one quantity entry per preprocessed item; without: the same for every order item requested with quantity 0 |
| Actions.ZeroRequest | src/Mms/Gateway/OrderGateway.php:1262-1265 | the fallback request lists every order item, in order, with quantity 0 |
| Actions.CreditmemoRefundsAll | src/Mms/Gateway/OrderGateway.php:1259-1270 | a credit memo without items refunds every order item with its recorded quantity |
| Actions.ResultId | src/Mms/Gateway/OrderGateway.php:1367-1380 | the id is the object's property, the array entry under the key, else the array's first entry, else the plain value; a falsy id is the failure |
| Actions.NamedIsFirstSet | src/Mms/Gateway/OrderGateway.php:1370-1371 | the entry read under the key is the first set entry of that name |
| Gateway.OrderGateway.constructor | src/Mms/Gateway/OrderGateway.php:694 | the gateway starts from an entity store and the stored since id |
| Gateway.OrderGateway.UpdateStockQuantities | src/Mms/Gateway/OrderGateway.php:346-429 | outcome and new stock are AdjustStock's, and nothing else in the store changes |
| Gateway.OrderGateway.CreateItems | src/Mms/Gateway/OrderGateway.php:762-934 | the loop leaves the store that ItemBuilder.CreateItems specifies (frame, creation and idempotence lemmas above) |
| Gateway.OrderGateway.AddressArrayByLanguageCode | src/Mms/Gateway/OrderGateway.php:941-959 | an address exactly when FindAddress finds one, carrying it and a fresh uniqid; only then does the uniqid counter advance |
| Gateway.OrderGateway.CreateAddressEntity | src/Mms/Gateway/OrderGateway.php:1086-1123 | the reference and new addresses are Reconciler.CreateAddressEntity's; nothing else changes |
| Gateway.OrderGateway.CreateAddresses | src/Mms/Gateway/OrderGateway.php:1047-1077 | addresses and attributes are Reconciler.CreateAddresses of PlanAddresses |
| Gateway.OrderGateway.CreateCustomerEntity | src/Mms/Gateway/OrderGateway.php:1009-1040 | fails with the order id exactly when no address has a name, leaving the store; otherwise stores the customer under the chosen address's e-mail and refers to it |
| Gateway.OrderGateway.CopyFamilyStatus | src/Mms/Gateway/OrderGateway.php:640-646 | the orders become CopyStatus of the old orders |
| Gateway.OrderGateway.FamilyWithStatus | src/Mms/Gateway/OrderGateway.php:640-646 | the loop over the family leaves exactly CopyStatus of the old orders |
| Gateway.OrderGateway.AdjustOrderItems | src/Mms/Gateway/OrderGateway.php:655-661 | the loop over the order items equals Reconciler.AdjustItems, whose per-SKU sums Reconciler.AdjustItemsMoves states |
| Gateway.OrderGateway.UpdateAttributes | src/Mms/Gateway/OrderGateway.php:633-653 | the orders become UpdatedOrders of the old orders |
| Gateway.OrderGateway.UpdateExisting | src/Mms/Gateway/OrderGateway.php:631-665 | the store becomes UpdateOrder of the old store |
| Gateway.OrderGateway.AddComment | src/Mms/Gateway/OrderGateway.php:667-674 | the comment is appended and nothing else changes |
| Gateway.OrderGateway.CreateNewOrder | src/Mms/Gateway/OrderGateway.php:569-604 | the store becomes CreateOrder of the old store |
| Gateway.OrderGateway.AttachCustomer | src/Mms/Gateway/OrderGateway.php:539-548 | fails exactly as CustomerStep does, leaving the store; otherwise attributes and customers are CustomerStep's |
| Gateway.OrderGateway.StoreOrderData | src/Mms/Gateway/OrderGateway.php:441-684 | succeeds exactly when StoreOrder does and leaves its store; a failure leaves the store unchanged with StoreOrder's error; the cursor stays |
| Gateway.OrderGateway.RetrieveEntities | src/Mms/Gateway/OrderGateway.php:692-755 | store, cursor and result are Retrieve's on the old store and cursor |
| Gateway.OrderGateway.StoreListed | src/Mms/Gateway/OrderGateway.php:719-738 | the loop over the listed ids leaves the store and the failure of StoreAll on the old store; the cursor stays |
| Gateway.OrderGateway.PreprocessRequestItems | src/Mms/Gateway/OrderGateway.php:1195-1239 | the item array is Preprocess's (properties in the Actions lemmas) |
| Gateway.OrderGateway.LocatedItems | src/Mms/Gateway/OrderGateway.php:1198-1215 | the loop over the located order items builds FromLocated of them |
| Gateway.OrderGateway.RequestedItems | src/Mms/Gateway/OrderGateway.php:1217-1236 | the loop over the requested items gives FromRaw: the first failing check's error, else the checked quantities |
| Gateway.OrderGateway.QtyEntryList | src/Mms/Gateway/OrderGateway.php:1268-1270 | the loop builds QtyEntries of the items |
| Gateway.OrderGateway.ShipmentRequestFor | src/Mms/Gateway/OrderGateway.php:1330-1339 | the shipment request is Shipment's |
| Gateway.OrderGateway.CreditmemoRequestFor | src/Mms/Gateway/OrderGateway.php:1257-1270 | the zero-quantity fallback list and the preprocessing give CreditmemoQtys |

## Left out

- `writeAction` returns NULL at its first statement (:1146), so its body is dead and is not modelled. `writeUpdates` (:1132) is not part of this model either.
- The REST and SOAP clients are parameters. REST answers are `Retrieval.RestApi`, and SOAP responses are `Actions.SoapResult`. The SOAP calls themselves are not modelled: salesOrderShipmentCreate, salesOrderCreditmemoCreate, salesOrderShipmentAddTrack (tracking code) and salesOrderCreditmemoAddComment.
- actionCreditmemo resolves the original order and passes refund amounts to the SOAP call; the model stops at the item list.
- `isOrderShippableOnMms` and `fulfilOrder` are REST calls with no logic of their own besides the status lookup, and are not modelled. `_init` only checks the entity type.
- Logging, the config getters (app id, key, marketplace id, base URL) and `setTimestamp` are not modelled.
- Parsing `created_at` with `strtotime`/`date` is not modelled; the payload carries `placedAt`.
- `getStoreIdFromMarketPlaceId` and `MMS_STORE_PREFIX` are not modelled; the payload carries the store id.
- All entities live in one entity store. Products, stock items, addresses and customers are global (store 0) as the gateway loads them, so store ids matter only as order and order-item attributes.
- Entity transactions and their rollback are not modelled, and neither are failures of the entity service (load, create, update, link) or their wrapping into GatewayException. A failing comment creation, which the code catches and logs, is not modelled either.
- What createEntity does with a unique id that already exists is not modelled; the entity service is not part of this model. Orders, order items and addresses (`order-<reference>[-<type>]`, :1092-1095) are created only after a failed load of the same unique id, so for them the question does not arise; `uniqid()` supplies only the payload address's `address_id` field (:951). Customers are the exception; see the next line.
- Reconciler.CustomerStep: the customer is looked up under `customer_email` (:541-542), the contact_email_1 of the first address that has one (:452-460). It is created under the contact_email_1 of the English, Chinese or first address with a name (:1015-1026, :1037), with a missing e-mail as "". When the creating key names an existing customer, the model replaces that customer (`Reconciler.CustomerKeysDifferExample`). The entity service may instead fail or keep the stored entity. The same holds for Gateway.OrderGateway.CreateCustomerEntity.
- `intval` of exponent and fractional forms is not modelled. The multiplier check rejects them anyway, because it compares with the digit string.
- ItemBuilder.ItemPriceAsWritten: a division by NULL is modelled as one outcome, `DivisionByZero`. PHP 8 throws DivisionByZeroError, while earlier versions warn and go on with INF or NAN; the model does not tell these apart.
- An array-valued order item quantity (:384-386) is not modelled; quantities are numbers.
- Actions.CheckItem: the quantity exception is thrown as the misspelled class `GatewayExceptionn` (:1231), which would itself fail. The model raises the intended invalid-quantity error.
- Actions.CheckItem: an entity id that `loadEntityId` cannot load (:1218) is an invalid item in the model. The code would call a method on NULL.
- Actions.ResultId: a SOAP result nested more than one level deep is not modelled.
- Two address arrays fetched separately differ in their `uniqid()`, so the equality test at :1064 holds only for a shared array. The model states this through `PlanAddresses`, not by comparing arrays.
- Gateway.OrderGateway.RetrieveEntities: `count($results)` is modelled as the number of listing entries (`Retrieval.ResultCount`), not the number of stored orders.

## Findings

| source | as written | input that shows it | evidently intended | confidence | as-written member | corrected member |
|---|---|---|---|---|---|---|
| src/Mms/Gateway/OrderGateway.php:773-782 | `$sku` is set only when master_sku or sku is present, and is not reset between order items, so `isset($sku)` still sees the previous item's (already split) SKU | order items `[{sku: "ABC"}, {no item}]`: the second is stored under unique id `<order>-ABC-2`, with ABC's stock item as its stock target | an item without SKU gets the fallback SKU, unlinked | not executed | ItemBuilder.StaleSkuExample | ItemBuilder.ResolveSku |
| src/Mms/Gateway/OrderGateway.php:811 | the fallback branch does not set `$bundleQuantity` (unset at :906), so quantity is multiplied by NULL and the price divided by it (:895-897) | a first order item without SKU, quantity 2 and price 10: stored quantity 0, and the price division by NULL is a division by zero | multiplier 1 for the fallback SKU | not executed | ItemBuilder.FallbackQuantityExample | ItemBuilder.ItemFieldsOf |
| src/Mms/Gateway/OrderGateway.php:1056 | `getFirstAddressArray()` is called without the required order data, which raises an error inside the creation transaction | an order whose only address has language code `fr-FR`: creating the order fails | the first address with a language code serves for billing and shipping | not executed | Reconciler.PlanAddressesAsWritten | Reconciler.PlanAddresses |
