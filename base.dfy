/**
 * Values shared by every part of the model: an optional value (PHP's NULL), a
 * result that carries the gateway's exceptions, and the loosely typed attribute
 * values that the entity service stores for an order.
 */
module Base {

  datatype Option<+T> = None | Some(value: T) {
    /** The value, or `default` for NULL (PHP's `isset(...) ? ... : default`). */
    function GetOr(default: T): T {
      match this
      case Some(v) => v
      case None => default
    }
  }

  /** The exceptions the gateway throws, one constructor per cause. */
  datatype Error =
    | NoApi                          // NodeException: no REST client for the sync
    | RestFailure(localOrderId: string)  // a REST call failed (wrapped as GatewayException)
    | ListingFailure                 // the id listing call failed
    | MissingLocalOrderIds           // the listing has no "localOrderIds" entry
    | NoAddressName(orderRef: string)    // createCustomerEntity found no address name
    | NoLanguageAddress              // createAddresses' first-address fallback fails (Reconciler.PlanAddressesAsWritten)
    | InvalidItem(entityId: int)      // preprocessRequestItems: unknown item, or wrong type, parent or store
    | InvalidItemQuantity(entityId: int) // preprocessRequestItems: quantity above the recorded one
    | NoResultId                     // the SOAP response yields no shipment / creditmemo id

  datatype Result<+T> = Ok(value: T) | Err(error: Error)

  /**
   * An attribute value as the entity service stores it: NULL, a string, a
   * decimal number, a reference to another entity (kind and unique id), or the
   * payment record that the entity service converts a payment total into.
   */
  datatype Value =
    | Null
    | Str(s: string)
    | Num(n: real)
    | Ref(kind: string, id: string)
    | Payment(code: string, amount: real)

  /**
   * The order attributes the gateway writes, by their attribute codes:
   * customer_name, customer_email, shipping_method, `<code>_total` for a total
   * code, payment_method, status, placed_at, grand_total,
   * base_to_currency_rate, billing_address, shipping_address and customer.
   */
  datatype Attr =
    | CustomerName | CustomerEmail | ShippingMethod | TotalOf(code: string) | PaymentMethod
    | Status | PlacedAt | GrandTotal | BaseToCurrencyRate | BillingAddress | ShippingAddress | Customer

  /** PHP truthiness of an optional string: NULL, "" and "0" are false. */
  predicate Truthy(s: Option<string>) {
    s.Some? && s.value != "" && s.value != "0"
  }

  /** An optional string stored as an attribute value. */
  function OptStr(s: Option<string>): Value {
    if s.Some? then Str(s.value) else Null
  }

  /** The value an optional string becomes in PHP string concatenation. */
  function Text(s: Option<string>): string {
    s.GetOr("")
  }
}
