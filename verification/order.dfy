/** The slice of a Sylius order that the checkout tracker reads. The order is owned by the
    order-management subsystem; the tracker only reads it. */
module Orders {
  import opened Wrappers

  /** A line of the order; the tracker hands it, unread, to the product mapping helpers. */
  datatype OrderItem = OrderItem(variantCode: string, productName: string, unitPrice: int, quantity: int)

  datatype Shipment = Shipment(methodName: string)

  datatype Payment = Payment(methodName: string)

  datatype PromotionCoupon = PromotionCoupon(code: string)

  /** `total` is in minor currency units, as `OrderInterface::getTotal` returns it. */
  datatype Order = Order(
    items: seq<OrderItem>,
    shipments: seq<Shipment>,
    payments: seq<Payment>,
    total: int,
    promotionCoupon: Option<PromotionCoupon>)

  /** The names of the shipments' methods, in shipment order. */
  function ShippingMethodNames(order: Order): (names: seq<string>)
    ensures |names| == |order.shipments|
    ensures forall i :: 0 <= i < |names| ==> names[i] == order.shipments[i].methodName
  {
    seq(|order.shipments|, i requires 0 <= i < |order.shipments| => order.shipments[i].methodName)
  }

  /** The names of the payments' methods, in payment order. */
  function PaymentMethodNames(order: Order): (names: seq<string>)
    ensures |names| == |order.payments|
    ensures forall i :: 0 <= i < |names| ==> names[i] == order.payments[i].methodName
  {
    seq(|order.payments|, i requires 0 <= i < |order.payments| => order.payments[i].methodName)
  }
}
