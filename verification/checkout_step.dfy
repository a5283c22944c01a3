/** The checkout step tracker: given the order and the checkout step just reached, it decides,
    independently for the Universal Analytics (UA) and the GA4 implementation, which payloads
    to push to the tag manager's data layer. The data layer queue is modelled as the returned
    sequence of payloads, in push order. */
module CheckoutStep {
  import opened Wrappers
  import opened Payload
  import opened Orders
  import Implode

  const StepCart: int := 1
  const StepAddress: int := 2
  const StepShipping: int := 3
  const StepPayment: int := 4
  const StepConfirm: int := 5

  /** The glue placed between the names of shipping or payment methods. */
  const MethodNameGlue: string := ", "

  /** Which Google implementations are switched on; read afresh on every call. */
  datatype Implementations = Implementations(uaEnabled: bool, ga4Enabled: bool)

  /** The product mapping helpers, which this model takes as given: one builds the UA product
      of a line, the other the GA4 product of a line at a position. */
  type UAProductMapper = OrderItem -> Value
  type GA4ProductMapper = (OrderItem, nat) -> Value

  /** Paths of the fields the properties below speak about. */
  const EventPath: seq<string> := [] + ["event"]
  const EcommercePath: seq<string> := [] + ["ecommerce"]
  const UACheckoutPath: seq<string> := EcommercePath + ["checkout"]
  const UAActionFieldPath: seq<string> := UACheckoutPath + ["actionField"]
  const UAStepPath: seq<string> := UAActionFieldPath + ["step"]
  const UAProductsPath: seq<string> := UACheckoutPath + ["products"]

  function EcommerceField(key: string): seq<string>
  {
    EcommercePath + [key]
  }

  /** The push that clears the previous ecommerce object before a GA4 event. */
  const ResetPush: Value := Obj([Field("ecommerce", Null)])

  /** The UA products of the order's lines: one per line, in line order. */
  function ProductsUA(items: seq<OrderItem>, createProductUA: UAProductMapper): (products: seq<Value>)
    ensures |products| == |items|
    ensures forall i :: 0 <= i < |items| ==> products[i] == createProductUA(items[i])
  {
    if |items| == 0 then []
    else [createProductUA(items[0])] + ProductsUA(items[1..], createProductUA)
  }

  /** The GA4 products of `items`, the first one at position `first`. */
  function ProductsGA4From(items: seq<OrderItem>, createProductGA4: GA4ProductMapper, first: nat)
    : (products: seq<Value>)
    ensures |products| == |items|
    ensures forall i :: 0 <= i < |items| ==> products[i] == createProductGA4(items[i], first + i)
  {
    if |items| == 0 then []
    else [createProductGA4(items[0], first)] + ProductsGA4From(items[1..], createProductGA4, first + 1)
  }

  /** The GA4 products of the order's lines: one per line, in line order, each built with the
      line's position in the order. */
  function ProductsGA4(items: seq<OrderItem>, createProductGA4: GA4ProductMapper): (products: seq<Value>)
    ensures |products| == |items|
    ensures forall i :: 0 <= i < |items| ==> products[i] == createProductGA4(items[i], i)
  {
    ProductsGA4From(items, createProductGA4, 0)
  }

  /** The value holds exactly the UA products of `items`, in order. */
  predicate ListsUAProducts(v: Option<Value>, items: seq<OrderItem>, createProductUA: UAProductMapper)
  {
    && v.Some? && v.value.List?
    && |v.value.elems| == |items|
    && forall i :: 0 <= i < |items| ==> v.value.elems[i] == createProductUA(items[i])
  }

  /** The value holds exactly the GA4 products of `items`, each with its position. */
  predicate ListsGA4Products(v: Option<Value>, items: seq<OrderItem>, createProductGA4: GA4ProductMapper)
  {
    && v.Some? && v.value.List?
    && |v.value.elems| == |items|
    && forall i :: 0 <= i < |items| ==> v.value.elems[i] == createProductGA4(items[i], i)
  }

  /** The `checkout` object of the UA event: the step, then the products unless the step lies
      beyond Confirm. */
  function UACheckout(order: Order, step: int, createProductUA: UAProductMapper): (checkout: seq<Field>)
    ensures WellKeyed(checkout)
    ensures Keys(checkout) == ["actionField"] + (if step <= StepConfirm then ["products"] else [])
  {
    [Field("actionField", Obj([Field("step", Int(step))]))]
    + (if step <= StepConfirm then [Field("products", List(ProductsUA(order.items, createProductUA)))] else [])
  }

  /** The UA branch: nothing on Confirm, otherwise one `checkout` event for the step. The step
      is not range-checked: past Confirm the event carries no products. */
  function AddStepUA(order: Order, step: int, createProductUA: UAProductMapper): (pushes: seq<Value>)
    ensures step == StepConfirm <==> pushes == []
    ensures step != StepConfirm ==> |pushes| == 1
  {
    if step == StepConfirm then []
    else
      var checkout := UACheckout(order, step, createProductUA);
      [Obj([Field("event", Str("checkout")), Field("ecommerce", Obj([Field("checkout", Obj(checkout))]))])]
  }

  /** What a GA4 step triggers: the event name and the extra field merged into its payload. */
  datatype GA4Trigger = GA4Trigger(event: string, additionalData: seq<Field>)

  /** The GA4 step table; Shipping and every step outside it trigger nothing. */
  function GA4TriggerFor(order: Order, step: int): (trigger: Option<GA4Trigger>)
    ensures trigger.Some? <==> step in {StepCart, StepAddress, StepPayment, StepConfirm}
    ensures trigger.Some? ==> WellKeyed(trigger.value.additionalData)
    ensures trigger.Some? ==>
      (Keys(trigger.value.additionalData)
       == (if step == StepPayment then ["shipping_tier"] else if step == StepConfirm then ["payment_type"] else []))
  {
    if step == StepCart then Some(GA4Trigger("view_cart", []))
    else if step == StepAddress then Some(GA4Trigger("begin_checkout", []))
    else if step == StepPayment then
      Some(GA4Trigger("add_shipping_info",
        [Field("shipping_tier", Str(Implode.Join(MethodNameGlue, ShippingMethodNames(order))))]))
    else if step == StepConfirm then
      Some(GA4Trigger("add_payment_info",
        [Field("payment_type", Str(Implode.Join(MethodNameGlue, PaymentMethodNames(order))))]))
    else None
  }

  /** The GA4 cart: currency, value in major units, products, then the coupon if any. */
  function GA4Cart(order: Order, currencyCode: string, createProductGA4: GA4ProductMapper): (cart: seq<Field>)
    ensures WellKeyed(cart)
    ensures Keys(cart) == ["currency", "value", "items"] + (if order.promotionCoupon.Some? then ["coupon"] else [])
    ensures forall k :: HasKey(cart, k) ==> k in ["currency", "value", "items", "coupon"]
  {
    [ Field("currency", Str(currencyCode)),
      Field("value", Num(order.total as real / 100.0)),
      Field("items", List(ProductsGA4(order.items, createProductGA4))) ]
    + (match order.promotionCoupon
       case Some(coupon) => [Field("coupon", Str(coupon.code))]
       case None => [])
  }

  /** The GA4 branch: for a step in the table, the reset push, then the event whose ecommerce
      object is the extra field merged with the cart. */
  function AddStepGA4(order: Order, step: int, currencyCode: string, createProductGA4: GA4ProductMapper)
    : (pushes: seq<Value>)
    ensures pushes == [] || |pushes| == 2
    ensures |pushes| == 2 <==> step in {StepCart, StepAddress, StepPayment, StepConfirm}
    ensures |pushes| == 2 ==> pushes[0] == ResetPush
  {
    match GA4TriggerFor(order, step)
    case None => []
    case Some(trigger) =>
      [ ResetPush,
        Obj([ Field("event", Str(trigger.event)),
              Field("ecommerce", Obj(ArrayMerge(trigger.additionalData, GA4Cart(order, currencyCode, createProductGA4)))) ]) ]
  }

  /** `addStep`: the UA pushes when UA is on, followed by the GA4 pushes when GA4 is on. */
  function AddStep(
    implementations: Implementations, order: Order, step: int, currencyCode: string,
    createProductUA: UAProductMapper, createProductGA4: GA4ProductMapper): (pushes: seq<Value>)
    ensures |pushes| == (if implementations.uaEnabled && step != StepConfirm then 1 else 0)
      + (if implementations.ga4Enabled && step in {StepCart, StepAddress, StepPayment, StepConfirm} then 2 else 0)
    ensures implementations.ga4Enabled && step in {StepCart, StepAddress, StepPayment, StepConfirm} ==>
      pushes[|pushes| - 2] == ResetPush
  {
    (if implementations.uaEnabled then AddStepUA(order, step, createProductUA) else [])
    + (if implementations.ga4Enabled then AddStepGA4(order, step, currencyCode, createProductGA4) else [])
  }

  /** The one UA push for a step other than Confirm is a `checkout` event carrying the step as
      given; it lists the order's products, one per line in line order, exactly when the step
      is at most Confirm; and no object in it holds any other key. */
  lemma UACheckoutPush(order: Order, step: int, createProductUA: UAProductMapper)
    requires step != StepConfirm
    ensures |AddStepUA(order, step, createProductUA)| == 1
    ensures var push := AddStepUA(order, step, createProductUA)[0];
      && At(push, EventPath) == Some(Str("checkout"))
      && At(push, UAStepPath) == Some(Int(step))
      && (HasPath(push, UAProductsPath) <==> step <= StepConfirm)
      && (step <= StepConfirm ==> ListsUAProducts(At(push, UAProductsPath), order.items, createProductUA))
    ensures var push := AddStepUA(order, step, createProductUA)[0];
      && KeysAt(push, []) == Some(["event", "ecommerce"])
      && KeysAt(push, EcommercePath) == Some(["checkout"])
      && KeysAt(push, UACheckoutPath) == Some(["actionField"] + (if step <= StepConfirm then ["products"] else []))
      && KeysAt(push, UAActionFieldPath) == Some(["step"])
  {
    var push := AddStepUA(order, step, createProductUA)[0];
    var checkout := UACheckout(order, step, createProductUA);
    var ecommerce := [Field("checkout", Obj(checkout))];
    var actionField := [Field("step", Int(step))];
    assert push.fields[1] == Field("ecommerce", Obj(ecommerce));
    assert checkout[0] == Field("actionField", Obj(actionField));
    assert Keys(ecommerce) == ["checkout"];
    assert Keys(actionField) == ["step"];
    assert At(push, []) == Some(push);
    assert Keys(push.fields) == ["event", "ecommerce"];
    AtSnoc(push, [], "event");
    AtSnoc(push, [], "ecommerce");
    AtSnoc(push, EcommercePath, "checkout");
    AtSnoc(push, UACheckoutPath, "actionField");
    AtSnoc(push, UACheckoutPath, "products");
    AtSnoc(push, UAActionFieldPath, "step");
    if step <= StepConfirm {
      GetWellKeyed(checkout, 1);
    }
  }

  /** The GA4 event payload of a step in the table: it holds exactly `event` and `ecommerce`,
      and its ecommerce object is the step's extra field followed by the cart, in that order,
      since their keys never clash. */
  lemma GA4EventPayload(order: Order, step: int, currencyCode: string, createProductGA4: GA4ProductMapper)
    requires GA4TriggerFor(order, step).Some?
    ensures var pushes := AddStepGA4(order, step, currencyCode, createProductGA4);
      var trigger := GA4TriggerFor(order, step).value;
      && |pushes| == 2
      && KeysAt(pushes[1], []) == Some(["event", "ecommerce"])
      && At(pushes[1], EventPath) == Some(Str(trigger.event))
      && At(pushes[1], EcommercePath)
         == Some(Obj(trigger.additionalData + GA4Cart(order, currencyCode, createProductGA4)))
  {
    var push := AddStepGA4(order, step, currencyCode, createProductGA4)[1];
    var trigger := GA4TriggerFor(order, step).value;
    var cart := GA4Cart(order, currencyCode, createProductGA4);
    forall k | HasKey(trigger.additionalData, k) ensures !HasKey(cart, k) {
      assert k == "shipping_tier" || k == "payment_type";
    }
    ArrayMergeDisjoint(trigger.additionalData, cart);
    assert At(push, []) == Some(push);
    assert Keys(push.fields) == ["event", "ecommerce"];
    AtSnoc(push, [], "event");
    AtSnoc(push, [], "ecommerce");
  }

  /** A field of the ecommerce object of a GA4 event, looked up through the event payload. */
  lemma GA4EcommerceGet(
    order: Order, step: int, currencyCode: string, createProductGA4: GA4ProductMapper, key: string)
    requires GA4TriggerFor(order, step).Some?
    ensures var pushes := AddStepGA4(order, step, currencyCode, createProductGA4);
      var trigger := GA4TriggerFor(order, step).value;
      && |pushes| == 2
      && At(pushes[1], EcommerceField(key))
         == Get(trigger.additionalData + GA4Cart(order, currencyCode, createProductGA4), key)
  {
    GA4EventPayload(order, step, currencyCode, createProductGA4);
    AtSnoc(AddStepGA4(order, step, currencyCode, createProductGA4)[1], EcommercePath, key);
  }

  /** The GA4 step table: Cart, Address, Payment and Confirm name their events; Shipping, and
      any step outside the table, pushes nothing at all, not even the reset. */
  lemma GA4StepTable(order: Order, step: int, currencyCode: string, createProductGA4: GA4ProductMapper)
    ensures var pushes := AddStepGA4(order, step, currencyCode, createProductGA4);
      && (step == StepCart ==> At(pushes[1], EventPath) == Some(Str("view_cart")))
      && (step == StepAddress ==> At(pushes[1], EventPath) == Some(Str("begin_checkout")))
      && (step == StepPayment ==> At(pushes[1], EventPath) == Some(Str("add_shipping_info")))
      && (step == StepConfirm ==> At(pushes[1], EventPath) == Some(Str("add_payment_info")))
      && (step == StepShipping ==> pushes == [])
  {
  }

  /** The extra field of a GA4 event: `shipping_tier` exactly on Payment and `payment_type`
      exactly on Confirm, each the method names joined with ", " in order. */
  lemma GA4ExtraField(order: Order, step: int, currencyCode: string, createProductGA4: GA4ProductMapper)
    requires step in {StepCart, StepAddress, StepPayment, StepConfirm}
    ensures var pushes := AddStepGA4(order, step, currencyCode, createProductGA4);
      && (HasPath(pushes[1], EcommerceField("shipping_tier")) <==> step == StepPayment)
      && (HasPath(pushes[1], EcommerceField("payment_type")) <==> step == StepConfirm)
      && (step == StepPayment ==>
            (At(pushes[1], EcommerceField("shipping_tier"))
             == Some(Str(Implode.Join(", ", ShippingMethodNames(order))))))
      && (step == StepConfirm ==>
            (At(pushes[1], EcommerceField("payment_type"))
             == Some(Str(Implode.Join(", ", PaymentMethodNames(order))))))
  {
    var trigger := GA4TriggerFor(order, step).value;
    var cart := GA4Cart(order, currencyCode, createProductGA4);
    assert !HasKey(cart, "shipping_tier") && !HasKey(cart, "payment_type");
    GA4EcommerceGet(order, step, currencyCode, createProductGA4, "shipping_tier");
    GA4EcommerceGet(order, step, currencyCode, createProductGA4, "payment_type");
    GetAppend(trigger.additionalData, cart, "shipping_tier");
    GetAppend(trigger.additionalData, cart, "payment_type");
  }

  /** With no shipping method the shipping tier is the empty string; with one, its name. The
      same holds for the payment type and the payment methods. */
  lemma GA4ExtraFieldEdgeCases(order: Order, currencyCode: string, createProductGA4: GA4ProductMapper)
    ensures var pushes := AddStepGA4(order, StepPayment, currencyCode, createProductGA4);
      && (|order.shipments| == 0 ==> At(pushes[1], EcommerceField("shipping_tier")) == Some(Str("")))
      && (|order.shipments| == 1 ==>
            At(pushes[1], EcommerceField("shipping_tier")) == Some(Str(order.shipments[0].methodName)))
    ensures var pushes := AddStepGA4(order, StepConfirm, currencyCode, createProductGA4);
      && (|order.payments| == 0 ==> At(pushes[1], EcommerceField("payment_type")) == Some(Str("")))
      && (|order.payments| == 1 ==>
            At(pushes[1], EcommerceField("payment_type")) == Some(Str(order.payments[0].methodName)))
  {
    GA4ExtraField(order, StepPayment, currencyCode, createProductGA4);
    GA4ExtraField(order, StepConfirm, currencyCode, createProductGA4);
  }

  /** The cart inside a GA4 event: the current currency, a value that is the order total in
      major units, and one product per line with its position. */
  lemma GA4CartShape(order: Order, step: int, currencyCode: string, createProductGA4: GA4ProductMapper)
    requires step in {StepCart, StepAddress, StepPayment, StepConfirm}
    ensures var pushes := AddStepGA4(order, step, currencyCode, createProductGA4);
      && At(pushes[1], EcommerceField("currency")) == Some(Str(currencyCode))
      && At(pushes[1], EcommerceField("value")).Some?
      && At(pushes[1], EcommerceField("value")).value.Num?
      && At(pushes[1], EcommerceField("value")).value.r * 100.0 == order.total as real
      && ListsGA4Products(At(pushes[1], EcommerceField("items")), order.items, createProductGA4)
  {
    var cart := GA4Cart(order, currencyCode, createProductGA4);
    GA4CartGet(order, step, currencyCode, createProductGA4, "currency");
    GA4CartGet(order, step, currencyCode, createProductGA4, "value");
    GA4CartGet(order, step, currencyCode, createProductGA4, "items");
    GetWellKeyed(cart, 0);
    GetWellKeyed(cart, 1);
    GetWellKeyed(cart, 2);
  }

  /** A cart key of a GA4 event reads the cart, whatever extra field the step adds. */
  lemma GA4CartGet(
    order: Order, step: int, currencyCode: string, createProductGA4: GA4ProductMapper, key: string)
    requires step in {StepCart, StepAddress, StepPayment, StepConfirm}
    requires key != "shipping_tier" && key != "payment_type"
    ensures var pushes := AddStepGA4(order, step, currencyCode, createProductGA4);
      At(pushes[1], EcommerceField(key)) == Get(GA4Cart(order, currencyCode, createProductGA4), key)
  {
    var trigger := GA4TriggerFor(order, step).value;
    assert !HasKey(trigger.additionalData, key);
    GetAppend(trigger.additionalData, GA4Cart(order, currencyCode, createProductGA4), key);
    GA4EcommerceGet(order, step, currencyCode, createProductGA4, key);
  }

  /** The `coupon` key of a GA4 event is present exactly when the order holds a promotion
      coupon, and then carries its code. */
  lemma GA4Coupon(order: Order, step: int, currencyCode: string, createProductGA4: GA4ProductMapper)
    requires step in {StepCart, StepAddress, StepPayment, StepConfirm}
    ensures var pushes := AddStepGA4(order, step, currencyCode, createProductGA4);
      && (HasPath(pushes[1], EcommerceField("coupon")) <==> order.promotionCoupon.Some?)
      && (order.promotionCoupon.Some? ==>
            At(pushes[1], EcommerceField("coupon")) == Some(Str(order.promotionCoupon.value.code)))
  {
    var cart := GA4Cart(order, currencyCode, createProductGA4);
    GA4CartGet(order, step, currencyCode, createProductGA4, "coupon");
    GetAppend(cart[..3], cart[3..], "coupon");
    assert cart[..3] + cart[3..] == cart;
  }

  /** The order of keys in a GA4 event's ecommerce object: the extra field first, then the
      cart's currency, value, items and optional coupon. */
  lemma GA4EcommerceKeyOrder(order: Order, step: int, currencyCode: string, createProductGA4: GA4ProductMapper)
    requires step in {StepCart, StepAddress, StepPayment, StepConfirm}
    ensures var pushes := AddStepGA4(order, step, currencyCode, createProductGA4);
      var ecommerce := At(pushes[1], EcommercePath);
      && ecommerce.Some? && ecommerce.value.Obj?
      && Keys(ecommerce.value.fields)
         == (if step == StepPayment then ["shipping_tier"] else if step == StepConfirm then ["payment_type"] else [])
            + ["currency", "value", "items"]
            + (if order.promotionCoupon.Some? then ["coupon"] else [])
  {
    var trigger := GA4TriggerFor(order, step).value;
    var cart := GA4Cart(order, currencyCode, createProductGA4);
    GA4EventPayload(order, step, currencyCode, createProductGA4);
    KeysAppend(trigger.additionalData, cart);
  }

  /** Both implementations run independently: with neither on nothing is pushed, with both on
      the UA pushes come first and then the GA4 pushes, each exactly as if it ran alone, and
      each ignores the other's inputs. */
  lemma AddStepIndependent(
    order: Order, step: int, currencyCode: string,
    createProductUA: UAProductMapper, createProductGA4: GA4ProductMapper)
    ensures AddStep(Implementations(false, false), order, step, currencyCode, createProductUA, createProductGA4) == []
    ensures AddStep(Implementations(true, true), order, step, currencyCode, createProductUA, createProductGA4)
      == AddStepUA(order, step, createProductUA) + AddStepGA4(order, step, currencyCode, createProductGA4)
    ensures AddStep(Implementations(true, false), order, step, currencyCode, createProductUA, createProductGA4)
      == AddStepUA(order, step, createProductUA)
    ensures AddStep(Implementations(false, true), order, step, currencyCode, createProductUA, createProductGA4)
      == AddStepGA4(order, step, currencyCode, createProductGA4)
  {
  }

  /** Steps outside Cart..Confirm are not rejected: UA still pushes its `checkout` event, with
      products only below Cart, and GA4 pushes nothing. */
  lemma UnvalidatedStep(
    order: Order, step: int, currencyCode: string,
    createProductUA: UAProductMapper, createProductGA4: GA4ProductMapper)
    requires step < StepCart || step > StepConfirm
    ensures |AddStepUA(order, step, createProductUA)| == 1
    ensures At(AddStepUA(order, step, createProductUA)[0], UAStepPath) == Some(Int(step))
    ensures HasPath(AddStepUA(order, step, createProductUA)[0], UAProductsPath) <==> step < StepCart
    ensures AddStepGA4(order, step, currencyCode, createProductGA4) == []
  {
    UACheckoutPush(order, step, createProductUA);
  }

  /** Joined method names can be cut back apart when no name contains a comma, so the
      shipping tier and payment type keep every method name and their order. */
  lemma MethodNamesRecoverable(order: Order)
    ensures Implode.Avoids(ShippingMethodNames(order), ',') && |order.shipments| > 0 ==>
      Implode.Split(Implode.Join(MethodNameGlue, ShippingMethodNames(order)), MethodNameGlue)
      == ShippingMethodNames(order)
    ensures Implode.Avoids(PaymentMethodNames(order), ',') && |order.payments| > 0 ==>
      Implode.Split(Implode.Join(MethodNameGlue, PaymentMethodNames(order)), MethodNameGlue)
      == PaymentMethodNames(order)
  {
    if Implode.Avoids(ShippingMethodNames(order), ',') && |order.shipments| > 0 {
      Implode.SplitJoin(MethodNameGlue, ShippingMethodNames(order));
    }
    if Implode.Avoids(PaymentMethodNames(order), ',') && |order.payments| > 0 {
      Implode.SplitJoin(MethodNameGlue, PaymentMethodNames(order));
    }
  }
}
