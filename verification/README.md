# Checkout step tracking, modelled in Dafny

This project models the checkout step tracking of a Sylius plugin for Google Tag Manager
enhanced ecommerce. Two components make up the core:

- the **checkout step tracker** (`CheckoutStep::addStep`) decides, for an order and the
  checkout step just reached, which payloads to push to the tag manager's data layer.
  It works independently for Universal Analytics (UA) and for GA4;
- the **checkout step listener** (`CheckoutStepListener::onKernelController`) filters the
  framework's "controller about to run" signals. It lets the tracker run at most once, for the
  step an external resolver assigns to the order controller's method.

The model is functional. The data layer queue is the returned sequence of payloads, in push
order. The feature flags are a pair of booleans. The product mapping helpers, the step
resolver and the currency context are parameters. A payload is a JSON-like `Payload.Value`
whose objects keep their keys in insertion order, as PHP arrays do. `Payload.ArrayMerge`
models PHP's `array_merge` on string keys, and `Implode.Join` models `implode`. Properties
of a payload are stated through `Payload.At`, which reads the value at a path of keys, so
they say what a data-layer consumer would read.

Files:

- `wrappers.dfy`: `Option`.
- `payload.dfy`: payload values, key lookup, array assignment, `array_merge`, path lookup.
- `implode.dfy`: `implode` and its inverse `Split`.
- `order.dfy`: the part of an order the tracker reads.
- `checkout_step.dfy`: the tracker.
- `checkout_step_listener.dfy`: the listener, and the composition of listener and tracker.

The code does not range-check the step anywhere, and this model follows the code. A UA push for step 7
therefore has no `products` key, and a UA push for step 0 has one. GA4 pushes nothing for
either step.

## Model

| member | source | states |
|---|---|---|
| CheckoutStep.AddStep | src/TagManager/CheckoutStep.php:54-63 | The number of pushes is 1 for UA when UA is on and the step is not Confirm, plus 2 for GA4 when GA4 is on and the step is in its table. When GA4 pushes, its reset push is the second-to-last entry. |
| CheckoutStep.AddStepIndependent | src/TagManager/CheckoutStep.php:54-63 | With both flags off nothing is pushed. With both on, the output is the UA pushes followed by the GA4 pushes. With one flag on, the output is that branch alone, whatever the other branch's inputs are. |
| CheckoutStep.AddStepUA | src/TagManager/CheckoutStep.php:65-70 | UA pushes nothing exactly on Confirm (5), and exactly one payload on any other step. |
| CheckoutStep.UACheckoutPush | src/TagManager/CheckoutStep.php:72-87 | For a step other than Confirm, the UA push has `event` = "checkout" and `ecommerce.checkout.actionField.step` = the step. `products` is present iff step <= 5. When present, it lists one UA product per order line, in line order. No object holds any other key: the push has exactly `event` and `ecommerce`, `ecommerce` exactly `checkout`, `checkout` exactly `actionField` and the optional `products`, and `actionField` exactly `step`. |
| CheckoutStep.ProductsUA | src/TagManager/CheckoutStep.php:90-98 | One UA product per order line, in line order. |
| CheckoutStep.ProductsGA4 | src/TagManager/CheckoutStep.php:101-110 | One GA4 product per order line, in line order, each built with the line's position. |
| CheckoutStep.UACheckout | src/TagManager/CheckoutStep.php:72-80 | The UA `checkout` object holds `actionField`, then `products` exactly when step <= 5, and no key twice. Its values are stated by UACheckoutPush. |
| CheckoutStep.AddStepGA4 | src/TagManager/CheckoutStep.php:151-158 | GA4 pushes either nothing or exactly two payloads. It pushes two exactly for steps 1, 2, 4 and 5. The first of the two is the `{ecommerce: null}` reset. |
| CheckoutStep.GA4TriggerFor | src/TagManager/CheckoutStep.php:121-153 | A step triggers a GA4 event exactly when it is 1, 2, 4 or 5. The extra data is `shipping_tier` alone on 4, `payment_type` alone on 5, and empty on 1 and 2. The event names are stated by GA4StepTable, the extra values by GA4ExtraField. |
| CheckoutStep.GA4StepTable | src/TagManager/CheckoutStep.php:122-153 | Step 1 gives `view_cart`, 2 gives `begin_checkout`, 4 gives `add_shipping_info` and 5 gives `add_payment_info`. Shipping (3) pushes nothing, not even the reset. |
| CheckoutStep.GA4EventPayload | src/TagManager/CheckoutStep.php:169-175 | The second GA4 push holds exactly the keys `event` and `ecommerce`. It carries the mapped event name. Its `ecommerce` object is the extra field followed by the cart, because the keys of the two never clash. |
| CheckoutStep.GA4ExtraField | src/TagManager/CheckoutStep.php:131-150 | `shipping_tier` is present iff the step is Payment (4), and `payment_type` iff the step is Confirm (5). Each is the method names joined with ", " in shipment or payment order. |
| CheckoutStep.GA4ExtraFieldEdgeCases | src/TagManager/CheckoutStep.php:133-148 | No shipments or payments give the empty string. A single shipment or payment gives its method name. |
| Orders.ShippingMethodNames | src/TagManager/CheckoutStep.php:135-137 | One name per shipment, its method's name, in shipment order. Used by GA4ExtraField. |
| Orders.PaymentMethodNames | src/TagManager/CheckoutStep.php:145-147 | One name per payment, its method's name, in payment order. Used by GA4ExtraField. |
| CheckoutStep.MethodNamesRecoverable | src/TagManager/CheckoutStep.php:133-148 | When there is at least one shipment (or payment) and no method name contains a comma, splitting the joined string at ", " gives back every name in order. |
| CheckoutStep.GA4Cart | src/TagManager/CheckoutStep.php:160-167 | The cart's keys are `currency`, `value`, `items`, and `coupon` exactly when the order has a promotion coupon. No key repeats. Its values are stated by GA4CartShape and GA4Coupon. |
| CheckoutStep.GA4CartShape | src/TagManager/CheckoutStep.php:160-164 | In the GA4 event, `currency` is the current currency code. `value` is a number with value * 100 = order total. `items` holds one GA4 product per line with its position. |
| CheckoutStep.GA4Coupon | src/TagManager/CheckoutStep.php:165-167 | In the GA4 event, `coupon` is present iff the order holds a promotion coupon. When present, it equals that coupon's code. |
| CheckoutStep.GA4EcommerceKeyOrder | src/TagManager/CheckoutStep.php:169-175 | The keys of the GA4 `ecommerce` object are, in order: the extra field (if any), then `currency`, `value`, `items`, then `coupon` (if any). |
| CheckoutStep.UnvalidatedStep | src/TagManager/CheckoutStep.php:78-80 | A step below 1 or above 5 is not rejected. UA still pushes one `checkout` event carrying that step, with products only below 1. GA4 pushes nothing. |
| Implode.Implode | src/TagManager/CheckoutStep.php:133-138 | `implode` as a left-to-right loop, appending the glue before every piece but the first, gives `Join`. |
| Implode.Join | src/TagManager/CheckoutStep.php:133-138 | A join of at least one piece begins with the first piece. Its full behaviour is stated by Implode, JoinLength, JoinSnoc and SplitJoin. |
| Implode.JoinSnoc | src/TagManager/CheckoutStep.php:133-138 | Joining is left to right: one more piece lands after one more glue at the end. |
| Implode.JoinLength | src/TagManager/CheckoutStep.php:133-138 | A non-empty join holds all characters of all pieces plus exactly one glue between each pair of neighbouring pieces. |
| Implode.SplitJoin | src/TagManager/CheckoutStep.php:143-148 | For at least one piece, and when no piece contains the glue's first character, `Split` inverts `Join`. With no pieces the join is "", which splits to one empty piece. |
| Implode.JoinTwoMethods | src/TagManager/CheckoutStep.php:133-138 | Shipments "Standard" and "Express" give the tier "Standard, Express". |
| Payload.ArrayMergeGet | src/TagManager/CheckoutStep.php:171-174 | After `array_merge($a, $b)`, a key of `$b` reads its value from `$b`, and any other key reads from `$a`. |
| Payload.ArrayMerge | src/TagManager/CheckoutStep.php:171-174 | The keys of `array_merge($a, $b)` are exactly those of `$a` and of `$b`. Values and order are stated by ArrayMergeGet and ArrayMergeDisjoint. |
| Payload.ArrayMergeDisjoint | src/TagManager/CheckoutStep.php:171-174 | When `$a` and `$b` share no key, `array_merge` is concatenation: the fields of `$a` first, then those of `$b`, each in its own order. |
| CheckoutStepListener.OnKernelController | src/EventListener/CheckoutStepListener.php:40-71 | The tracker is called iff the request is the master request, the controller is an (instance, method) pair, the instance is an order controller and the resolver returns a step. The call then carries the current cart and that step. |
| CheckoutStepListener.Dispatch | src/EventListener/CheckoutStepListener.php:70 | A sub-request, a closure controller or a non-order controller pushes nothing. Any signal pushes at most three payloads, the most one tracker call can push. The exact pushes are stated by DispatchIsOneTrackerCall. |
| CheckoutStepListener.GuardsRejectBeforeResolving | src/EventListener/CheckoutStepListener.php:44-61 | A sub-request, a closure controller or a non-order controller gives no tracker call. The outcome is the same for every resolver. |
| CheckoutStepListener.ResolverConsultedWithMethod | src/EventListener/CheckoutStepListener.php:63-67 | The resolver is consulted only on the controller's method name and the request. Two resolvers that agree there give the same call. |
| CheckoutStepListener.DispatchIsOneTrackerCall | src/EventListener/CheckoutStepListener.php:63-70 | A signal that passes every guard gives exactly the tracker's pushes for the current cart and the resolved step. Any other signal gives no push at all. |
| CheckoutStepListener.OutOfRangeStepPassesThrough | src/EventListener/CheckoutStepListener.php:63-70 | A resolved step 7 reaches the tracker unchanged. With both implementations on, that yields a single UA `checkout` event for step 7 without products. |

## Left out

- The tag manager client (`addPush`) is real I/O. It is modelled as the returned sequence of payloads, in push order.
- The product mapping helpers (`createProductUA`, `createProductGA4` of `CreateProductTrait`, and `ProductIdentifierHelper`) are not part of this model. They are function parameters, and only the number, order and position of the products they build is stated.
- The step resolver is an interface, so it is a function parameter, and the Symfony `Request` is an opaque type parameter.
- The Symfony `ControllerEvent` and the `instanceof OrderController` check are reduced to a boolean for the master request and a boolean for the controller's class.
- The cart and currency contexts are parameters: the current cart and the currency code. The channel context is injected into the tracker but never read by the code modelled here.
- CheckoutStep.GA4CartShape: `value` is the exact real `total / 100`. PHP's `/` gives an integer when 100 divides the total and a rounded binary float otherwise, and neither rounding nor that type difference is modelled.
- CheckoutStep.ProductsGA4: the index given to each GA4 product is the line's position. Doctrine collection keys can differ from positions, for example after a removal, and that is not modelled.
- A shipment or payment without a method is not modelled. PHP would call `getName()` on null there; every shipment and payment here has a method name.
- Payload.ArrayMergeGet: `array_merge` renumbers integer keys. Every key in these payloads is a string, so only the string-key behaviour is modelled.
- Feature-flag lookup (`GoogleImplementationEnabled`) is reduced to two booleans read at call time.
