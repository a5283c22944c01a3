/** The checkout step interceptor: on every "controller about to run" signal of the web
    framework it decides whether the checkout step tracker runs, and for which step. The
    step resolver is a parameter; the request it reads is an opaque value. */
module CheckoutStepListener {
  import opened Wrappers
  import opened Payload
  import opened Orders
  import CheckoutStep

  /** The resolved controller: a closure, or an instance with the method to be called on it,
      of which the model keeps only whether the instance is an order controller. */
  datatype Controller =
    | Closure
    | Callable(isOrderController: bool, methodName: string)

  /** The framework's signal that a controller is about to run for a request. */
  datatype ControllerEvent<Request> = ControllerEvent(isMasterRequest: bool, controller: Controller, request: Request)

  /** The resolver: the checkout step of a controller method on a request, if it is one. */
  type StepResolver<-Request> = (string, Request) -> Option<int>

  /** The one call the interceptor makes on the tracker. */
  datatype TrackerCall = TrackerCall(order: Order, step: int)

  /** `onKernelController`: the tracker call to make, if any. `cart` is what the cart context
      returns; it is fetched only once a step is resolved. */
  function OnKernelController<Request>(
    event: ControllerEvent<Request>, resolve: StepResolver<Request>, cart: Order): (call: Option<TrackerCall>)
    ensures call.Some? <==>
      && event.isMasterRequest
      && event.controller.Callable?
      && event.controller.isOrderController
      && resolve(event.controller.methodName, event.request).Some?
    ensures call.Some? ==>
      call.value == TrackerCall(cart, resolve(event.controller.methodName, event.request).value)
  {
    if !event.isMasterRequest then None
    else match event.controller
      case Closure => None
      case Callable(isOrderController, methodName) =>
        if !isOrderController then None
        else match resolve(methodName, event.request)
          case None => None
          case Some(step) => Some(TrackerCall(cart, step))
  }

  /** Everything one signal pushes to the data layer: the tracker's pushes for the call the
      interceptor makes, or nothing. */
  function Dispatch<Request>(
    event: ControllerEvent<Request>, resolve: StepResolver<Request>, cart: Order,
    implementations: CheckoutStep.Implementations, currencyCode: string,
    createProductUA: CheckoutStep.UAProductMapper, createProductGA4: CheckoutStep.GA4ProductMapper)
    : (pushes: seq<Value>)
    ensures !event.isMasterRequest || event.controller.Closure? || !event.controller.isOrderController ==> pushes == []
    ensures |pushes| <= 3
  {
    match OnKernelController(event, resolve, cart)
    case None => []
    case Some(call) =>
      CheckoutStep.AddStep(implementations, call.order, call.step, currencyCode, createProductUA, createProductGA4)
  }

  /** A sub-request, a closure controller or a controller that is not the order controller
      never reaches the tracker, and the resolver is not even consulted: any two resolvers
      give the same outcome. */
  lemma GuardsRejectBeforeResolving<Request>(
    event: ControllerEvent<Request>, resolve: StepResolver<Request>, resolve': StepResolver<Request>, cart: Order)
    requires !event.isMasterRequest || event.controller.Closure? || !event.controller.isOrderController
    ensures OnKernelController(event, resolve, cart) == None
    ensures OnKernelController(event, resolve, cart) == OnKernelController(event, resolve', cart)
  {
  }

  /** Past the guards, the resolver is consulted with the controller's method name and the
      request, and with nothing else: resolvers that agree there give the same call. */
  lemma ResolverConsultedWithMethod<Request>(
    event: ControllerEvent<Request>, resolve: StepResolver<Request>, resolve': StepResolver<Request>, cart: Order)
    requires event.controller.Callable?
    requires resolve(event.controller.methodName, event.request) == resolve'(event.controller.methodName, event.request)
    ensures OnKernelController(event, resolve, cart) == OnKernelController(event, resolve', cart)
  {
  }

  /** A signal the interceptor lets through yields exactly the tracker's pushes for the
      current cart and the resolved step; any other signal yields no push at all. */
  lemma DispatchIsOneTrackerCall<Request>(
    event: ControllerEvent<Request>, resolve: StepResolver<Request>, cart: Order,
    implementations: CheckoutStep.Implementations, currencyCode: string,
    createProductUA: CheckoutStep.UAProductMapper, createProductGA4: CheckoutStep.GA4ProductMapper)
    ensures var pushes := Dispatch(event, resolve, cart, implementations, currencyCode, createProductUA, createProductGA4);
      if event.isMasterRequest && event.controller.Callable? && event.controller.isOrderController
         && resolve(event.controller.methodName, event.request).Some?
      then pushes == CheckoutStep.AddStep(implementations, cart, resolve(event.controller.methodName, event.request).value,
                                         currencyCode, createProductUA, createProductGA4)
      else pushes == []
  {
  }

  /** The interceptor does not range-check the resolved step: a step of 7 reaches the tracker,
      which then pushes a UA `checkout` event without products and no GA4 event. */
  lemma OutOfRangeStepPassesThrough<Request>(
    event: ControllerEvent<Request>, resolve: StepResolver<Request>, cart: Order,
    currencyCode: string,
    createProductUA: CheckoutStep.UAProductMapper, createProductGA4: CheckoutStep.GA4ProductMapper)
    requires event.isMasterRequest && event.controller.Callable? && event.controller.isOrderController
    requires resolve(event.controller.methodName, event.request) == Some(7)
    ensures OnKernelController(event, resolve, cart) == Some(TrackerCall(cart, 7))
    ensures var pushes := Dispatch(event, resolve, cart, CheckoutStep.Implementations(true, true), currencyCode,
                                   createProductUA, createProductGA4);
      && |pushes| == 1
      && At(pushes[0], CheckoutStep.EventPath) == Some(Str("checkout"))
      && At(pushes[0], CheckoutStep.UAStepPath) == Some(Int(7))
      && !HasPath(pushes[0], CheckoutStep.UAProductsPath)
  {
    CheckoutStep.UnvalidatedStep(cart, 7, currencyCode, createProductUA, createProductGA4);
    CheckoutStep.UACheckoutPush(cart, 7, createProductUA);
  }
}
