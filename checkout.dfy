/**
 * The four-step checkout of src/components/checkout/CheckoutProcess.tsx:
 * Cart Review (0), Shipping (1), Payment (2), Confirmation (3).
 */
module Checkout {
  import opened Wrappers
  import opened StoreTypes

  /** `steps.length - 1`: the index of the Confirmation step. */
  const LastStep := 3

  datatype CheckoutState = CheckoutState(currentStep: int, shippingAddress: Option<Address>)

  const Initial := CheckoutState(0, None)

  predicate InRange(s: CheckoutState) {
    0 <= s.currentStep <= LastStep
  }

  /** The user's inputs: the Next/Place Order button, the Back button, and the shipping form's callback. */
  datatype Event = Next | Prev | AddressSelected(address: Option<Address>)

  /** Line 34: one step forward, saturating at the last step. */
  function Advance(step: int): int {
    if step + 1 < LastStep then step + 1 else LastStep
  }

  /** Line 38: one step back, saturating at 0. */
  function Retreat(step: int): int {
    if step - 1 > 0 then step - 1 else 0
  }

  /** Lines 31-33: the address handed to `createOrder`, if the order is placed. */
  function OrderOf(s: CheckoutState): Option<Address> {
    if s.currentStep == LastStep - 1 && s.shippingAddress.Some? then s.shippingAddress else None
  }

  /**
   * Back undoes Next and Next undoes Back away from the ends; at the ends both
   * saturate, so the step never leaves 0..3.
   */
  lemma AdvanceRetreat(step: int)
    ensures 0 <= step < LastStep ==> Retreat(Advance(step)) == step
    ensures 0 < step <= LastStep ==> Advance(Retreat(step)) == step
    ensures Advance(LastStep) == LastStep && Retreat(0) == 0
    ensures 0 <= step <= LastStep ==> 0 <= Advance(step) <= LastStep && 0 <= Retreat(step) <= LastStep
  {
  }

  /**
   * One event: the next state and the order placed, if any. `handleAddressSelect`
   * (lines 45-52) calls the `nextStep` of the same render, so the order test reads
   * the address from before the selection, while the functional step update reads
   * the current step.
   */
  function Step(s: CheckoutState, e: Event): (CheckoutState, Option<Address>) {
    match e
    case Next => (s.(currentStep := Advance(s.currentStep)), OrderOf(s))
    case Prev => (s.(currentStep := Retreat(s.currentStep)), None)
    case AddressSelected(a) =>
      if a.None? then (s.(currentStep := Retreat(s.currentStep)), None)
      else (CheckoutState(Advance(s.currentStep), a), OrderOf(s))
  }

  /**
   * Lines 83-106: the events the rendered page offers. Shipping (1) renders only the
   * form; Cart Review (0) and Payment (2) render Next; only Payment renders Back;
   * Confirmation renders only "Go to Profile".
   */
  predicate Offered(step: int, e: Event) {
    match e
    case Next => step == 0 || step == LastStep - 1
    case Prev => step == LastStep - 1
    case AddressSelected(_) => step == 1
  }

  /** Runs events in order, collecting the addresses of the orders placed. */
  function Run(s: CheckoutState, events: seq<Event>): (CheckoutState, seq<Address>)
    decreases |events|
  {
    if events == [] then (s, [])
    else
      var (s', order) := Step(s, events[0]);
      var (t, orders) := Run(s', events[1..]);
      (t, (if order.Some? then [order.value] else []) + orders)
  }

  /** Every event is one the page offers at the moment it happens. */
  predicate OfferedRun(s: CheckoutState, events: seq<Event>)
    decreases |events|
  {
    events == [] || (Offered(s.currentStep, events[0]) && OfferedRun(Step(s, events[0]).0, events[1..]))
  }

  /** The step stays in 0..3 across any event. */
  lemma StepInRange(s: CheckoutState, e: Event)
    requires InRange(s)
    ensures InRange(Step(s, e).0)
  {
  }

  /** An order is placed exactly by Next at Payment with an address stored. */
  lemma StepOrders(s: CheckoutState, e: Event)
    ensures Step(s, e).1.Some? <==>
      (e.Next? || (e.AddressSelected? && e.address.Some?)) && s.currentStep == LastStep - 1 && s.shippingAddress.Some?
  {
  }

  /** Selecting an address at Shipping stores it and moves to Payment without placing an order. */
  lemma SelectAtShipping(s: CheckoutState, a: Address)
    requires s.currentStep == 1
    ensures Step(s, AddressSelected(Some(a))) == (CheckoutState(2, Some(a)), None)
  {
  }

  /** Cancelling the shipping form goes back to Cart Review and keeps the stored address. */
  lemma CancelAtShipping(s: CheckoutState)
    requires s.currentStep == 1
    ensures Step(s, AddressSelected(None)) == (s.(currentStep := 0), None)
  {
  }

  /** The states reached by offered events: Payment and Confirmation always have an address. */
  predicate Reachable(s: CheckoutState) {
    InRange(s) && (s.currentStep >= LastStep - 1 ==> s.shippingAddress.Some?)
  }

  lemma {:induction false} RunKeepsReachable(s: CheckoutState, events: seq<Event>)
    requires Reachable(s) && OfferedRun(s, events)
    ensures Reachable(Run(s, events).0)
    decreases |events|
  {
    if events != [] {
      RunKeepsReachable(Step(s, events[0]).0, events[1..]);
    }
  }

  /**
   * Along offered events, an order is placed once when the run reaches Confirmation
   * and never otherwise; each order carries the address stored at that moment.
   */
  lemma {:induction false} OrdersOfRun(s: CheckoutState, events: seq<Event>)
    requires Reachable(s) && OfferedRun(s, events)
    ensures var (t, orders) := Run(s, events);
      |orders| == (if s.currentStep < LastStep && t.currentStep == LastStep then 1 else 0)
    decreases |events|
  {
    if events != [] {
      var s' := Step(s, events[0]).0;
      OrdersOfRun(s', events[1..]);
    }
  }

  /** From the empty checkout, finishing at Confirmation means exactly one order was placed. */
  lemma CheckoutPlacesOneOrder(events: seq<Event>)
    requires OfferedRun(Initial, events)
    ensures Run(Initial, events).0.currentStep == LastStep <==> |Run(Initial, events).1| == 1
  {
    OrdersOfRun(Initial, events);
  }

  /** The component's state (lines 25-26) and its handlers. */
  class CheckoutProcess {
    var currentStep: int
    var shippingAddress: Option<Address>

    function State(): CheckoutState
      reads this
    {
      CheckoutState(currentStep, shippingAddress)
    }

    constructor ()
      ensures State() == Initial
    {
      currentStep := 0;
      shippingAddress := None;
    }

    /** Lines 30-35; `order` is what is passed to `createOrder`. */
    method NextStep() returns (order: Option<Address>)
      modifies this
      ensures currentStep == Advance(old(currentStep)) && shippingAddress == old(shippingAddress)
      ensures order.Some? <==> old(currentStep) == LastStep - 1 && old(shippingAddress).Some?
      ensures order.Some? ==> order == old(shippingAddress)
    {
      order := None;
      if currentStep == LastStep - 1 && shippingAddress.Some? {
        order := shippingAddress;
      }
      currentStep := Advance(currentStep);
    }

    /** Lines 37-39. */
    method PrevStep()
      modifies this
      ensures currentStep == Retreat(old(currentStep)) && shippingAddress == old(shippingAddress)
    {
      currentStep := Retreat(currentStep);
    }

    /** Lines 45-52, with `nextStep` seeing the state of the render that created the handler. */
    method HandleAddressSelect(address: Option<Address>) returns (order: Option<Address>)
      modifies this
      ensures (State(), order) == Step(old(State()), AddressSelected(address))
    {
      var rendered := State();
      if address.None? {
        PrevStep();
        order := None;
      } else {
        shippingAddress := address;
        order := OrderOf(rendered);
        currentStep := Advance(currentStep);
      }
    }
  }
}
