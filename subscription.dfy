/** The subscription page, src/pages/Subscription.jsx: the plan table, the
    plan selector, the Subscribe button and the arguments of the checkout. */
module Subscription {
  import opened Common

  datatype Plan = Plan(value: string, duration: nat, unit: string, price: int, labelText: string)

  const Plans: seq<Plan> := [
    Plan("plan1", 1, "minute", 1, "1 Minute"),
    Plan("plan2", 5, "day", 5, "5 Days"),
    Plan("plan3", 10, "day", 10, "10 Days")
  ]

  /** `plans.find(p => p.value === value)` over the plans `ps`. */
  function FindIn(ps: seq<Plan>, value: string): (r: Option<Plan>)
    ensures r.Some? ==> r.value in ps && r.value.value == value
    ensures r.None? <==> forall p :: p in ps ==> p.value != value
  {
    if |ps| == 0 then None
    else if ps[0].value == value then Some(ps[0])
    else FindIn(ps[1..], value)
  }

  /** No two plans share a value, so the plan found is the only candidate. */
  lemma FindPlanIsUnique(value: string, p: Plan)
    requires p in Plans && p.value == value
    ensures FindIn(Plans, value) == Some(p)
  {
  }

  /** The arguments the checkout dialog receives. */
  datatype CheckoutArgs = CheckoutArgs(amount: int, duration: nat, unit: string)

  class SubscriptionPage {
    var isOpen: bool
    var plan: Option<Plan>
    var price: int

    /** The page's invariant: a selected plan is a listed one and the price is
        its price; the price is 0 before any selection; the checkout is only
        open with a plan selected. */
    ghost predicate Valid()
      reads this
    {
      && (plan.Some? ==> plan.value in Plans && price == plan.value.price)
      && (plan.None? ==> price == 0)
      && (isOpen ==> plan.Some?)
    }

    constructor ()
      ensures Valid()
      ensures plan == None && price == 0 && !isOpen
    {
      isOpen := false;
      plan := None;
      price := 0;
    }

    /** The selector's `onChange` with the chosen option's value ("" for
        "choose a plan"): an unlisted value changes nothing. */
    method Select(value: string)
      requires Valid()
      modifies this
      ensures Valid()
      ensures FindIn(Plans, value).Some? ==> plan == FindIn(Plans, value) && price == plan.value.price
      ensures FindIn(Plans, value).None? ==> plan == old(plan) && price == old(price)
      ensures isOpen == old(isOpen)
    {
      var selected := FindIn(Plans, value);
      if selected.Some? {
        plan := selected;
        price := selected.value.price;
      }
    }

    /** "Subscribe Now": opens the checkout only when a plan is selected. */
    method Subscribe()
      requires Valid()
      modifies this
      ensures Valid()
      ensures isOpen == (old(isOpen) || plan.Some?)
      ensures plan == old(plan) && price == old(price)
    {
      if plan.Some? {
        isOpen := true;
      }
    }

    /** The checkout calls `setIsOpen(false)` to close itself. */
    method CloseCheckout()
      requires Valid()
      modifies this
      ensures Valid()
      ensures !isOpen && plan == old(plan) && price == old(price)
    {
      isOpen := false;
    }

    /** The checkout rendered, if open: the amount is the price and the
        duration and unit are the selected plan's. */
    function Checkout(): (c: Option<CheckoutArgs>)
      requires Valid()
      reads this
      ensures c.Some? <==> isOpen
      ensures c.Some? ==> plan.Some? && plan.value in Plans
      ensures c.Some? ==> c.value == CheckoutArgs(plan.value.price, plan.value.duration, plan.value.unit)
    {
      if isOpen then Some(CheckoutArgs(price, plan.value.duration, plan.value.unit)) else None
    }
  }
}
