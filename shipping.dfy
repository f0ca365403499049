/**
  The four shipping strategies, their cost formulas, and the menu dispatch
  that turns the user's choice into a strategy (the `switch (choice)` of main).
  Costs are exact reals; Java computes them in `double`.
 */
module Shipping {

  import opened Wrappers

  /** One constructor per `*ShippingStrategy` class. */
  datatype Strategy = Standard | Express | International | Night

  /** `calculateShippingCost(weight, distance)` of each strategy class. */
  function Cost(s: Strategy, weight: real, distance: real): (cost: real)
    ensures weight >= 0.0 && distance >= 0.0 ==> cost >= 0.0
  {
    match s
    case Standard => weight * 0.5 + distance * 0.1
    case Express => (weight * 0.75 + distance * 0.2) + 10.0
    case International => weight * 1.0 + distance * 0.5 + 15.0
    case Night => weight * 0.6 + distance * 0.15 + 20.0
  }

  /** The menu code under which the menu line offers each strategy. */
  function Code(s: Strategy): string
  {
    match s
    case Standard => "1"
    case Express => "2"
    case International => "3"
    case Night => "4"
  }

  /**
    The `switch (choice)` of main: "1".."4" bind a strategy, every other
    string (the `default` branch) binds none. Select is the inverse of Code.
   */
  function Select(choice: string): (r: Option<Strategy>)
    ensures r.Some? ==> Code(r.value) == choice
    ensures r.None? <==> forall s: Strategy :: Code(s) != choice
  {
    if choice == "1" then Some(Standard)
    else if choice == "2" then Some(Express)
    else if choice == "3" then Some(International)
    else if choice == "4" then Some(Night)
    else None
  }

  /** Every strategy is reachable from the menu, under exactly its own code. */
  lemma SelectCode(s: Strategy, choice: string)
    ensures Select(Code(s)) == Some(s)
    ensures Select(choice) == Some(s) <==> choice == Code(s)
  {
  }

  /** Strings outside the menu, such as "", "5" or "abc", select nothing. */
  lemma SelectRejects()
    ensures Select("") == None && Select("5") == None && Select("abc") == None
    ensures Select(" 1") == None && Select("01") == None
  {
  }

  /** A strategy charges its fixed surcharge when weight and distance are zero. */
  function Surcharge(s: Strategy): (fee: real)
    ensures fee == Cost(s, 0.0, 0.0)
  {
    match s
    case Standard => 0.0
    case Express => 10.0
    case International => 15.0
    case Night => 20.0
  }

  /** Heavier or farther never costs less, for every strategy. */
  lemma CostMonotone(s: Strategy, w1: real, d1: real, w2: real, d2: real)
    requires w1 <= w2 && d1 <= d2
    ensures Cost(s, w1, d1) <= Cost(s, w2, d2)
  {
  }

  /** Every formula is affine: linear in (weight, distance) plus the surcharge. */
  lemma CostAffine(s: Strategy, w1: real, d1: real, w2: real, d2: real)
    ensures Cost(s, w1 + w2, d1 + d2) + Surcharge(s) == Cost(s, w1, d1) + Cost(s, w2, d2)
  {
  }

  /** On valid measurements a strategy never charges less than its surcharge. */
  lemma CostAtLeastSurcharge(s: Strategy, weight: real, distance: real)
    requires weight >= 0.0 && distance >= 0.0
    ensures Cost(s, weight, distance) >= Surcharge(s)
  {
  }

  /** Standard is the cheapest strategy, and Express never costs more than International. */
  lemma StandardIsCheapest(s: Strategy, weight: real, distance: real)
    requires weight >= 0.0 && distance >= 0.0
    ensures Cost(Standard, weight, distance) <= Cost(s, weight, distance)
    ensures Cost(Express, weight, distance) <= Cost(International, weight, distance)
  {
  }

  /** The worked prices for a 10 kg parcel sent 20 km. */
  lemma SamplePrices()
    ensures Cost(Standard, 10.0, 20.0) == 7.0
    ensures Cost(Express, 10.0, 20.0) == 21.5
    ensures Cost(International, 10.0, 20.0) == 35.0
    ensures Cost(Night, 10.0, 20.0) == 29.0
  {
  }
}
