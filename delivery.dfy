/**
  `DeliveryContext`: holds the currently chosen strategy (null until set) and
  prices a parcel with it after two defensive checks.
 */
module Delivery {

  import opened Wrappers
  import opened Shipping

  /**
    What `calculateCost` produces: the `IllegalStateException` thrown when no
    strategy is set, the `IllegalArgumentException` thrown on a negative
    measurement, or the cost itself.
   */
  datatype CostResult = NoStrategy | InvalidMeasurement | Ok(cost: real)

  class DeliveryContext {
    /** The `strategy` field; `None` plays Java's `null`. */
    var strategy: Option<Strategy>

    /** The implicit constructor leaves the field null. */
    constructor ()
      ensures strategy == None
    {
      strategy := None;
    }

    /** Overwrites the strategy; whatever was set before is forgotten. */
    method SetShippingStrategy(s: Option<Strategy>)
      modifies this
      ensures strategy == s
    {
      strategy := s;
    }

    /**
      The strategy check comes first, then the measurement check, then the
      strategy's own formula.
     */
    method CalculateCost(weight: real, distance: real) returns (r: CostResult)
      ensures strategy.None? ==> r == NoStrategy
      ensures strategy.Some? ==> (r == InvalidMeasurement <==> weight < 0.0 || distance < 0.0)
      ensures strategy.Some? && weight >= 0.0 && distance >= 0.0 ==>
                r == Ok(Cost(strategy.value, weight, distance))
      ensures r.Ok? ==> r.cost >= 0.0
    {
      if strategy.None? {
        return NoStrategy;
      }
      if weight < 0.0 || distance < 0.0 {
        return InvalidMeasurement;
      }
      r := Ok(Cost(strategy.value, weight, distance));
    }
  }

  /** A context that was never given a strategy refuses every request. */
  method UnsetContextFails(weight: real, distance: real) returns (r: CostResult)
    ensures r == NoStrategy
  {
    var context := new DeliveryContext();
    r := context.CalculateCost(weight, distance);
  }

  /** After two calls of SetShippingStrategy, the second strategy prices the parcel. */
  method LastStrategyWins(first: Option<Strategy>, last: Strategy, weight: real, distance: real)
    returns (r: CostResult)
    ensures r == if weight < 0.0 || distance < 0.0 then InvalidMeasurement
                 else Ok(Cost(last, weight, distance))
  {
    var context := new DeliveryContext();
    context.SetShippingStrategy(first);
    context.SetShippingStrategy(Some(last));
    r := context.CalculateCost(weight, distance);
  }
}
