/**
  The body of `main` without the console: a fresh context and notifier, the
  two observers registered, the menu choice dispatched, the parcel priced,
  and the order notice fanned out. The text of the notice depends on Java's
  number formatting, so the caller supplies it as `orderInfo`.
 */
module Order {

  import opened Wrappers
  import opened Shipping
  import opened Delivery
  import opened Notification

  /**
    How a run ends: the `default` branch of the menu switch, an exception out
    of `calculateCost` (which ends the run), or a finished notification with
    the cost and the printed lines. Since main sets a strategy before it
    prices, only the invalid-measurement error can abort a run.
   */
  datatype OrderOutcome = InvalidChoice | Aborted(reason: CostResult) | Notified(cost: real, lines: seq<string>)

  method PlaceOrder(choice: string, weight: real, distance: real, orderInfo: (real, real, real) -> string)
    returns (outcome: OrderOutcome)
    ensures Select(choice).None? ==> outcome == InvalidChoice
    ensures outcome.Aborted? ==> outcome.reason == InvalidMeasurement
    ensures Select(choice).Some? && (weight < 0.0 || distance < 0.0) ==>
              outcome == Aborted(InvalidMeasurement)
    ensures Select(choice).Some? && weight >= 0.0 && distance >= 0.0 ==>
              var cost := Cost(Select(choice).value, weight, distance);
              var info := orderInfo(weight, distance, cost);
              outcome == Notified(cost, [Prefix(MobileApp) + info, Prefix(Email) + info])
  {
    var context := new DeliveryContext();
    var notifier := new OrderNotifier();
    notifier.RegisterObserver(MobileApp);
    notifier.RegisterObserver(Email);
    var selected := Select(choice);
    if selected.None? {
      return InvalidChoice;
    }
    context.SetShippingStrategy(selected);
    var result := context.CalculateCost(weight, distance);
    if !result.Ok? {
      return Aborted(result);
    }
    var lines := notifier.NotifyObservers(orderInfo(weight, distance, result.cost));
    outcome := Notified(result.cost, lines);
  }

  /** Choice "1" with a 10 kg parcel sent 20 km costs 7.0; the app line comes before the e-mail line. */
  method StandardSample(orderInfo: (real, real, real) -> string) returns (outcome: OrderOutcome)
    ensures outcome == Notified(7.0, [Prefix(MobileApp) + orderInfo(10.0, 20.0, 7.0),
                                      Prefix(Email) + orderInfo(10.0, 20.0, 7.0)])
  {
    outcome := PlaceOrder("1", 10.0, 20.0, orderInfo);
  }
}
