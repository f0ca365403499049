# Delivery cost and order notification, modelled in Dafny

A small console program prices a parcel and announces the order. The user
picks one of four shipping strategies from a menu (Standard, Express,
International, Night). Each strategy is a fixed linear formula in the weight
(kg) and the distance (km), plus a surcharge. A `DeliveryContext` holds the
chosen strategy. It refuses to price when no strategy is set or when a
measurement is negative. An `OrderNotifier` keeps an ordered list of
observers: the mobile app and e-mail. It sends every one of them the same
order notice, in registration order.

The model is split into these modules:

- `Shipping` (shipping.dfy): the `Strategy` datatype, each strategy's cost
  formula `Cost`, the menu codes `Code`, and the menu dispatch `Select`,
  which is the inverse of `Code`.
- `Delivery` (delivery.dfy): the class `DeliveryContext`, whose field
  `strategy: Option<Strategy>` plays the nullable Java field, and the result
  datatype `CostResult = NoStrategy | InvalidMeasurement | Ok(cost)`, which
  stands for the two exceptions and the returned cost.
- `Notification` (notification.dfy): the `Observer` datatype, the line each
  observer prints (`Update`), and the class `OrderNotifier` with a
  `seq<Observer>` field. `RemoveFirst` and `FirstIndex` are the
  specifications behind `List.remove(Object)`. `Notifications` is the
  specification of a notification pass.
- `Order` (order.dfy): `PlaceOrder` is the body of `main` without the
  console.
- `Wrappers` (wrappers.dfy): `Option`.

Notification does not print. It returns the lines the observers would
print, in order. The prefixes are the ones the code prints:
`"[Мобильное приложение] "` and `"[Email уведомление] "`.

## Model

| member | source | states |
|---|---|---|
| `Shipping.Cost` | src/Main.java:19-41 | the cost of each strategy class; it is never negative when weight and distance are not negative |
| `Shipping.Select` | src/Main.java:81-86 | the menu switch: a selected strategy is the one whose code is the input; nothing is selected exactly when no strategy has that code |
| `Shipping.SelectCode` | src/Main.java:79-85 | "1"/"2"/"3"/"4" select Standard/Express/International/Night, and a strategy is selected by its own code and by no other string |
| `Shipping.SelectRejects` | src/Main.java:86 | "", "5", "abc", " 1" and "01" fall into the default branch |
| `Shipping.Surcharge` | src/Main.java:21-39 | each strategy's fixed additive charge (0, 10, 15, 20) is what it charges for zero weight and distance |
| `Shipping.CostMonotone` | src/Main.java:19-41 | for every strategy, more weight or more distance never lowers the cost |
| `Shipping.CostAffine` | src/Main.java:19-41 | every formula is linear in (weight, distance) plus its surcharge |
| `Shipping.CostAtLeastSurcharge` | src/Main.java:19-41 | on valid measurements no strategy charges less than its surcharge |
| `Shipping.StandardIsCheapest` | src/Main.java:19-41 | on valid measurements Standard is never dearer than any strategy, and Express never dearer than International |
| `Shipping.SamplePrices` | src/Main.java:21-39 | 10 kg over 20 km costs 7.0, 21.5, 35.0 and 29.0 under the four strategies |
| `Delivery.DeliveryContext.constructor` | src/Main.java:43-44 | a new context has no strategy |
| `Delivery.DeliveryContext.SetShippingStrategy` | src/Main.java:45-47 | the field is overwritten with the argument, which may be null |
| `Delivery.DeliveryContext.CalculateCost` | src/Main.java:48-52 | with no strategy the result is always the no-strategy error; with one, the invalid-measurement error iff weight < 0 or distance < 0; otherwise exactly that strategy's cost, which is not negative |
| `Delivery.UnsetContextFails` | src/Main.java:43-49 | a context that was never given a strategy fails with the no-strategy error for every weight and distance |
| `Delivery.LastStrategyWins` | src/Main.java:45-51 | after two calls of setShippingStrategy, the later strategy alone prices the parcel |
| `Notification.PrefixFree` | src/Main.java:65-69 | neither observer's channel prefix is a prefix of the other's |
| `Notification.UpdateInjective` | src/Main.java:64-70 | a printed line determines both the observer and the order text |
| `Notification.Notifications` | src/Main.java:59-61 | notifying gives one line per registered observer |
| `Notification.NotificationsAt` | src/Main.java:59-69 | the k-th line printed is the k-th observer's prefix followed by the same message |
| `Notification.NotificationsAppend` | src/Main.java:59-61 | notifying a concatenated list prints the first list's lines, then the second's |
| `Notification.NotificationsSplit` | src/Main.java:59-61 | the lines around any one entry are the lines of the entries before it and after it |
| `Notification.RemoveFirst` | src/Main.java:58 | `List.remove(Object)`: one element shorter when the element is present, the same length otherwise |
| `Notification.FirstIndex` | src/Main.java:58 | the least index holding the element: it is there, and not in any earlier position |
| `Notification.RemoveFirstAbsent` | src/Main.java:58 | removing an absent observer leaves the list unchanged |
| `Notification.RemoveFirstAt` | src/Main.java:58 | removing a present observer deletes only its first occurrence, keeping the others in order |
| `Notification.RemoveFirstMultiset` | src/Main.java:58 | removal takes away exactly one copy of the element if present, and nothing else |
| `Notification.RemoveAfterRegister` | src/Main.java:57-58 | registering a new observer and removing it restores the list; if it was already there, the earlier copy is the one removed |
| `Notification.NotifyAfterRegister` | src/Main.java:57-61 | after registering, notifying prints the old lines and then the new observer's line |
| `Notification.NotifyAfterRemove` | src/Main.java:58-61 | after a removal, notifying prints the old lines minus the removed observer's, the rest in their old order |
| `Notification.OrderNotifier.constructor` | src/Main.java:56 | a new notifier has an empty observer list |
| `Notification.OrderNotifier.RegisterObserver` | src/Main.java:57 | the list becomes the old list plus the observer at the end; duplicates are kept |
| `Notification.OrderNotifier.RemoveObserver` | src/Main.java:58 | the list is unchanged if the observer is absent, otherwise it loses exactly the first occurrence |
| `Notification.OrderNotifier.NotifyObservers` | src/Main.java:59-61 | one line per observer, in list order, the k-th being the k-th observer's prefix plus the message; the list is not changed |
| `Order.PlaceOrder` | src/Main.java:73-94 | a choice outside the menu ends the run with nothing priced or notified; a negative measurement aborts it with the invalid-measurement error; the no-strategy error never reaches the end of a run, because main always sets a strategy before pricing; otherwise the run yields the selected strategy's cost and the mobile-app line, then the e-mail line, both with the same notice |
| `Order.StandardSample` | src/Main.java:73-94 | choice "1" for 10 kg over 20 km costs 7.0 and prints the mobile-app line, then the e-mail line |

## Left out

- Console I/O is not modelled. This covers the `Scanner` input, the menu
  and prompt lines, and the "invalid choice" message. The choice, weight and
  distance are parameters of `PlaceOrder`. Printed lines are returned as
  strings.
- The `InputMismatchException` that `nextDouble` throws on non-numeric
  input is not modelled, because it is library behaviour.
- Costs are exact `real` numbers. IEEE-754 `double` rounding, NaN and
  infinities are not modelled. With NaN, Java's `weight < 0` test is false,
  and the model has no such value.
- The notice text in `main` depends on `Double.toString` formatting. It is
  passed to `PlaceOrder` as the function `orderInfo` from weight, distance
  and cost to a string.
- Observers are compared structurally. Java compares them through object
  identity and `equals`, so two distinct observer objects of one class stay
  distinguishable there but not here.
- Null observers are not modelled, because the observer datatype has no null
  value and `main` never registers one. This covers `List.remove(null)` and
  `registerObserver(null)`. In Java a registered null entry makes a later
  `notifyObservers` throw `NullPointerException` when it reaches that entry,
  after the observers before it have already printed their lines.
- Concurrent modification of the observer list during a notification is not
  modelled, because the program is single-threaded and observers do not
  touch the notifier.
