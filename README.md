# Pizza ordering: the order state store

This project models the order state of a one-screen pizza ordering app and
proves properties of it in Dafny. The state is a list of breads. Each bread
has a base price (`defaultPrice`), a running price (`totalPrice`), a size
(SMALL, MEDIUM and LARGE add 5, 10 and 15) and its own list of five toppings
that can be selected. The view model fills this list from a fixed catalogue
when it is created. It then offers two updates, and the screen calls them
with list indices:

- `updateBreadSize(size, breadIndex)` sets the size of one bread and
  recomputes its running price from scratch: base price + size surcharge +
  the prices of the selected toppings.
- `updateToppingSelection(toppingIndex, breadIndex)` flips one topping of
  one bread and moves the running price up or down by that topping's price.

Layout:

- `pizza_ordering_ui_state.dfy` (module `UiState`): the records `Topping`,
  `Bread`, `PizzaOrderingUiState`, their default values, and `Size` with
  its surcharge.
- `pizza_ordering_view_model.dfy` (module `ViewModel`): the price sum, the
  copies the updates build, the two updates as pure state transitions, the
  catalogue, the invariant of reachable states, and the class
  `PizzaOrderingViewModel`. The class holds the state in a field and has
  two methods that replace it, each proved against its transition function.
- `order_properties.dfy` (module `OrderProperties`): frame, idempotence,
  involution, commutation, the index-error behaviour, price bounds, and
  two client scenarios that drive the class.

Several details of the code are easy to get wrong; the model follows the
code:

- **Initial price.** The catalogue sets `totalPrice` equal to
  `defaultPrice`, so bread 0 starts at 50; the SMALL surcharge is not
  included.
- **Price formula.** The formula base + surcharge + selected toppings is
  not an invariant of every state. It holds for a bread only after its size
  has been set. The invariant really kept is about `Offset` = running price
  − base price − selected toppings. It is 0 from the catalogue while the
  bread is still SMALL. It equals the size surcharge after a size update.
  Toggles never change it (`ViewModel.OffsetInvariant`, `ViewModel.Reachable`).
  `OrderProperties.InitialOmitsSmallSurcharge` shows the effect: choosing
  SMALL again on a fresh bread raises its price by 5.
- **Incremental toggle.** A toggle moves the price incrementally rather than
  recomputing it. `OrderProperties.UpdatesCommute` and
  `OrderProperties.ToppingSelectionUpdateKeepsConsistent` show that this
  agrees with a recompute whenever the bread's price was consistent.
- **Argument order.** The size update takes `(size, breadIndex)` and the
  toggle takes `(toppingIndex, breadIndex)`.
- **Index errors.** A bad index makes the list lookup throw inside the
  state update, before anything is stored. The model returns
  `IndexOutOfBounds(index, length)` and leaves the state unchanged. The toggle looks up the bread first, so a bad bread
  index is the one reported when both indices are bad.

Each update is modelled as one atomic, sequential state transition.

## Model

| member | source | states |
|---|---|---|
| `UiState.SizePriceIncreasing` | app/src/main/java/com/example/pizzaordering/screen/viewmodel/PizzaOrderingUiState.kt:26-30 | the surcharge is positive and strictly increasing in declaration order SMALL < MEDIUM < LARGE (both directions) |
| `UiState.DefaultRecords` | app/src/main/java/com/example/pizzaordering/screen/viewmodel/PizzaOrderingUiState.kt:3-24 | a default bread is SMALL with prices 0 and no toppings; a default topping is free and unselected; the default state has id 0 and no breads |
| `UiState.Size.Price` | app/src/main/java/com/example/pizzaordering/screen/viewmodel/PizzaOrderingUiState.kt:26-30 | the surcharge is 5 for SMALL, 10 for MEDIUM and 15 for LARGE |
| `ViewModel.SelectedTotal` | app/src/main/java/com/example/pizzaordering/screen/viewmodel/PizzaOrderingViewModel.kt:33-34 | filtering the selected toppings and summing their prices equals the direct sum in which each topping adds its price when selected and nothing otherwise |
| `ViewModel.Selected` | app/src/main/java/com/example/pizzaordering/screen/viewmodel/PizzaOrderingViewModel.kt:33 | the filter keeps at most the input's toppings, and only selected ones |
| `ViewModel.SumOfPrices` | app/src/main/java/com/example/pizzaordering/screen/viewmodel/PizzaOrderingViewModel.kt:34 | the sum of non-negative prices is non-negative |
| `ViewModel.SelectedTotalToggle` | app/src/main/java/com/example/pizzaordering/screen/viewmodel/PizzaOrderingViewModel.kt:33-34 | flipping topping k changes the selected-topping total by exactly +price (became selected) or −price (became unselected) |
| `ViewModel.Toggled` | app/src/main/java/com/example/pizzaordering/screen/viewmodel/PizzaOrderingViewModel.kt:50-52 | the copy negates `isSelected` and keeps every other field |
| `ViewModel.Resized` | app/src/main/java/com/example/pizzaordering/screen/viewmodel/PizzaOrderingViewModel.kt:30-35 | the copy has the new size, its running price satisfies base + surcharge + selected toppings, and all fields other than size and running price are kept |
| `ViewModel.WithToppingToggled` | app/src/main/java/com/example/pizzaordering/screen/viewmodel/PizzaOrderingViewModel.kt:47-58 | the copy flips topping k only, keeps every field but toppings and running price, and keeps running price − base − selected total unchanged |
| `ViewModel.BreadSizeUpdate` | app/src/main/java/com/example/pizzaordering/screen/viewmodel/PizzaOrderingViewModel.kt:25-41 | fails exactly when the bread index is outside the list, with that index and the list length |
| `ViewModel.ToppingSelectionUpdate` | app/src/main/java/com/example/pizzaordering/screen/viewmodel/PizzaOrderingViewModel.kt:43-64 | succeeds exactly when both indices are in range; a bad bread index is reported before a bad topping index |
| `ViewModel.Toppings` | app/src/main/java/com/example/pizzaordering/screen/viewmodel/PizzaOrderingViewModel.kt:77-96 | five toppings with ids 1..5, prices 2, 4, 6, 8, 10, none selected |
| `ViewModel.Breads` | app/src/main/java/com/example/pizzaordering/screen/viewmodel/PizzaOrderingViewModel.kt:67-75 | five breads with ids 1..5 and base prices 50, 55, 60, 65, 70, all SMALL, running price equal to base price, each with the topping catalogue |
| `ViewModel.Initial` | app/src/main/java/com/example/pizzaordering/screen/viewmodel/PizzaOrderingViewModel.kt:14-23 | the initial state has id 0 and five breads whose running price carries no surcharge, so none satisfies the full price formula |
| `ViewModel.InitialReachable` | app/src/main/java/com/example/pizzaordering/screen/viewmodel/PizzaOrderingViewModel.kt:17-23 | the initial state satisfies the reachable-state invariant |
| `ViewModel.BreadSizeUpdatePreservesReachable` | app/src/main/java/com/example/pizzaordering/screen/viewmodel/PizzaOrderingViewModel.kt:25-41 | a successful size update keeps the reachable-state invariant |
| `ViewModel.ToppingSelectionUpdatePreservesReachable` | app/src/main/java/com/example/pizzaordering/screen/viewmodel/PizzaOrderingViewModel.kt:43-64 | a successful toggle keeps the reachable-state invariant |
| `ViewModel.PizzaOrderingViewModel.constructor` | app/src/main/java/com/example/pizzaordering/screen/viewmodel/PizzaOrderingViewModel.kt:14-23 | the new view model holds the default state filled with the catalogue, and that state satisfies the invariant |
| `ViewModel.PizzaOrderingViewModel.UpdateBreadSize` | app/src/main/java/com/example/pizzaordering/screen/viewmodel/PizzaOrderingViewModel.kt:25-41 | on success the stored state is the size transition of the old state; on a bad index it reports the error and the state is unchanged; the invariant is kept |
| `ViewModel.PizzaOrderingViewModel.UpdateToppingSelection` | app/src/main/java/com/example/pizzaordering/screen/viewmodel/PizzaOrderingViewModel.kt:43-64 | on success the stored state is the toggle transition of the old state; on a bad index it reports the error and the state is unchanged; the invariant is kept |
| `OrderProperties.BreadSizeUpdateSetsPrice` | app/src/main/java/com/example/pizzaordering/screen/viewmodel/PizzaOrderingViewModel.kt:30-34 | for a valid index the bread gets the new size and running price base + surcharge + selected toppings |
| `OrderProperties.BreadSizeUpdateFrame` | app/src/main/java/com/example/pizzaordering/screen/viewmodel/PizzaOrderingViewModel.kt:27-39 | only size and running price of the addressed bread change: its toppings, id, image and base price, all other breads and the state id are kept |
| `OrderProperties.BreadSizeUpdateIdempotent` | app/src/main/java/com/example/pizzaordering/screen/viewmodel/PizzaOrderingViewModel.kt:30-34 | setting the same size twice gives the same state as setting it once |
| `OrderProperties.BreadSizeUpdateLastWins` | app/src/main/java/com/example/pizzaordering/screen/viewmodel/PizzaOrderingViewModel.kt:30-34 | of two size updates in a row on one bread, the result equals applying only the second |
| `OrderProperties.ToppingSelectionUpdateFrame` | app/src/main/java/com/example/pizzaordering/screen/viewmodel/PizzaOrderingViewModel.kt:45-62 | only the addressed topping's `isSelected` is negated: the other toppings, the bread's size, id, image and base price, all other breads and the state id are kept |
| `OrderProperties.ToppingSelectionUpdatePrice` | app/src/main/java/com/example/pizzaordering/screen/viewmodel/PizzaOrderingViewModel.kt:54-57 | the running price rises by the topping's price if it became selected and falls by it otherwise, so running price − selected total is preserved |
| `OrderProperties.ToppingSelectionUpdateInvolution` | app/src/main/java/com/example/pizzaordering/screen/viewmodel/PizzaOrderingViewModel.kt:50-57 | toggling the same topping of the same bread twice restores the original state exactly |
| `OrderProperties.ToppingSelectionUpdateKeepsConsistent` | app/src/main/java/com/example/pizzaordering/screen/viewmodel/PizzaOrderingViewModel.kt:54-57 | if a bread's price satisfies the full formula, it still does after a toggle |
| `OrderProperties.ResizedToggledCommute` | app/src/main/java/com/example/pizzaordering/screen/viewmodel/PizzaOrderingViewModel.kt:30-34 | on one bread, recomputing for a size and toggling a topping give the same bread in either order |
| `OrderProperties.UpdatesCommute` | app/src/main/java/com/example/pizzaordering/screen/viewmodel/PizzaOrderingViewModel.kt:25-64 | a size update and a toggle, on the same or different breads, give the same state in either order |
| `OrderProperties.DefaultStateRejectsUpdates` | app/src/main/java/com/example/pizzaordering/screen/viewmodel/PizzaOrderingUiState.kt:3-6 | on the default state (no breads) every update fails on the bread index with length 0 |
| `OrderProperties.OutOfRangeScenario` | app/src/main/java/com/example/pizzaordering/screen/viewmodel/PizzaOrderingViewModel.kt:26-28 | setting LARGE on bread 99 of the catalogue fails with index 99 / length 5 and the state before and after is the initial state |
| `OrderProperties.InitialOmitsSmallSurcharge` | app/src/main/java/com/example/pizzaordering/screen/viewmodel/PizzaOrderingViewModel.kt:69-73 | a fresh bread's running price equals its base price, and choosing SMALL again (same size) raises it by 5 |
| `OrderProperties.SelectThenResizeScenario` | app/src/main/java/com/example/pizzaordering/screen/viewmodel/PizzaOrderingViewModel.kt:32-34 | from a new view model, selecting Onion on bread 0 and then making it LARGE succeeds twice and leaves running price 69 |
| `OrderProperties.ReachablePricesBounded` | app/src/main/java/com/example/pizzaordering/screen/viewmodel/PizzaOrderingViewModel.kt:25-96 | in every reachable state each running price lies in 50..115 |
| `OrderProperties.ReachableToppings` | app/src/main/java/com/example/pizzaordering/screen/viewmodel/PizzaOrderingViewModel.kt:77-96 | in every reachable state each bread still has the catalogue's five toppings with ids 1..5 and prices 2..10 |

## Left out

- Publication of the state through an observable flow, and the retry loop
  that publishes each new state with compare-and-set inside `update`. This
  is concurrency and observer plumbing; each update is one atomic step here.
- Dependency injection and the Android view model lifecycle. These are
  framework plumbing.
- The composable screen (`PizzaOrderingScreen.kt`) and the theme (`Type.kt`).
  They are presentation only; the screen passes the pager's current page as
  the bread index. The "add to cart" action is an unimplemented stub there.
- Drawable resource ids. They are opaque integers, passed in as one
  `Drawables` record. Topping names are plain strings that nothing reads.
- 32-bit overflow of Kotlin `Int` is not modelled, because integers here are
  unbounded. `OrderProperties.ReachablePricesBounded` shows that reachable
  prices stay within 50..115.
- Kotlin `var` on `Bread.size` and `Topping.isSelected`. The code never
  assigns these in place, only through `copy`, so they are immutable fields
  here.
- Selected: its contract does not state that every selected topping is
  kept. The price sum is characterised instead by
  `ViewModel.SelectedTotalToggle` and by the definition itself.
