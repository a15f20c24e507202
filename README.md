# JTGeats page logic in Dafny

JTGeats is a marketing page for a home-food delivery service. Most of its
script wires DOM events. This project models the three parts of `js/main.js`
that compute something.

- **The cart** (`cart.dfy`, module `CartStore`). The cart is an ordered list
  of line items `{name, price, quantity}` keyed by dish name. It supports
  `add`, `remove` and `updateQuantity`, plus two folds: `getTotal` (Σ price ×
  quantity) and `getTotalItems` (Σ quantity).
  - The functions `Added`, `Removed` and `Updated` give the value-level
    meaning of the three mutations on a `seq<Line>`.
  - The class `Cart` keeps the list in its field `items`. Its methods are
    proved to change `items` exactly as those functions say.
  - The methods also keep the object invariant `Valid()`: no two lines share
    a name. The constructor establishes it.
  - `GetTotal` and `GetTotalItems` accumulate from left to right as `reduce`
    does. They are proved equal to the folds `Total` and `TotalItems`.
  - Lemmas relate the totals to each mutation.
- **Carousel paging** (`carousel.dfy`, module `Carousel`). This covers the
  step the previous/next controls scroll by, and the offset handed to
  `scrollTo`. That offset is clamped to `[0, scrollWidth - clientWidth]`.
- **Quantity stepper** (`stepper.dfy`, module `Stepper`). A click on the
  minus or plus button of a dish's stepper moves the displayed quantity by
  one, within `[1, 99]`. Text that does not parse counts as 1.

`wrappers.dfy` holds the `Option` type used for "not found" and "did not parse".

Modelling choices:
- Prices, quantities, widths and offsets are unbounded integers.
- The string parsing that feeds the model is a parameter:
  - `parseInt(price)` in `cart.add` becomes an integer argument.
  - `parseInt(textContent)` in the stepper becomes an `Option<int>`.
  - `offsetWidth` becomes an `Option<nat>` that is `None` when no card is
    rendered.
- The carousel direction is a datatype `Next | Prev`. The source treats any
  string other than `'next'` as "previous", and it only ever passes
  `'next'` and `'prev'`.
- The stepper button is modelled by whether its class list contains
  `minus` and whether it contains `plus`. `minus` is tested first, as in the
  source.
- `Valid()` (unique names) is the precondition and postcondition of each
  mutating cart method (`Add`, `Remove`, `UpdateQuantity`). The cart is only ever built empty, and every method keeps
  it. `Added`, `Removed`, `Updated` and `Total` are defined for any list,
  unique or not.
  - With duplicate names, `Added`/`Updated` affect only the first match, as
    `find` does.
  - `Removed` drops every match and keeps the other lines in order, as
    `filter` does (`RemovedConcat` and `RemovedSingle`).
- The source does not enforce positive quantities: `add` accepts any
  quantity. So positivity is not part of `Valid()`. It is proved as a
  separate invariant under the condition that each `add` passes at least 1.
  The page's only call passes the default 1 (js/main.js:622).
- `CartStore.Scenarios` is a client method. It replays two
  sessions against the class contracts:
  - "Biryani" added twice gives one line of quantity 3 and total 750.
  - "Dosa" added then removed gives an empty cart with item count 0.

## Model

| member | source | states |
|---|---|---|
| CartStore.IndexOf | js/main.js:10 | The first line with the given name, as `find` locates it. `None` exactly when no line has that name. |
| CartStore.IndexOfUnique | js/main.js:30 | In a cart with unique names, the lookup finds the one line carrying the name. |
| CartStore.Added | js/main.js:9-19 | Present name: same length, that line's quantity grows by `q`, name and original price are kept, every other line is unchanged. Absent name: the new line `{n, p, q}` is appended after the unchanged existing lines. |
| CartStore.Removed | js/main.js:24-27 | No remaining line has the name. Every remaining line comes from the old cart. Every old line with another name is kept. The result is no longer than the original. |
| CartStore.RemovedAbsent | js/main.js:24-27 | Removing a name that is not in the cart leaves the cart unchanged. |
| CartStore.RemovedConcat | js/main.js:25 | Removing from a concatenation is the concatenation of the two removals, so the kept lines stay in their original order for any cart, unique or not. |
| CartStore.RemovedSingle | js/main.js:25 | A single line is kept exactly when its name differs from the removed name. Together with `RemovedConcat` this fixes `Removed` as `filter`. |
| CartStore.RemovedAt | js/main.js:24-27 | With unique names, removing the name at position k gives exactly the lines before k followed by the lines after k, in their original order. |
| CartStore.Updated | js/main.js:29-39 | Absent name: no-op, so no line is created even for a quantity ≤ 0. Present name with quantity ≤ 0: same as remove. Otherwise only that line's quantity is set; its name, its price and every other line are unchanged. |
| CartStore.AddedKeepsUnique | js/main.js:9-19 | `add` preserves the invariant that no two lines share a name. |
| CartStore.RemovedKeepsUnique | js/main.js:24-27 | `remove` preserves unique names. |
| CartStore.UniqueCons | js/main.js:25 | A line whose name no other line carries can stand in front of a cart with unique names without breaking the invariant. This is the step that makes `filter` keep names unique. |
| CartStore.UpdatedKeepsUnique | js/main.js:29-39 | `updateQuantity` preserves unique names. |
| CartStore.AddedKeepsPositive | js/main.js:9-19 | Adding a quantity of at least 1 keeps every line's quantity at least 1. |
| CartStore.RemovedKeepsPositive | js/main.js:24-27 | Removing keeps every remaining quantity at least 1. |
| CartStore.UpdatedKeepsPositive | js/main.js:29-39 | Updating keeps every quantity at least 1, because a non-positive value removes the line instead of storing it. |
| CartStore.TotalConcat | js/main.js:41-43 | The price total of two concatenated carts is the sum of their totals. |
| CartStore.TotalItemsConcat | js/main.js:45-47 | The item count of two concatenated carts is the sum of their counts. |
| CartStore.TotalsReplaced | js/main.js:35 | Replacing one line changes the total and the item count by exactly the difference between the old line and the new one. |
| CartStore.TotalsIncreased | js/main.js:12 | Raising one line's quantity by q adds q to the item count and q times that line's price to the total. |
| CartStore.TotalsAppended | js/main.js:14-18 | Appending a line adds its price × quantity to the total and its quantity to the item count. |
| CartStore.TotalsAddedPresent | js/main.js:10-12 | For a dish already in the cart, adding q raises the count by q and the total by q times the existing line's price. The price passed to `add` is ignored. |
| CartStore.TotalsAddedAbsent | js/main.js:13-18 | For a new dish, adding q at price p raises the count by q and the total by p × q. |
| CartStore.TotalsEmpty | js/main.js:41-47 | Both totals of an empty cart are 0, the initial value of both `reduce` calls. |
| CartStore.TotalsAdded | js/main.js:9-47 | Adding q of a dish raises the item count by q. It raises the total by q times the dish's unit price: the existing line's price when the dish is present, otherwise the given price. |
| CartStore.TotalsRemoved | js/main.js:24-47 | With unique names, removing a present dish lowers the total by that line's price × quantity and the count by its quantity. Removing an absent dish changes neither. |
| CartStore.TotalItemsZeroIffEmpty | js/main.js:45-47 | With positive quantities the item count is at least the number of lines. It is 0 exactly when the cart is empty, which is what the "cart is empty" check relies on. |
| CartStore.Cart.constructor | js/main.js:7 | The cart starts with no lines, and the unique-names invariant holds. |
| CartStore.Cart.Add | js/main.js:9-22 | The new list is `Added(old list, …)` with default quantity 1. Unique names are preserved. |
| CartStore.Cart.Remove | js/main.js:24-27 | The new list is `Removed(old list, name)`. Unique names are preserved. |
| CartStore.Cart.UpdateQuantity | js/main.js:29-39 | The new list is `Updated(old list, name, q)`. The non-positive case goes through `Remove`, as the source delegates to `remove`. Unique names are preserved. |
| CartStore.Cart.GetTotal | js/main.js:41-43 | The left-to-right accumulation returns Σ price × quantity over the lines. |
| CartStore.Cart.GetTotalItems | js/main.js:45-47 | The left-to-right accumulation returns Σ quantity over the lines. |
| Carousel.ScrollAmount | js/main.js:229-234 | 320 when no card is rendered, otherwise the card width plus the 20-pixel gap. The step is therefore always at least 20. |
| Carousel.Clamp | js/main.js:238-246 | Reference definition of clamping a value into `[lo, hi]`. |
| Carousel.ScrollTarget | js/main.js:236-247 | "Next" never goes past `scrollWidth - clientWidth` or more than one step right. From an offset at most `scrollWidth - clientWidth` it does not move left. "Prev" never goes below 0 or more than one step left. From an offset of at least 0 it does not move right. |
| Carousel.ScrollIsClamped | js/main.js:236-247 | From an offset inside the range, both directions equal the offset moved by ± one step and clamped to `[0, scrollWidth - clientWidth]`. |
| Carousel.NextMovesUnlessAtEnd | js/main.js:240-242 | Inside the range, "next" leaves the offset unchanged exactly when it is already at the right end. |
| Carousel.PrevMovesUnlessAtStart | js/main.js:243-246 | Inside the range, "prev" leaves the offset unchanged exactly when it is already at 0. |
| Carousel.PrevUndoesNext | js/main.js:236-247 | A "next" that was not cut short by the right end is undone by one "prev". |
| Carousel.ScrollAllStaysInRange | js/main.js:219-247 | Any run of previous/next clicks that starts inside the range stays inside `[0, scrollWidth - clientWidth]`, where each click starts from the previous click's target (the settled offset once each smooth scroll has finished). A click that reads an in-between offset during the animation, or after a touch drag, stays in range too, because `ScrollIsClamped` holds from any offset inside the range. |
| Stepper.UnparsableCountsAsOne | js/main.js:419-428 | For every button, a click on a stepper whose text does not parse writes the same quantity as a click on one showing 1. |
| Stepper.Step | js/main.js:419-428 | Minus never gives less than 1, and it decrements exactly when the quantity is above 1. Plus (without minus) never gives more than 99, and it increments exactly when the quantity is below 99. Any other button leaves the quantity as read. From [1, 99] the result stays in [1, 99]. |
| Stepper.StepMovesByAtMostOne | js/main.js:422-426 | From a quantity in range, one click changes it by at most one. |
| Stepper.StepSaturates | js/main.js:419-426 | Minus at 1 stays 1. Plus at 99 stays 99. Minus on unparsable text gives 1. |
| Stepper.PlusUndoesMinus | js/main.js:422-426 | For a quantity in (1, 99], minus then plus returns the original quantity. |
| Stepper.MinusUndoesPlus | js/main.js:422-426 | For a quantity in [1, 99), plus then minus returns the original quantity. |
| Stepper.StepAllStaysInRange | js/main.js:403-428 | A run of clicks on one stepper, each reading back the number the last one wrote, stays in [1, 99] when it starts in range or from unparsable text. The result is the quantity the next click would read, not the displayed text: with zero clicks on unparsable text it is 1, though the page still shows that text. |

## Left out

- Display sync: `cart.updateDisplay` (js/main.js:49-74) renders the badge, the item list and the total into the DOM. It is not modelled. Every mutation of the source calls it right after changing the list; in the model that is simply the point where the method returns with the new `items`.
- `cart.showNotification` (js/main.js:76-94) is a timer-driven DOM notification. The message `add` shows is not modelled.
- `parseInt(price)` at js/main.js:16 is not modelled: the price is an integer argument. An unparsable price becomes `NaN` in the source, and that has no integer counterpart.
- JavaScript numbers are IEEE doubles. The model uses unbounded integers, so precision loss above 2^53 and non-integer quantities are not captured.
- The guards of `handleQuantityClick` are not modelled: a click outside a `qty-btn`, or a missing stepper or number element, returns early. So is the scale animation. What is modelled is the value written to `qtyNumber.textContent` (js/main.js:428).
- `Math.round` on `offsetWidth + 20` (js/main.js:233) is not modelled. Widths are whole pixels here, so rounding is the identity.
- The `scrollTo` request with smooth behaviour is not modelled, only the target it is given.
- Touch dragging (`setupTouchEvents`, js/main.js:249-271) is not modelled. It is event-driven, unclamped and works on floating-point pixel coordinates.
- `ModalManager`, `VideoManager`, `SearchManager`, `ContactManager`, `ScrollManager`, `AnimationManager`, `CartDisplayManager`, image preloading and lazy loading are DOM and browser-API glue with timers, media promises and observers. None of them is modelled.
