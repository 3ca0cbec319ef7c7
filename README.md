# Green Earth storefront: shopping cart and display rules

This project models the logic of the Green Earth tree-planting storefront
(`script.js`) that can be stated apart from the page: the **shopping cart**
and four small **display rules** used by the product cards and the category
list.

- `cart.dfy`, module `ShoppingCart`: the cart is a list of lines
  `{id, name, price, quantity}`. The class `Cart` holds the list and changes it
  in place. `Add` looks a plant up by id, then either adds one unit to its line
  or appends a new line with quantity 1. `Remove` replaces the list with a copy
  that leaves out every line with that id. `Total` runs the same summing loop
  as the cart display, and an empty cart shows 0. Each method is proved against
  a pure function (`IndexOf`, `Added`, `Removed`, `Sum`). The lemmas state the
  cart's invariants: ids stay unique and quantities stay at least 1 over any
  sequence of actions, and the total moves by exactly one unit price or one
  line subtotal. They also state how removal behaves: it keeps the other lines
  in order, and removing an absent id changes nothing.
- `display.dfy`, module `Display`: the card description shortened to 100
  characters plus `"..."`, with a fallback text. The category label chain: own
  name, then the fixed id-to-name table, then `"Category <id>"`. The price
  fallback to 500, which also applies to a price of 0. The current category
  chosen by a category button: none for `"all"`, otherwise the button's own id.
- `wrappers.dfy`, module `Wrappers`: `Option`, for a property that JavaScript
  leaves `undefined` or `null`.

Network fetches, rendering, timers and event plumbing are inputs or are left
out (see below).

## Model

| member | source | states |
|---|---|---|
| ShoppingCart.IndexOf | script.js:419 | the lookup finds the first line with the id, and finds none exactly when no line has that id |
| ShoppingCart.Added | script.js:418-430 | an absent id appends exactly one line (id, name, price, quantity 1) after the unchanged lines; a present id keeps the length and gives its line one more unit, keeping its name and price, with every other line unchanged |
| ShoppingCart.Removed | script.js:446-447 | no line with the id remains, the cart never grows, and removing an absent id leaves the cart unchanged |
| ShoppingCart.RemovedMembers | script.js:447 | removal keeps exactly the lines whose id differs |
| ShoppingCart.RemovedDistributes | script.js:447 | removal works line by line over concatenation, so the kept lines keep their relative order |
| ShoppingCart.RemovedExisting | script.js:446-447 | in a well-formed cart, removing a present id deletes exactly its line, whatever its quantity, and the rest stay in order |
| ShoppingCart.SumConcat | script.js:462-469 | the total of two consecutive runs of lines is the sum of their totals |
| ShoppingCart.SumUpdate | script.js:468-469 | replacing one line changes the total by the difference of the two subtotals |
| ShoppingCart.SumBumped | script.js:421-422 | one more unit on a line raises the total by that line's price |
| ShoppingCart.SumAppended | script.js:424-429 | appending a line raises the total by its subtotal |
| ShoppingCart.SumDeleted | script.js:447 | deleting one line lowers the total by that line's subtotal |
| ShoppingCart.SumAdded | script.js:418-432 | adding a plant raises the total by the stored price of its line when present, else by the given price |
| ShoppingCart.SumRemoved | script.js:446-448 | removing a present plant lowers the total by that line's subtotal; removing an absent one leaves it unchanged |
| ShoppingCart.AddedPreservesWellFormed | script.js:419-430 | adding keeps ids unique and every quantity at least 1 |
| ShoppingCart.RemovedPreservesWellFormed | script.js:446-447 | removing keeps ids unique and every quantity at least 1 |
| ShoppingCart.AddedTwice | script.js:418-430 | adding a new plant twice gives one line of quantity 2, not two lines |
| ShoppingCart.ReplayWellFormed | script.js:7 | from the empty cart of a fresh page, any sequence of adds and removes leaves ids unique and every quantity at least 1 |
| ShoppingCart.Cart.constructor | script.js:7 | the cart starts empty and well-formed |
| ShoppingCart.Cart.Find | script.js:419 | the search loop returns the lookup's answer: the first matching index, or none |
| ShoppingCart.Cart.Add | script.js:418-430 | the new lines are `Added` of the old ones, and a well-formed cart stays well-formed |
| ShoppingCart.Cart.Remove | script.js:446-447 | the new lines are `Removed` of the old ones, and a well-formed cart stays well-formed |
| ShoppingCart.Cart.Total | script.js:456-469 | the displayed total is the sum of price times quantity over the lines, so 0 for an empty cart |
| Display.ShortDescription | script.js:359-361 | longer than 100 characters: its first 100 followed by "..."; 1 to 100 characters: the description itself; missing or empty: "No description available"; never empty and at most 103 characters |
| Display.PriceOrDefault | script.js:372 | the price when present and non-zero, else 500; the result is never 0 |
| Display.MappingDomain | script.js:12-23 | the fixed table covers exactly the ids 1 to 10, and none of its names starts like the fallback label |
| Display.NatDigits | script.js:226 | the decimal form of a number is a non-empty run of digits |
| Display.Decimal | script.js:226 | the decimal text of an id in the fallback label is non-empty |
| Display.ParseNatDigits | script.js:226 | reading the digits back gives the number |
| Display.DecimalRoundTrip | script.js:226 | reading the decimal text back gives the id, so distinct ids are written differently |
| Display.CategoryName | script.js:226 | the category's own non-empty name, else the table's name for ids 1 to 10, else "Category " followed by the id; never empty |
| Display.PredefinedLabelsMatchMapping | script.js:117-133 | each listed category is numbered 1 to 10 in order and is labelled with the fixed table's name for its id |
| Display.UnnamedLabelsDistinct | script.js:226 | two categories with a missing or empty name and different ids never get the same label |
| Display.SelectedCategory | script.js:258-264 | the current category becomes none exactly for the "all" button, and otherwise the button's own id |

## Left out

- Network fetches of plants, a category's plants and a plant's details, with their loading indicator and error alerts: asynchronous I/O. The category list is the fixed local table, and plant data are inputs.
- All rendering: the category buttons and their active styling, the plant grid, the active-card zoom, the cart's line markup and the `৳` total text, and the detail modal with its scroll and blur handling. These are browser state, not logic.
- The "Added!" feedback on the add button and its one-second timer, the card's 150 ms delay before opening details, animations, form interception, the Escape key listener and startup wiring.
- `parseInt` of the price read back from the button's data attribute: prices are integers in the model, so fractional prices (which `parseInt` truncates) and `NaN` are not covered.
- Display.PriceOrDefault: JavaScript's other falsy prices (`NaN`, `null`) are folded into the missing case; a price is either an integer or missing.
- Display.ShortDescription: lengths are counted in characters, not in JavaScript's UTF-16 code units, so a description with characters outside the Basic Multilingual Plane may be cut at a different place.
- Display.CategoryName: category ids are integers. The JavaScript table lookup would also accept a string id such as `"3"`.
- Cart ids are strings, as the add-to-cart handlers read them back from data attributes. Adding the same plant once by a number id and once by a string id is not modelled.
- The page's total is recomputed on every change and never stored, so the model keeps no total field. `Cart.Total` computes it on demand.
