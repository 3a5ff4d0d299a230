# 10AutoParts storefront cart, in Dafny

This project models the shopping logic of the 10AutoParts storefront
component (`src/components/Home.tsx`). The page shows a fixed catalog of
nine car and bike parts and lets the visitor filter it by vehicle type. The
visitor adds parts to a cart and raises or lowers their quantities. The
page shows a badge count and a cart total, and sends the order as a
WhatsApp message to the shop.

The component's state is the class `Home.App`, with one field per piece of
React state. Each event handler is a method that changes those fields and
keeps the invariant `Valid()`:
- one cart line per product id;
- every quantity positive;
- every product taken from a catalog with distinct ids and positive prices;
- the video index in range.

The computations the handlers use are pure functions:
- `CartStore` holds the cart updates and the two sums.
- `Catalog` holds the catalog and the category filter.
- `OrderComposer` holds the message text and the link. The composer's
  `forEach` that appends one line per item is the loop method
  `ComposeMessage`, proved equal to the function `OrderMessage`.
- `Numerals` holds the decimal text that `String(n)` and `toFixed(2)` give
  for whole numbers.
- `Seqs` holds the generic `filter`, the summing `reduce` and the subsequence
  relation.

Modules, in dependency order: `Seqs`, `Numerals`, `Catalog`, `CartStore`,
`OrderComposer`, `Home`.

Two behaviours of the code are kept as written:
- An empty cart makes `orderViaWhatsApp` return silently, without a notice
  (line 87).
- A contact field counts as missing only when it is the empty string, so a
  name of spaces passes (line 88).

## Model

| member | source | states |
|---|---|---|
| `Seqs.Filter` | src/components/Home.tsx:108 | the kept elements all pass the test and are never more than the input; the `filter` of line 108 and of line 81 — `FilterIsSubsequence`, `FilterMembers`, `FilterKeepsAll`, `FilterKeepsNone` and `FilterPartition` state that it keeps exactly the passing elements in their order |
| `Seqs.Sum` | src/components/Home.tsx:84 | the left-to-right `reduce` from 0 of line 84 and of line 147 — `SumAppend`, `SumOfPositives`, `SumOfNonNegatives`, `SumUpdate` and `SumRemove` state how it grows, its bounds and how one changed or removed term moves it |
| `Seqs.ConcatMap` | src/components/Home.tsx:98-100 | the text a `forEach` that appends builds, piece after piece in order — `ConcatMapAppend`, `ConcatMapSnoc`, `ConcatMapSplit` and `ConcatMapPair` state where each piece sits |
| `Numerals.NatText` | src/components/Home.tsx:99 | the decimal text of a count is non-empty, all digits, and starts with `0` only for zero |
| `Numerals.IntText` | src/components/Home.tsx:99 | `String(i)` is non-empty and starts with `-` exactly when `i` is negative |
| `Numerals.NatTextRoundTrip` | src/components/Home.tsx:99 | reading back the decimal text of `n` gives `n` |
| `Numerals.IntTextRoundTrip` | src/components/Home.tsx:99 | reading back `String(i)` gives `i`, so distinct quantities print differently |
| `Numerals.FixedTwoRoundTrip` | src/components/Home.tsx:99 | `toFixed(2)` of a whole amount ends in `.00` and the text before it reads back as the amount |
| `Numerals.FixedTwo` | src/components/Home.tsx:99 | `toFixed(2)` of a whole amount (lines 99 and 102) — `FixedTwoRoundTrip` states it is the amount's integer text followed by `.00`, and `ExamplePadsTexts`, `ExampleHelmetTexts`, `ExampleTotalText` give it on the worked example |
| `Catalog.FilteredProducts` | src/components/Home.tsx:108 | the view is never longer than the catalog and under a vehicle type holds only parts for it; `FilteredProductsMeaning` and `VehicleFiltersPartition` pin it down exactly |
| `Catalog.FilteredProductsMeaning` | src/components/Home.tsx:108 | "All" shows the catalog unchanged; a vehicle type shows exactly the entries of that type, in catalog order (a subsequence) |
| `Catalog.VehicleFiltersPartition` | src/components/Home.tsx:108 | the Car and Bike views together hold as many entries as the catalog: each entry is in exactly one |
| `Catalog.CarFilter` | src/components/Home.tsx:48-54 | on the shipped catalog the Car view is the first five entries |
| `Catalog.BikeFilter` | src/components/Home.tsx:55-59 | on the shipped catalog the Bike view is the last four entries |
| `Catalog.CatalogIdsUnique` | src/components/Home.tsx:48-59 | the catalog ids are 1 to 9 in order, so an id names at most one product |
| `Catalog.CatalogPricesPositive` | src/components/Home.tsx:48-59 | every catalog price is positive |
| `CartStore.Find` | src/components/Home.tsx:63 | no result exactly when no line has the id; otherwise it is the first line with that id |
| `CartStore.MapQuantity` | src/components/Home.tsx:65-69 | the map keeps the length; each line for the id gets `f(quantity)`, every other line is unchanged |
| `CartStore.MapQuantityAt` | src/components/Home.tsx:65-69 | in a cart with unique ids the map changes only the single line for the id |
| `CartStore.MapQuantityMissing` | src/components/Home.tsx:65-69 | the map leaves a cart with no line for the id unchanged |
| `CartStore.Add` | src/components/Home.tsx:62-72 | after adding, the product has a line; the lines already there keep their products in place; the cart grows by one line exactly when the product had none. `AddNew`, `AddExisting` and `AddTotals` characterise it fully |
| `CartStore.AddNew` | src/components/Home.tsx:70-72 | adding a product with no line appends `(product, 1)` at the end |
| `CartStore.AddExisting` | src/components/Home.tsx:64-69 | adding a product that has a line raises that line by one and changes nothing else |
| `CartStore.AddPreservesValid` | src/components/Home.tsx:62-74 | adding keeps ids unique and quantities positive |
| `CartStore.AddKeepsProductsFrom` | src/components/Home.tsx:62-74 | adding a catalog product keeps every line's product in the catalog |
| `CartStore.AddTotals` | src/components/Home.tsx:62-74 | adding raises the total by the product's price and the item count by one |
| `CartStore.AddFromCatalog` | src/components/Home.tsx:62-74 | all of the above at once, for a cart drawn from a catalog with distinct ids |
| `CartStore.Update` | src/components/Home.tsx:76-82 | every line left after an update holds at least one item |
| `CartStore.UpdateExisting` | src/components/Home.tsx:76-82 | the line for the id gets `max(0, q + change)` in its place, or is removed when that is 0; all other lines are kept in order |
| `CartStore.UpdateMissing` | src/components/Home.tsx:76-82 | updating an id with no line leaves the cart unchanged |
| `CartStore.UpdateToZeroRemoves` | src/components/Home.tsx:76-82 | lowering a line by its whole quantity removes exactly that line (the "-" button at line 236 does this for a quantity of 1) |
| `CartStore.FilterReplaced` | src/components/Home.tsx:79-81 | after one line is changed, the stock filter keeps it if it is non-empty and otherwise removes only that line |
| `CartStore.KeepInStock` | src/components/Home.tsx:81 | the stock filter keeps a cart of non-empty lines unchanged |
| `CartStore.DropEmptyLine` | src/components/Home.tsx:81 | the stock filter drops an empty line |
| `CartStore.RemovePreservesValid` | src/components/Home.tsx:81 | removing a line keeps the cart invariant |
| `CartStore.UpdatePreservesValid` | src/components/Home.tsx:76-82 | updating keeps ids unique and quantities positive |
| `CartStore.UpdateTotals` | src/components/Home.tsx:76-84 | updating a line moves the total by price times the change in quantity, and the item count by that change |
| `CartStore.UpdateKeepsProductsFrom` | src/components/Home.tsx:76-82 | updating never brings in a product that was not in the cart |
| `CartStore.UpdateFromCatalog` | src/components/Home.tsx:76-82 | validity, catalog membership and the existing/missing-line cases at once |
| `CartStore.TotalPrice` | src/components/Home.tsx:84 | the total is 0 for the empty cart and never negative while quantities are positive; `AddTotals`, `UpdateTotals` and `TotalsOfValidCart` state how it moves |
| `CartStore.ItemCount` | src/components/Home.tsx:147 | the badge sum is 0 for the empty cart and, while quantities are positive, at least the number of lines and 0 only for the empty cart |
| `CartStore.TotalsOfValidCart` | src/components/Home.tsx:84 | on a valid cart of priced products the total is 0 exactly for the empty cart and never negative; the item count is at least the number of lines |
| `OrderComposer.ContactNotice` | src/components/Home.tsx:89 | the missing-contact notice is a non-empty exclamation in the chosen language |
| `OrderComposer.Greeting` | src/components/Home.tsx:94-96 | the greeting opens with the salutation and contains the customer's name and mobile number |
| `OrderComposer.ItemLine` | src/components/Home.tsx:99 | an item line opens with the quantity, names the product and ends in a newline; `ExamplePadsLine` and `ExampleHelmetLine` give it exactly |
| `OrderComposer.TotalLine` | src/components/Home.tsx:102 | the total line starts with a newline and ends with the total's `toFixed(2)` text, which `FixedTwoRoundTrip` reads back |
| `OrderComposer.OrderMessage` | src/components/Home.tsx:93-102 | the message is the greeting, then the item lines, then the total line, each at its place; `MessageContents` and `ExampleOrder` state what it holds |
| `OrderComposer.WhatsAppLink` | src/components/Home.tsx:104 | the link is the shop's `wa.me` prefix followed by exactly the encoded message; `LinkRoundTrip` reads it back |
| `OrderComposer.LinkText` | src/components/Home.tsx:104 | the text of a shop link is what follows the `wa.me` prefix |
| `OrderComposer.LinkRoundTrip` | src/components/Home.tsx:104 | the link carries exactly the encoded message |
| `OrderComposer.ComposeMessage` | src/components/Home.tsx:93-102 | the greeting, one appended line per cart line, then the total line, build exactly `OrderMessage` |
| `OrderComposer.ItemLines` | src/components/Home.tsx:98-100 | the text the `cart.forEach` appends: one item line per cart line, in cart order — `ItemLinesInOrder` places each line between the earlier and the later ones, `MessageContents` shows every line in the message, and `ComposeMessage`'s loop invariant is written in it |
| `OrderComposer.ItemLinesInOrder` | src/components/Home.tsx:98-100 | line `k` of the items comes after the lines of the earlier cart entries and before those of the later ones |
| `OrderComposer.MessageContents` | src/components/Home.tsx:93-102 | the message starts with the greeting, ends with the total line, and contains the name, the mobile number and every item line |
| `OrderComposer.ExampleTotal` | src/components/Home.tsx:84 | two Brake Pads and one Helmet total 6999 |
| `OrderComposer.ExamplePadsTexts` | src/components/Home.tsx:99 | the Brake Pads quantity and amount print as `2` and `1000.00` |
| `OrderComposer.ExampleHelmetTexts` | src/components/Home.tsx:99 | the Helmet quantity and amount print as `1` and `5999.00` |
| `OrderComposer.ExampleTotalText` | src/components/Home.tsx:102 | the example's total prints as `6999.00` |
| `OrderComposer.ExamplePadsLine` | src/components/Home.tsx:99 | the Brake Pads line reads `2x Brake Pads - $1000.00` |
| `OrderComposer.ExampleHelmetLine` | src/components/Home.tsx:99 | the Helmet line reads `1x Helmet - $5999.00` |
| `OrderComposer.ExampleItemLines` | src/components/Home.tsx:98-100 | the item part of that example is the two lines in cart order |
| `OrderComposer.ExampleTotalLine` | src/components/Home.tsx:102 | that example closes with `Total: $6999.00` after a blank line |
| `OrderComposer.TwoLineMessage` | src/components/Home.tsx:93-102 | the message for a two-line cart is the greeting, the first line, the second line, then the total line |
| `OrderComposer.ExampleOrder` | src/components/Home.tsx:93-102 | the whole English message for that example: greeting, the two lines, `Total: $6999.00` |
| `Home.NextVideo` | src/components/Home.tsx:38 | the next index stays in range: one more, or back to 0 after the last video |
| `Home.VideoAfter` | src/components/Home.tsx:38 | after any number of video ends the index is in range |
| `Home.VideoAfterIsModular` | src/components/Home.tsx:38 | after `n` video ends the index is `(i + n) mod 4` |
| `Home.VideoRotation` | src/components/Home.tsx:24-38 | a full round of four ends returns to the same video, and every video is reached within one round |
| `Home.App.constructor` | src/components/Home.tsx:27-59 | the first render: empty closed cart, category All, empty contact fields, English, the given start video, the nine-product catalog |
| `Home.App.GetTotalPrice` | src/components/Home.tsx:84 | the total is never negative and is 0 exactly for an empty cart |
| `Home.App.BadgeCount` | src/components/Home.tsx:145-147 | the quantity sum the badge shows (line 147) is at least the number of lines and 0 exactly for an empty cart; line 145 hides the badge when the cart is empty |
| `Home.App.FilteredProducts` | src/components/Home.tsx:108 | the products shown for the selected category: all, or exactly those of the vehicle type, in catalog order |
| `Home.App.AddToCart` | src/components/Home.tsx:62-74 | the new cart appends `(product, 1)` or raises that product's line by one; the panel opens; the total grows by the price and the badge by one; the invariant holds |
| `Home.App.UpdateQuantity` | src/components/Home.tsx:76-82 | the product's line gets `max(0, q + change)`, or is removed at 0; a missing id changes nothing; the invariant holds |
| `Home.App.HandleVideoEnd` | src/components/Home.tsx:38 | only the video index changes, to the next one modulo 4 |
| `Home.App.SelectCategory` | src/components/Home.tsx:183 | only the selected category changes |
| `Home.App.SetCustomerName` | src/components/Home.tsx:226 | only the name field changes |
| `Home.App.SetCustomerPhone` | src/components/Home.tsx:227 | only the mobile field changes |
| `Home.App.ToggleLanguage` | src/components/Home.tsx:142 | only the language changes, to the other one |
| `Home.App.ToggleCart` | src/components/Home.tsx:143 | only the cart panel flag changes, to its negation |
| `Home.App.CloseCart` | src/components/Home.tsx:221 | only the cart panel flag changes, to closed |
| `Home.App.OrderViaWhatsApp` | src/components/Home.tsx:86-106 | nothing happens exactly for an empty cart; the localized notice exactly when the cart is non-empty and a contact field is empty; otherwise the link to the shop number carrying the encoded `OrderMessage` |

## Left out

- The markup, the icons, the typewriter banner and the mobile menu flag `isMenuOpen` (lines 27, 122-394): this is presentation only.
- The translation table `texts` (lines 110-120): these are display strings only. The texts the order message uses are modelled.
- `window.open` and `alert`: these are effects. `Home.App.OrderViaWhatsApp` returns an `OrderOutcome` value naming the link to open or the notice to show.
- `encodeURIComponent`: percent-encoding is not modelled. It is the parameter `encode` of `Home.App.OrderViaWhatsApp`, and the link is proved to carry `encode(message)` unchanged.
- `Math.random` for the starting video: the constructor takes the starting index as a parameter that only has to be in range.
- The `useEffect` that loads and plays the video: this is browser I/O.
- `toFixed(2)` is modelled only for whole numbers, which is all the catalog's integer prices produce. JavaScript's floating-point number format, its exponent notation and its precision limits are not modelled.
- The `₹` symbol in the product cards is markup. The order message uses `$`, as the code does.
- React's batching of `setState` calls: each handler is modelled as one atomic update of the state.
- Home.App.AddToCart: requires the product to be in the component's product list. Its only call site (line 204) passes an entry of `filteredProducts`, which is drawn from that list. A product outside the list whose id clashes with a cart line would break the "total grows by its price" property, and the model does not cover that call.
