# Marketplace view-state model

A Dafny model of the client-side state logic of a second-hand marketplace web
front end (eco-cycle-haven). The application has no back end: every screen
starts from hard-coded data and changes only its own in-memory state. What has
behaviour to state is the set of small rules that sit inside event handlers and
render-time derivations. This model lifts them out of their components:

- **Cart ledger** (`cart.dfy`, module `Cart`): the cart's line list, the promo
  text being typed and at most one applied promo. A `CartPage` class holds that
  state. Its methods are the quantity, remove, like and promo handlers. Pure
  functions give the subtotal, shipping total, discount and grand total.
- **Category selection** (`category_filter.dfy`, module `CategoryFilter`): the
  side panel's toggle and clear-all, as pure functions on the list of selected
  category ids.
- **Listing registry view** (`my_listings.dfy`, module `MyListings`): the status
  tab filter, the counters over the whole list, and each listing's menu and
  date cell.
- **Purchase log view** (`purchases.dfy`, module `Purchases`): the search plus
  status filter, the counters, the per-order action buttons and the delivery
  line.
- **Listing form** (`sell.dfy`, module `Sell`): a `SellPage` class for the form
  fields, the photo list capped at five, and the submit, success and reset
  cycle.
- **Browse page** (`browse.dfy`, module `Browse`): a `BrowsePage` class for the
  price range, selected categories, sort key, view mode and filter panel. The
  product grid ignores all of them.

Shared pieces: `seqs.dfy` (module `Seqs`) writes JavaScript's `filter`, `map`,
`some` and summing `reduce` once over sequences, with the lemmas the page
models use. `text.dfy` (module `Text`) models `toLowerCase` and `includes`.
`wrappers.dfy` (module `Wrappers`) holds `Option`.

Money is exact (`real`): nothing is rounded. Status values and tab names are
plain strings, as in the source. So "the four status tabs split the listing
list" is proved for lists whose statuses are all among the four known ones.

Two behaviours of the code are easy to miss:
- The price inputs fall back to the constants 0 and 500, not to the current
  bound, and a typed maximum of 0 becomes 500.
- An order with no items never matches the search, even for an empty query,
  because the whole test sits inside `items.some(...)`.

## Model

| member | source | states |
|---|---|---|
| `Cart.RemoveLine` | src/pages/Cart.tsx:80-82 | the result holds exactly the lines whose id differs, each as often as before, as a subsequence of the original list |
| `Cart.WithQuantity` | src/pages/Cart.tsx:72-76 | same length; each matching line gets quantity n; each line differs from its old self at most in its quantity; other lines are unchanged |
| `Cart.UpdatedQuantity` | src/pages/Cart.tsx:68-78 | quantity 0 removes every line with the id; any other quantity keeps the length and the ids in place; every remaining line with the id has quantity n |
| `Cart.WithLikeToggled` | src/pages/Cart.tsx:84-90 | same length; `isLiked` flips on matching lines only; no other field of any line changes |
| `Cart.Subtotal` | src/pages/Cart.tsx:102 | an empty cart has subtotal 0; with non-negative prices and quantities the subtotal is non-negative |
| `Cart.ShippingTotal` | src/pages/Cart.tsx:103 | an empty cart has shipping 0; with non-negative shipping costs the shipping total is non-negative |
| `Cart.PromoDiscount` | src/pages/Cart.tsx:104 | no promo means no discount; with a percent between 0 and 100 and a non-negative subtotal, the discount lies between 0 and the subtotal, so it never takes off more than the items cost |
| `Cart.Total` | src/pages/Cart.tsx:102-105 | the total is shipping plus the part of the subtotal the promo leaves (subtotal × (100 − percent) / 100); without a promo it is subtotal plus shipping |
| `Cart.MatchPromo` | src/pages/Cart.tsx:94-98 | text equal to "eco10" ignoring case gives {text as typed, 10}; "save20" gives {text as typed, 20}; any other text gives none |
| `Cart.PromoAfterApply` | src/pages/Cart.tsx:92-100 | a recognised code (eco10 or save20 in any case) replaces the applied promo with {code as typed, its percent}; unrecognised text leaves the applied promo unchanged |
| `Cart.ShowsEmptyCart` | src/pages/Cart.tsx:107 | when the empty-cart view shows, the cart's total is 0 whatever promo is still applied (a promo can outlive the last line) |
| `Cart.CanApply` | src/pages/Cart.tsx:312 | the Apply button is disabled only for text that names no promo, so disabling it never blocks a valid code |
| `Cart.ToggleLikeKeepsTotals` | src/pages/Cart.tsx:84-105 | toggling a like changes neither subtotal, shipping total nor total |
| `Cart.ShippingIgnoresQuantity` | src/pages/Cart.tsx:103 | setting a non-zero quantity (the `map` branch) leaves the shipping total unchanged; quantity 0 removes the line and its shipping |
| `Cart.SubtotalAfterQuantityChange` | src/pages/Cart.tsx:72-102 | with unique ids, setting line k to quantity n changes the subtotal by exactly (n − old quantity) × price |
| `Cart.TotalsAfterRemove` | src/pages/Cart.tsx:80-103 | with unique ids, removing line k takes exactly its price × quantity off the subtotal and its shipping cost off the shipping total |
| `Cart.RemoveKeepsUniqueIds` | src/pages/Cart.tsx:80-82 | removal keeps line ids unique |
| `Cart.TotalAtLeastShipping` | src/pages/Cart.tsx:102-105 | with non-negative prices and quantities and a promo of at most 100%, the subtotal is non-negative and the total is at least the shipping total |
| `Cart.SeededTotals` | src/pages/Cart.tsx:21-105 | the seeded cart has subtotal 1739, shipping 48 and total 1787; "SAVE20" matches, gives discount 347.8 and total 1439.2 |
| `Cart.EmptyCartView` | src/pages/Cart.tsx:107 | the seeded cart is not empty; removing the only line leaves the empty-cart view |
| `Cart.PromoExamples` | src/pages/Cart.tsx:94-98 | "ECO10" and "Save20" match with their typed code; "eco 10" and "" do not |
| `Cart.CartPage.constructor` | src/pages/Cart.tsx:64-66 | the page starts with the seeded lines, empty promo text and no promo |
| `Cart.CartPage.RemoveItem` | src/pages/Cart.tsx:80-82 | lines become `RemoveLine` of the old lines; promo state unchanged; ids stay unique |
| `Cart.CartPage.UpdateQuantity` | src/pages/Cart.tsx:68-78 | lines become `UpdatedQuantity` of the old lines; promo state unchanged |
| `Cart.CartPage.Decrement` | src/pages/Cart.tsx:226 | the minus button updates line k to quantity − 1; if all quantities were positive they stay positive, because a line at 1 is removed |
| `Cart.CartPage.Increment` | src/pages/Cart.tsx:235 | the plus button updates line k to quantity + 1; positive quantities stay positive |
| `Cart.CartPage.ToggleLike` | src/pages/Cart.tsx:84-90 | lines become `WithLikeToggled` of the old lines; promo state unchanged |
| `Cart.CartPage.EditPromoCode` | src/pages/Cart.tsx:307 | the typed text is stored; lines and applied promo unchanged |
| `Cart.CartPage.ApplyPromoCode` | src/pages/Cart.tsx:92-100 | callable only with non-empty text (the button is disabled otherwise, line 312); the promo becomes `PromoAfterApply`, the text is cleared, the lines are unchanged, and only 10% or 20% is ever applied |
| `CategoryFilter.Without` | src/components/filters/CategoryFilter.tsx:35 | the id no longer occurs; every other id keeps its occurrence count and order (a subsequence) |
| `CategoryFilter.Toggle` | src/components/filters/CategoryFilter.tsx:33-39 | the id is selected afterwards iff it was not before; other ids keep their membership; an absent id is appended after the unchanged old list; a present id is removed with all its occurrences, the rest in order |
| `CategoryFilter.ClearAll` | src/components/filters/CategoryFilter.tsx:41-43 | no id is selected afterwards |
| `CategoryFilter.WithoutAbsent` | src/components/filters/CategoryFilter.tsx:35 | removing an unselected id returns the list unchanged |
| `CategoryFilter.ToggleTwiceRestores` | src/components/filters/CategoryFilter.tsx:34-37 | toggling an unselected id twice returns the original list |
| `CategoryFilter.ToggleTwiceMovesToEnd` | src/components/filters/CategoryFilter.tsx:34-37 | toggling a selected id twice moves it to the end |
| `CategoryFilter.ToggleKeepsNoDuplicates` | src/components/filters/CategoryFilter.tsx:34-37 | a selection without repeats keeps none after a toggle |
| `CategoryFilter.Chips` | src/components/filters/CategoryFilter.tsx:62-79 | the chip row shows the selected ids that name a known category, in selection order, one chip per occurrence (an id selected twice gets two chips); unknown ids get none |
| `MyListings.FilterByTab` | src/pages/MyListings.tsx:108-111 | tab "all" returns the list unchanged; any other tab returns exactly the listings with that status, each as often as before, in order |
| `MyListings.ComputeStats` | src/pages/MyListings.tsx:113-120 | total is the size of the "all" tab; the active, sold and draft counters are the sizes of those tabs; the function takes no tab |
| `MyListings.StatsSums` | src/pages/MyListings.tsx:118-119 | total views is Σ views; total earnings is Σ price over sold listings only, and is at most Σ price when prices are non-negative |
| `MyListings.TabsPartition` | src/pages/MyListings.tsx:108-117 | when every status is active, sold, paused or draft, the four tab sizes add up to the total |
| `MyListings.StatsOfFour` | src/pages/MyListings.tsx:113-120 | four listings, one per status, give total 4, one active, one sold, one draft, their summed views, and only the sold one's price as earnings |
| `MyListings.SeededStats` | src/pages/MyListings.tsx:28-120 | the seeded listings give total 4, active 1, sold 1, drafts 1, 235 views and 1200 earned |
| `MyListings.MenuActions` | src/pages/MyListings.tsx:250-275 | "Pause" is offered iff the status is active; "Activate" iff it is paused; view, edit and delete always; view first and delete last |
| `MyListings.DateColumn` | src/pages/MyListings.tsx:293-298 | the cell reads "Sold" with the sold date iff the status is sold; otherwise it reads "Updated" with the update date |
| `Purchases.MatchesSearch` | src/pages/Purchases.tsx:117-120 | a matching order has at least one item, and some item passes the title-or-order-number test |
| `Purchases.MatchesTab` | src/pages/Purchases.tsx:121 | an order is always in its own status tab; in any tab other than "all" it has that status |
| `Purchases.FilterPurchases` | src/pages/Purchases.tsx:116-123 | a subsequence of the orders holding those that match the search and the tab, each as often as in the input; each is in the tab, or the tab is "all" |
| `Purchases.SearchIff` | src/pages/Purchases.tsx:117-120 | an order matches iff it has an item and its number or some item's title contains the query, all lower-cased |
| `Purchases.NoItemsNeverShown` | src/pages/Purchases.tsx:116-123 | an order with no items is never shown, whatever the query and tab |
| `Purchases.EmptyQuery` | src/pages/Purchases.tsx:117-120 | the empty query matches exactly the orders with at least one item |
| `Purchases.QueryCaseIrrelevant` | src/pages/Purchases.tsx:117-120 | lower-casing the query first changes nothing |
| `Purchases.SeededSearches` | src/pages/Purchases.tsx:22-123 | on the seeded orders, "MacBook" under "all" shows only the MacBook order; the empty query under "delivered" shows only the delivered order |
| `Purchases.ComputeStats` | src/pages/Purchases.tsx:125-131 | total is the list length; the three status counters together never exceed it; the amount spent is non-negative when order totals are; the function takes no query and no tab |
| `Purchases.StatsMatchTabs` | src/pages/Purchases.tsx:116-131 | when every order has items, the total is what the "all" tab shows and each status counter is what that tab shows, under the empty query |
| `Purchases.SpentSplitsByStatus` | src/pages/Purchases.tsx:125-130 | when every order is delivered, in transit or processing, the amount spent is the sum of the three tabs' order totals |
| `Purchases.Actions` | src/pages/Purchases.tsx:304-330 | "Write Review" iff delivered and not reviewed; "Track Package" iff not processing; "Return/Exchange" iff delivered; contact and receipt always, receipt last |
| `Purchases.DeliveryNoteOf` | src/pages/Purchases.tsx:292-298 | a delivery date is shown only for a delivered order, an expected date only for any other; nothing is shown exactly when the relevant date is missing or empty |
| `Purchases.TrackingNote` | src/pages/Purchases.tsx:299-301 | the tracking number is shown iff it is present and non-empty |
| `Text.Lower` | src/pages/Purchases.tsx:117-120 | `toLowerCase` keeps the length and folds each character on its own, A-Z to a-z |
| `Text.Includes` | src/pages/Purchases.tsx:117-120 | `includes` holds only when the query is no longer than the text, and always for the empty query |
| `Text.IncludesIff` | src/pages/Purchases.tsx:117-120 | the modelled `includes` holds iff the query occurs at some position of the text |
| `Sell.WithField` | src/pages/Sell.tsx:213-312 | the edited field takes the new value; every other field and the photos are unchanged |
| `Sell.WithUploaded` | src/pages/Sell.tsx:63-66 | the result is the first min(old + new, 5) of old ++ new, so never more than 5; with at most 5 old photos they stay as a prefix |
| `Sell.WithoutImageAt` | src/pages/Sell.tsx:70-75 | an index in range deletes exactly that photo and shifts later ones down; any other index leaves the list unchanged |
| `Sell.ShowsAddPhoto` | src/pages/Sell.tsx:179 | the "Add Photo" tile shows exactly when uploading one more photo would keep it |
| `Sell.SubmitEnabled` | src/pages/Sell.tsx:336 | an enabled submit implies nothing is being submitted, the form is not the empty one, and every text field is filled |
| `Sell.SubmitEnabledIff` | src/pages/Sell.tsx:336 | submit is enabled iff nothing is being submitted and no text field is empty; photos play no part |
| `Sell.UploadAndTile` | src/pages/Sell.tsx:179 | after an upload the "Add Photo" tile shows iff old + new photos are fewer than 5 |
| `Sell.SellPage.constructor` | src/pages/Sell.tsx:43-54 | the form starts empty, not submitting, no success screen |
| `Sell.SellPage.EditField` | src/pages/Sell.tsx:213-312 | the form becomes `WithField` of the old form; flags unchanged |
| `Sell.SellPage.UploadImages` | src/pages/Sell.tsx:56-68 | a null file list changes nothing; otherwise the photos become `WithUploaded`; at most 5 photos are ever kept |
| `Sell.SellPage.RemoveImage` | src/pages/Sell.tsx:70-75 | the photos become `WithoutImageAt`; all else unchanged |
| `Sell.SellPage.Submit` | src/pages/Sell.tsx:77-79 | submitting is set, which disables submit; the form is unchanged |
| `Sell.SellPage.FinishSubmit` | src/pages/Sell.tsx:82-95 | submitting is cleared, the success screen is shown, every field is empty and no photos remain |
| `Sell.SellPage.ListAnother` | src/pages/Sell.tsx:114 | the success screen is closed; the form is unchanged |
| `Browse.MinFromInput` | src/pages/Browse.tsx:71 | the minimum is the parsed number, or 0 when there is none |
| `Browse.MaxFromInput` | src/pages/Browse.tsx:79 | the maximum is never 0; it is 500 iff the entry is not a number, 0 or 500; any other number is taken as typed |
| `Browse.VisibleProducts` | src/pages/Browse.tsx:203 | the grid shows every product, in the given order |
| `Browse.FiltersIgnored` | src/pages/Browse.tsx:129-209 | the grid and the result count are the whole product list, whatever the categories, price range, sort key or view mode |
| `Browse.MinMayExceedMax` | src/pages/Browse.tsx:71-79 | every typed minimum above the current maximum is kept exactly as typed, so nothing keeps the range ordered |
| `Browse.BrowsePage.constructor` | src/pages/Browse.tsx:30-34 | nothing selected, range 0 to 500, "newest", grid view, panel open |
| `Browse.BrowsePage.EnterMinPrice` | src/pages/Browse.tsx:71 | the minimum becomes `MinFromInput`; the maximum and everything else are unchanged |
| `Browse.BrowsePage.EnterMaxPrice` | src/pages/Browse.tsx:79 | the maximum becomes `MaxFromInput`; the minimum and everything else are unchanged |
| `Browse.BrowsePage.SlidePriceRange` | src/pages/Browse.tsx:58-65 | both ends take the slider's values; everything else unchanged |
| `Browse.BrowsePage.ToggleCategory` | src/pages/Browse.tsx:87-90 | the selection becomes `CategoryFilter.Toggle` of the old one and stays free of repeats |
| `Browse.BrowsePage.ClearPanelCategories` | src/pages/Browse.tsx:87-90 | the selection becomes `CategoryFilter.ClearAll` |
| `Browse.BrowsePage.RemoveChip` | src/pages/Browse.tsx:180 | the selection becomes `CategoryFilter.Without` of the old one: that category is gone, the others stay in order |
| `Browse.BrowsePage.ClearChips` | src/pages/Browse.tsx:189 | the selection becomes empty |
| `Browse.BrowsePage.SetSortBy` | src/pages/Browse.tsx:135 | the sort key is stored and nothing else changes |
| `Browse.BrowsePage.SetViewMode` | src/pages/Browse.tsx:149-164 | the view mode is stored and nothing else changes |
| `Browse.BrowsePage.ToggleFilters` | src/pages/Browse.tsx:123 | the filter panel flag flips and nothing else changes |

## Left out

- Rendering: JSX, CSS classes, icons and layout. Only the choices the markup makes (which buttons, which date, which chips) are modelled.
- src/pages/Dashboard.tsx, src/pages/Index.tsx, src/components/product/ProductCard.tsx and src/components/layout/Header.tsx are not part of this model. They hold static figures, markup, hover and like flags local to a card, and router navigation.
- The browse page's product list is generated with `Math.random`. It is taken as an arbitrary input sequence.
- Photo URLs built from `Date.now()` are taken as an abstract sequence of strings.
- The two-second `setTimeout` in the listing submit is modelled as two steps, `Submit` and `FinishSubmit`, with no timing. Nothing stops a caller from running them in another order.
- `toFixed`, `toLocaleDateString` and `new Date(...)` are display formatting. Dates stay as strings.
- JavaScript floating-point money is modelled as exact `real` arithmetic, with no rounding.
- `parseInt` is taken as its result: `Some(n)` for a number and `None` for NaN.
- Text.Lower: only the ASCII letters A-Z are lower-cased. JavaScript's `toLowerCase` also folds other Unicode letters, so the search is modelled for ASCII text. For the two promo codes the ASCII fold is exact: the only non-ASCII characters whose lower case contains an ASCII letter are the Kelvin sign (to k) and the dotted capital I (to i plus a combining dot), and neither k nor i occurs in "eco10" or "save20".
- The listings and purchases pages never change their arrays. Their active tab and search text are only overwritten, so they appear as plain parameters of the filter functions rather than as page state.
- The listing menu's pause, activate, edit and delete entries, and the order page's review, track, contact and receipt buttons, are not wired to any state change. Only their presence is modelled.
- The browse page's condition select is uncontrolled, and the listing page's empty-tab message is text only. Neither holds state.
- Browse.BrowsePage.SlidePriceRange: the slider's own limits (0 to 500, steps of 10, ordered thumbs) belong to the UI library. The values are taken as given.
