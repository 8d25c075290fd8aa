# White Mousse sales-intelligence dashboard: client-side logic

This project models the decision logic of the sales-intelligence dashboard's
single-page client (`src/App.js`). The backend delivers one record per store, with
the reorder urgency tier, the typical reorder cycle (`avgCycle`) and the days
since the last order already computed. The client then does the following:

- it filters the store list by urgency tier and by a case-insensitive name search;
- it sorts the list: urgent, then warning, then good, and within a tier the store
  silent longest first;
- it counts the stores of each tier for the priority cards;
- it keeps the selected filter in component state, with cards that toggle and
  buttons that set;
- it loads the list from the backend's answer, recording an error message on failure;
- it derives the overdue / next-expected figures of a store card and of the store
  detail page;
- it truncates long product names, classifies a product's strain type, slices
  the top products, and picks the smart-insight message.

Modules, one per concern of the file:

- `StoreModel` (StoreModel.dfy): the records (`StoreIntel`, `Product`), the three
  urgency tiers and their display rank.
- `TextRules` (TextRules.dfy): ASCII lower-casing, `includes` with a reference
  definition, and product-name truncation.
- `StoreListing` (StoreListing.dfy): the filter, the sort comparator and a stable
  sort, and the tier counts.
- `ReorderStatus` (ReorderStatus.dfy): the overdue banner, the stat-card alert
  and the "Next Expected" value.
- `ProductInsights` (ProductInsights.dfy): top-product slices, the strain badge and
  the smart insight.
- `DashboardState` (DashboardState.dfy): the `App` component's state as a class
  `Dashboard`. Its methods are the click handlers, the search box and
  `loadSalesIntelligence`. The request's outcome is a parameter.

The list shown to the user is `Dashboard.FilteredStores()`. It is a function that
only reads the state, so building it never reorders `storeIntelligence`. This
matches the source, where `filter` makes a fresh array and only that array is
sorted. The per-tier counts read only `storeIntelligence`. Every handler that
changes the filter or the search term states that the counts are unchanged.

The sort is the library's stable sort with the source's comparator. It is
modelled as an insertion sort. Three facts are proved about it: it returns a
permutation of its input; no store is followed by one the comparator puts
before it; and stores with the same key (same tier rank, same day count) keep
their order (`SortStable`). Together these fix the output completely.

Within a tier the comparator (src/App.js:82) puts the larger `daysSinceLastOrder`
first.

## Model

| member | source | states |
|---|---|---|
| `StoreModel.RankOrder` | src/App.js:78 | the comparator's rank map orders the tiers `Rank(Urgent) < Rank(Warning) < Rank(Good)` |
| `TextRules.LowerChar` | src/App.js:74 | an upper-case ASCII letter becomes the same letter in lower case; every other character is kept |
| `TextRules.Lower` | src/App.js:74 | lower-casing keeps the length, lower-cases each character in place, and leaves no upper-case ASCII letter |
| `TextRules.LowerIgnoresCase` | src/App.js:74 | two names that differ only in the case of their letters lower-case to the same string |
| `TextRules.GreenRoomExample` | src/App.js:74 | the search term "green" finds the store "Green Room" |
| `TextRules.LowerIdempotent` | src/App.js:74 | lower-casing an already lower-cased name changes nothing |
| `TextRules.IncludesIsOccurs` | src/App.js:74 | the scanning `includes` is true exactly when the term occurs at some position of the string (both directions) |
| `TextRules.IncludesEmpty` | src/App.js:74 | every string includes the empty string |
| `TextRules.TruncateName` | src/App.js:474 | names of at most 30 characters are unchanged; longer ones become exactly 33 characters: their first 30 followed by `...` |
| `StoreListing.FilterCounts` | src/App.js:71-75 | the filtered list holds each store exactly as many times as the loaded list when the filter callback keeps it, and never otherwise |
| `StoreListing.KeepMeaning` | src/App.js:72-75 | a store is kept iff (filter is `'all'` or its tier equals the filter) and (the term is empty or the lower-cased term occurs in the lower-cased name) |
| `StoreListing.SearchGuardRedundant` | src/App.js:74 | the empty-term guard changes no outcome: keeping is the tier test plus `includes` alone |
| `StoreListing.FilterAppend` | src/App.js:71-75 | filtering distributes over concatenation, so kept stores stay in their loaded order |
| `StoreListing.FilterAllKeepsEverything` | src/App.js:72-75 | filter `'all'` with an empty search returns the loaded list unchanged |
| `StoreListing.CompareFlip` | src/App.js:77-83 | swapping the comparator's arguments flips its sign and keeps ties as ties |
| `StoreListing.CompareTransitive` | src/App.js:77-83 | the comparator's "not after" relation is transitive |
| `StoreListing.SortStoresCorrect` | src/App.js:77-83 | the sorted list is a permutation of its input, and no element is placed after one the comparator puts behind it |
| `StoreListing.SortStable` | src/App.js:77-83 | stores the comparator ties keep their relative order |
| `StoreListing.DisplayedStores` | src/App.js:71-83 | the displayed list is a permutation of the filtered list; a store appears iff it was loaded and the filter keeps it; tier ranks never decrease, so no urgent store follows a non-urgent one and nothing but good stores follows a good one; within a tier `daysSinceLastOrder` does not increase |
| `StoreListing.TierCountsSum` | src/App.js:85-87 | urgent + warning + good counts equal the number of loaded stores |
| `StoreListing.CountIsFilteredLength` | src/App.js:85-87 | a tier's count equals the length of the list shown with that tier selected and an empty search |
| `ReorderStatus.OverdueBy` | src/App.js:426-437 | the overdue amount exists iff `daysSinceLastOrder > avgCycle`, and then it is positive and equals `daysSinceLastOrder - avgCycle` |
| `ReorderStatus.NextExpectedValue` | src/App.js:771 | "OVERDUE" iff the store is overdue; otherwise a non-negative day count equal to `avgCycle - daysSinceLastOrder` |
| `ReorderStatus.LastOrderAlert` | src/App.js:766 | the stat-card alert is set exactly when an overdue amount is shown |
| `ReorderStatus.OverdueOrExpected` | src/App.js:715-771 | the detail page shows exactly one of the overdue amount and the next-expected days; the alert agrees with the "OVERDUE" label |
| `ProductInsights.TopProducts` | src/App.js:349 | the slice has length min(n, number of products), is a prefix of the product list, and is empty when the list is missing |
| `ProductInsights.CardTopProducts` | src/App.js:349 | a card shows at most three products |
| `ProductInsights.DetailTopProducts` | src/App.js:790 | the detail page shows at most ten products |
| `ProductInsights.CardIsPrefixOfDetail` | src/App.js:790 | the card's products are the first min(3, n) entries of the detail page's list |
| `ProductInsights.ClassifyStrain` | src/App.js:481-488 | Indica iff the lower-cased type contains "indica"; Sativa iff it contains "sativa" but not "indica"; Hybrid iff it contains neither |
| `ProductInsights.StrainBadge` | src/App.js:476 | no badge iff `strain_type` is missing or empty; otherwise the badge is the classification |
| `ProductInsights.ClassifyIgnoresCase` | src/App.js:817-823 | a strain type and its lower-cased form get the same classification |
| `ProductInsights.SmartInsights` | src/App.js:965-969 | each "strong" message appears iff its threshold is exceeded; "Balanced" appears iff none is exceeded, and then alone; messages keep the page's order |
| `ProductInsights.StrongPreferencesExclusive` | src/App.js:965-966 | with one-decimal shares (whole tenths of a percent) summing to at most 100.1, the Indica and Sativa messages never both appear |
| `DashboardState.ToggleTier` | src/App.js:188-206 | a card click gives `'all'` iff its tier was selected, and otherwise selects its tier |
| `DashboardState.ToggleTwice` | src/App.js:188 | two clicks on one card restore that tier if it was selected, and otherwise end at `'all'` |
| `DashboardState.DecimalString` | src/App.js:32 | the status is printed as decimal digits without a leading zero that read back as the status |
| `DashboardState.LoadOutcome` | src/App.js:24-47 | the list is replaced iff the request returned a 2xx status and a body with `success`, and a missing `stores` means an empty list; a network or JSON failure fails with its own reason; a non-2xx status fails with "API Error: " followed by the status; an unsuccessful body fails with its `error` when that is non-empty and with "Failed to load sales intelligence" otherwise |
| `DashboardState.NotFoundMessage` | src/App.js:31-33 | a 404 answer fails with exactly "API Error: 404" |
| `DashboardState.Dashboard.FilteredStores` | src/App.js:71-83 | the listed cards are the loaded stores the filter and search keep, each as often as loaded, with tier ranks never decreasing |
| `DashboardState.Dashboard.TierCount` | src/App.js:85-87 | a card's number is the length of the list shown with that tier selected and no search, and at most the number of loaded stores |
| `DashboardState.Dashboard.constructor` | src/App.js:12-18 | the initial state: no stores, loading, not syncing, no error, filter `'all'`, empty search |
| `DashboardState.Dashboard.ClickTierCard` | src/App.js:188-206 | the filter becomes the toggle of the old filter; nothing else changes, so the tier counts stay the same |
| `DashboardState.Dashboard.SetFilterUrgency` | src/App.js:241-259 | a filter button sets the filter unconditionally and leaves the counts alone |
| `DashboardState.Dashboard.SetSearchTerm` | src/App.js:230 | the search box sets the term and leaves the counts alone |
| `DashboardState.Dashboard.LoadSalesIntelligence` | src/App.js:24-47 | loading ends false; on success the list is the loaded one and the error is cleared; on failure the old list stays and the error is the thrown message; the error page shows iff the load failed with a non-empty message |
| `DashboardState.ClickSameCardTwice` | src/App.js:188 | two clicks on the same card, starting from `'all'`, end at `'all'` |
| `DashboardState.ClickCardShowsItsTier` | src/App.js:188-206 | from `'all'` or another tier, with no search, a card click lists exactly the loaded stores of its tier, as many as the card's number |
| `DashboardState.SearchShowsMatches` | src/App.js:230 | after typing a term the term is stored, the tier selection is kept, and a store is listed iff it was loaded, is of the selected tier (or the filter is `'all'`) and its lower-cased name contains the lower-cased term |
| `DashboardState.LoadShowsErrorPage` | src/App.js:93 | the error page shows after an HTTP error status and after an unsuccessful body, never after a successful load, and after a network failure iff its message is non-empty |

## Left out

- Network and sync plumbing: `fetch`, `response.json`, `syncData` with its `syncing` flag, `alert` and `console.error` are I/O against the backend. `loadSalesIntelligence` takes the request's outcome as a parameter.
- The derivation of urgency, `avgCycle` and `daysSinceLastOrder`: it happens in the backend. These values are inputs here.
- Urgency values other than the three tiers: the model's urgency type has only three values. In JavaScript an unknown tier makes the comparator return `NaN`, and the sort order is then unspecified.
- React rendering, JSX layout, styles, colours, hover handlers, medal icons and the navigation to and from the detail page (`selectedStore`).
- The batching of React state updates: each handler's result is modelled as the state committed once the handler finishes.
- The filter buttons: the page offers All, Urgent and Warning only. `SetFilterUrgency` accepts any filter and does not restrict it to those three.
- Floating-point figures: the strain percentages (`Math.round`, `toFixed`, `parseFloat`), the average order value, the category percentages and the revenue in thousands. `SmartInsights` takes the three percentages as given reals.
- Locale and date formatting (`toLocaleString`, `toLocaleDateString`, `new Date`).
- TextRules.Lower: lower-cases only the ASCII letters A-Z, not the full Unicode `toLowerCase` mapping.
- TextRules.TruncateName: counts characters, whereas JavaScript's `length` and `substring` count UTF-16 code units. The two differ for characters outside the Basic Multilingual Plane.
