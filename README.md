# Keur Aida marketplace — a verified model of its client-side logic

Keur Aida is a classified-ads marketplace. Its browser client is a set of React
pages over a hosted backend data service. This project models the part of the
client that carries logic, and proves what that logic does:

- **Cart** (`src/hooks/use-cart.tsx`): the cart provider, a class holding the
  ordered line items. It also holds the browser storage the cart is written to,
  as a map field. The listing read it depends on is a parameter that succeeds
  or fails. The one-line-per-listing, quantity-at-least-1 invariant is proved
  to be kept by every operation.
- **Favorites** (`src/hooks/use-favorites.tsx`): the favorites provider, a
  class over the list of favorited ids. Each remote insert or delete is given
  as an `Ok`/`Err` outcome, and the write each toggle issues is returned.
- **Catalog** (`src/pages/AllProducts.tsx`): the filter state of the catalog
  page, the query `fetchData` builds from it, and the URL parameters.
  - Queries are data: a conjunction of predicates, an ordering and an optional
    limit, with a meaning over `ads` rows in which a comparison with NULL never
    holds.
  - `Catalog.QueryMeansAdmits` proves the built query selects exactly the
    listings that a column-by-column reference predicate admits.
  - `Listings.Answers` states which rows the backend may answer.
- **Listing pages**: the image carousel and view counter of the detail page;
  the three relative-age formatters; the WhatsApp and telephone links; the slug
  resolution and query of the category page; the field table, category picker
  and photo list of the posting form; the figures of the seller dashboard and
  of the moderation page; the FAQ search; and the recent-listings strip.

Backend reads and writes, local storage, clocks and fresh identifiers are
parameters of the operations. Modules follow the source files: `Cart`,
`Favorites`, `Catalog`, `ProductDetail`, `Categories`, `PostAd`, `Dashboard`,
`Admin`, `Help` and `RecentProducts`. Shared pieces live in their own modules:
`Listings` (rows and queries), `TimeAgo`, `Contact` (phone links), `AdStats`
(the reductions), `Text` (lower-casing, substrings, digits), `Seqs` (`filter`,
`find`) and `Common`.

Where the documented behaviour of the system and the code differ, the model
follows the code:

- **Price bounds.** The catalog applies both price bounds to every query,
  including the default range. A listing without a price is therefore never
  listed, not only once the range is narrowed (`Catalog.PriceBounds`).
- **Reversed price range.** A lower bound above the upper bound is not swapped
  or clamped. The query then selects nothing
  (`Catalog.ReversedRangeSelectsNothing`).
- **Unknown sort key.** A sort key other than the four offered gives no
  ordering clause, rather than newest-first. The default `created_at` applies
  only when the URL has no `sort` parameter.
- **URL.** Only `q`, `category` and `sort` are written to the URL. The price
  slider, the condition checkboxes and the city text are not.
- **Cart on sign-in.** The cart is read from the same storage key whether or
  not a user is signed in. A guest cart therefore stays exactly as it was when
  the user signs in (`Cart.CartStore.Load`).

The condition checkboxes of the catalog compare their French labels with the
stored condition values, which never match (see Findings). The model uses the
corrected filter. Two more mismatches are modelled as written:

- The category page's badge recognises `like_new`, but the posting form stores
  `like-new`, so such listings read "Occasion" there.
- The edit form uses a third vocabulary (`nouveau`, `comme_neuf`, ...).

## Model

| member | source | states |
|---|---|---|
| Cart.TotalsAppend | src/hooks/use-cart.tsx:34-35 | the item count (sum of quantities) and the total price (sum of price × quantity) each add up over concatenated carts |
| Cart.TotalItemsCountsLines | src/hooks/use-cart.tsx:34 | when every quantity is at least 1, the item count is at least the number of lines, and it is zero exactly for the empty cart |
| Cart.IncrementedAbsent | src/hooks/use-cart.tsx:73-77 | incrementing a listing that has no line changes nothing |
| Cart.AddExisting | src/hooks/use-cart.tsx:70-77 | adding a listing already in the cart raises exactly its line's quantity by 1; every other line and the order stay the same; the count grows by 1 and the total by the unit price; the cart stays well formed |
| Cart.AddNew | src/hooks/use-cart.tsx:78-87 | adding a listing not in the cart appends exactly one line with quantity 1, the listing's price (0 when absent) and its images ([] when absent); the totals grow by 1 and by that price; well-formedness is kept |
| Cart.RemoveSpec | src/hooks/use-cart.tsx:105-106 | removal deletes every line of the listing and keeps the others, in order; it is a no-op when the listing is absent; well-formedness is kept |
| Cart.SetQuantitySpec | src/hooks/use-cart.tsx:113-124 | a quantity of 0 or less is removal; a positive one is written only into that listing's line, never creates a line, and keeps the listings, their order and well-formedness |
| Cart.AddTwiceFromEmpty | src/hooks/use-cart.tsx:58-88 | two additions of one listing to an empty cart give one line of quantity 2 whose total is twice the unit price |
| Cart.CartStore.Load | src/hooks/use-cart.tsx:38-51 | both the signed-in and the guest branch load the stored cart from the one key when present; a cart already in storage stays exactly as it is when a user signs in |
| Cart.CartStore.Save | src/hooks/use-cart.tsx:53-56 | the whole list is written under the key "cart" and nothing else in storage changes |
| Cart.CartStore.AddToCart | src/hooks/use-cart.tsx:58-103 | a failed listing read changes neither the items nor storage; a successful one gives the specified addition and saves it; the loading flag is off afterwards; well-formedness is kept |
| Cart.CartStore.RemoveFromCart | src/hooks/use-cart.tsx:105-111 | the items become the listing-free list, which is saved; well-formedness is kept |
| Cart.CartStore.UpdateQuantity | src/hooks/use-cart.tsx:113-124 | the items become the quantity update (removal for quantity ≤ 0), which is saved; well-formedness is kept |
| Cart.CartStore.ClearCart | src/hooks/use-cart.tsx:126-132 | the items become empty and the empty list is saved |
| Favorites.AdIdsOf | src/hooks/use-favorites.tsx:42 | the loaded list holds the rows' listing ids, one per row, in row order |
| Favorites.ToggleFlips | src/hooks/use-favorites.tsx:66-89 | a successful toggle flips whether the toggled id is a favorite and leaves every other id's membership alone |
| Favorites.ToggleTwice | src/hooks/use-favorites.tsx:66-89 | two successful toggles restore whether the id is a favorite; from a non-favorite they restore the list itself |
| Favorites.FavoritesProvider.LoadFavorites | src/hooks/use-favorites.tsx:30-48 | without a user nothing changes; with one, the list becomes the rows' ids on a successful read and stays as it was on a failed one; the loading flag is off afterwards |
| Favorites.FavoritesProvider.UserChanged | src/hooks/use-favorites.tsx:22-28 | sign-out empties the list; sign-in replaces it with the new user's rows |
| Favorites.FavoritesProvider.ToggleFavorite | src/hooks/use-favorites.tsx:54-104 | without a user no write is issued, the list is unchanged and sign-in is required; otherwise a delete is issued for a favorite and an insert for any other id; the list changes only when the write succeeds; the result reports a failure, a removal or an addition; the loading flag is off afterwards |
| Catalog.QueryMeansAdmits | src/pages/AllProducts.tsx:77-112 | a listing matches the built query exactly when it is active, contains the search text in its title or description, is in the chosen category, has one of the checked conditions, contains the city text, and has a price inside the inclusive range |
| Catalog.AlwaysActive | src/pages/AllProducts.tsx:78-81 | whatever the filter state, the first predicate is `status = active` and every match is active |
| Catalog.SearchPredicate | src/pages/AllProducts.tsx:84-86 | a non-empty search text adds exactly one predicate, the OR over title and description; an empty one adds none; no other predicate is an OR |
| Catalog.FilterMembers | src/pages/AllProducts.tsx:77-101 | the built query's predicates are exactly the status equality, the two price bounds, and each optional predicate whose field is set |
| Catalog.SearchCount | src/pages/AllProducts.tsx:84-86 | the text-search OR occurs once in the predicate list when the search text is set, and not at all otherwise |
| Catalog.OptionalPredicates | src/pages/AllProducts.tsx:88-98 | the category equality, the condition IN and the city substring predicates appear exactly when their field is set; an empty condition list adds no IN |
| Catalog.PriceBounds | src/pages/AllProducts.tsx:101 | both bounds are always present and inclusive; a match has a price inside them; even the default range excludes listings without a price |
| Catalog.ReversedRangeSelectsNothing | src/pages/AllProducts.tsx:101 | a lower bound above the upper bound selects no listing |
| Catalog.SortClauses | src/pages/AllProducts.tsx:104-112 | price_asc, price_desc, created_at and title map to their ordering clauses; any other key gives none |
| Catalog.PhoneSelection | src/pages/AllProducts.tsx:77-112 | of phones priced 90000, 150000, 500000 and 600000, the query for phones in [100000, 500000] selects the 150000 and 500000 ones |
| Catalog.PhoneAdMatches | src/pages/AllProducts.tsx:77-112 | an active listing in the phones category matches the query for phones in [100000, 500000] exactly when its price lies in that range |
| Catalog.PhoneAnswer | src/pages/AllProducts.tsx:104-112 | the backend may answer that query with those two listings in ascending price |
| Catalog.PhoneScenario | src/pages/AllProducts.tsx:77-112 | every answer the backend may give to that query is exactly the 150000 listing followed by the 500000 one |
| Catalog.BuildAdsQuery | src/pages/AllProducts.tsx:77-112 | the step-by-step query building yields the specified query |
| Catalog.WithParamSpec | src/pages/AllProducts.tsx:130-138 | setting a URL parameter stores a non-empty value and deletes the key for an empty one; no other key changes |
| Catalog.UrlRoundTrip | src/pages/AllProducts.tsx:48-50 | writing the search text, category and sort key to the URL and reading the page's state back restores all three, with an empty sort key read back as created_at |
| Catalog.ConditionToggle | src/pages/AllProducts.tsx:304-310 | checking appends the condition at the end; unchecking removes every occurrence and keeps the others in order |
| Catalog.CheckedLabelsMatchNothing | src/pages/AllProducts.tsx:299-306 | as written, once any box is checked, no listing whose condition either form stored is selected |
| Catalog.ConditionCode | src/pages/PostAd.tsx:320-324 | each checkbox stands for one of the condition values the posting form stores |
| Catalog.ConditionCodeInjective | src/pages/AllProducts.tsx:299 | distinct checkboxes stand for distinct stored values |
| Catalog.CheckedCodeSelects | src/pages/AllProducts.tsx:92-94 | with the corrected filter, the condition predicate never excludes a listing stored with a checked box's value |
| Catalog.CatalogView.constructor | src/pages/AllProducts.tsx:48-54 | the page's filter state on mount is read from the URL: `q`, `category` and `sort` with their defaults, the full price range, no condition, no city |
| Catalog.CatalogView.UpdateSearchParams | src/pages/AllProducts.tsx:130-138 | the URL parameters become the specified update |
| Catalog.CatalogView.SetSearchTerm | src/pages/AllProducts.tsx:196 | typing changes the search text and not the URL |
| Catalog.CatalogView.SubmitSearch | src/pages/AllProducts.tsx:140-143 | submitting writes the search text to `q` |
| Catalog.CatalogView.SelectCategory | src/pages/AllProducts.tsx:216-218 | choosing a category sets it and writes it to `category` |
| Catalog.CatalogView.SelectSort | src/pages/AllProducts.tsx:236-238 | choosing a sort key sets it and writes it to `sort` |
| Catalog.CatalogView.SetPriceRange | src/pages/AllProducts.tsx:284 | the slider sets both bounds and not the URL |
| Catalog.CatalogView.SetLocation | src/pages/AllProducts.tsx:257 | the city text is set and not written to the URL |
| Catalog.CatalogView.CheckCondition | src/pages/AllProducts.tsx:304-310 | a checkbox toggle appends or removes the stored value the box stands for |
| Catalog.CatalogView.FetchQuery | src/pages/AllProducts.tsx:77-112 | the query issued for the current state matches exactly the listings that state admits |
| Listings.AllHoldAppend | src/pages/AllProducts.tsx:78-101 | chaining filters onto a query conjoins them |
| TimeAgo.Elapsed | src/pages/AllProducts.tsx:168-169 | the whole number of units elapsed is the floor: that many units fit in the difference and one more does not |
| TimeAgo.ListingAge | src/pages/AllProducts.tsx:165-176 | 0 days is today, 1 is yesterday, other ages under 7 are days, 7 to 29 are 1 to 4 weeks (floor of days/7), 30 and more are months (floor of days/30) |
| TimeAgo.RecentAge | src/components/RecentProducts.tsx:62-72 | as the catalog's buckets below 7 days, then weeks for every older age, never months |
| TimeAgo.CategoryAge | src/pages/Categories.tsx:111-120 | under one hour, whole hours under 24, then whole days (floor of hours/24) |
| TimeAgo.DayPlural | src/pages/Categories.tsx:119 | the day text ends in "s" exactly when the count exceeds 1 |
| TimeAgo.RenderedCount | src/pages/AllProducts.tsx:173-175 | a days, weeks or months text is "Il y a ", the count's digits and the unit, and the digits read back as the count |
| Contact.DialNumber | src/pages/ProductDetail.tsx:448 | the dialled number is "221" followed by only the digits of the stored phone, all of them, in their order |
| Contact.LinksDialSameNumber | src/pages/ProductDetail.tsx:448-456 | the WhatsApp and the telephone link dial the same number |
| Contact.NoDigits | src/pages/ProductDetail.tsx:456 | text without digits adds nothing to the number |
| Contact.SeparatorsIgnored | src/pages/ProductDetail.tsx:448 | separators between digit groups do not change the number dialled |
| Contact.BareDigitsDialled | src/pages/ProductDetail.tsx:456 | a phone stored as bare digits is dialled as is behind the country code |
| ProductDetail.JsRem | src/pages/ProductDetail.tsx:209 | JavaScript's remainder: the dividend less a multiple of the truncated quotient, strictly between -n and n, with the dividend's sign |
| ProductDetail.MovesStayInRange | src/pages/ProductDetail.tsx:207-217 | with several images both moves land on an image from any non-negative index; with one image or none the index stays |
| ProductDetail.MovesCycle | src/pages/ProductDetail.tsx:207-217 | next moves one image on and wraps from the last to the first; prev moves one back and wraps from the first to the last |
| ProductDetail.MovesInverse | src/pages/ProductDetail.tsx:207-217 | prev undoes next and next undoes prev |
| ProductDetail.DisplayedImage | src/pages/ProductDetail.tsx:278 | the image at the index when there is a non-empty one, else the placeholder |
| ProductDetail.Carousel.constructor | src/pages/ProductDetail.tsx:72 | the carousel starts on the first image |
| ProductDetail.Carousel.Next | src/pages/ProductDetail.tsx:207-211 | the index becomes the next move when a listing is loaded; a non-negative index stays non-negative |
| ProductDetail.Carousel.Prev | src/pages/ProductDetail.tsx:213-217 | the index becomes the previous move when a listing is loaded; a non-negative index stays non-negative |
| ProductDetail.Carousel.Select | src/pages/ProductDetail.tsx:320 | a thumbnail click selects that image |
| Categories.FindBySlug | src/pages/Categories.tsx:68-69 | nothing is found for an absent slug or when no category has it; otherwise the result is the first category with that slug |
| Categories.ChildrenOf | src/pages/Categories.tsx:73 | the subcategories are exactly the categories whose parent is the given id |
| Categories.ChildrenInOrder | src/pages/Categories.tsx:73 | the subcategories keep their fetched order |
| Categories.TargetCategoryId | src/pages/Categories.tsx:76-83 | the listed category is the first subcategory the second slug names when it names one, else the category itself |
| Categories.CategoryQueryMeaning | src/pages/Categories.tsx:86-91 | the page's query selects exactly the active listings of the target category, newest first, without limit |
| Categories.ParentPageOmitsChildAds | src/pages/Categories.tsx:76-91 | a top-level page does not list a listing filed under one of its subcategories |
| Categories.ConditionLabel | src/pages/Categories.tsx:295-297 | no badge for an empty condition; "Neuf" exactly for `new`, "Comme neuf" exactly for `like_new`, "Occasion" for any other |
| Categories.CategoryPage.FetchCategoriesAndAds | src/pages/Categories.tsx:55-101 | a failed category read changes nothing and issues no query; otherwise the categories and the current category are stored; without a current category no query is issued; with one, its children are stored and the target category's query is issued, and its answer stored when the read succeeds; loading ends |
| PostAd.GetCategoryFields | src/pages/PostAd.tsx:67-107 | [] for an id no loaded category has; otherwise the fields of the first category with that id, chosen by its slug; every select field carries a non-empty option list |
| PostAd.AutomobileFields | src/pages/PostAd.tsx:77-85 | vehicles ask for brand, model, year, mileage, fuel type and gearbox, in that order, the last four required |
| PostAd.SlugTable | src/pages/PostAd.tsx:72-105 | property and clothing skip brand and model; electronics start with them; any other slug asks for exactly them |
| PostAd.BlocksMembership | src/pages/PostAd.tsx:252-263 | the flattened list holds exactly the given roots and the categories whose parent is one of them |
| PostAd.SelectListOrder | src/pages/PostAd.tsx:250-264 | the picker lists the roots in their fetched order, each immediately followed by its children, between the blocks of the roots before and after it |
| PostAd.SelectListMembership | src/pages/PostAd.tsx:250-264 | the picker offers a category exactly when it is a root or a child of a root; a grandchild is never offered |
| PostAd.RemovedAt | src/pages/PostAd.tsx:202 | removing an existing photo shortens the list by one; any other index changes nothing |
| PostAd.RemovedAtRestores | src/pages/PostAd.tsx:202 | the other photos keep their order: putting the removed one back gives the list back |
| PostAd.UploadedAsWritten | src/pages/PostAd.tsx:160-172 | as written, every picked file is appended after the current photos |
| PostAd.UploadOverflows | src/pages/PostAd.tsx:208 | with nine photos the add tile still shows, and picking two files gives eleven |
| PostAd.CappedUpload | src/pages/PostAd.tsx:189 | the corrected upload keeps the current photos and appends picked files in order until ten photos are present, so it holds exactly the smaller of ten and the number offered; it equals the as-written upload whenever that fits |
| PostAd.AdDraft.ChangeCategory | src/pages/PostAd.tsx:108-111 | choosing a category stores it and its fields |
| PostAd.AdDraft.Upload | src/pages/PostAd.tsx:160-172 | appending file by file yields the capped upload, and the draft keeps at most ten photos |
| PostAd.AdDraft.RemoveImage | src/pages/PostAd.tsx:202 | the delete button removes that photo and keeps the limit |
| AdStats.CountActive | src/pages/Dashboard.tsx:55 | the active count never exceeds the number of listings |
| AdStats.AllActiveIff | src/pages/Dashboard.tsx:55 | the active count equals the number of listings exactly when all are active |
| AdStats.CountActiveAppend | src/pages/Dashboard.tsx:55 | counting splits over concatenation |
| AdStats.SumViews | src/pages/Dashboard.tsx:56 | the view total is non-negative when every count is |
| AdStats.SumViewsAppend | src/pages/Dashboard.tsx:56 | the view total splits over concatenation |
| AdStats.SumViewsOfUncounted | src/pages/Dashboard.tsx:56 | listings without a view count add nothing |
| Dashboard.StatsOf | src/pages/Dashboard.tsx:54-58 | total is the number of listings; active is at most total and equal to it exactly when all are active; views are non-negative when every count is |
| Dashboard.DashboardBadge | src/pages/Dashboard.tsx:195-196 | "Active" exactly for an active listing, "Inactive" otherwise |
| Dashboard.Deleted | src/pages/Dashboard.tsx:80 | a listing stays exactly when its id is not the deleted one |
| Dashboard.DeletedSpec | src/pages/Dashboard.tsx:80 | deletion keeps the others in order, changes nothing when the id is absent, and shortens the list when it is present |
| Dashboard.DeleteLeavesStatsStale | src/pages/Dashboard.tsx:71-92 | after a deletion the figures shown, which are not recomputed, count more listings than the list holds, exactly one more when the ids are distinct, as primary keys are |
| Dashboard.DashboardPage.LoadUserAds | src/pages/Dashboard.tsx:40-69 | without a user nothing changes; a successful read stores the listings and their figures; a failed one keeps both; loading ends |
| Dashboard.DashboardPage.DeleteAd | src/pages/Dashboard.tsx:71-92 | a successful delete removes the listing from the list, a failed one changes nothing; the figures never change |
| Admin.ActiveAds | src/pages/Admin.tsx:54 | 0 when the read gave no rows; otherwise at most the number of rows, equal to it exactly when every row is active |
| Admin.TotalViews | src/pages/Admin.tsx:191 | the total is non-negative when every count is |
| Admin.TotalViewsAddsUp | src/pages/Admin.tsx:191 | each recent listing adds its views, 0 when absent |
| Admin.StatusColor | src/pages/Admin.tsx:104-111 | green exactly for active, yellow exactly for pending, red exactly for rejected |
| Admin.StatusBadge | src/pages/Admin.tsx:243 | "Active" exactly for active, "En attente" exactly for pending, "Rejetée" for every other status |
| Admin.BadgeMatchesColour | src/pages/Admin.tsx:243 | the badge and the colour agree, with an unknown status reading "Rejetée" in red or gray |
| Admin.ModerationButtons | src/pages/Admin.tsx:246-263 | each row shows exactly one button: approve exactly when the listing is not active, reject exactly when it is |
| Admin.ModerationFlips | src/pages/Admin.tsx:246-263 | once a button's status is written the row offers the other button, and reads "Active" exactly after an approval |
| Help.FilteredFaq | src/pages/Help.tsx:65-68 | an item is kept exactly when its question or answer contains the query, ignoring case |
| Help.FilteredInOrder | src/pages/Help.tsx:65 | the kept items are in their original order |
| Help.EmptyQueryKeepsAll | src/pages/Help.tsx:65-68 | an empty query keeps every item |
| Help.LowercasedQuerySame | src/pages/Help.tsx:66-67 | a query and its lower-case form keep the same items |
| Help.NarrowingQuery | src/pages/Help.tsx:65-68 | an item kept for a longer query is kept for any of its prefixes |
| RecentProducts.RecentQueryMeaning | src/components/RecentProducts.tsx:41-47 | the strip selects the active listings marked not featured, newest first, at most eight |
| RecentProducts.RecentAnswer | src/components/RecentProducts.tsx:41-47 | every answer holds at most eight listings, each active and not featured |
| RecentProducts.ContactUrl | src/components/RecentProducts.tsx:75-91 | WhatsApp opens the WhatsApp link of the contact with the greeting; phone opens its telephone link; email opens `mailto:` followed by the contact |
| RecentProducts.ContactSameNumber | src/components/RecentProducts.tsx:86-88 | the WhatsApp and phone buttons reach the number the detail page dials |
| RecentProducts.DetailShowsOneMore | src/components/RecentProducts.tsx:178 | the card shows the stored count (0 when absent), one less than the detail page (ProductDetail.tsx:356), which counts the visit it records |

## Left out

- Backend reads and writes, local storage and the clock are parameters of the operations that use them. Their results come in as `Option`/`Outcome` values, and the writes issued are returned where the source chooses them.
- JSON serialisation of the stored cart is the identity.
- `crypto.randomUUID` is a fresh-id parameter.
- `Date` parsing and arithmetic: the relative ages start from millisecond timestamps (`TimeAgo.Elapsed`) or from whole day and hour counts.
- Number and price formatting (`Intl.NumberFormat`, `toLocaleString`) is left out.
- Prices, quantities and totals are whole numbers (`int`). The source holds them as JavaScript numbers parsed with `parseFloat`, and the cart total is a floating-point sum of `price * quantity`. Fractional prices and floating-point rounding of totals are not modelled, so `Cart.TotalsAppend` holds on whole-number prices only. The price input steps by 1 and the franc CFA has no subunit.
- The asynchronous race in `addToCart` is left out. It tests the `items` snapshot for an existing line but updates through the latest state. The model runs each call to completion, in sequence.
- The effect dependency lists are left out: they decide when a query re-runs, for example the price slider not re-running the catalog query. The model issues the query for the current state on demand.
- Text.Lower: lower-casing covers ASCII and Latin-1 letters only. SQL `ilike` collation, `%`/`_` wildcards inside the search text, and commas inside `.or` are not modelled: the search text is a plain substring.
- Listings.SortedBy: rows are compared by code point (NULLS LAST ascending), not by the database collation. Ties may come in any order.
- The URL is a map from key to one value; repeated parameters are not modelled.
- The order in which `FileReader` callbacks complete is not modelled: `PostAd.AdDraft.Upload` appends the files in the order picked.
- Admin: the two reads of `loadDashboardData` are not modelled: the exact row count of `ads` and the counts of users and categories. The reload after `updateAdStatus` is stated through `Admin.TargetStatus` and `Admin.ModerationFlips` rather than as page state. The active count comes from the fetched statuses.
- ProductDetail: the reads of the listing, the seller, the category and the related listings, the view-count increment, sharing and navigation are backend or browser calls.
- RecentProducts: the list fetched once is only stored. The greeting's `encodeURIComponent` is an already-encoded parameter of `RecentProducts.ContactUrl`, and `window.open` is left out.
- Help: the FAQ's constant text is not reproduced. `Help.FilteredFaq` is stated for any item list.
- Toasts, console logging and navigation are left out.

## Findings

| source | as written | input that shows it | evidently intended | confidence | as-written member | corrected member |
|---|---|---|---|---|---|---|
| src/pages/PostAd.tsx:160-172 | every picked file is appended, although the form says "up to 10 photos" and hides the add tile at 10 | nine photos, then two files picked at once: eleven photos | stop appending once ten photos are present | medium, not executed | PostAd.UploadOverflows | PostAd.AdDraft.Upload |
| src/pages/AllProducts.tsx:299-306 | a checked condition box puts its French label ("Neuf", "Comme neuf", "Bon état", "État moyen") into the `condition IN (...)` filter | box "Neuf" checked, listing posted with condition `new`: the listing is not selected, and neither is any listing either form wrote | the filter holds the stored value each box stands for (`new`, `like-new`, `good`, `fair`) | medium, not executed | Catalog.CheckedLabelsMatchNothing | Catalog.CatalogView.CheckCondition |
