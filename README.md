# Saree Grace storefront — a verified model of its decision logic

Saree Grace is an online saree shop with a React client and an Express
server. This project models its deterministic core in Dafny and proves
properties of that model. The core covers:

- the client cart: lines merged by product, a fresh-id counter restored from the saved cart, and the derived count and total;
- the shared helpers: discount percentage, avatar initials, truncation, slugs and stock labels;
- the star split of the rating widget;
- the server's in-memory user store;
- the server's request guards and the status-code decisions of its handlers;
- the decision logic of the catalogue page, the filter panel, checkout, registration and the three admin lists.

Modules follow the source files:

| module | file | models |
|---|---|---|
| `Base` | base.dfy | `Option`, `Array.prototype.filter` and its order-preserving property |
| `JsText` | js_text.dfy | string built-ins: case mapping, `includes`, `split`, `toString` and `parseInt` on integers |
| `Schema` | schema.dfy | the records exchanged, and `discountPrice \|\| price` |
| `Cart` | cart.dfy | `contexts/CartContext.tsx` |
| `Utils` | utils.dfy | `lib/utils.ts` |
| `StarRating` | star_rating.dfy | `components/ui/star-rating.tsx` |
| `UserStore` | user_store.dfy | `server/storage.ts`, class `MemStorage` |
| `Routes` | routes.dfy | `server/routes.ts` |
| `Catalogue` | catalogue.dfy | `pages/products.tsx` |
| `ProductFilterPanel` | product_filter.dfy | `components/product/ProductFilter.tsx` |
| `Checkout` | checkout.dfy | `pages/checkout.tsx` |
| `Register` | register.dfy | `pages/register.tsx` |
| `AdminOrders`, `AdminProducts`, `AdminCustomers` | admin_*.dfy | `pages/admin/*.tsx` |

State the source updates in place becomes a Dafny class whose methods are
proved against specification functions on sequences and maps:

- the cart context becomes `Cart.CartStore`;
- the user store becomes `UserStore.MemStorage`;
- the filter panel becomes `ProductFilterPanel.ProductFilter`;
- the products, checkout and registration pages become classes holding their `useState` variables.

The pure code stays pure: functions, with lemmas relating them.

The server's handlers are functions from the session, the request and the
storage's answers to a status, a payload and the list of storage calls made.
The storage is abstract here. Only the in-memory user store is part of the
source, so what the other storage calls return is a parameter.

## Model

| member | source | states |
|---|---|---|
| Base.Filter | client/src/pages/admin/orders.tsx:139-147 | the result of `filter` is an order-preserving subsequence of its input, no longer than it; every kept element is an element of the input and passes the test; every passing element is kept |
| Base.FilterCounts | client/src/pages/admin/orders.tsx:139-147 | every element that passes the test is kept as often as it occurs in the input, and no copy of one that fails is kept |
| Base.FilterCountsStep | client/src/pages/admin/orders.tsx:139-147 | one element more in front of the input, kept exactly when it passes, keeps those multiplicities |
| Base.FilterKeepsAll | client/src/pages/admin/orders.tsx:139-147 | a test that every element passes keeps the whole list |
| Base.FilterDropsAll | client/src/pages/admin/customers.tsx:78-82 | a test that no element passes keeps nothing |
| Base.IssueIf | client/src/pages/checkout.tsx:21-30 | a form rule reports one issue, with its field and message, exactly when it fails, and none otherwise |
| JsText.ToLowerCase | client/src/lib/utils.ts:52 | same length; each character lower-cased, none left in upper case |
| JsText.ToUpperCase | client/src/pages/admin/customers.tsx:105 | same length; each character upper-cased, none left in lower case |
| JsText.LowerCaseFixesLower | client/src/lib/utils.ts:52 | lower-casing a string without upper-case letters changes nothing |
| JsText.Capitalize | client/src/pages/products.tsx:117 | `charAt(0).toUpperCase() + slice(1)`: same length, first character upper-cased, the rest unchanged |
| JsText.IncludesAt | client/src/pages/admin/orders.tsx:141-142 | `includes` holds exactly when the needle occurs at some offset |
| JsText.IncludesEmpty | client/src/pages/admin/products.tsx:114-117 | every string includes the empty string |
| JsText.Split | client/src/lib/utils.ts:24 | `split(' ')` yields at least one piece and no piece holds the separator |
| JsText.JoinSplit | client/src/pages/admin/customers.tsx:101-104 | joining the pieces of a split with the separator gives back the string |
| JsText.SplitSingle | client/src/lib/utils.ts:26 | a string splits into one piece exactly when it has no separator, and that piece is the string |
| JsText.NatToString | client/src/pages/products.tsx:89-90 | `toString()` of a natural number: digits only, no leading zero |
| JsText.IntToString | client/src/pages/admin/orders.tsx:141 | `toString()` of an integer: a minus sign before the digits of its magnitude when negative |
| JsText.ParseIntToString | client/src/pages/products.tsx:24-25 | `parseInt` reads back every integer `toString` writes |
| JsText.NatToStringValue | client/src/pages/products.tsx:24-25 | the decimal digits of a natural number denote that number |
| JsText.StripSign | client/src/pages/products.tsx:24-25 | `parseInt` keeps a suffix of the text once white space and one sign are gone; a minus is reported only when the text has one; a text starting with a digit is kept whole and a leading minus is dropped |
| JsText.ReadDigits | client/src/pages/products.tsx:24-25 | after the sign, `parseInt` reads digits exactly when the text starts with a decimal digit, in hexadecimal only after `0x` with a hex digit following |
| JsText.ParseInt | client/src/pages/products.tsx:24-25 | a text without a decimal digit is NaN; only a text with a minus sign reads as a negative number; a text starting with a digit 1 to 9 reads as a number |
| Schema.EffectivePrice | client/src/contexts/CartContext.tsx:39 | the price paid is a truthy discount price, else the regular price |
| Schema.ZeroDiscountFallsBack | client/src/pages/admin/products.tsx:259 | a zero discount price is falsy, so the regular price applies |
| Schema.WithId | server/storage.ts:96 | `{ ...insertUser, id }` keeps every field and sets the id |
| Cart.SumAppend | client/src/contexts/CartContext.tsx:38-43 | the reduce over a list with a line appended adds that line's weight |
| Cart.SumUpdate | client/src/contexts/CartContext.tsx:38-43 | replacing one line changes the reduce by the difference of the two weights |
| Cart.IndexOfProduct | client/src/contexts/CartContext.tsx:79-81 | `findIndex`: the first line holding the product, or -1 when no line does |
| Cart.FindIndexOfProduct | client/src/contexts/CartContext.tsx:79-81 | the search loop finds the first matching line, or -1, and agrees with `IndexOfProduct` |
| Cart.IndexOfProductIsFirst | client/src/contexts/CartContext.tsx:79-81 | any index satisfying the first-match conditions is the one `findIndex` returns |
| Cart.AddLine | client/src/contexts/CartContext.tsx:74-107 | a non-positive quantity changes nothing; otherwise the cart grows by one line exactly when the product was not in it; every earlier line keeps its id and product |
| Cart.CartCount | client/src/contexts/CartContext.tsx:43 | an empty cart counts 0; a cart of positive quantities counts at least one per line |
| Cart.CartTotal | client/src/contexts/CartContext.tsx:38-41 | an empty cart totals 0; lines with prices and quantities that are not negative never total below 0 |
| Cart.AddExistingMerges | client/src/contexts/CartContext.tsx:83-93 | adding a product already in the cart raises that line's quantity and leaves the other lines and the length alone |
| Cart.AddNewAppends | client/src/contexts/CartContext.tsx:94-101 | adding a new product appends one line with the fresh id |
| Cart.AddKeepsInvariant | client/src/contexts/CartContext.tsx:74-107 | adding keeps one line per product, unique ids below the counter, and positive quantities |
| Cart.CountAfterAdd | client/src/contexts/CartContext.tsx:43 | adding a positive quantity raises the count by exactly that quantity; a non-positive one changes nothing |
| Cart.TotalAfterAdd | client/src/contexts/CartContext.tsx:38-41 | adding raises the total by quantity times the price paid |
| Cart.SetQuantity | client/src/contexts/CartContext.tsx:110-118 | the list keeps its length; a quantity of 0 or less returns early and changes nothing |
| Cart.SetQuantityEffect | client/src/contexts/CartContext.tsx:113-117 | the line with the id gets the new quantity; every other line and every id and product stay the same |
| Cart.CountAfterSetQuantity | client/src/contexts/CartContext.tsx:43 | setting one line's quantity changes the count by the difference |
| Cart.RemoveLines | client/src/contexts/CartContext.tsx:132 | the remaining lines are an order-preserving subsequence; none has the id; every line with another id is kept |
| Cart.RemoveLinesCounts | client/src/contexts/CartContext.tsx:132 | every copy of a line with another id is kept, and no copy of a line with the id |
| Cart.RemoveUnknownKeeps | client/src/contexts/CartContext.tsx:132 | removing an id no line has leaves the cart as it was |
| Cart.RemoveKeepsInvariant | client/src/contexts/CartContext.tsx:121-134 | removing keeps the cart invariant |
| Cart.HeadDistinctFromRest | client/src/contexts/CartContext.tsx:121-134 | in a well-formed cart no later line shares the first line's id or product |
| Cart.ConsKeepsInvariant | client/src/contexts/CartContext.tsx:121-134 | a line with a fresh id and product and a positive quantity keeps the invariant in front of a well-formed cart |
| Cart.TotalsAfterRemove | client/src/contexts/CartContext.tsx:38-43 | removing a line lowers the count by its quantity and the total by its line total |
| Cart.ClearedTotals | client/src/contexts/CartContext.tsx:137-138 | an empty cart counts 0 and totals 0 |
| Cart.MaxId | client/src/contexts/CartContext.tsx:55 | `Math.max` of the ids is at least every id and is one of them |
| Cart.RestoredCounterIsFresh | client/src/contexts/CartContext.tsx:53-57 | after restoring, every saved id is below the counter, so new ids are fresh |
| Cart.CartStore.constructor | client/src/contexts/CartContext.tsx:29-34 | an empty, closed cart whose counter starts at 1, satisfying the invariant |
| Cart.CartStore.Restore | client/src/contexts/CartContext.tsx:46-62 | the saved lines become the cart; the counter becomes the largest id plus one when there are lines and is unchanged otherwise |
| Cart.CartStore.AddToCart | client/src/contexts/CartContext.tsx:74-107 | the new lines are `AddLine` of the old ones; the counter advances only when a line is appended; a positive quantity opens the drawer; the invariant is kept; the count rises by the quantity |
| Cart.CartStore.UpdateCartItemQuantity | client/src/contexts/CartContext.tsx:110-118 | the lines become `SetQuantity` of the old ones, so a quantity of 0 or less leaves them unchanged; counter and drawer unchanged; invariant kept |
| Cart.CartStore.RemoveFromCart | client/src/contexts/CartContext.tsx:121-134 | the lines become `RemoveLines` of the old ones; counter and drawer unchanged; invariant kept |
| Cart.CartStore.ClearCart | client/src/contexts/CartContext.tsx:137-143 | no lines are left and the count and total are 0; counter and drawer unchanged |
| Cart.CartStore.ToggleCart | client/src/contexts/CartContext.tsx:146-148 | the drawer flips and nothing else changes |
| Utils.Round | client/src/lib/utils.ts:18 | `Math.round` gives the integer within one half of its argument, rounding halves up |
| Utils.GetDiscountPercentage | client/src/lib/utils.ts:16-19 | no percentage exactly when the discount is missing or zero; with a truthy discount the division is non-finite exactly when the price is 0, and otherwise gives the rounded share of the price saved |
| Utils.DiscountPercentageBounds | client/src/lib/utils.ts:16-19 | a discount between 0 and the price gives a percentage from 0 to 100 |
| Utils.AvatarInitialsOneWord | client/src/lib/utils.ts:21-28 | the empty name gives 'XX'; a one-word name gives its first two characters upper-cased |
| Utils.AvatarInitialsTwoWords | client/src/lib/utils.ts:30 | a name of two or more words gives the upper-cased first letters of the first two |
| Utils.AvatarInitialsOfLeadingSpace | client/src/lib/utils.ts:30 | a name of one leading space before a word gives `UNDEFINED` followed by the word's upper-cased first letter |
| Utils.AvatarInitialsOfTwoEmptyPieces | client/src/lib/utils.ts:30 | a lone space, or a name starting with two spaces, raises the type error |
| Utils.GenerateAvatarInitials | client/src/lib/utils.ts:21-31 | the empty name gives 'XX'; initials never hold a lower-case letter; a type error can arise only from a name starting with a space |
| Utils.SliceTo | client/src/lib/utils.ts:46 | `slice(0, end)` is a prefix of the text: `end` characters for a non-negative end, and for a negative end all but the last `-end`, or nothing when that is fewer than none |
| Utils.TruncateText | client/src/lib/utils.ts:44-47 | a short text is unchanged; a long one is its first `maxLength` characters followed by '...' |
| Utils.SkipWhile | client/src/lib/utils.ts:56 | `replace(/^-+/, '')` drops exactly the leading run |
| Utils.DropTrailingDashes | client/src/lib/utils.ts:57 | `replace(/-+$/, '')` drops exactly the trailing dashes |
| Utils.ReplaceRuns | client/src/lib/utils.ts:53-55 | replacing runs keeps emptiness and introduces only the replacement character |
| Utils.CollapsedHasNoDoubleDash | client/src/lib/utils.ts:55 | after `replace(/--+/g, '-')` no two dashes are adjacent |
| Utils.ReplaceRunsNoop | client/src/lib/utils.ts:53-55 | replacing runs in a string that has none changes nothing |
| Utils.DashedHasNoUpper | client/src/lib/utils.ts:52-53 | lower-casing and then replacing white space leaves no upper-case letter |
| Utils.StrippedHasSlugChars | client/src/lib/utils.ts:54 | after `replace(/[^\w-]+/g, '')` only lower-case letters, digits, '_' and '-' remain |
| Utils.CollapsedHasSlugChars | client/src/lib/utils.ts:55 | collapsing dashes keeps the slug alphabet and leaves no double dash |
| Utils.TrimmedIsSlug | client/src/lib/utils.ts:56-57 | trimming dashes from such a string gives a slug |
| Utils.SuffixKeepsSlugChars | client/src/lib/utils.ts:56 | dropping leading dashes keeps only slug characters and no "--" |
| Utils.PrefixKeepsSlugChars | client/src/lib/utils.ts:57 | dropping trailing dashes keeps only slug characters and no "--" |
| Utils.Slugify | client/src/lib/utils.ts:49-58 | `slugify` always yields a slug: lower-case letters, digits, '_' and single inner dashes, none at either end |
| Utils.SlugifyFixesSlugs | client/src/lib/utils.ts:49-58 | `slugify` leaves a slug unchanged |
| Utils.SlugifyIdempotent | client/src/lib/utils.ts:49-58 | `slugify` applied twice equals `slugify` applied once |
| Utils.StockTextAndColorAgree | client/src/lib/utils.ts:60-70 | the stock text and the stock colour announce the same tier (>10, 1..10, none) |
| Utils.GetStockStatusText | client/src/lib/utils.ts:60-64 | the text announces the stock tier (above 10, 1 to 10, none); a low stock text spells out the count |
| Utils.GetStockStatusColor | client/src/lib/utils.ts:66-70 | 'text-success' above 10, 'text-warning' from 1 to 10, 'text-error' otherwise; the colour announces the same stock tier as the text |
| Utils.LowStockTextIsLow | client/src/lib/utils.ts:62 | the text `Only n left` for 1 to 10 reads as the low-stock tier |
| StarRating.ValidRating | client/src/components/ui/star-rating.tsx:23 | NaN becomes 0; the rating is clamped between 0 and the maximum |
| StarRating.Fraction | client/src/components/ui/star-rating.tsx:27 | `validRating % 1` lies in [0, 1) |
| StarRating.StarCounts | client/src/components/ui/star-rating.tsx:23-28 | full stars are the floor of the clamped rating; a half star exactly when the fraction is at least one half; for a non-negative maximum, full, half and empty stars add up to it |
| StarRating.TopRatingHasNoHalfStar | client/src/components/ui/star-rating.tsx:23-28 | a rating at or above the maximum shows all full stars, no half and no empty |
| StarRating.DefaultStars | client/src/components/ui/star-rating.tsx:15-16 | the default props show five empty stars |
| StarRating.NaNIsZero | client/src/components/ui/star-rating.tsx:23 | a NaN rating is shown like 0 |
| UserStore.MemStorage.constructor | server/storage.ts:79-82 | no users, ids start at 1, invariant holds |
| UserStore.MemStorage.GetUser | server/storage.ts:84-86 | the stored user with the id, or none exactly when the id is absent |
| UserStore.MemStorage.GetUserByUsername | server/storage.ts:88-92 | none exactly when no user has the name; otherwise a stored user with the name that was inserted first |
| UserStore.MemStorage.CreateUser | server/storage.ts:94-99 | the user gets the current id, the counter moves on, the map gains exactly that entry, the others are untouched |
| UserStore.CreateThenGet | server/storage.ts:84-99 | a created user is found again by its id |
| UserStore.DuplicateUsernames | server/storage.ts:88-99 | two users with the same name are both stored, and the lookup by name returns the earlier one |
| Routes.IsAuthenticated | server/routes.ts:76-81 | passes exactly the logged-in caller; otherwise 401 'Unauthorized' |
| Routes.IsAdmin | server/routes.ts:84-89 | passes exactly a logged-in admin; otherwise 403 'Forbidden', for anonymous callers too |
| Routes.AdminGuardIsStricter | server/routes.ts:76-89 | whoever the admin guard admits the login guard admits; an anonymous caller gets 403 from one and 401 from the other |
| Routes.WithUserId | server/routes.ts:284-287 | `{ ...body, userId }`: the session id replaces any `userId` in the body; every other field is kept |
| Routes.WithoutPassword | server/routes.ts:104 | every field but `password`, with its value |
| Routes.SafeUser | server/routes.ts:131 | a user as sent: id, username, email, full name and admin flag, no password |
| Routes.Register | server/routes.ts:92-113 | 400 for a rejected body and 500 when hashing fails, both with the store unchanged; otherwise 201 with the created user minus its password, and the store gains that user; never a password in the reply |
| Routes.Login | server/routes.ts:115-118 | 200 with the user minus its password |
| Routes.CurrentUser | server/routes.ts:127-133 | 401 exactly for an anonymous caller; otherwise the user minus its password |
| Routes.AdminUsers | server/routes.ts:496-508 | 403 unless an admin; on success every user, each without a password |
| Routes.CartPost | server/routes.ts:281-297 | 401 anonymous, 400 when the schema rejects the body with the forced user id, 201 when stored; the only storage call carries the session user's id |
| Routes.CartPut | server/routes.ts:299-318 | 400 exactly when the quantity is not a number of at least 1, before any storage call; 404 when the item is missing; 200 with the update |
| Routes.FractionalQuantityPasses | server/routes.ts:305 | a fractional quantity such as 1.5 passes the check and reaches the storage |
| Routes.QuantityAccepted | server/routes.ts:305 | a missing quantity is rejected; a number passes exactly when it is at least 1; nothing but a number (or NaN) passes |
| Routes.OrdersJson | server/routes.ts:349 | one JSON element per order |
| Routes.OrdersGet | server/routes.ts:337-353 | all orders only for an admin with `all=true`; everyone else, an admin without the flag too, gets their own orders |
| Routes.OrderById | server/routes.ts:355-376 | 404 for a missing order before ownership is checked; 403 for a non-owner who is not an admin; else 200 with the order |
| Routes.OrdersPost | server/routes.ts:378-407 | 400 for a rejected body or an empty cart; the created order carries the session user's id; 201 only after creating the order and clearing the cart |
| Routes.ClearFailureAfterCreate | server/routes.ts:395-405 | when clearing the cart fails the order is already created, yet the reply is 500 |
| Routes.StatusPut | server/routes.ts:409-428 | 403 unless an admin; 400 exactly when the status is not a non-empty string, before any call; 404 for a missing order |
| Routes.AnyStatusReachesStorage | server/routes.ts:414-418 | any non-empty status string, made-up ones too, is passed to the storage |
| Routes.StatusAccepted | server/routes.ts:414-418 | the status passes exactly when it is a string of at least one character |
| Routes.ReviewBody | server/routes.ts:446-450 | the review carries the session user's id and the id from the path, whatever the body says |
| Routes.ReviewsPost | server/routes.ts:441-460 | 401 anonymous; the stored review has the forced ids; 400 or 201 as the schema decides |
| Catalogue.Get | client/src/pages/products.tsx:18-27 | `URLSearchParams.get`: none exactly when the key is absent; otherwise the value of the first pair with the key |
| Catalogue.RemoveKey | client/src/pages/products.tsx:82-91 | removing a key never lengthens the list |
| Catalogue.Set | client/src/pages/products.tsx:82-91 | `URLSearchParams.set` on a new key appends the pair |
| Catalogue.RemoveKeyGet | client/src/pages/products.tsx:82-91 | after removing a key it reads as absent and other keys read as before |
| Catalogue.SetGet | client/src/pages/products.tsx:82-91 | after `set` the key reads as the value and other keys read as before |
| Catalogue.SetIfGet | client/src/pages/products.tsx:84-92 | a conditional `set` changes only its own key, and only when its condition holds |
| Catalogue.FlagQueryGet | client/src/pages/products.tsx:84-87 | what each key reads as after the category and flag `set` calls |
| Catalogue.OrElse | client/src/pages/products.tsx:24-27 | `x \|\| fallback`: a truthy value, else the fallback |
| Catalogue.OrUndefined | client/src/pages/products.tsx:20-26 | `x \|\| undefined`: a truthy value is kept, anything falsy becomes undefined, so never the empty string |
| Catalogue.ParseFilters | client/src/pages/products.tsx:18-37 | each flag is on exactly when its parameter is the literal 'true'; an absent or empty category or search is undefined and an absent or empty sort is 'newest'; a non-empty category, search or sort is taken as written |
| Catalogue.MinPriceDefault | client/src/pages/products.tsx:24 | an absent `minPrice` gives the lower bound 0 |
| Catalogue.MaxPriceDefault | client/src/pages/products.tsx:25 | an absent `maxPrice` gives the upper bound 50000 |
| Catalogue.ZeroParses | client/src/pages/products.tsx:24 | the fallback text '0' reads as 0 |
| Catalogue.FiftyThousandParses | client/src/pages/products.tsx:25 | the fallback text '50000' reads as 50000 |
| Catalogue.UrlDefaults | client/src/pages/products.tsx:18-37 | an empty URL gives no category, flags off, the range 0 to 50000, no search and the sort 'newest' |
| Catalogue.Merge | client/src/pages/products.tsx:76-79 | `{ ...prev, ...newFilters }`: each field present in the update wins, each absent one keeps its old value, search and sort are kept |
| Catalogue.MergeLaws | client/src/pages/products.tsx:76-79 | merging `{}` changes nothing, and merging the same update twice equals merging it once |
| Catalogue.QueryGet | client/src/pages/products.tsx:82-93 | the eight conditional `set` calls leave each key reading as `QueryRead` says |
| Catalogue.QueryOf | client/src/pages/products.tsx:82-93 | every key of the rebuilt URL reads as `QueryRead` says: the update's category and flags when set, its range as decimal text, and the old search and sort |
| Catalogue.QueryReadByName | client/src/pages/products.tsx:84-92 | what each of the eight keys of the rebuilt URL reads as, key by key |
| Catalogue.ReadBack | client/src/pages/products.tsx:82-93 | reading one key of the rebuilt URL |
| Catalogue.QueryCategoryAndFlags | client/src/pages/products.tsx:84-87 | a category is written only when truthy, and each flag only when true |
| Catalogue.QueryPrices | client/src/pages/products.tsx:88-91 | both prices are written together, exactly when the update has a range, as decimal text |
| Catalogue.QuerySortAndSearch | client/src/pages/products.tsx:91-92 | sort and search are copied from the filters as they were before the change |
| Catalogue.BuildQuery | client/src/pages/products.tsx:82-93 | the imperative sequence of `set` calls builds exactly `QueryOf` |
| Catalogue.QueryRoundTrip | client/src/pages/products.tsx:75-96 | for a full update from the panel, reading the written URL back gives the merged filters |
| Catalogue.ClearAllKeepsFilters | client/src/pages/products.tsx:224 | 'Clear All Filters' merges `{}`, so the filters stay as they were, while the URL it writes reads back as the defaults |
| Catalogue.Insert | client/src/pages/products.tsx:62-66 | inserting one element adds exactly that element to the multiset |
| Catalogue.SortBy | client/src/pages/products.tsx:62-66 | sorting permutes the list |
| Catalogue.KeyRunAppend | client/src/pages/products.tsx:62-64 | the elements with a given key in a concatenation are those of each part, in order |
| Catalogue.KeyRunEmpty | client/src/pages/products.tsx:62-64 | a list with no element of a key has an empty run for it |
| Catalogue.InsertAtLeast | client/src/pages/products.tsx:62-64 | inserting keeps a lower bound on the keys |
| Catalogue.InsertSorted | client/src/pages/products.tsx:62-64 | inserting into a sorted list keeps it sorted |
| Catalogue.InsertKeyRun | client/src/pages/products.tsx:62-64 | inserting places the new element after the elements with an equal key |
| Catalogue.SortBySorted | client/src/pages/products.tsx:62-66 | the sort's result is ordered by the key |
| Catalogue.SortByStable | client/src/pages/products.tsx:62-64 | the sort is stable: elements with equal keys keep their order |
| Catalogue.SortedInsertKeyRun | client/src/pages/products.tsx:62-64 | the stability step for one insertion into a sorted prefix |
| Catalogue.KeyRunSingle | client/src/pages/products.tsx:62-64 | the run of a one-element list |
| Catalogue.SortProducts | client/src/pages/products.tsx:55-71 | no products give []; otherwise a permutation, ascending by price paid for 'price-low', descending for 'price-high', both stable, by name for 'name', and the fetched order for any other sort |
| Catalogue.PageTitle | client/src/pages/products.tsx:115-129 | a truthy category gives its capitalised name followed by ' Sarees'; with no category and no flag, a truthy search gives 'Search Results for "q"' |
| Catalogue.TitlePrecedence | client/src/pages/products.tsx:115-129 | category wins over new arrivals, then best sellers, then sale, then search |
| Catalogue.AllProductsIffUnfiltered | client/src/pages/products.tsx:115-129 | the title is 'All Products' exactly when no category, flag or search is set |
| Catalogue.ProductsPage.constructor | client/src/pages/products.tsx:18-37 | the page's filters are read from its URL |
| Catalogue.ProductsPage.HandleFilterChange | client/src/pages/products.tsx:75-96 | the filters become the merge and the URL the rebuilt query |
| Catalogue.ProductsPage.HandleSortChange | client/src/pages/products.tsx:98-103 | only the sort changes; the URL is left as it is |
| Catalogue.ProductsPage.Listed | client/src/pages/products.tsx:73 | the listed products are a permutation of the fetched ones |
| ProductFilterPanel.ProductFilter.constructor | client/src/components/product/ProductFilter.tsx:33-45 | the bounds default to 0 and 50000; the range spans them; the category is the page's; flags off; sheet closed |
| ProductFilterPanel.ProductFilter.IsChecked | client/src/components/product/ProductFilter.tsx:108 | a category box is ticked exactly when its slug is the selection |
| ProductFilterPanel.ProductFilter.HandlePriceChange | client/src/components/product/ProductFilter.tsx:61-63 | the first two slider values become the range; nothing else changes |
| ProductFilterPanel.ProductFilter.HandleCategoryChange | client/src/components/product/ProductFilter.tsx:65-67 | clicking the selected category clears it, any other selects it; nothing else changes |
| ProductFilterPanel.ProductFilter.HandleCheckedChange | client/src/components/product/ProductFilter.tsx:150-176 | only a definite tick turns a flag on; the other flags and the rest stay |
| ProductFilterPanel.ProductFilter.HandleApplyFilters | client/src/components/product/ProductFilter.tsx:69-79 | hands over exactly the current selection and closes the sheet |
| ProductFilterPanel.ProductFilter.HandleApplyMobileFilters | client/src/components/product/ProductFilter.tsx:91-94 | the same as applying |
| ProductFilterPanel.ProductFilter.HandleClearFilters | client/src/components/product/ProductFilter.tsx:81-89 | back to no category, the full range and no flags, handing over `{}` |
| ProductFilterPanel.AtMostOneChecked | client/src/components/product/ProductFilter.tsx:108 | two category boxes are never ticked together |
| ProductFilterPanel.CategoryClickedTwice | client/src/components/product/ProductFilter.tsx:65-67 | two clicks on a category restore an empty or equal selection and clear any other |
| ProductFilterPanel.ApplyAfterClear | client/src/components/product/ProductFilter.tsx:69-89 | clearing hands over `{}`, while applying right after hands over the defaults |
| Checkout.ShippingFee | client/src/pages/checkout.tsx:43 | free exactly from 5000 up, else 99 |
| Checkout.TotalWithShipping | client/src/pages/checkout.tsx:44 | the total from 5000 up, else the total plus 99 |
| Checkout.ThresholdLowersTotal | client/src/pages/checkout.tsx:43-44 | below 5000 a cart costs more to check out than one of exactly 5000 precisely when its total is above 4901; from 5000 up a cart costs its total |
| Checkout.ShippingAddress | client/src/pages/checkout.tsx:91 | the address line is the street address, ', ', the city, ', ', the state, ' - ' and the pincode, in that order and nothing else |
| Checkout.Issues | client/src/pages/checkout.tsx:21-30 | the form has no issue exactly when every field rule holds; no field has two issues; every issue is under a field whose rule fails, with that rule's message; every failing rule is reported |
| Checkout.FieldOrder | client/src/pages/checkout.tsx:21-30 | every field of the form has a rule in the schema, at its position |
| Checkout.Report | client/src/pages/checkout.tsx:21-30 | the rules of the listed fields give no more issues than there are fields |
| Checkout.ReportSound | client/src/pages/checkout.tsx:21-30 | every issue is under a listed field whose rule fails, with that rule's message |
| Checkout.ReportComplete | client/src/pages/checkout.tsx:21-30 | every listed field whose rule fails is reported with its message |
| Checkout.ReportEmpty | client/src/pages/checkout.tsx:21-30 | nothing is reported exactly when no listed rule fails |
| Checkout.ReportDistinct | client/src/pages/checkout.tsx:21-30 | fields listed once get at most one issue each |
| Checkout.SchemaRules | client/src/pages/checkout.tsx:21-30 | the schema lists each field once, and the form is valid exactly when none of its rules fails |
| Checkout.SchemaReportEmpty | client/src/pages/checkout.tsx:21-30 | the schema reports nothing exactly when the form is valid |
| Checkout.SchemaReportComplete | client/src/pages/checkout.tsx:21-30 | the schema reports every failing rule with its message |
| Checkout.SchemaReportSound | client/src/pages/checkout.tsx:21-30 | the schema reports each field at most once, and only for a failing rule |
| Checkout.SchemaReportFacts | client/src/pages/checkout.tsx:21-30 | the schema's report is empty exactly for a valid form, has at most eight issues and one per field, and holds exactly the failing rules with their messages |
| Checkout.ShortPincodeReported | client/src/pages/checkout.tsx:28 | a pincode shorter than 6 is reported with its message |
| Checkout.CheckoutPage.constructor | client/src/pages/checkout.tsx:39-41 | not submitting, no success, no error |
| Checkout.CheckoutPage.OnSubmit | client/src/pages/checkout.tsx:80-119 | an empty cart only sets 'Your cart is empty'; otherwise posts the total with shipping and the address line, empties the cart on success, sets the server's message or a default on an error reply and the unexpected-error text on an exception; `isSubmitting` is set while the request runs and false afterwards |
| Register.PasswordIssues | client/src/pages/register.tsx:20-24 | the password has no issue exactly when it has 8 characters, an upper-case letter, a lower-case letter and a digit; every issue is under the password field |
| Register.Issues | client/src/pages/register.tsx:16-29 | the form has no issue exactly when every field rule holds and the confirmation repeats the password |
| Register.MismatchOnConfirmField | client/src/pages/register.tsx:26-29 | a differing confirmation is the last issue, under the confirmation field, and no other rule reports under it |
| Register.ErrorText | client/src/pages/register.tsx:76-84 | a taken username is reported first, then a taken email, else the generic text, also for an error without a message |
| Register.RegisterPage.constructor | client/src/pages/register.tsx:37-39 | not loading, no error, no success |
| Register.RegisterPage.OnSubmit | client/src/pages/register.tsx:60-88 | success on a true answer, the failure text on a false one, the mapped text on an exception; loading is on while waiting and off on every path |
| AdminOrders.FilteredOrders | client/src/pages/admin/orders.tsx:139-147 | undefined until fetched; an order-preserving subsequence; an order is kept exactly when it passes the search and the status filter; with a status other than 'all' every kept order has that status; every copy of a kept element is kept |
| AdminOrders.EmptySearchListsAll | client/src/pages/admin/orders.tsx:140-144 | an empty search with 'all' keeps every order |
| AdminOrders.SearchIsContainment | client/src/pages/admin/orders.tsx:140-142 | an order matches exactly when its decimal id contains the query or its lower-cased address contains the lower-cased query |
| AdminOrders.IncludesIgnoresCaseWithoutLetters | client/src/pages/admin/orders.tsx:141 | in a text without letters, a query is found exactly when its lower-cased form is |
| AdminOrders.SearchIgnoresCase | client/src/pages/admin/orders.tsx:140-142 | the search gives the same answer for a query and its lower-cased form |
| AdminOrders.BadgeClass | client/src/pages/admin/orders.tsx:70-90 | a status gets gray exactly when it is not one of the five known ones |
| AdminOrders.KnownBadgesDistinct | client/src/pages/admin/orders.tsx:73-88 | the five known statuses get five different colours |
| AdminOrders.BadgeHue | client/src/pages/admin/orders.tsx:73-88 | each known status's colour class names its own hue |
| AdminOrders.BadgeLabel | client/src/pages/admin/orders.tsx:95 | the label is the status with its first character upper-cased and the rest unchanged |
| AdminOrders.OpenUpdateDialog | client/src/pages/admin/orders.tsx:160-164 | opening selects the order, starts at its status and opens the dialog |
| AdminOrders.HandleUpdateStatus | client/src/pages/admin/orders.tsx:150-157 | a request is sent exactly when an order is selected and a non-empty status is picked, for that order and status |
| AdminOrders.UpdateDisabled | client/src/pages/admin/orders.tsx:383 | the button is disabled while a request runs or while the picked status equals the order's own |
| AdminOrders.OpenThenPick | client/src/pages/admin/orders.tsx:150-164 | just after opening the button is disabled; picking another status enables it and sends that status |
| AdminProducts.FilteredProducts | client/src/pages/admin/products.tsx:114-117 | undefined until fetched; an order-preserving subsequence; a product is kept exactly when its lower-cased name or description contains the lower-cased query; every copy of a kept element is kept |
| AdminProducts.EmptySearchListsAll | client/src/pages/admin/products.tsx:114-117 | an empty search keeps every product |
| AdminProducts.StockClass | client/src/pages/admin/products.tsx:267-273 | the stock colour equals the shared stock-colour helper's: success above 10, error at 0 or below, warning between |
| AdminProducts.ShownPrice | client/src/pages/admin/products.tsx:259-264 | the price shown is the price paid; the regular price is struck out beside it exactly when the discount is truthy; a discount of exactly 0 leaves a stray "0" after the price instead, as React renders the falsy number |
| AdminProducts.HandleDeleteProduct | client/src/pages/admin/products.tsx:120-124 | deletion is requested for the selected product's id, and never when no product is selected |
| AdminCustomers.FilteredUsers | client/src/pages/admin/customers.tsx:78-82 | undefined until fetched; an order-preserving subsequence; a user is kept exactly when their username, email or full name, lower-cased, contains the lower-cased query; every copy of a kept element is kept |
| AdminCustomers.EmptySearchNeedsAField | client/src/pages/admin/customers.tsx:78-82 | even an empty search drops a user whose three fields are all missing, and keeps every other user |
| AdminCustomers.FirstOrNothing | client/src/pages/admin/customers.tsx:103-104 | `n[0]` joined: the first character, or nothing for an empty piece |
| AdminCustomers.WordStarts | client/src/pages/admin/customers.tsx:100-106 | the word-start characters are characters of the name, never spaces |
| AdminCustomers.FirstsAreWordStarts | client/src/pages/admin/customers.tsx:101-104 | the first characters of the `split(' ')` pieces are exactly the characters that start a word |
| AdminCustomers.GetUserInitials | client/src/pages/admin/customers.tsx:100-106 | the initials are the upper-cased word starts: runs of spaces contribute nothing, and the result holds no space and is no longer than the name |
| AdminCustomers.AvatarInitials | client/src/pages/admin/customers.tsx:195 | a missing or empty full name gives 'U' (from 'User'); otherwise the upper-cased word starts of the name |
| AdminCustomers.FallbackInitial | client/src/pages/admin/customers.tsx:195 | the fallback name 'User' has the initials 'U' |
| AdminCustomers.RoleBadge | client/src/pages/admin/customers.tsx:207-208 | 'Admin' exactly when the flag is true, else 'Customer', and the destructive style exactly for 'Admin' |

## Left out

- I/O is not modelled. This covers `localStorage` reads and writes, toasts, navigation, `window.history`, console logging, and React rendering and effects other than the state they set.
- Authentication internals are not modelled: passport, bcrypt hashing, sessions and logout. A session is a parameter, and the outcome of hashing is a parameter.
- The schemas of the server (`insertUserSchema`, `insertCartItemSchema`, `insertOrderSchema`, `insertReviewSchema`) are predicates passed in. So are zod's `email()` check and the server's `shared/schema` records. The shared schema module is not part of this model; its records carry only the fields the modelled code reads.
- The storage methods other than the three of `MemStorage` are not modelled. These are the cart, order and review methods and `getAllUsers`. `MemStorage` does not implement them, so their answers are parameters.
- The HTTP request helper and the query cache of the client are not part of this model. Their replies are parameters.
- `formatPrice`, `getRandomColor`, `cn`, date formatting and `localeCompare` are left out. `localeCompare` is an abstract rank `nameRank` passed to the name sort.
- Case mapping is modelled on ASCII letters only.
- Strings are sequences of Unicode characters, while JavaScript's `length`, `slice`, `substring`, `charAt` and `[0]` count UTF-16 code units. A character outside the Basic Multilingual Plane, such as an emoji, counts 1 here and 2 in JavaScript. So the length rules of `Checkout.Issues` and `Register.Issues` (zod's `min`), `Utils.TruncateText`, `Utils.SliceTo`, `Utils.GenerateAvatarInitials`, `AdminCustomers.GetUserInitials`, `JsText.Capitalize` and `AdminOrders.BadgeLabel` agree with the source only on text without such characters.
- Percent-encoding of the query string is not modelled.
- Prices and quantities are whole numbers. JavaScript's floating point is not modelled, except where fractional values change a decision: the star rating and the cart quantity check. The rounding of the discount percentage is the exception named next.
- Utils.GetDiscountPercentage: the ratio is rounded as an exact rational, while utils.ts:18 rounds a double. A ratio within one rounding error of a half can therefore round one higher here than in JavaScript. For price 40 and discount 17, `(23 / 40) * 100` is 57.49999999999999 in double precision, which rounds to 57, while the exact 57.5 rounds to 58; price 200 with discount 143 is another such case (28 against 29).
- Cart.CartStore.AddToCart: the merge at CartContext.tsx:86 mutates the line object shared with the previous state. The model copies the line instead, so the aliasing is not captured.
- ProductFilterPanel.ProductFilter.HandlePriceChange: requires two slider values. The slider always supplies them, and with fewer values the source would store `undefined`, which is not modelled.
- StarRating.StarCounts: the sum law is stated only for a non-negative integer maximum. The `toFixed(1)` score display is left out.
- Checkout.Issues: a payment method outside 'cod', 'card' and 'upi' is reported with 'Payment method is required'. zod's own invalid-enum message for a present but unknown value is not modelled.
- Register.Issues: the confirmation check runs after all field rules, as zod runs a refinement when no field has a type error. The case of a non-string field is not modelled.
- Register.RegisterPage.OnSubmit: the registration call of the authentication context is not part of this model. Its outcome is a parameter.
- The remaining routes are not modelled: categories, products, cart GET and DELETE, testimonials and admin stats. They are storage pass-throughs behind the same two guards.
