# Point-of-sale core, modelled in Dafny

This project models the logic of a small browser point-of-sale app (a "kasir"). It has three parts.

- **Storage** (`storage.dfy`, with `common.dfy` and `dates.dfy`). This is the persistence layer.
  - Three repositories, each an ordered collection of records: products, transactions and customers.
    They are the sequence fields of class `Storage.Store`, and their operations are its methods.
  - Saving a transaction lowers the stock of each product it sells. This cascade is specified by the
    function `ApplySale`. The lemma `SaleEffect` equates its result, record by record, with a direct
    description (`SoldRecord`) that does not run the cascade.
  - Date filtering keys on the day part of an ISO timestamp, compared as JavaScript compares strings.
  - The sample catalogue seeding.
- **Analytics** (`analytics.dfy`). Total revenue and today's revenue, the daily sales series over a
  window of days, and the best-selling products. The two aggregations that loop are methods proved
  equal to specification functions. Lemmas then tie those functions back to the transaction log.
- **Cashier** (`cashier.dfy`). The cashier screen.
  - The product filter.
  - The cart transitions, each a pure function from the previous cart to the next, as the screen's
    state updaters are.
  - The totals, with 10% tax.
  - The payment. It records a sale in the store, lowers the screen's own copy of the stock and empties
    the cart. The screen's state is class `Cashier.Register`, whose invariant is:
    - one cart line per product;
    - every quantity between 1 and the listed stock.
- **Auth** (`auth.dfy`). The table of demo accounts, and class `Auth.AuthService`, whose one mutable
  field is the signed-in user.

Money is `real`; stock and quantities are `int` and may go negative, since nothing clamps them. Fresh
ids and the current time are parameters: `id` and `now`, one timestamp per call. Today's day key and
the window of days for the daily series are parameters too.

## Model

| member | source | states |
|---|---|---|
| `Common.FirstIndexSpec` | src/lib/storage.ts:97-98 | `findIndex` is -1 exactly when no record has the id, and otherwise the first position that has it |
| `Common.RemoveAll` | src/lib/storage.ts:111 | `filter(p => p.id !== id)` keeps exactly the records with another id. The length is unchanged iff the id was absent. Distinct ids stay distinct |
| `Common.RemoveAllAppend` | src/lib/storage.ts:111 | the filter keeps the survivors in their original order: it distributes over concatenation and maps the empty list to the empty list |
| `Common.RemoveAllOne` | src/lib/storage.ts:111 | on a single record the filter keeps it exactly when its id differs from the deleted one |
| `Storage.MergeProduct` | src/lib/storage.ts:100-104 | the merged record always carries `updatedAt = now`. A stock-only patch changes stock and `updatedAt` and nothing else |
| `Storage.GetById` | src/lib/storage.ts:118-121 | a found record carries the requested id; `GetByIdSpec` characterises the result fully |
| `Storage.GetByIdSpec` | src/lib/storage.ts:118-121 | `getById` is null iff no record has the id. Otherwise it is the first record that has it |
| `Storage.ProductsAfterStock` | src/lib/storage.ts:123-126 | for an absent id the collection is unchanged. Otherwise exactly the first record with the id gets stock `n` (unclamped) and `updatedAt = now` |
| `Storage.SaveThenGet` | src/lib/storage.ts:82-93 | after saving under a fresh id, `getById` finds the record, carrying the draft's fields and both timestamps `now` |
| `Storage.ProductsAfterUpdate` | src/lib/storage.ts:95-107 | the collection keeps its length. It is unchanged when no record has the id. A patch that keeps the id leaves every record's id in place |
| `Storage.UpdateThenGetSame` | src/lib/storage.ts:95-107 | after an update that keeps the id, `getById` returns null for an absent id and the merged record otherwise |
| `Storage.UpdateThenGetOther` | src/lib/storage.ts:95-107 | after an update that keeps the id, every other id reads through `getById` as before |
| `Storage.UpdateStockThenGet` | src/lib/storage.ts:123-126 | after `updateStock(id, n)` on a present id, `getById` shows stock exactly `n`, the new `updatedAt`, and all other fields unchanged |
| `Storage.DeleteIdempotent` | src/lib/storage.ts:109-116 | after a delete no record has the id, so a second delete of it removes nothing |
| `Storage.Seeded` | src/lib/storage.ts:274-281 | the seeded catalogue is the five sample products, in order, each with its given fresh id |
| `Storage.ApplySale` | src/lib/storage.ts:143-149 | the cascade changes records only in place: the collection keeps its length and every position its id |
| `Storage.SaleEffect` | src/lib/storage.ts:143-149 | each record ends as `SoldRecord` says. The first record with an id that some item names loses the summed quantity of that id's items, so repeated items decrement cumulatively, and gets `updatedAt = now`. Every other record, including later duplicates of an id, is unchanged. Every field but stock and `updatedAt` is unchanged. Items for missing products change nothing |
| `Storage.SaleConservesStock` | src/lib/storage.ts:143-149 | the cascade lowers the total stock by exactly the units of the items whose product is listed |
| `Storage.GetByDateRange` | src/lib/storage.ts:154-160 | a transaction is returned iff it is in the log and its day key `d` satisfies `start <= d <= end` under string order |
| `Dates.DayOf` | src/lib/storage.ts:157 | `split('T')[0]` is a prefix of the timestamp with no `T`, ending at the first `T` or at the end |
| `Dates.LexLe` | src/lib/storage.ts:158 | string `<=`: a prefix is never greater, and a string at or below one of its own prefixes is that prefix |
| `Dates.LexLeSpec` | src/lib/storage.ts:158 | string `<=` holds exactly when the first string is a prefix of the second or, at the first position where they differ, has the smaller character |
| `Storage.DateRangeMonotone` | src/lib/storage.ts:154-160 | widening the range (`start` no later, `end` no earlier) loses no transaction |
| `Storage.DateRangeAppend` | src/lib/storage.ts:154-160 | the range filter keeps log order: it distributes over concatenation of logs |
| `Storage.GetTodaysTransactions` | src/lib/storage.ts:162-165 | the one-day range `today..today` selects exactly the transactions whose day key is `today` |
| `Storage.MergeCustomer` | src/lib/storage.ts:189 | an empty patch changes nothing. `createdAt` and `id` change only when the patch supplies them, since a customer update sets no timestamp |
| `Storage.Store.constructor` | src/lib/storage.ts:80 | the store starts from the three persisted collections |
| `Storage.Store.SaveProduct` | src/lib/storage.ts:82-93 | appends exactly one record, the draft with the fresh id and timestamps. Earlier records are unchanged and in order |
| `Storage.Store.UpdateProduct` | src/lib/storage.ts:95-107 | returns null iff the id is absent, and then nothing changes. Otherwise it replaces only the first record with the id by the merge and returns the merge |
| `Storage.Store.DeleteProduct` | src/lib/storage.ts:109-116 | returns true iff some record had the id. Every record with it is removed, the rest keep their order, and a false result changes nothing |
| `Storage.Store.UpdateStock` | src/lib/storage.ts:123-126 | returns true iff the id is present. The collection becomes `ProductsAfterStock` |
| `Storage.Store.SaveTransaction` | src/lib/storage.ts:133-152 | appends exactly one transaction. The item loop leaves the products equal to the cascade `ApplySale` of the items in order |
| `Storage.Store.SaveCustomer` | src/lib/storage.ts:172-182 | appends exactly one customer with the fresh id and `createdAt = now` |
| `Storage.Store.UpdateCustomer` | src/lib/storage.ts:184-192 | returns null iff the id is absent, and then nothing changes. Otherwise only the first customer with the id is merged, with no timestamp refresh |
| `Storage.Store.DeleteCustomer` | src/lib/storage.ts:194-201 | returns true iff some customer had the id. All with it are removed and the rest keep their order |
| `Storage.Store.InitializeSampleData` | src/lib/storage.ts:270-284 | an empty catalogue becomes exactly the five sample products. A non-empty one is unchanged |
| `Analytics.Revenue` | src/lib/storage.ts:258-261 | total revenue is never negative when no transaction total is |
| `Analytics.TodaysRevenue` | src/lib/storage.ts:263-266 | with no negative total, today's revenue lies between zero and the whole log's revenue |
| `Analytics.OnDayBound` | src/lib/storage.ts:263-266 | with no negative total, one day's transactions have no negative total and bring in at most the whole log's revenue |
| `Analytics.SumsAppend` | src/lib/storage.ts:258-261 | revenue and units sold add up over concatenated logs |
| `Analytics.RevenueAfterSave` | src/lib/storage.ts:258-261 | recording a sale raises total revenue by its `total` and units sold by its items' quantities |
| `Analytics.TodaysRevenueAfterSave` | src/lib/storage.ts:263-266 | a sale dated today raises today's revenue by its total, one dated another day does not, and an empty log has none |
| `Analytics.BucketStep` | src/lib/storage.ts:224-232 | scanning one more transaction adds its total, one transaction and its units to its own day's bucket only |
| `Analytics.ZeroBuckets` | src/lib/storage.ts:211-221 | the returned map has exactly the window's days as keys, and each day's bucket carries that date with zero sales, zero transactions and zero items |
| `Analytics.TallyLog` | src/lib/storage.ts:224-232 | after the scan, every window day's bucket holds the revenue, count and units of that day's transactions, and the map has no other day |
| `Analytics.GetDailySales` | src/lib/storage.ts:206-235 | the map-filling loop and the scan return one bucket per window day, oldest first. Each bucket has the revenue, count and units of that day's transactions |
| `Analytics.DailyTotals` | src/lib/storage.ts:206-235 | the series' sales, transaction and unit totals equal those of the transactions dated inside the window. Transactions outside it are ignored |
| `Analytics.DailyTotalsWholeLog` | src/lib/storage.ts:206-235 | when every transaction falls inside the window, the series adds up to the whole log's revenue, count and units |
| `Analytics.Insert` | src/lib/storage.ts:252 | one insertion step adds exactly the element: the multiset grows by one |
| `Analytics.InsertSorted` | src/lib/storage.ts:252 | inserting into a list sorted by units sold (descending) keeps it sorted |
| `Analytics.SortBySold` | src/lib/storage.ts:252 | the sort returns a permutation of its input, non-increasing in `totalSold` |
| `Analytics.SortStable` | src/lib/storage.ts:252 | the sort is stable: entries with equal `totalSold` keep their catalogue order |
| `Analytics.SliceTo` | src/lib/storage.ts:253 | `slice(0, end)` is a prefix of length `min(end, n)`, or `max(n + end, 0)` for a negative end |
| `Analytics.GetTopProducts` | src/lib/storage.ts:237-256 | the nested tally loops and the sort return the sorted ranking of the catalogue cut at `limit` |
| `Analytics.TopProductsSpec` | src/lib/storage.ts:237-256 | the result is sorted and has `min(limit, n)` entries for a non-negative limit. Each entry is a catalogue product with its true units sold. No product left out sold more than one kept |
| `Analytics.TopProductsAccountForAllSales` | src/lib/storage.ts:240-255 | with distinct catalogue ids and every item naming a listed product, the `totalSold` of all products add up to the units of all transactions |
| `Cashier.Lower` | src/pages/Cashier.tsx:44 | lower-casing keeps the length, turns each upper-case ASCII letter into its lower-case partner (32 code points up), and keeps every other character |
| `Cashier.LowerIgnoresCase` | src/pages/Cashier.tsx:44 | two strings that differ only in ASCII case lower-case to the same string, so the name search is case-insensitive |
| `Cashier.Includes` | src/pages/Cashier.tsx:44-45 | `includes` can only hold when the searched-for string is no longer than the string searched |
| `Cashier.IncludesSpec` | src/pages/Cashier.tsx:44-45 | `includes` holds exactly when the searched-for string is a prefix of some suffix of the string searched |
| `Cashier.FilteredProducts` | src/pages/Cashier.tsx:42-50 | a product is shown iff it is in the catalogue, matches the search by lower-cased name or raw barcode, matches the category (or the category is unset or "Semua"), and has stock above zero |
| `Cashier.EmptySearchShowsInStock` | src/pages/Cashier.tsx:42-50 | with no search term and no category, exactly the in-stock products are shown, in catalogue order |
| `Cashier.CartAfterAdd` | src/pages/Cashier.tsx:52-72 | the existing lines keep their products and order. At most one line, one unit of the product, is added at the end |
| `Cashier.CartAfterRemove` | src/pages/Cashier.tsx:99-101 | no line of the product is left and every other line stays. The cart shrinks iff it held the product |
| `Cashier.CartAfterUpdate` | src/pages/Cashier.tsx:74-97 | a non-positive quantity leaves no line of the product. A positive one keeps every line's product and position, and changes only the product's lines, only to `q` |
| `Cashier.AddToCartSpec` | src/pages/Cashier.tsx:52-72 | an absent product is appended as one line of quantity 1. A present one is unchanged when its line holds the stock, and otherwise only its line gains one. The cart keeps one line per product |
| `Cashier.RemoveFromCartSpec` | src/pages/Cashier.tsx:99-101 | no line of the product is left, every other line stays, and one line per product is kept |
| `Cashier.UpdateQuantitySpec` | src/pages/Cashier.tsx:74-97 | `q <= 0` removes the line. `q` above the listed stock changes nothing. Otherwise the product's line, if any, gets exactly `q` and no other line changes, even for an unlisted product |
| `Cashier.AddKeepsValid` | src/pages/Cashier.tsx:48-72 | adding an offered product (listed, stock above zero) keeps every quantity in 1..stock with one line per product |
| `Cashier.UpdateKeepsValid` | src/pages/Cashier.tsx:74-97 | every quantity change keeps the cart invariant |
| `Cashier.RemoveKeepsValid` | src/pages/Cashier.tsx:99-101 | removing a product keeps the cart invariant |
| `Cashier.Subtotal` | src/pages/Cashier.tsx:108 | the sum of price times quantity is never negative when no price or quantity is |
| `Cashier.CalculateTotal` | src/pages/Cashier.tsx:107-111 | the subtotal equals the sum of the `total` fields of the sale items recorded for the lines (price times quantity), the tax is a tenth of the subtotal, and the total is subtotal plus tax. The empty cart totals zero, and with non-negative prices and quantities `0 <= subtotal <= total` |
| `Cashier.SaleItemsAddUp` | src/pages/Cashier.tsx:123-135 | the recorded items' `total` fields add up to the recorded subtotal |
| `Cashier.SaleItemsQty` | src/pages/Cashier.tsx:126-132 | with one line per product, the units of a product among the recorded items are its line's quantity, or zero without a line |
| `Cashier.LocalStockAfter` | src/pages/Cashier.tsx:146-154 | the screen's copy keeps every product's position and changes only stock. Unlike the store, it does not refresh `updatedAt` |
| `Cashier.LocalStockSpec` | src/pages/Cashier.tsx:146-154 | after payment, each product with a cart line loses exactly that line's quantity and stays at or above zero. The others are unchanged |
| `Cashier.LocalMatchesStore` | src/pages/Cashier.tsx:146-154 | the screen's stock update and the store's cascade agree on every product's stock. The two differ at most in `updatedAt` |
| `Cashier.Register.constructor` | src/pages/Cashier.tsx:32-35 | the screen loads the stored catalogue with an empty cart, and the invariant holds |
| `Cashier.Register.AddToCart` | src/pages/Cashier.tsx:52-72 | applies the add transition and keeps the invariant |
| `Cashier.Register.UpdateQuantity` | src/pages/Cashier.tsx:74-97 | applies the quantity transition and keeps the invariant |
| `Cashier.Register.RemoveFromCart` | src/pages/Cashier.tsx:99-101 | applies the remove transition and keeps the invariant |
| `Cashier.Register.ClearCart` | src/pages/Cashier.tsx:103-105 | the cart becomes empty and the invariant holds |
| `Cashier.Register.ProcessPayment` | src/pages/Cashier.tsx:113-157 | an empty cart records nothing and changes nothing. Otherwise it appends one transaction with one item per line, the totals and cashier `cashier-1`. The store's stock follows the cascade, the screen's stock drops by the cart, and the cart ends empty with the invariant kept |
| `Auth.CheckCredentials` | src/lib/auth.ts:45-50 | a failure carries the single error message. A success returns the user whose user name was given |
| `Auth.LoginTable` | src/lib/auth.ts:14-33 | exactly the two pairs `admin`/`admin123` and `kasir`/`kasir123` log in, as `admin-1` (Administrator, admin) and `kasir-1` (Kasir 1, kasir) |
| `Auth.WrongPasswordFails` | src/lib/auth.ts:48-49 | a known user name with a wrong password fails exactly as an unknown name does |
| `Auth.AuthService.constructor` | src/lib/auth.ts:38-43 | the service starts with the stored user, if any |
| `Auth.AuthService.Login` | src/lib/auth.ts:45-56 | the result is the table's decision. A success makes the table's user current, and a failure leaves the current user as it was |
| `Auth.AuthService.Logout` | src/lib/auth.ts:58-61 | afterwards no user is current and `isAuthenticated` is false |
| `Auth.AuthService.IsAuthenticated` | src/lib/auth.ts:67-69 | someone is signed in iff the current user has one of the two roles |
| `Auth.AuthService.HasRole` | src/lib/auth.ts:71-73 | having a role implies being signed in |
| `Auth.AuthService.CanAccess` | src/lib/auth.ts:75-78 | access is granted iff someone is signed in with one of the listed roles, that is iff `hasRole` holds for some listed role |
| `Auth.AccessFacts` | src/lib/auth.ts:67-78 | with nobody signed in, no role and no access. An empty role list grants nothing, and the list of both roles grants exactly the signed-in. A signed-in user has exactly one of the two roles |

## Left out

- Browser storage and its JSON encoding are not modelled.
  - Each collection is a sequence field, read from `Store`'s constructor.
  - A failed write (logged and ignored by the app) is not modelled.
  - The signed-in user is persisted across page loads. That is the `AuthService` constructor's parameter; the writes in `login` and `logout` are left out.
- `crypto.randomUUID()` and `new Date()` are parameters: `id`, `now`, `today` and the window of days.
  - Product `save` reads the clock twice, for `createdAt` and `updatedAt`. The model uses one `now` for both.
  - Transaction `save` also reads the clock separately: once for the transaction's `createdAt` (src/lib/storage.ts:138) and again in each stock update's `updatedAt` (src/lib/storage.ts:103). The model uses one `now` for all of them.
  - Fresh ids are required to be absent from their collection.
- The calendar arithmetic that builds the window of `getDailySales` (`setDate`, UTC conversion) is not modelled. The window is a given sequence of distinct day keys, oldest first.
- Floating-point arithmetic is not modelled: prices, totals and the 10% tax are exact reals.
- String handling is simplified.
  - `toLowerCase` is modelled for ASCII letters only.
  - String order is by character code, as JavaScript compares UTF-16 code units. Surrogate pairs are not modelled.
- `Array.prototype.sort` is modelled as a stable insertion sort, as the specification of current JavaScript engines requires. The comparator `b.totalSold - a.totalSold` is modelled on integers, so it cannot overflow or return NaN.
- `getCurrentUser` is not modelled separately. It returns the `currentUser` field, which the model exposes directly.
- `Cashier.Register.constructor` requires the stored catalogue to have distinct product ids. The store does not enforce this as an invariant. Saves use fresh ids and the stock cascade keeps ids, but `update` with a patch that changes `id` can create a duplicate.
- `Cashier.Register.AddToCart` requires the product to be one the screen offers: in the filtered list and equal to the listed record. The screen only renders buttons for those.
- The React hooks, toasts, the rendering, the `categories` list, currency formatting and the other pages are not modelled. They call the storage layer and display its results.
