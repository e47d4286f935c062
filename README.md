# GameVault store core in Dafny

This project models the business core of a Telegram Mini App storefront.

**The mock store (`services/mockDb.ts`).** `MockDatabase` keeps four collections:

- a product catalogue;
- one current user;
- a newest-first list of orders;
- a newest-first ledger of transactions.

On these it offers list operations: prepend, replace by id, and filter out by id. It also offers two actions that move money:

- `purchaseProduct` checks three things in a fixed order: product missing, then out of stock, then insufficient funds. On success it takes one unit of stock and the price from the balance. It then prepends an order that snapshots the product, and a debit transaction.
- `deposit` credits the balance and prepends a credit transaction.

**The storefront filter (`components/Storefront.tsx`).** This is the catalogue filter: a category tab, where `ALL` lets everything through, combined with a case-insensitive substring search over title and description.

The model has four modules:

- `Types` (`types.dfy`): the records of `types.ts` as datatypes. Optional fields become `Option`. The transaction field `type` is called `kind`, because `type` is a Dafny keyword.
- `Seqs` (`seqs.dfy`): one order-preserving `Filter`, the `Array.prototype.filter` that both `deleteProduct` and the storefront search use, with its lemmas. These cover order, multiplicity, idempotence and keeping everything.
- `MockDb` (`mock_db.dfy`): the store as a class `MockDatabase`. The four local-storage keys become four fields, and the constructor is the state read when no key is stored yet. Each mutator has `modifies this` and states the whole new state. The pure helpers `FindIndex` (`products.find`), `ReplaceById` (the `map` in `updateProduct`) and `WithoutId` (the `filter` in `deleteProduct`) carry the lemmas. Three client methods at the end (`ToggleTwice`, `LastUnitSellsOnce`, `SnapshotSurvivesEdit`) state scenarios across calls.
- `Storefront` (`storefront.dfy`): `FilterProducts` and its lemmas.

Prices, balances and amounts are integers (cents): the seeded prices 15.99, 9.50, 1.20 and 29.99 become 1599, 950, 120 and 2999. Random ids and clock readings are method parameters.

Several behaviours of the code are modelled exactly as written:

- `updateProduct` replaces *every* product whose id matches. The purchase therefore overwrites all products that share the bought id with the decremented copy of the first one. `ReplaceByIdUnique` states that, with unique ids, exactly one position changes.
- `deposit` makes no sign check on `amount`, so zero and negative amounts are credited as given.
- `updateProduct` with an absent id changes nothing rather than failing. `deleteProduct` with an absent id is a no-op, so deletion is idempotent.
- `purchaseProduct`, `deposit` and `toggleAdminMode` mutate the product and user objects they read, then write them back. Once a key is stored, those objects come from a freshly parsed copy, so only the write is observable. When no key is stored yet, they are the seed constants themselves (see "## Left out").

## Model

| member | source | states |
|---|---|---|
| `Seqs.Filter` | components/Storefront.tsx:33-38 | the result is no longer than the input and every kept element passes the test |
| `Seqs.FilterMembership` | components/Storefront.tsx:33-38 | every kept element is in the input, and every input element that passes the test is kept |
| `Seqs.FilterCount` | components/Storefront.tsx:33-38 | nothing is dropped or duplicated: a passing value occurs as often as in the input, a failing one never |
| `Seqs.FilterIndices` | components/Storefront.tsx:33 | the result is a subsequence: its elements occur in the input at strictly increasing indices |
| `Seqs.FilterKeepsAll` | services/mockDb.ts:82 | when every element passes, the filter returns its input unchanged |
| `Seqs.FilterIdempotent` | components/Storefront.tsx:33-38 | filtering twice with the same test equals filtering once |
| `MockDb.FindIndex` | services/mockDb.ts:116 | `find` by id: none iff no product has the id; otherwise an in-range index holding the id with no earlier product holding it |
| `MockDb.ReplaceById` | services/mockDb.ts:77 | the update map keeps the length and order; each position whose id matches becomes the new product, and every other position is unchanged |
| `MockDb.WithoutId` | services/mockDb.ts:82 | the delete filter: no survivor has the id, and every product with another id survives |
| `MockDb.ReplaceByIdUnique` | services/mockDb.ts:76-79 | with unique ids, updating the product at index i is exactly `ps[i := p]`, and ids stay unique |
| `MockDb.ReplaceByIdAbsent` | services/mockDb.ts:76-79 | updating an id no product has leaves the catalogue unchanged |
| `MockDb.FindIndexAfterReplace` | services/mockDb.ts:145 | after an update by id, the first product with that id is at the same index as before |
| `MockDb.WithoutIdAbsent` | services/mockDb.ts:81-84 | deleting an absent id is a no-op |
| `MockDb.WithoutIdIdempotent` | services/mockDb.ts:81-84 | deleting the same id twice equals deleting it once |
| `MockDb.WithoutIdKeepsOrder` | services/mockDb.ts:81-84 | survivors keep their relative order (strictly increasing source indices), and each product with another id keeps its multiplicity |
| `MockDb.Sold` | services/mockDb.ts:123 | the sold product has exactly one unit less stock and every other field unchanged |
| `MockDb.OrderFor` | services/mockDb.ts:126-135 | the order references the buyer and the product, is completed, and snapshots the product's title, price and delivery data |
| `MockDb.PurchaseEntry` | services/mockDb.ts:137-143 | the ledger entry is a purchase whose amount is exactly the negated price |
| `MockDb.DepositEntry` | services/mockDb.ts:157-163 | the ledger entry is a deposit whose amount is exactly the amount credited |
| `MockDb.SellOneUnit` | services/mockDb.ts:116-145 | selling the first product with an id keeps the catalogue's length, lowers exactly that product's stock by one, and leaves products with other ids untouched; the same index is still the first with that id; when the product was in stock, no stock goes negative |
| `MockDb.MockDatabase.constructor` | services/mockDb.ts:4-55 | the state with no stored keys: the four seeded products, the seeded user, and empty order and transaction lists; ids are unique and nothing is negative |
| `MockDb.MockDatabase.GetProducts` | services/mockDb.ts:67-69 | returns the stored catalogue |
| `MockDb.MockDatabase.AddProduct` | services/mockDb.ts:71-74 | prepends the product, so the old catalogue is the tail; user, orders and transactions are unchanged |
| `MockDb.MockDatabase.UpdateProduct` | services/mockDb.ts:76-79 | the catalogue becomes `ReplaceById` of the old one: same length, matching positions replaced, others unchanged; nothing else changes |
| `MockDb.MockDatabase.DeleteProduct` | services/mockDb.ts:81-84 | the catalogue becomes `WithoutId` of the old one, and no product with the id remains; nothing else changes |
| `MockDb.MockDatabase.GetUser` | services/mockDb.ts:86-88 | returns the stored user |
| `MockDb.MockDatabase.UpdateUser` | services/mockDb.ts:90-92 | overwrites the user and changes nothing else |
| `MockDb.MockDatabase.GetOrders` | services/mockDb.ts:94-96 | returns the stored orders |
| `MockDb.MockDatabase.CreateOrder` | services/mockDb.ts:98-101 | prepends the order, so the old list is the tail; nothing else changes |
| `MockDb.MockDatabase.GetTransactions` | services/mockDb.ts:103-105 | returns the stored transactions |
| `MockDb.MockDatabase.AddTransaction` | services/mockDb.ts:107-110 | prepends the transaction, so the old ledger is the tail; nothing else changes |
| `MockDb.MockDatabase.PurchaseProduct` | services/mockDb.ts:113-151 | checks product missing, then stock <= 0, then balance < price, and returns the first failure with all four collections unchanged. On success: the catalogue is the old one with that product's stock one lower; the balance is exactly `price` lower; one order is prepended, snapshotting user id, product id, title, price and delivery data with status completed, and it is also the returned order; one transaction of `-price` and kind purchase is prepended. It also keeps "no negative stock or balance" |
| `MockDb.MockDatabase.Deposit` | services/mockDb.ts:153-167 | the balance grows by exactly `amount`; one deposit transaction of `amount` is prepended; products and orders are unchanged; a non-negative amount keeps "no negative stock or balance" |
| `MockDb.MockDatabase.ToggleAdminMode` | services/mockDb.ts:169-174 | negates `isAdmin` and leaves every other user field and all collections unchanged; returns the new flag |
| `MockDb.ToggleTwice` | services/mockDb.ts:169-174 | toggling admin mode twice restores the original user and changes nothing else |
| `MockDb.LastUnitSellsOnce` | services/mockDb.ts:116-124 | with stock 1 and enough money, a first purchase succeeds and leaves stock 0, and a second is refused as out of stock; the balance drops by exactly the price; exactly one order and the purchase ledger entry are prepended |
| `MockDb.SnapshotSurvivesEdit` | services/mockDb.ts:126-135 | with the product in stock and affordable, the purchase succeeds; its order is the head of the orders and snapshots the product as sold; editing the product right after changes the catalogue but not the order |
| `Storefront.LowerChar` | components/Storefront.tsx:35-36 | the result is never an ASCII capital; it is the input, or the input's lower-case letter |
| `Storefront.ToLower` | components/Storefront.tsx:35-36 | lower-casing keeps the length and lower-cases every character |
| `Storefront.ToLowerIdempotent` | components/Storefront.tsx:35-36 | lower-casing a lower-cased string changes nothing |
| `Storefront.Contains` | components/Storefront.tsx:35-36 | `includes`: true iff the needle occurs at some offset of the haystack |
| `Storefront.InCategory` | components/Storefront.tsx:34 | the `All` tab passes every product; a category tab passes a product iff its category is that one |
| `Storefront.MatchesSearch` | components/Storefront.tsx:35-36 | the search test on the lower-cased title or description; an empty query passes every product |
| `Storefront.FilterProducts` | components/Storefront.tsx:33-38 | a product is shown iff it is in the catalogue, the category test passes (`All`, or an equal category), and the lower-cased query occurs in the lower-cased title or description; the result is no longer than the catalogue |
| `Storefront.FilterProductsKeepsOrder` | components/Storefront.tsx:33-38 | the shown list is a subsequence of the catalogue (strictly increasing indices), and no product is dropped or duplicated |
| `Storefront.EmptySearchMatchesAll` | components/Storefront.tsx:35-36 | the empty query passes the search test for every product |
| `Storefront.AllWithEmptySearchIsIdentity` | components/Storefront.tsx:34-36 | the `ALL` tab with an empty query shows the catalogue unchanged |
| `Storefront.CategoryWithEmptySearch` | components/Storefront.tsx:34-36 | a category tab with an empty query shows exactly that category's products, in catalogue order |
| `Storefront.FilterProductsIdempotent` | components/Storefront.tsx:33-38 | filtering the shown list again with the same tab and query changes nothing |
| `Storefront.SearchIgnoresQueryCase` | components/Storefront.tsx:35-36 | a query and its lower-cased form show the same products |

## Left out

- Local-storage persistence and JSON (de)serialisation (`get`/`set`, services/mockDb.ts:58-65): they are replaced by the four fields of `MockDatabase`.
- `Math.random()` ids and `new Date().toISOString()` timestamps: they are parameters, and nothing is claimed about uniqueness.
- Floating-point prices, balances and stock: money is integer cents and stock an integer. A fractional stock such as 0.5 would pass the `stock <= 0` check in the source and end negative, and the model does not represent it.
- The human-readable result messages ('Purchase successful!', 'Product not found', 'Out of stock', 'Insufficient funds') are not modelled. `PurchaseError` has one case per failure message.
- In-place mutation of the seed constants: with no key stored, `get` returns `INITIAL_PRODUCTS`/`INITIAL_USER` themselves, so `purchaseProduct`, `deposit` and `toggleAdminMode` also change those module constants in place (services/mockDb.ts:60, 123-124, 155, 171). The model has values, not shared objects, so it captures what is written to storage but not this aliasing of the seeds.
- Concurrency and atomicity: the store is single-threaded and synchronous, so there is nothing concurrent to model. The code has no atomicity mechanism, so the model has none.
- Storefront.ToLower: ASCII lower-casing only, not the Unicode case mapping of `toLowerCase`.
- Storefront.FilterProducts: the category tab is a datatype (`All` or one category). The source's tab is a free string, but the UI only ever sets it to 'ALL' or a category name.
- All React rendering, state hooks, notifications and polling (App.tsx, components/Storefront.tsx apart from lines 33-38), and the Telegram WebApp glue and user upsert: these are UI.
- components/AdminPanel.tsx form handling: it is UI state around `addProduct`/`updateProduct`/`deleteProduct`, which are modelled.
- components/UserProfile.tsx: it imports this store but calls `getOrders(user.id)` and `deposit(user.id, amount)`, which do not match the store's `getOrders()`/`deposit(amount)` (services/mockDb.ts:94, 153). Those calls are not modelled; the rest is UI.
