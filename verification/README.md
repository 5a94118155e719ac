# Storefront model layer in Dafny

This project models the model layer of a small storefront front end (the
"web-larek" client): the `Product` record, the customer's `UserData` with its
completeness check, the read-only `Catalog`, and the `Cart` with its
`addItem`, `removeItem`, `getItems` and `getTotal` operations. All of it lives
in `src/types/index.ts` of the TypeScript code.

Layout:

- `sequences.dfy` (module `Sequences`): the JavaScript array operations the
  cart relies on — `indexOf` (first index or -1), `splice(i, 1)` — and the
  no-duplicates predicate.
- `products.dfy` (module `Products`): `Product` as a class with constant
  fields. Cart membership in the TypeScript code uses `includes`/`indexOf`, which
  compare objects by reference, so products are compared by identity here
  too: two products with identical fields are different products
  (`Carts.DistinctInstancesBothAdded` shows the cart accepting both). The
  field `type` is named `kind` because `type` is a Dafny keyword.
- `user_data.dfy` (module `Users`): `UserData` and `isValid`, where JavaScript
  `!!s` on a string is "the string is not empty".
- `catalog.dfy` (module `Catalogs`): `Catalog` and `getItems`.
- `cart.dfy` (module `Carts`): the cart logic as pure functions over the item
  sequence (`Add`, `Remove`, `Total`, each returning what the source method
  returns), the properties relating them, and the `Cart` class whose
  mutating methods apply those functions to its `items` field.

`getTotal` returns the number of items, not the sum of their costs, although
its name and the order request's `total` field suggest an order amount. The
model keeps the behaviour as written and states it: `Carts.Total` is a count
(for a duplicate-free cart, the number of distinct products), and
`Carts.TotalIsCountNotCostSum` pins down that a cart holding products of cost
10 and 20 has total 2, not 30.

A product carries an `id`, but the code decides cart membership with
`includes`/`indexOf` (src/types/index.ts:163, :170), that is, by object
reference. The model follows the code: two products that share an `id` are
different unless they are the same instance.

The cart constructor accepts any initial array, including one with repeated
products. "No duplicates" is therefore proved as an invariant that `addItem`
and `removeItem` preserve (and that holds for every cart started empty), not
as a precondition.

## Model

| member | source | states |
|---|---|---|
| Sequences.IndexOf | src/types/index.ts:170 | the result is -1 exactly when the product is absent; otherwise it is an index holding the product with no earlier occurrence (the first one) |
| Sequences.RemoveAt | src/types/index.ts:172 | removing index i drops exactly one element: length falls by one, elements before i stay in place, elements after i shift down by one, the multiset loses one copy of the removed element |
| Users.UserData.IsValid | src/types/index.ts:143-145 | the details are valid iff every one of address, delivery method, email and phone is non-empty, i.e. no field is the empty string |
| Users.ClearingAnyFieldInvalidates | src/types/index.ts:143-145 | emptying any single field makes the details invalid whatever the other fields hold |
| Users.FilledFieldsAreValid | src/types/index.ts:143-145 | any four non-empty strings make valid details |
| Users.IsValidExamples | src/types/index.ts:143-145 | ("x", "courier", "a@b.c", "1") is valid; the same with an empty address is not |
| Catalogs.Catalog.GetItems | src/types/index.ts:153-155 | the catalog hands back its products unchanged: same length and the same product at every position, i.e. in insertion order |
| Catalogs.InsertionOrderKept | src/types/index.ts:148-155 | a catalog loaded with A, B, C lists exactly A, B, C |
| Carts.Add | src/types/index.ts:162-168 | succeeds iff the product is absent; on success the product is appended at the end and nothing else changes; on failure the items are unchanged; afterwards the product is present; a duplicate-free cart stays duplicate-free |
| Carts.Remove | src/types/index.ts:169-176 | succeeds iff the product is present; on success exactly the element at its first occurrence is removed, the others keep their order, and the multiset loses one copy; on failure nothing changes; in a duplicate-free cart the product is gone afterwards and the cart stays duplicate-free |
| Carts.Total | src/types/index.ts:180-182 | the total is the item count; for a duplicate-free cart it equals the number of distinct products |
| Carts.AddIdempotent | src/types/index.ts:162-168 | adding the same product a second time is refused and leaves the items as the first add left them |
| Carts.RemoveTwiceRefused | src/types/index.ts:169-176 | in a duplicate-free cart, removing a present product succeeds and removing it again is refused |
| Carts.RemoveTakesOnlyFirstCopy | src/types/index.ts:170-173 | when a product occurs twice, one removal takes only the first copy: removing p from [p, q, p] leaves [q, p] |
| Carts.AddThenRemove | src/types/index.ts:162-176 | for an absent product, adding and then removing it succeeds and restores the original items exactly |
| Carts.TotalFollowsMutations | src/types/index.ts:162-182 | the total rises by one after a successful add, falls by one after a successful remove, and is unchanged after a refused one |
| Carts.TotalIsCountNotCostSum | src/types/index.ts:180-182 | a cart holding products of cost 10 and 20 has total 2, which differs from the cost sum 30 |
| Carts.ReplayKeepsNoDuplicates | src/types/index.ts:158-176 | any sequence of adds and removes applied to a duplicate-free cart (for instance the empty one) leaves it duplicate-free |
| Carts.DistinctInstancesBothAdded | src/types/index.ts:162-168 | two products built with identical fields are both accepted, leaving two distinct but field-identical entries |
| Carts.Cart.AddItem | src/types/index.ts:162-168 | the cart object's add returns true iff the product was absent, then appends it; otherwise the items are unchanged; the no-duplicates invariant is preserved |
| Carts.Cart.RemoveItem | src/types/index.ts:169-176 | the cart object's remove returns true iff the product was present, then deletes its first occurrence keeping the rest in order; otherwise the items are unchanged; the invariant is preserved and the product is gone |
| Carts.Cart.GetItems | src/types/index.ts:177-179 | the cart's items are returned unchanged and in order |
| Carts.Cart.GetTotal | src/types/index.ts:180-182 | the cart object's total is its item count, the number of distinct products when the invariant holds |

## Left out

- API wire-format records (`ApiProductItemResponse`, `ApiProductListResponse`, `ApiOrderRequest`, `ApiOrderResponse`, lines 2-28): shape declarations with no behaviour.
- The `IProduct`, `IUserData`, `ICatalog`, `ICart` interfaces (lines 31-60): their content is the classes modelled here.
- View interfaces and classes (`ProductView`, `FormView`, `CatalogView`, `CartView`, lines 62-84 and 185-254): DOM manipulation and event-listener registration on a browser API outside this model; several of their bodies are empty placeholders.
- Presenter interfaces and classes (lines 86-122 and 256-320): every handler and `init` body is empty, and `CartPresenter.calculateTotal` returns the constant 0; there is no behaviour to state beyond that.
- Aliasing: `Catalog.getItems` and `Cart.getItems` return the live backing array in the TypeScript code, and the `Cart` and `Catalog` constructors keep the caller's array itself rather than a copy, so a caller's later `push`/`splice` on that array, or a `Cart` built on `catalog.getItems()`, shares state with the cart. The model stores and returns the items as immutable sequence values, so such outside mutation (and the duplicates it could introduce) is not modelled.
- Product fields: they are public and writable in the TypeScript code, but nothing in the code writes them after construction; the model makes them constants. Cart membership is by identity, so no cart behaviour depends on this.
- Number representation: `cost` is a `real` and `id` an `int`; JavaScript's double-precision rounding is not modelled, which only matters for the cost comparison in `Carts.TotalIsCountNotCostSum`.
- `includes` versus `indexOf`: JavaScript's `includes` uses SameValueZero and `indexOf` strict equality; they differ only for `NaN`, never for object references, so both are modelled as Dafny's `in`/`==` on product references.
- Mutation of `UserData` fields by a form: the setters are plain property writes and the form handlers are empty; `IsValid` is modelled as a pure function of the four fields.
