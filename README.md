# Shopping cart with stock checks and local persistence

This project models the cart component of a small shop front (`CartProvider` in
`src/hooks/useCart.tsx`). The cart is an ordered list of products. Each product is keyed by
its `id` and carries an integer `amount`. Three operations change the cart:

- `addProduct` appends a new product with amount 1, or adds 1 to a product already present
  as long as the remote stock allows it.
- `removeProduct` drops a product.
- `updateProductAmount` sets a product's amount to an absolute value, bounded by the remote stock.

Every successful change replaces the in-memory cart and writes a copy under the single
local-storage key `@RocketShoes:card`. Every rejection shows an error toast (the messages are
in Portuguese; `CartModel.Text` lists them), with one exception: a failed stock request in
`updateProductAmount` is rejected silently.

Layout:

- `cart_model.dfy`, module `CartModel`: the values involved. This covers products, stock
  records, the outcome of a remote request (`Fetch`: `Ok(data)` or `Fail`) and the toasts. It
  also holds the pure queries the operations use: `find` by id (`Find`, `FindProduct`),
  `productNotExists`, `filter` by id (`Without`) and setting one entry's amount (`WithAmount`).
  Finally it defines the cart invariant `WellFormed` (unique ids, every amount ≥ 1) and the
  lemmas showing that each kind of change keeps it.
- `cart_steps.dfy`, module `CartSteps`: each operation as a transition of the observable
  `State`. The state has four parts: the in-memory cart, the stored value, the number of
  storage writes, and the list of toasts. The module proves the per-case lemmas for each
  operation. It also defines sequences of calls (`Run`) and proves the invariant over them,
  plus the concrete scenarios.
- `use_cart.dfy`, module `UseCart`: the component as a class. Its fields `cart`, `store`,
  `writes` and `notes` are updated step by step, with early returns on each error path, as in
  the source. Each method's postcondition ties the new state to the matching `CartSteps`
  transition of the old state. `RemoveProduct` and `UpdateProductAmount` also keep
  `WellFormed`. `AddProduct` keeps it when the catalog answers with the record of the
  requested id.

Remote requests (`/products/{id}`, `/stock/{id}`) are method parameters: the answer the
service would give, or `Fail` for a rejected request. `AddProduct` takes both answers, and each
is used only on the branch that makes that request. Local storage is the field `store`
(`None` when the key is empty), and JSON encoding and decoding are taken as the identity.
Toasts are appended to `notes`.

Two places where the code does something its surroundings suggest was not meant; the model
follows the code:

- A failing stock request inside `updateProductAmount` lands in an empty `catch` that holds
  only a `// TODO` (src/hooks/useCart.tsx:107-109). It shows no toast, whereas the matching
  `catch` of `addProduct` shows one (src/hooks/useCart.tsx:68-71).
- `removeProduct` persists the cart from before the filter (src/hooks/useCart.tsx:79). The
  other two operations persist exactly the cart they commit (src/hooks/useCart.tsx:66-67,
  105-106); see Findings.

## Model

| member | source | states |
|---|---|---|
| CartModel.Find | src/hooks/useCart.tsx:48 | gives the position of the first entry with the id, and nothing exactly when no entry has it |
| CartModel.FindProduct | src/hooks/useCart.tsx:76 | nothing exactly when no entry has the id; otherwise the first entry with the id |
| CartModel.TextsDistinct | src/hooks/useCart.tsx:59-101 | the toast texts of the four error conditions are pairwise different (both out-of-stock rejections use the one shared text) |
| CartModel.ProductNotExistsIffAbsent | src/hooks/useCart.tsx:40-42 | `productNotExists(find(...))` holds exactly when no entry has the id |
| CartModel.Without | src/hooks/useCart.tsx:78 | after the filter the id is gone; the cart shrinks when the id was present and is unchanged when it was not |
| CartModel.WithoutConcat | src/hooks/useCart.tsx:78 | the filter works entry by entry: filtering a concatenation gives the filtered parts in order, so kept entries keep their order and multiplicity even with repeated ids |
| CartModel.WithoutMembers | src/hooks/useCart.tsx:78 | the filter keeps exactly the entries whose id differs |
| CartModel.WithoutSplice | src/hooks/useCart.tsx:78 | with unique ids, filtering cuts out exactly the one matching position and keeps every other entry in its original order |
| CartModel.WithAmount | src/hooks/useCart.tsx:63 | assigning the found entry's amount changes that amount only; id, display attributes, length and all other entries stay the same |
| CartModel.AppendPreservesWellFormed | src/hooks/useCart.tsx:51 | pushing an absent id with amount ≥ 1 keeps ids unique and amounts positive |
| CartModel.WithAmountPreservesWellFormed | src/hooks/useCart.tsx:104 | setting one amount to a value ≥ 1 keeps the invariant |
| CartModel.CutPreservesWellFormed | src/hooks/useCart.tsx:78 | cutting one position out of a well-formed cart keeps ids unique and amounts positive |
| CartModel.WithoutPreservesWellFormed | src/hooks/useCart.tsx:78 | filtering keeps the invariant |
| CartSteps.Load | src/hooks/useCart.tsx:31-38 | the initial cart is the stored value, or empty when the key is empty; no writes, no toasts; loading the state's own store again gives the same cart |
| CartSteps.AddStep | src/hooks/useCart.tsx:44-72 | every add either commits (memory and store both hold the new cart, one write, no toast) or is rejected with exactly one out-of-stock or add-failed toast and nothing else changed; a commit keeps the length or appends after the unchanged old cart |
| CartSteps.RemoveStep | src/hooks/useCart.tsx:74-83 | rejected with the remove-failed toast exactly when the id is absent; otherwise one write of the pre-filter cart, no toast, and the id is gone from memory |
| CartSteps.RemoveStepCorrected | src/hooks/useCart.tsx:74-83 | the same as RemoveStep, except that a successful removal commits the filtered cart to memory and store alike |
| CartSteps.UpdateStep | src/hooks/useCart.tsx:85-110 | every update either changes nothing, commits a same-length cart (only for amount ≥ 1), or is rejected with exactly one amount-change-failed or out-of-stock toast |
| CartSteps.AddNewAppends | src/hooks/useCart.tsx:49-67 | the first add of an id checks no stock (any stock answer, 0 included): it appends exactly one entry, the catalog record with amount 1, after the unchanged earlier entries, and stores the new cart |
| CartSteps.AddOverStock | src/hooks/useCart.tsx:53-61 | when current amount + 1 exceeds the reported stock: cart, store and writes unchanged, exactly one out-of-stock toast |
| CartSteps.AddIncrements | src/hooks/useCart.tsx:53-67 | within stock: the found entry's amount rises by exactly 1 and ends ≤ stock; length, order and other entries unchanged; store equals the new cart |
| CartSteps.AddUpstreamFailure | src/hooks/useCart.tsx:68-71 | a rejected catalog request (absent id) or stock request (present id) leaves everything unchanged and adds the add-failed toast |
| CartSteps.RemoveAbsent | src/hooks/useCart.tsx:76-81 | removing an absent id changes neither cart nor store and adds the remove-failed toast |
| CartSteps.RemovePresent | src/hooks/useCart.tsx:76-79 | removing a present id leaves the other entries in their original order; the store is written once with the pre-removal cart |
| CartSteps.RemoveLeavesStoreStale | src/hooks/useCart.tsx:78-79 | after any successful removal the store differs from memory, and reloading from the store restores the removed entry |
| CartSteps.UpdateNonPositive | src/hooks/useCart.tsx:90 | an amount below 1 is a silent no-op: nothing changes and no toast |
| CartSteps.UpdateMissing | src/hooks/useCart.tsx:92-95 | a positive amount for an absent id: nothing changes, one amount-change-failed toast |
| CartSteps.UpdateOverStock | src/hooks/useCart.tsx:97-102 | a positive amount above the reported stock: nothing changes, one out-of-stock toast |
| CartSteps.UpdateSetsAmount | src/hooks/useCart.tsx:103-106 | within stock: the found entry's amount becomes exactly the requested value (absolute, not additive); everything else unchanged; store equals the new cart |
| CartSteps.UpdateStockFailureSilent | src/hooks/useCart.tsx:107-109 | a rejected stock request during an update changes nothing and shows no toast |
| CartSteps.AddPreservesWellFormed | src/hooks/useCart.tsx:48-64 | add keeps ids unique and amounts ≥ 1, provided that the catalog record has the requested id |
| CartSteps.RemovePreservesWellFormed | src/hooks/useCart.tsx:76-78 | removal, as written and as corrected, keeps the invariant |
| CartSteps.UpdatePreservesWellFormed | src/hooks/useCart.tsx:90-104 | update keeps the invariant |
| CartSteps.RunPreservesWellFormed | src/hooks/useCart.tsx:44-110 | every sequence of add, remove and update calls whose catalog answers carry the requested id keeps ids unique and amounts ≥ 1 (a catalog record with another id can duplicate an id) |
| CartSteps.NewEntriesStartAtOne | src/hooks/useCart.tsx:49-51 | no call makes an absent id appear with an amount other than 1 |
| CartSteps.RunCorrectedKeepsStoreInSync | src/hooks/useCart.tsx:79 | with the corrected removal, reloading the store gives back the in-memory cart after every call of any sequence that starts so, the empty first visit included |
| CartSteps.FreshStartStaysInSync | src/hooks/useCart.tsx:31-38 | from the initial load, whatever the stored value, every run of the corrected component ends with a store that reloads to the in-memory cart |
| CartSteps.RunCorrectedKeepsStoreEqual | src/hooks/useCart.tsx:79 | with the corrected removal, a store holding exactly the in-memory cart keeps holding it after any sequence of calls |
| CartSteps.ScenarioAddAtStockLimit | src/hooks/useCart.tsx:53-61 | cart [{id 1, amount 2}] with stock 2: adding id 1 changes nothing and adds one out-of-stock toast |
| CartSteps.ScenarioAddToEmpty | src/hooks/useCart.tsx:49-51 | empty cart: adding id 5 gives [{id 5, amount 1, catalog attributes}], stored, at any stock |
| CartSteps.ScenarioUpdateToZero | src/hooks/useCart.tsx:90 | cart [{id 2, amount 3}]: setting id 2 to 0 leaves the state identical |
| UseCart.CartProvider.constructor | src/hooks/useCart.tsx:31-38 | the cart starts as the stored value, or empty when the key is empty; no writes, no toasts |
| UseCart.CartProvider.SetCart | src/hooks/useCart.tsx:66 | `setCart` replaces the in-memory cart and changes nothing else |
| UseCart.CartProvider.SetItem | src/hooks/useCart.tsx:67 | `localStorage.setItem` stores the given cart, counts one write and changes nothing else |
| UseCart.CartProvider.ToastError | src/hooks/useCart.tsx:59 | `toast.error` appends exactly one notification and changes nothing else |
| UseCart.CartProvider.AddProduct | src/hooks/useCart.tsx:44-72 | the new state is exactly `AddStep` of the old one; ids stay unique and amounts ≥ 1 when the catalog answers for the requested id |
| UseCart.CartProvider.RemoveProduct | src/hooks/useCart.tsx:74-83 | the new state is exactly `RemoveStep` of the old one (store written with the pre-filter cart); the invariant is kept |
| UseCart.CartProvider.UpdateProductAmount | src/hooks/useCart.tsx:85-110 | the new state is exactly `UpdateStep` of the old one; the invariant is kept |

## Findings

| source | as written | input that shows it | evidently intended | confidence | as-written member | corrected member |
|---|---|---|---|---|---|---|
| src/hooks/useCart.tsx:79 | `localStorage.setItem(..., JSON.stringify(cart))` writes the cart from before the filter | cart [{id 1, amount 1}], removeProduct(1): memory becomes [], but the store keeps [{id 1, amount 1}], so the next load brings the product back | persist the filtered cart, so that the store always matches memory | high (not executed) | CartSteps.RemoveLeavesStoreStale | CartSteps.RunCorrectedKeepsStoreInSync |

`UseCart.CartProvider.RemoveProduct` keeps the as-written behaviour, because it models the
code. The corrected removal, `CartSteps.RemoveStepCorrected`, is what `Run(Corrected, …)`
uses in the store-consistency theorem.

## Left out

- React wiring (`createContext`, `useContext`, the provider JSX, `useCart`) has no cart logic.
- The HTTP client is not modelled. Its answers are inputs, and the model does not check that
  a response body is well-formed. For example, a stock record with no `amount` makes the
  JavaScript comparison `amount > undefined` false, so the add commits; that is not modelled.
- Store writes are taken to always succeed. In the source, `localStorage.setItem` can throw
  (quota or security error) after `setCart` has already run (src/hooks/useCart.tsx:66-67,
  78-79, 105-106). Memory would then hold the new cart while the store keeps the old one, and
  the `catch` would show the add-failed toast (line 70), the remove-failed toast (line 81), or
  nothing (lines 107-109). `CartSteps.AddStep`, `RemoveStep` and `UpdateStep` have no such
  outcome, so their "commits, or rejected with nothing changed" does not cover it.
- `console.log(e)` in the add error path is a diagnostic with no effect on state.
- The JSON codec is taken as the identity. So an unparseable stored value, which would throw
  at initial load, is not modelled.
- Concurrency is not modelled. Each call runs atomically, so lost updates between overlapping
  asynchronous calls are out of scope.
- Shallow-copy aliasing is not modelled. `[...cart]` followed by a field assignment would, in
  JavaScript, also change the object inside the current cart. The assignment only happens on
  the committing path, so with value semantics it has no visible effect.
- Numbers are unbounded integers rather than JavaScript floating point, so fractional amounts
  and precision loss are not modelled.
- React's batching and scheduling of `setCart` updates is not modelled: the in-memory cart is replaced at once.
