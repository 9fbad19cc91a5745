/** The three cart operations as transitions of the component's observable state: the
    in-memory cart, the persisted copy under the storage key, the number of writes to that
    key, and the notifications shown. Each call is taken as atomic; remote answers are inputs. */
module CartSteps {
  import opened CartModel

  /** `store` is the value under the single key "@RocketShoes:card" (serialisation taken as
      identity); `writes` counts `localStorage.setItem` calls; `notes` lists the toasts. */
  datatype State = State(cart: seq<Product>, store: Option<seq<Product>>, writes: nat, notes: seq<Msg>)

  /** Initial load: the stored cart when the key holds one, otherwise the empty cart. */
  function Load(stored: Option<seq<Product>>): (r: State)
    ensures r.store == stored && r.writes == 0 && r.notes == []
    ensures stored.Some? ==> r.cart == stored.value
    ensures stored.None? ==> r.cart == []
    ensures Load(r.store).cart == r.cart
  {
    State(if stored.Some? then stored.value else [], stored, 0, [])
  }

  /** `r` is `s` after committing `c`: memory and store both hold `c`, one write, no toast. */
  predicate Committed(s: State, r: State, c: seq<Product>)
  {
    r == State(c, Some(c), s.writes + 1, s.notes)
  }

  /** `r` is `s` after a rejection reported as `m`: cart, store and writes are untouched
      and exactly one notification was added. */
  predicate Rejected(s: State, r: State, m: Msg)
  {
    r == s.(notes := s.notes + [m])
  }

  /** `addProduct(productId)`. `catalog` is the answer `/products/{id}` gives and `stock`
      the answer `/stock/{id}` gives; each is consulted only on the branch that asks. */
  function AddStep(s: State, productId: int, catalog: Fetch<Product>, stock: Fetch<Stock>): (r: State)
    ensures Committed(s, r, r.cart) || Rejected(s, r, OutOfStock) || Rejected(s, r, AddFailed)
    ensures Committed(s, r, r.cart) ==> |r.cart| == |s.cart| || (|r.cart| == |s.cart| + 1 && r.cart[..|s.cart|] == s.cart)
  {
    match Find(s.cart, productId)
    case None =>
      (match catalog
       case Fail => s.(notes := s.notes + [AddFailed])
       case Ok(data) =>
         var c := s.cart + [data.(amount := 1)];
         State(c, Some(c), s.writes + 1, s.notes))
    case Some(k) =>
      (match stock
       case Fail => s.(notes := s.notes + [AddFailed])
       case Ok(st) =>
         var amount := s.cart[k].amount + 1;
         if amount > st.amount then s.(notes := s.notes + [OutOfStock])
         else
           var c := WithAmount(s.cart, k, amount);
           State(c, Some(c), s.writes + 1, s.notes))
  }

  /** `removeProduct(productId)` as written: memory gets the filtered cart, but the value
      written to the store is the cart from before the filter. */
  function RemoveStep(s: State, productId: int): (r: State)
    ensures Rejected(s, r, RemoveFailed) <==> !Has(s.cart, productId)
    ensures Has(s.cart, productId) ==> r.store == Some(s.cart) && r.writes == s.writes + 1 && r.notes == s.notes
    ensures !Has(r.cart, productId)
  {
    if ProductNotExists(FindProduct(s.cart, productId)) then s.(notes := s.notes + [RemoveFailed])
    else State(Without(s.cart, productId), Some(s.cart), s.writes + 1, s.notes)
  }

  /** `removeProduct` as evidently intended: the filtered cart is what gets persisted. */
  function RemoveStepCorrected(s: State, productId: int): (r: State)
    ensures Rejected(s, r, RemoveFailed) <==> !Has(s.cart, productId)
    ensures Has(s.cart, productId) ==> Committed(s, r, r.cart)
    ensures !Has(r.cart, productId)
  {
    if ProductNotExists(FindProduct(s.cart, productId)) then s.(notes := s.notes + [RemoveFailed])
    else
      var c := Without(s.cart, productId);
      State(c, Some(c), s.writes + 1, s.notes)
  }

  /** `updateProductAmount({productId, amount})`; `stock` is the answer of `/stock/{id}`.
      A rejected stock request falls into an empty `catch`: nothing happens at all. */
  function UpdateStep(s: State, productId: int, amount: int, stock: Fetch<Stock>): (r: State)
    ensures r == s || Committed(s, r, r.cart) || Rejected(s, r, AmountChangeFailed) || Rejected(s, r, OutOfStock)
    ensures Committed(s, r, r.cart) ==> |r.cart| == |s.cart| && 1 <= amount
  {
    if amount < 1 then s
    else
      match Find(s.cart, productId)
      case None => s.(notes := s.notes + [AmountChangeFailed])
      case Some(k) =>
        (match stock
         case Fail => s
         case Ok(st) =>
           if amount > st.amount then s.(notes := s.notes + [OutOfStock])
           else
             var c := WithAmount(s.cart, k, amount);
             State(c, Some(c), s.writes + 1, s.notes))
  }

  // ---------------------------------------------------------------- addProduct

  /** First add of an id: no stock check whatever the stock answer (even 0); exactly one
      entry, the catalog record with amount 1, is appended after the unchanged earlier ones,
      and the store receives the new cart. */
  lemma AddNewAppends(s: State, productId: int, data: Product, stock: Fetch<Stock>)
    requires !Has(s.cart, productId)
    ensures var r := AddStep(s, productId, Ok(data), stock);
      Committed(s, r, s.cart + [data.(amount := 1)]) &&
      |r.cart| == |s.cart| + 1 && r.cart[..|s.cart|] == s.cart &&
      r.cart[|s.cart|].amount == 1 && r.cart[|s.cart|].id == data.id && r.cart[|s.cart|].details == data.details
  {
    var r := AddStep(s, productId, Ok(data), stock);
    assert r.cart[..|s.cart|] == s.cart;
  }

  /** Adding one more of a present product beyond the reported stock is rejected with the
      out-of-stock notification; nothing else changes and nothing is written. */
  lemma AddOverStock(s: State, productId: int, k: nat, catalog: Fetch<Product>, st: Stock)
    requires Find(s.cart, productId) == Some(k)
    requires s.cart[k].amount + 1 > st.amount
    ensures Rejected(s, AddStep(s, productId, catalog, Ok(st)), OutOfStock)
  {
  }

  /** Adding one more of a present product within stock raises that entry's amount by
      exactly 1, to at most the stock; length, order and every other entry are unchanged,
      and the store receives the new cart. */
  lemma AddIncrements(s: State, productId: int, k: nat, catalog: Fetch<Product>, st: Stock)
    requires Find(s.cart, productId) == Some(k)
    requires s.cart[k].amount + 1 <= st.amount
    ensures var r := AddStep(s, productId, catalog, Ok(st));
      Committed(s, r, r.cart) && |r.cart| == |s.cart| &&
      r.cart[k] == s.cart[k].(amount := s.cart[k].amount + 1) && r.cart[k].amount <= st.amount &&
      forall j :: 0 <= j < |s.cart| && j != k ==> r.cart[j] == s.cart[j]
  {
  }

  /** A rejected catalog or stock request leaves cart and store alone and shows the
      generic add-failure notification. */
  lemma AddUpstreamFailure(s: State, productId: int, catalog: Fetch<Product>, stock: Fetch<Stock>)
    requires if Has(s.cart, productId) then stock.Fail? else catalog.Fail?
    ensures Rejected(s, AddStep(s, productId, catalog, stock), AddFailed)
  {
  }

  // ------------------------------------------------------------- removeProduct

  /** Removing an absent id is reported and changes neither cart nor store. */
  lemma RemoveAbsent(s: State, productId: int)
    requires !Has(s.cart, productId)
    ensures Rejected(s, RemoveStep(s, productId), RemoveFailed)
  {
  }

  /** Removing a present id (ids unique) leaves in memory every other entry in its original
      order; the store is written once, with the cart as it was before the removal. */
  lemma RemovePresent(s: State, productId: int, k: nat)
    requires UniqueIds(s.cart)
    requires k < |s.cart| && s.cart[k].id == productId
    ensures var r := RemoveStep(s, productId);
      r.cart == s.cart[..k] + s.cart[k + 1..] && r.store == Some(s.cart) &&
      r.writes == s.writes + 1 && r.notes == s.notes
  {
    WithoutSplice(s.cart, productId, k);
  }

  /** After a successful removal as written, the store no longer matches memory, and a
      reload from the store brings the removed entry back. */
  lemma RemoveLeavesStoreStale(s: State, productId: int)
    requires Has(s.cart, productId)
    ensures RemoveStep(s, productId).store != Some(RemoveStep(s, productId).cart)
    ensures Load(RemoveStep(s, productId).store).cart == s.cart
  {
  }

  // ------------------------------------------------------- updateProductAmount

  /** A requested amount below 1 is silently ignored: no change and no notification. */
  lemma UpdateNonPositive(s: State, productId: int, amount: int, stock: Fetch<Stock>)
    requires amount < 1
    ensures UpdateStep(s, productId, amount, stock) == s
  {
  }

  /** A positive request for an id not in the cart is reported and changes nothing. */
  lemma UpdateMissing(s: State, productId: int, amount: int, stock: Fetch<Stock>)
    requires amount >= 1 && !Has(s.cart, productId)
    ensures Rejected(s, UpdateStep(s, productId, amount, stock), AmountChangeFailed)
  {
  }

  /** A positive request above the reported stock is reported as out of stock and
      changes nothing; in particular the target entry keeps its amount. */
  lemma UpdateOverStock(s: State, productId: int, amount: int, st: Stock)
    requires amount >= 1 && Has(s.cart, productId) && amount > st.amount
    ensures Rejected(s, UpdateStep(s, productId, amount, Ok(st)), OutOfStock)
  {
  }

  /** A request within stock sets the found entry's amount to exactly `amount`, whatever it
      was before; every other entry, the length and the order are unchanged, and the store
      receives the new cart. */
  lemma UpdateSetsAmount(s: State, productId: int, k: nat, amount: int, st: Stock)
    requires Find(s.cart, productId) == Some(k)
    requires 1 <= amount <= st.amount
    ensures var r := UpdateStep(s, productId, amount, Ok(st));
      Committed(s, r, r.cart) && |r.cart| == |s.cart| &&
      r.cart[k] == s.cart[k].(amount := amount) &&
      forall j :: 0 <= j < |s.cart| && j != k ==> r.cart[j] == s.cart[j]
  {
  }

  /** A rejected stock request during an update changes nothing and notifies nobody. */
  lemma UpdateStockFailureSilent(s: State, productId: int, amount: int)
    requires amount >= 1 && Has(s.cart, productId)
    ensures UpdateStep(s, productId, amount, Fail) == s
  {
  }

  // ---------------------------------------------------------------- invariant

  /** `addProduct` keeps ids unique and amounts positive, provided the catalog's record
      carries the id it was asked for. */
  lemma AddPreservesWellFormed(s: State, productId: int, catalog: Fetch<Product>, stock: Fetch<Stock>)
    requires WellFormed(s.cart)
    requires catalog.Ok? ==> catalog.data.id == productId
    ensures WellFormed(AddStep(s, productId, catalog, stock).cart)
  {
    match Find(s.cart, productId)
    case None =>
      if catalog.Ok? {
        AppendPreservesWellFormed(s.cart, catalog.data.(amount := 1));
      }
    case Some(k) =>
      if stock.Ok? && s.cart[k].amount + 1 <= stock.data.amount {
        WithAmountPreservesWellFormed(s.cart, k, s.cart[k].amount + 1);
      }
  }

  /** `removeProduct` keeps ids unique and amounts positive, in memory and (as written,
      trivially) in the store. */
  lemma RemovePreservesWellFormed(s: State, productId: int)
    requires WellFormed(s.cart)
    ensures WellFormed(RemoveStep(s, productId).cart)
    ensures WellFormed(RemoveStepCorrected(s, productId).cart)
  {
    WithoutPreservesWellFormed(s.cart, productId);
  }

  /** `updateProductAmount` keeps ids unique and amounts positive. */
  lemma UpdatePreservesWellFormed(s: State, productId: int, amount: int, stock: Fetch<Stock>)
    requires WellFormed(s.cart)
    ensures WellFormed(UpdateStep(s, productId, amount, stock).cart)
  {
    if amount >= 1 && Find(s.cart, productId).Some? && stock.Ok? && amount <= stock.data.amount {
      WithAmountPreservesWellFormed(s.cart, Find(s.cart, productId).value, amount);
    }
  }

  // ------------------------------------------------------------------- traces

  /** One call into the cart, with the remote answers it would receive. */
  datatype Op =
    | Add(productId: int, catalog: Fetch<Product>, stock: Fetch<Stock>)
    | Remove(productId: int)
    | Update(productId: int, amount: int, stock: Fetch<Stock>)

  /** The removal as written, or as evidently intended. */
  datatype Variant = AsWritten | Corrected

  function Apply(v: Variant, s: State, op: Op): State
  {
    match op
    case Add(id, catalog, stock) => AddStep(s, id, catalog, stock)
    case Remove(id) => if v == AsWritten then RemoveStep(s, id) else RemoveStepCorrected(s, id)
    case Update(id, amount, stock) => UpdateStep(s, id, amount, stock)
  }

  /** The state after the calls `ops`, one after another. */
  function Run(v: Variant, s: State, ops: seq<Op>): State
    decreases |ops|
  {
    if ops == [] then s else Run(v, Apply(v, s, ops[0]), ops[1..])
  }

  /** The catalog answers with the record of the product it was asked for. */
  predicate HonestCatalog(op: Op)
  {
    op.Add? && op.catalog.Ok? ==> op.catalog.data.id == op.productId
  }

  /** Any sequence of calls keeps ids unique and amounts positive. */
  lemma {:induction false} RunPreservesWellFormed(v: Variant, s: State, ops: seq<Op>)
    requires WellFormed(s.cart)
    requires forall k :: 0 <= k < |ops| ==> HonestCatalog(ops[k])
    ensures WellFormed(Run(v, s, ops).cart)
    decreases |ops|
  {
    if ops != [] {
      match ops[0] {
        case Add(id, catalog, stock) =>
          assert HonestCatalog(ops[0]);
          AddPreservesWellFormed(s, id, catalog, stock);
        case Remove(id) => RemovePreservesWellFormed(s, id);
        case Update(id, amount, stock) => UpdatePreservesWellFormed(s, id, amount, stock);
      }
      RunPreservesWellFormed(v, Apply(v, s, ops[0]), ops[1..]);
    }
  }

  /** No call makes an absent id appear with an amount other than 1. */
  lemma NewEntriesStartAtOne(v: Variant, s: State, op: Op, x: int, i: nat)
    requires !Has(s.cart, x)
    requires i < |Apply(v, s, op).cart| && Apply(v, s, op).cart[i].id == x
    ensures Apply(v, s, op).cart[i].amount == 1
  {
    match op
    case Add(id, catalog, stock) =>
    case Remove(id) =>
      WithoutMembers(s.cart, id, Apply(v, s, op).cart[i]);
    case Update(id, amount, stock) =>
  }

  /** With the corrected removal, loading from the store gives back the in-memory cart
      after every call of any sequence that starts from such a state; the first visit,
      `Load(None)` with its empty cart, is one. */
  lemma {:induction false} RunCorrectedKeepsStoreInSync(s: State, ops: seq<Op>)
    requires Load(s.store).cart == s.cart
    ensures Load(Run(Corrected, s, ops).store).cart == Run(Corrected, s, ops).cart
    decreases |ops|
  {
    if ops != [] {
      RunCorrectedKeepsStoreInSync(Apply(Corrected, s, ops[0]), ops[1..]);
    }
  }

  /** Every run of the corrected component from its initial load ends with a store that
      reloads to the in-memory cart. */
  lemma FreshStartStaysInSync(stored: Option<seq<Product>>, ops: seq<Op>)
    ensures Load(Run(Corrected, Load(stored), ops).store).cart == Run(Corrected, Load(stored), ops).cart
  {
    RunCorrectedKeepsStoreInSync(Load(stored), ops);
  }

  /** With the corrected removal, a store that holds exactly the in-memory cart keeps
      holding it after every call of any sequence. */
  lemma {:induction false} RunCorrectedKeepsStoreEqual(s: State, ops: seq<Op>)
    requires s.store == Some(s.cart)
    ensures Run(Corrected, s, ops).store == Some(Run(Corrected, s, ops).cart)
    decreases |ops|
  {
    if ops != [] {
      RunCorrectedKeepsStoreEqual(Apply(Corrected, s, ops[0]), ops[1..]);
    }
  }

  // ---------------------------------------------------------------- scenarios

  /** Cart [{id 1, amount 2}] with stock 2: adding id 1 changes nothing and reports out of stock. */
  lemma ScenarioAddAtStockLimit(details: string, catalog: Fetch<Product>)
    ensures var s := State([Product(1, 2, details)], None, 0, []);
      AddStep(s, 1, catalog, Ok(Stock(1, 2))) == State([Product(1, 2, details)], None, 0, [OutOfStock])
  {
  }

  /** Empty cart: adding id 5 yields the catalog record with amount 1, even at stock 0. */
  lemma ScenarioAddToEmpty(details: string, stock: Fetch<Stock>)
    ensures var c := [Product(5, 1, details)];
      AddStep(State([], None, 0, []), 5, Ok(Product(5, 0, details)), stock) == State(c, Some(c), 1, [])
  {
  }

  /** Cart [{id 2, amount 3}]: setting id 2 to amount 0 changes nothing and reports nothing. */
  lemma ScenarioUpdateToZero(details: string, stock: Fetch<Stock>)
    ensures var s := State([Product(2, 3, details)], None, 0, []);
      UpdateStep(s, 2, 0, stock) == s
  {
  }
}
