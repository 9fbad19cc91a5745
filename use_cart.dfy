/** The cart component: the cart held in memory, the copy in local storage, and the toasts,
    updated step by step by `addProduct`, `removeProduct` and `updateProductAmount`. */
module UseCart {
  import opened CartModel
  import opened CartSteps

  class CartProvider {
    /** The in-memory cart (`useState`). */
    var cart: seq<Product>
    /** The value under the key "@RocketShoes:card". */
    var store: Option<seq<Product>>
    /** How many times that key has been written. */
    var writes: nat
    /** The error toasts shown so far. */
    var notes: seq<Msg>

    /** Everything the component exposes or leaves behind. */
    function Snapshot(): State
      reads this
    {
      State(cart, store, writes, notes)
    }

    /** Initial load: the stored cart when the key holds one, otherwise the empty cart. */
    constructor (stored: Option<seq<Product>>)
      ensures stored.Some? ==> cart == stored.value
      ensures stored.None? ==> cart == []
      ensures store == stored && writes == 0 && notes == []
      ensures Snapshot() == Load(stored)
    {
      if stored.Some? {
        cart := stored.value;
      } else {
        cart := [];
      }
      store := stored;
      writes := 0;
      notes := [];
    }

    /** `setCart(c)`: replaces the in-memory cart. */
    method SetCart(c: seq<Product>)
      modifies this
      ensures cart == c && store == old(store) && writes == old(writes) && notes == old(notes)
    {
      cart := c;
    }

    /** `localStorage.setItem(key, JSON.stringify(c))`: one write of `c` to the store. */
    method SetItem(c: seq<Product>)
      modifies this
      ensures store == Some(c) && writes == old(writes) + 1
      ensures cart == old(cart) && notes == old(notes)
    {
      store := Some(c);
      writes := writes + 1;
    }

    /** `toast.error(Text(m))`: shows one notification. */
    method ToastError(m: Msg)
      modifies this
      ensures notes == old(notes) + [m]
      ensures cart == old(cart) && store == old(store) && writes == old(writes)
    {
      notes := notes + [m];
    }

    /** `addProduct(productId)`; `catalog` and `stock` are the answers the two endpoints give. */
    method AddProduct(productId: int, catalog: Fetch<Product>, stock: Fetch<Stock>)
      modifies this
      ensures Snapshot() == AddStep(old(Snapshot()), productId, catalog, stock)
      ensures WellFormed(old(cart)) && (catalog.Ok? ==> catalog.data.id == productId) ==> WellFormed(cart)
    {
      ghost var before := Snapshot();
      if WellFormed(cart) && (catalog.Ok? ==> catalog.data.id == productId) {
        AddPreservesWellFormed(before, productId, catalog, stock);
      }
      var updatedCart := cart;
      if ProductNotExists(FindProduct(updatedCart, productId)) {
        match catalog {
          case Fail =>
            ToastError(AddFailed);
            return;
          case Ok(data) =>
            updatedCart := updatedCart + [data.(amount := 1)];
        }
      } else {
        // the entry `find` returned, by position
        var k := Find(updatedCart, productId).value;
        match stock {
          case Fail =>
            ToastError(AddFailed);
            return;
          case Ok(st) =>
            var amount := updatedCart[k].amount + 1;
            if amount > st.amount {
              ToastError(OutOfStock);
              return;
            }
            updatedCart := updatedCart[k := updatedCart[k].(amount := amount)];
        }
      }
      SetCart(updatedCart);
      SetItem(updatedCart);
    }

    /** `removeProduct(productId)`, as written: the store receives the cart from before
        the filter. */
    method RemoveProduct(productId: int)
      modifies this
      ensures Snapshot() == RemoveStep(old(Snapshot()), productId)
      ensures WellFormed(old(cart)) ==> WellFormed(cart)
    {
      ghost var before := Snapshot();
      if WellFormed(cart) {
        RemovePreservesWellFormed(before, productId);
      }
      if ProductNotExists(FindProduct(cart, productId)) {
        ToastError(RemoveFailed);
        return;
      }
      var previous := cart;
      SetCart(Without(cart, productId));
      SetItem(previous);
    }

    /** `updateProductAmount({productId, amount})`; `stock` is the answer of `/stock/{id}`. */
    method UpdateProductAmount(productId: int, amount: int, stock: Fetch<Stock>)
      modifies this
      ensures Snapshot() == UpdateStep(old(Snapshot()), productId, amount, stock)
      ensures WellFormed(old(cart)) ==> WellFormed(cart)
    {
      ghost var before := Snapshot();
      if WellFormed(cart) {
        UpdatePreservesWellFormed(before, productId, amount, stock);
      }
      if amount < 1 {
        return;
      }
      var updatedCart := cart;
      var found := Find(updatedCart, productId);
      if found.None? {
        ToastError(AmountChangeFailed);
        return;
      }
      match stock {
        case Fail =>
          // the empty `catch`: no toast, no change
          return;
        case Ok(st) =>
          if amount > st.amount {
            ToastError(OutOfStock);
            return;
          }
          var k := found.value;
          updatedCart := updatedCart[k := updatedCart[k].(amount := amount)];
          SetCart(updatedCart);
          SetItem(updatedCart);
      }
    }
  }
}
