/** Values the cart works on, and the pure queries the cart operations use:
    `find` by id, `filter` by id, and setting one entry's amount. */
module CartModel {

  datatype Option<T> = None | Some(value: T)

  /** Outcome of one remote `api.get` request: the response body, or a rejected request
      (network error, unknown id, malformed body). */
  datatype Fetch<T> = Ok(data: T) | Fail

  /** A catalog product as held in the cart. `details` stands for the display attributes
      (title, price, image) that the cart logic copies but never inspects. */
  datatype Product = Product(id: int, amount: int, details: string)

  /** A stock record from the `/stock/{id}` endpoint; only `amount` is consulted. */
  datatype Stock = Stock(id: int, amount: int)

  /** The user-facing notifications the cart raises. */
  datatype Msg = OutOfStock | AddFailed | RemoveFailed | AmountChangeFailed

  /** The text shown for each notification. */
  function Text(m: Msg): string
  {
    match m
    case OutOfStock => "Quantidade solicitada fora de estoque"
    case AddFailed => "Erro na adição do produto"
    case RemoveFailed => "Erro na remoção do produto"
    case AmountChangeFailed => "Erro na alteração de quantidade do produto"
  }

  /** Each error condition has its own text; the two out-of-stock rejections share one. */
  lemma TextsDistinct(m1: Msg, m2: Msg)
    ensures Text(m1) == Text(m2) <==> m1 == m2
  {
    if m1 != m2 {
      assert Text(m1)[..9] != Text(m2)[..9] || Text(m1)[9..] != Text(m2)[9..];
    }
  }

  /** Some entry of the cart carries `id`. */
  predicate Has(cart: seq<Product>, id: int)
  {
    exists i :: 0 <= i < |cart| && cart[i].id == id
  }

  /** No two entries share an id. */
  predicate UniqueIds(cart: seq<Product>)
  {
    forall i, j :: 0 <= i < j < |cart| ==> cart[i].id != cart[j].id
  }

  /** Every entry has a positive amount. */
  predicate AmountsPositive(cart: seq<Product>)
  {
    forall i :: 0 <= i < |cart| ==> cart[i].amount >= 1
  }

  /** The cart invariant the operations are meant to keep. */
  predicate WellFormed(cart: seq<Product>)
  {
    UniqueIds(cart) && AmountsPositive(cart)
  }

  /** `cart.find(item => item.id === id)`, as the index of the entry it returns:
      the first entry carrying `id`, or nothing when no entry does. */
  function Find(cart: seq<Product>, id: int): (r: Option<nat>)
    ensures r.Some? ==> r.value < |cart| && cart[r.value].id == id
    ensures r.Some? ==> forall j :: 0 <= j < r.value ==> cart[j].id != id
    ensures r.None? <==> !Has(cart, id)
  {
    if cart == [] then None
    else if cart[0].id == id then Some(0)
    else
      match Find(cart[1..], id)
      case None => None
      case Some(k) => Some(k + 1)
  }

  /** The entry `find` returns, or nothing. */
  function FindProduct(cart: seq<Product>, id: int): (r: Option<Product>)
    ensures r.Some? ==> r.value in cart && r.value.id == id
    ensures r.None? <==> !Has(cart, id)
    ensures r.Some? ==> exists k :: 0 <= k < |cart| && cart[k] == r.value && forall j :: 0 <= j < k ==> cart[j].id != id
  {
    match Find(cart, id)
    case None => None
    case Some(i) => Some(cart[i])
  }

  /** `productNotExists`: `!Boolean(product)`. A found product is an object and so truthy;
      only a missing one (`undefined`) makes this true. */
  function ProductNotExists(product: Option<Product>): bool
  {
    product.None?
  }

  /** `productNotExists(cart.find(...))` holds exactly when no entry carries the id. */
  lemma ProductNotExistsIffAbsent(cart: seq<Product>, id: int)
    ensures ProductNotExists(FindProduct(cart, id)) <==> forall j :: 0 <= j < |cart| ==> cart[j].id != id
  {
  }

  /** `cart.filter(({ id }) => id !== productId)`. */
  function Without(cart: seq<Product>, id: int): (r: seq<Product>)
    ensures !Has(r, id)
    ensures Has(cart, id) ==> |r| < |cart|
    ensures !Has(cart, id) ==> r == cart
  {
    if cart == [] then []
    else if cart[0].id == id then Without(cart[1..], id)
    else [cart[0]] + Without(cart[1..], id)
  }

  /** The filter keeps exactly the entries whose id differs. */
  lemma {:induction false} WithoutMembers(cart: seq<Product>, id: int, p: Product)
    ensures p in Without(cart, id) <==> p in cart && p.id != id
  {
    if cart != [] {
      WithoutMembers(cart[1..], id, p);
      assert cart == [cart[0]] + cart[1..];
    }
  }

  /** The filter works entry by entry: filtering a concatenation concatenates the filtered
      parts, so kept entries stay in their order and multiplicity even with repeated ids. */
  lemma {:induction false} WithoutConcat(a: seq<Product>, b: seq<Product>, id: int)
    ensures Without(a + b, id) == Without(a, id) + Without(b, id)
  {
    if a == [] {
      assert a + b == b;
    } else {
      var ab := a + b;
      assert ab[0] == a[0] && ab[1..] == a[1..] + b;
      WithoutConcat(a[1..], b, id);
      if a[0].id == id {
        assert Without(ab, id) == Without(a[1..] + b, id);
        assert Without(a, id) == Without(a[1..], id);
      } else {
        assert Without(ab, id) == [a[0]] + Without(a[1..] + b, id);
        assert Without(a, id) == [a[0]] + Without(a[1..], id);
      }
    }
  }

  /** On a cart with unique ids, dropping the one entry with `id` keeps every other entry
      in its original order: the result is the cart with that single position cut out. */
  lemma WithoutSplice(cart: seq<Product>, id: int, k: nat)
    requires UniqueIds(cart)
    requires k < |cart| && cart[k].id == id
    ensures Without(cart, id) == cart[..k] + cart[k + 1..]
  {
    var before, after := cart[..k], cart[k + 1..];
    assert !Has(before, id) by {
      forall j | 0 <= j < |before| ensures before[j].id != id {
        assert before[j] == cart[j];
      }
    }
    assert !Has(after, id) by {
      forall j | 0 <= j < |after| ensures after[j].id != id {
        assert after[j] == cart[k + 1 + j];
      }
    }
    assert cart == before + ([cart[k]] + after);
    WithoutConcat(before, [cart[k]] + after, id);
    WithoutConcat([cart[k]], after, id);
    assert Without([cart[k]], id) == [];
  }

  /** The cart with entry `i` holding amount `n` (`product.amount = n` on the found entry). */
  function WithAmount(cart: seq<Product>, i: nat, n: int): (r: seq<Product>)
    requires i < |cart|
    ensures |r| == |cart|
    ensures r[i].id == cart[i].id && r[i].details == cart[i].details && r[i].amount == n
    ensures forall j :: 0 <= j < |cart| && j != i ==> r[j] == cart[j]
  {
    cart[i := cart[i].(amount := n)]
  }

  /** Appending a fresh id with amount at least 1 keeps the invariant. */
  lemma AppendPreservesWellFormed(cart: seq<Product>, p: Product)
    requires WellFormed(cart)
    requires !Has(cart, p.id) && p.amount >= 1
    ensures WellFormed(cart + [p])
  {
    var c := cart + [p];
    forall i, j | 0 <= i < j < |c| ensures c[i].id != c[j].id {
      if j == |cart| {
        assert c[i] == cart[i];
      } else {
        assert c[i] == cart[i] && c[j] == cart[j];
      }
    }
  }

  /** Changing one entry's amount to a positive value keeps the invariant. */
  lemma WithAmountPreservesWellFormed(cart: seq<Product>, i: nat, n: int)
    requires WellFormed(cart)
    requires i < |cart| && n >= 1
    ensures WellFormed(WithAmount(cart, i, n))
  {
  }

  /** Cutting one position out of a cart keeps the invariant. */
  lemma CutPreservesWellFormed(cart: seq<Product>, k: nat)
    requires WellFormed(cart) && k < |cart|
    ensures WellFormed(cart[..k] + cart[k + 1..])
  {
    var r := cart[..k] + cart[k + 1..];
    assert forall i :: 0 <= i < |r| ==> r[i] == cart[if i < k then i else i + 1];
  }

  /** Filtering out an id keeps the invariant. */
  lemma WithoutPreservesWellFormed(cart: seq<Product>, id: int)
    requires WellFormed(cart)
    ensures WellFormed(Without(cart, id))
  {
    match Find(cart, id)
    case None =>
    case Some(k) =>
      WithoutSplice(cart, id, k);
      CutPreservesWellFormed(cart, k);
  }
}
