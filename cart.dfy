/**
 * The shopping-cart component: the signed-in user's cart lines, kept in
 * component state and mirrored to `localStorage` under `<uid>_cart` after
 * every change. A change is computed from the lines in state and then
 * written over the whole stored blob.
 */
module Cart {
  import opened Prelude
  import opened Catalog
  import opened LocalStorage

  /** The key holding a user's cart. */
  function CartKey(uid: string): string
  {
    uid + "_cart"
  }

  /** `item.price * (item.quantity || 1)`: a quantity of 0 counts as 1. */
  function LineTotal(line: Product): (r: int)
    ensures line.quantity != 0 ==> r == line.price * line.quantity
    ensures line.quantity == 0 ==> r == line.price
  {
    line.price * (if line.quantity == 0 then 1 else line.quantity)
  }

  /** `calculateTotal`: the sum of the line totals, 0 for an empty cart. */
  function Total(cart: seq<Product>): (r: int)
    ensures cart == [] ==> r == 0
    ensures |cart| == 1 ==> r == LineTotal(cart[0])
  {
    SumOfOne(cart, LineTotal);
    SumOf(cart, LineTotal)
  }

  /** The lines `removeItem(id)` keeps. */
  function WithoutItem(cart: seq<Product>, id: string): (r: seq<Product>)
    ensures forall i :: 0 <= i < |r| ==> r[i].id != id && r[i] in cart
    ensures forall i :: 0 <= i < |cart| && cart[i].id != id ==> cart[i] in r
  {
    Filter(cart, (line: Product) => line.id != id)
  }

  /** The lines `removeItem(id)` drops. */
  function OnlyItem(cart: seq<Product>, id: string): (r: seq<Product>)
    ensures forall i :: 0 <= i < |r| ==> r[i].id == id && r[i] in cart
  {
    Filter(cart, (line: Product) => line.id == id)
  }

  /** The lines `updateQuantity(id, q)` computes: every line for `id` now has quantity `q`. */
  function WithQuantity(cart: seq<Product>, id: string, q: int): (r: seq<Product>)
    ensures |r| == |cart|
    ensures forall i :: 0 <= i < |cart| && cart[i].id == id ==> r[i] == cart[i].(quantity := q)
    ensures forall i :: 0 <= i < |cart| && cart[i].id != id ==> r[i] == cart[i]
  {
    if cart == [] then []
    else [if cart[0].id == id then cart[0].(quantity := q) else cart[0]] + WithQuantity(cart[1..], id, q)
  }

  /** What the component writes after a change: the new cart under `<uid>_cart`, or nothing without a user. */
  function Saved(user: Option<string>, storage: Store<Product>, cart: seq<Product>): (r: Store<Product>)
    ensures user.None? ==> r == storage
    ensures user.Some? ==> GetItem(r, CartKey(user.value)) == Some(cart)
    ensures user.Some? ==> forall k :: k != CartKey(user.value) ==> GetItem(r, k) == GetItem(storage, k)
  {
    match user
    case None => storage
    case Some(uid) => SetItem(storage, CartKey(uid), cart)
  }

  /** Removing an id that no line has leaves the cart as it is. */
  lemma RemoveAbsent(cart: seq<Product>, id: string)
    requires forall i :: 0 <= i < |cart| ==> cart[i].id != id
    ensures WithoutItem(cart, id) == cart
  {
    FilterKeepsAll(cart, (line: Product) => line.id != id);
  }

  /** Removing is idempotent: a second `removeItem(id)` changes nothing. */
  lemma RemoveIdempotent(cart: seq<Product>, id: string)
    ensures WithoutItem(WithoutItem(cart, id), id) == WithoutItem(cart, id)
  {
    RemoveAbsent(WithoutItem(cart, id), id);
  }

  /** Removing works line by line: removing from two halves and joining them is removing from the whole. */
  lemma RemoveConcat(a: seq<Product>, b: seq<Product>, id: string)
    ensures WithoutItem(a + b, id) == WithoutItem(a, id) + WithoutItem(b, id)
  {
    FilterConcat(a, b, (line: Product) => line.id != id);
  }

  /** The total of a cart laid end to end from two parts is the sum of the parts' totals. */
  lemma TotalConcat(a: seq<Product>, b: seq<Product>)
    ensures Total(a + b) == Total(a) + Total(b)
  {
    SumOfConcat(a, b, LineTotal);
  }

  /** After `removeItem(id)` the total drops by exactly the removed lines' totals. */
  lemma RemoveTotal(cart: seq<Product>, id: string)
    ensures Total(WithoutItem(cart, id)) == Total(cart) - Total(OnlyItem(cart, id))
  {
    SumOfPartition(cart, LineTotal, (line: Product) => line.id == id, (line: Product) => line.id != id);
  }

  /** The total of the lines for one id when they all have quantity `q`. */
  function ItemTotalAt(cart: seq<Product>, id: string, q: int): int
  {
    SumOf(OnlyItem(cart, id), (line: Product) => line.price * q)
  }

  /**
   * After `updateQuantity(id, q)` with `q >= 1` the total is the other
   * lines' total plus `q` times the price of each line for `id`.
   */
  lemma {:induction false} UpdateTotal(cart: seq<Product>, id: string, q: int)
    requires q >= 1
    ensures Total(WithQuantity(cart, id, q)) == Total(WithoutItem(cart, id)) + ItemTotalAt(cart, id, q)
  {
    if cart != [] {
      var line := cart[0];
      var rest := cart[1..];
      UpdateTotal(rest, id, q);
      assert WithQuantity(cart, id, q)[1..] == WithQuantity(rest, id, q);
      if line.id == id {
        assert WithoutItem(cart, id) == WithoutItem(rest, id);
        assert OnlyItem(cart, id) == [line] + OnlyItem(rest, id);
      } else {
        assert WithoutItem(cart, id) == [line] + WithoutItem(rest, id);
        assert OnlyItem(cart, id) == OnlyItem(rest, id);
      }
    }
  }

  /** Setting a quantity twice keeps only the second. */
  lemma {:induction false} UpdateTwice(cart: seq<Product>, id: string, q1: int, q2: int)
    ensures WithQuantity(WithQuantity(cart, id, q1), id, q2) == WithQuantity(cart, id, q2)
  {
  }

  /** Non-negative prices and quantities give a non-negative total. */
  lemma TotalNonNegative(cart: seq<Product>)
    requires forall i :: 0 <= i < |cart| ==> cart[i].price >= 0 && cart[i].quantity >= 0
    ensures Total(cart) >= 0
  {
    SumOfNonNegative(cart, LineTotal);
  }

  /**
   * The component's state: the lines on screen, the signed-in user's uid
   * (from the authentication listener) and the browser store.
   */
  class ShoppingCart {
    var cartItems: seq<Product>
    var user: Option<string>
    var storage: Store<Product>

    /** Mounting: the cart starts empty. */
    constructor (user: Option<string>, storage: Store<Product>)
      ensures this.user == user && this.storage == storage && cartItems == []
    {
      this.user := user;
      this.storage := storage;
      cartItems := [];
    }

    /** The effect that runs when the user is known: load `<uid>_cart` if it exists. */
    method RestoreSavedCart()
      modifies this
      ensures user == old(user) && storage == old(storage)
      ensures user.None? ==> cartItems == old(cartItems)
      ensures user.Some? && GetItem(storage, CartKey(user.value)).None? ==> cartItems == old(cartItems)
      ensures user.Some? && GetItem(storage, CartKey(user.value)).Some? ==>
                cartItems == GetItem(storage, CartKey(user.value)).value
    {
      if user.Some? {
        var savedCart := GetItem(storage, CartKey(user.value));
        if savedCart.Some? {
          cartItems := savedCart.value;
        }
      }
    }

    /** `updateQuantity(id, newQuantity)`: quantities below 1 are ignored. */
    method UpdateQuantity(id: string, newQuantity: int)
      modifies this
      ensures user == old(user)
      ensures newQuantity < 1 ==> cartItems == old(cartItems) && storage == old(storage)
      ensures newQuantity >= 1 ==> cartItems == WithQuantity(old(cartItems), id, newQuantity)
      ensures newQuantity >= 1 ==> storage == Saved(user, old(storage), cartItems)
    {
      if newQuantity < 1 {
        return;
      }
      var updatedCart := WithQuantity(cartItems, id, newQuantity);
      cartItems := updatedCart;
      if user.Some? {
        storage := SetItem(storage, CartKey(user.value), updatedCart);
      }
    }

    /** `removeItem(id)`. */
    method RemoveItem(id: string)
      modifies this
      ensures user == old(user)
      ensures cartItems == WithoutItem(old(cartItems), id)
      ensures storage == Saved(user, old(storage), cartItems)
    {
      var updatedCart := WithoutItem(cartItems, id);
      cartItems := updatedCart;
      if user.Some? {
        storage := SetItem(storage, CartKey(user.value), updatedCart);
      }
    }
  }
}
