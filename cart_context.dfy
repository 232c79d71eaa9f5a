/**
 * The shared cart store of `CartProvider`: an insertion-ordered list of cart
 * lines, three mutations (`addToCart`, `updateCartQuantity`, `clearCart`) and
 * two derived aggregates (`cartCount`, `cartTotal`).
 *
 * Every mutation replaces the whole list by a value computed from the current
 * one; the functions below compute that value and the lemmas say what it is.
 * Quantities are plain integers: `addToCart` does not look at the quantity it
 * is given.
 */
module CartContext {
  import opened Wrappers
  import opened Sequences
  import opened RestaurantMenu

  /** `MenuItem & { quantity: number }`: a menu item with the number ordered. */
  datatype CartItem = CartItem(item: MenuItem, quantity: int)
  {
    function Id(): string { item.id }
    function Price(): int { item.price }
  }

  type Cart = seq<CartItem>

  predicate HasId(cart: Cart, id: string) {
    exists i :: 0 <= i < |cart| && cart[i].Id() == id
  }

  /** At most one line per menu-item id. */
  predicate DistinctIds(cart: Cart) {
    forall i, j :: 0 <= i < |cart| && 0 <= j < |cart| && i != j ==> cart[i].Id() != cart[j].Id()
  }

  /** Line `i` is the cart's one line for `id`. */
  predicate OnlyLineOf(cart: Cart, id: string, i: nat) {
    i < |cart| && cart[i].Id() == id && forall j :: 0 <= j < |cart| && j != i ==> cart[j].Id() != id
  }

  predicate PositiveQuantities(cart: Cart) {
    forall i :: 0 <= i < |cart| ==> cart[i].quantity >= 1
  }

  /** `cart.find(line => line.id === id)`: a line with that id, if there is one. */
  function Find(cart: Cart, id: string): (r: Option<CartItem>)
    ensures r.Some? <==> HasId(cart, id)
    ensures r.Some? ==> r.value in cart && r.value.Id() == id
  {
    if cart == [] then None
    else if cart[0].Id() == id then Some(cart[0])
    else
      assert HasId(cart, id) ==> HasId(cart[1..], id) by {
        if HasId(cart, id) {
          var i :| 0 <= i < |cart| && cart[i].Id() == id;
          assert cart[1..][i - 1].Id() == id;
        }
      }
      Find(cart[1..], id)
  }

  /** Of the lines with that id, `find` returns the first. */
  lemma {:induction false} FindFirst(cart: Cart, id: string, i: nat)
    requires i < |cart| && cart[i].Id() == id && forall j :: 0 <= j < i ==> cart[j].Id() != id
    ensures Find(cart, id) == Some(cart[i])
  {
    if i > 0 {
      assert cart[1..][i - 1] == cart[i];
      FindFirst(cart[1..], id, i - 1);
    }
  }

  /** The line's price when the item is already in the cart, else the item's own price. */
  function PriceInCart(cart: Cart, item: MenuItem): int {
    match Find(cart, item.id)
    case Some(line) => line.Price()
    case None => item.price
  }

  /** The `map` of `addToCart`: every line with that id gets `k` more. */
  function Incremented(cart: Cart, id: string, k: int): Cart {
    Map(cart, (line: CartItem) => if line.Id() == id then line.(quantity := line.quantity + k) else line)
  }

  /**
   * The cart after `addToCart(item, quantity)`: every line keeps its id and
   * its place, the item's id is then present, and a line is appended exactly
   * when the id was absent.
   */
  function Added(cart: Cart, item: MenuItem, quantity: int): (r: Cart)
    ensures |r| == if HasId(cart, item.id) then |cart| else |cart| + 1
    ensures forall i :: 0 <= i < |cart| ==> r[i].Id() == cart[i].Id()
    ensures HasId(r, item.id)
  {
    if Find(cart, item.id).Some? then
      var r := Incremented(cart, item.id, quantity);
      var line := Find(cart, item.id).value;
      var j :| 0 <= j < |cart| && cart[j] == line;
      assert r[j].Id() == item.id;
      r
    else
      var r := cart + [CartItem(item, quantity)];
      assert r[|cart|].Id() == item.id;
      r
  }

  /**
   * `addToCart` on an item already in the cart: same length and order, each
   * line of that item gains `k`, every other line is unchanged.
   */
  lemma AddedExisting(cart: Cart, item: MenuItem, k: int)
    requires HasId(cart, item.id)
    ensures |Added(cart, item, k)| == |cart|
    ensures forall i :: 0 <= i < |cart| ==>
              Added(cart, item, k)[i] ==
                if cart[i].Id() == item.id then cart[i].(quantity := cart[i].quantity + k) else cart[i]
  {
  }

  /** `addToCart` on an item not in the cart: one new line `{...item, quantity: k}` at the end. */
  lemma AddedNew(cart: Cart, item: MenuItem, k: int)
    requires !HasId(cart, item.id)
    ensures Added(cart, item, k) == cart + [CartItem(item, k)]
  {
  }

  /** The `filter` test of `updateCartQuantity`: the line is for another item. */
  function OtherThan(id: string): CartItem -> bool {
    (line: CartItem) => line.Id() != id
  }

  /** The `filter` of `updateCartQuantity`: drops every line with that id. */
  function Removed(cart: Cart, id: string): Cart {
    Filter(cart, OtherThan(id))
  }

  /** The `map` of `updateCartQuantity`: every line with that id gets quantity `q`. */
  function WithQuantity(cart: Cart, id: string, q: int): Cart {
    Map(cart, (line: CartItem) => if line.Id() == id then line.(quantity := q) else line)
  }

  /** The cart after `updateCartQuantity(id, q)`. */
  function Updated(cart: Cart, id: string, q: int): (r: Cart)
    ensures q <= 0 ==> (forall k :: 0 <= k < |r| ==> r[k] in cart && r[k].Id() != id) && !HasId(r, id)
    ensures q > 0 ==>
              |r| == |cart| &&
              forall i :: 0 <= i < |cart| ==>
                r[i] == if cart[i].Id() == id then cart[i].(quantity := q) else cart[i]
    ensures !HasId(cart, id) ==> r == cart
  {
    if q <= 0 then
      (if !HasId(cart, id) then FilterAllPass(cart, OtherThan(id)); Removed(cart, id) else Removed(cart, id))
    else WithQuantity(cart, id, q)
  }

  function LineQuantity(line: CartItem): int { line.quantity }

  function LineTotal(line: CartItem): int { line.Price() * line.quantity }

  /** `cartCount`: the reduce adding up the lines' quantities. */
  function Count(cart: Cart): (n: int)
    ensures (forall i :: 0 <= i < |cart| ==> cart[i].quantity >= 0) ==> n >= 0
  {
    SumNonNegative(cart, LineQuantity);
    Sum(cart, LineQuantity)
  }

  /** `cartTotal`: the reduce adding up price times quantity over the lines. */
  function Total(cart: Cart): (t: int)
    ensures (forall i :: 0 <= i < |cart| ==> cart[i].Price() >= 0 && cart[i].quantity >= 0) ==> t >= 0
  {
    SumNonNegative(cart, LineTotal);
    Sum(cart, LineTotal)
  }

  /** A repeated `addToCart(item, k)` for each `k` of `ks`, in order. */
  function AddedEach(cart: Cart, item: MenuItem, ks: seq<int>): Cart
    decreases ks
  {
    if ks == [] then cart else AddedEach(Added(cart, item, ks[0]), item, ks[1..])
  }

  /** With distinct ids, `find` returns the one line with that id. */
  lemma FindAt(cart: Cart, id: string, i: nat)
    requires DistinctIds(cart) && i < |cart| && cart[i].Id() == id
    ensures Find(cart, id) == Some(cart[i])
  {
    FindFirst(cart, id, i);
  }

  /** The cart with `k` more of line `i` and every other line as it was. */
  function Bumped(cart: Cart, i: nat, k: int): Cart
    requires i < |cart|
  {
    cart[i := cart[i].(quantity := cart[i].quantity + k)]
  }

  /** Bumping a line keeps it the only line of its id. */
  lemma BumpedKeepsOnlyLine(cart: Cart, id: string, i: nat, k: int)
    requires OnlyLineOf(cart, id, i)
    ensures OnlyLineOf(Bumped(cart, i, k), id, i)
  {
    var r := Bumped(cart, i, k);
    assert forall j :: 0 <= j < |r| && j != i ==> r[j] == cart[j];
  }

  /** Two bumps of one line are one bump by their sum; a bump by 0 changes nothing. */
  lemma BumpedTwice(cart: Cart, i: nat, a: int, b: int)
    requires i < |cart|
    ensures Bumped(Bumped(cart, i, a), i, b) == Bumped(cart, i, a + b)
    ensures Bumped(cart, i, 0) == cart
  {
    assert cart[i].(quantity := cart[i].quantity) == cart[i];
  }

  /** With distinct ids, adding to an item already in the cart touches only its line. */
  lemma AddedAt(cart: Cart, item: MenuItem, k: int, i: nat)
    requires OnlyLineOf(cart, item.id, i)
    ensures Added(cart, item, k) == Bumped(cart, i, k)
  {
    assert HasId(cart, item.id);
  }

  lemma WithQuantityAt(cart: Cart, id: string, q: int, i: nat)
    requires DistinctIds(cart) && i < |cart| && cart[i].Id() == id
    ensures WithQuantity(cart, id, q) == cart[i := cart[i].(quantity := q)]
  {
  }

  /** With distinct ids, removing an id cuts out exactly its line and keeps the rest in order. */
  lemma RemovedAt(cart: Cart, id: string, i: nat)
    requires DistinctIds(cart) && i < |cart| && cart[i].Id() == id
    ensures Removed(cart, id) == cart[..i] + cart[i + 1..]
  {
    FilterDropsOne(cart, OtherThan(id), i);
  }

  /**
   * The `filter` keeps the other lines in their order, on any cart: a line
   * of another item stays after everything kept from before it and before
   * everything kept from after it.
   */
  lemma RemovedAround(cart: Cart, id: string, i: nat)
    requires i < |cart| && cart[i].Id() != id
    ensures Removed(cart, id) == Removed(cart[..i], id) + [cart[i]] + Removed(cart[i + 1..], id)
  {
    var p := OtherThan(id);
    assert cart == cart[..i] + ([cart[i]] + cart[i + 1..]);
    FilterConcat(cart[..i], [cart[i]] + cart[i + 1..], p);
    FilterConcat([cart[i]], cart[i + 1..], p);
    assert Filter([cart[i]], p) == [cart[i]];
  }

  /** `updateCartQuantity` with `q <= 0` keeps every line of another item. */
  lemma RemovedKeepsOthers(cart: Cart, id: string, line: CartItem)
    requires line in cart && line.Id() != id
    ensures line in Removed(cart, id)
  {
    FilterKeeps(cart, OtherThan(id), line);
  }

  /** `addToCart` never creates a second line for an id. */
  lemma AddedKeepsDistinct(cart: Cart, item: MenuItem, quantity: int)
    requires DistinctIds(cart)
    ensures DistinctIds(Added(cart, item, quantity))
  {
    var r := Added(cart, item, quantity);
    if !HasId(cart, item.id) {
      forall i, j | 0 <= i < |r| && 0 <= j < |r| && i != j ensures r[i].Id() != r[j].Id() {
        if i < |cart| && j < |cart| {
          assert r[i] == cart[i] && r[j] == cart[j];
        } else if i < |cart| {
          assert r[i] == cart[i];
        } else {
          assert r[j] == cart[j];
        }
      }
    }
  }

  /** `updateCartQuantity` never creates a second line for an id either. */
  lemma UpdatedKeepsDistinct(cart: Cart, id: string, q: int)
    requires DistinctIds(cart)
    ensures DistinctIds(Updated(cart, id, q))
  {
    if HasId(cart, id) && q <= 0 {
      var i :| 0 <= i < |cart| && cart[i].Id() == id;
      assert Updated(cart, id, q) == cart[..i] + cart[i + 1..] by {
        RemovedAt(cart, id, i);
      }
      CutKeepsDistinct(cart, i);
    }
  }

  /** Cutting one line out of a cart with distinct ids leaves distinct ids. */
  lemma CutKeepsDistinct(cart: Cart, i: nat)
    requires DistinctIds(cart) && i < |cart|
    ensures DistinctIds(cart[..i] + cart[i + 1..])
  {
    var r := cart[..i] + cart[i + 1..];
    assert forall a :: 0 <= a < |r| ==> r[a] == cart[if a < i then a else a + 1];
  }

  lemma LineTotalIncremented(line: CartItem, k: int)
    ensures LineTotal(line.(quantity := line.quantity + k)) == LineTotal(line) + line.Price() * k
  {
    var p, q := line.Price(), line.quantity;
    assert p * (q + k) == p * q + p * k;
  }

  /**
   * After `addToCart(item, k)` on a cart with distinct ids, `cartCount` is
   * exactly `k` more and `cartTotal` is `k` times the matching line's price
   * more (the item's own price when it was not yet in the cart).
   */
  lemma AddedTotals(cart: Cart, item: MenuItem, k: int)
    requires DistinctIds(cart)
    ensures Count(Added(cart, item, k)) == Count(cart) + k
    ensures Total(Added(cart, item, k)) == Total(cart) + PriceInCart(cart, item) * k
  {
    if HasId(cart, item.id) {
      var i :| 0 <= i < |cart| && cart[i].Id() == item.id;
      FindAt(cart, item.id, i);
      AddedTotalsAt(cart, item, k, i);
    } else {
      assert PriceInCart(cart, item) == item.price;
      AddedTotalsNew(cart, item, k);
    }
  }

  lemma AddedTotalsNew(cart: Cart, item: MenuItem, k: int)
    requires !HasId(cart, item.id)
    ensures Count(Added(cart, item, k)) == Count(cart) + k
    ensures Total(Added(cart, item, k)) == Total(cart) + item.price * k
  {
    var x := CartItem(item, k);
    AddedNew(cart, item, k);
    SumConcat(cart, [x], LineQuantity);
    SumConcat(cart, [x], LineTotal);
    SumSingleton(x, LineQuantity);
    SumSingleton(x, LineTotal);
  }

  lemma AddedTotalsAt(cart: Cart, item: MenuItem, k: int, i: nat)
    requires DistinctIds(cart) && i < |cart| && cart[i].Id() == item.id
    ensures Count(Added(cart, item, k)) == Count(cart) + k
    ensures Total(Added(cart, item, k)) == Total(cart) + cart[i].Price() * k
  {
    AddedAt(cart, item, k, i);
    IncrementTotals(cart, i, k);
  }

  /** Adding `k` to one line's quantity adds `k` to the count and `k` times its price to the total. */
  lemma IncrementTotals(cart: Cart, i: nat, k: int)
    requires i < |cart|
    ensures Count(Bumped(cart, i, k)) == Count(cart) + k
    ensures Total(Bumped(cart, i, k)) == Total(cart) + cart[i].Price() * k
  {
    var x := cart[i].(quantity := cart[i].quantity + k);
    SumUpdate(cart, LineQuantity, i, x);
    SumUpdate(cart, LineTotal, i, x);
    LineTotalIncremented(cart[i], k);
  }

  /**
   * `updateCartQuantity(id, q)` on a line of a cart with distinct ids:
   * `cartCount` and `cartTotal` lose that line's old contribution and gain
   * `q` times one (or nothing, when `q <= 0` removes the line).
   */
  lemma UpdatedTotals(cart: Cart, id: string, q: int, i: nat)
    requires DistinctIds(cart) && i < |cart| && cart[i].Id() == id
    ensures Count(Updated(cart, id, q)) == Count(cart) - cart[i].quantity + (if q <= 0 then 0 else q)
    ensures Total(Updated(cart, id, q)) ==
              Total(cart) - cart[i].Price() * cart[i].quantity + (if q <= 0 then 0 else cart[i].Price() * q)
  {
    if q <= 0 {
      RemovedAt(cart, id, i);
      SumRemove(cart, LineQuantity, i);
      SumRemove(cart, LineTotal, i);
    } else {
      WithQuantityAt(cart, id, q, i);
      var x := cart[i].(quantity := q);
      SumUpdate(cart, LineQuantity, i, x);
      SumUpdate(cart, LineTotal, i, x);
    }
  }

  /** The empty cart, which `clearCart` installs, has count and total 0. */
  lemma EmptyTotals()
    ensures Count([]) == 0 && Total([]) == 0
  {
  }

  /**
   * Repeated adds of an item whose one line is line `i`: that line, in its
   * place, gains the sum of the added quantities; nothing else changes.
   */
  lemma {:induction false} AddedEachIncrements(cart: Cart, item: MenuItem, ks: seq<int>, i: nat)
    requires OnlyLineOf(cart, item.id, i)
    ensures AddedEach(cart, item, ks) == Bumped(cart, i, SumInts(ks))
    decreases ks
  {
    if ks == [] {
      BumpedTwice(cart, i, 0, 0);
    } else {
      var k, rest := ks[0], ks[1..];
      var after := Bumped(cart, i, k);
      assert AddedEach(cart, item, ks) == AddedEach(after, item, rest) by {
        AddedAt(cart, item, k, i);
      }
      BumpedKeepsOnlyLine(cart, item.id, i, k);
      AddedEachIncrements(after, item, rest, i);
      var total := SumInts(rest);
      assert SumInts(ks) == k + total by {
        SumFirst(ks);
      }
      BumpedTwice(cart, i, k, total);
    }
  }

  /**
   * Repeated adds of an item that is not in the cart: the first appends its
   * line at the end and the later ones accumulate there, so the line holds
   * the sum of the added quantities and the rest of the cart is unchanged.
   */
  lemma AddedEachAppends(cart: Cart, item: MenuItem, ks: seq<int>)
    requires !HasId(cart, item.id) && |ks| > 0
    ensures AddedEach(cart, item, ks) == cart + [CartItem(item, SumInts(ks))]
  {
    var k, rest := ks[0], ks[1..];
    var x := CartItem(item, k);
    assert AddedEach(cart, item, ks) == AddedEach(cart + [x], item, rest) by {
      AddedNew(cart, item, k);
    }
    AppendedOnlyLine(cart, x);
    AddedEachIncrements(cart + [x], item, rest, |cart|);
    var total := SumInts(rest);
    assert SumInts(ks) == k + total by {
      SumFirst(ks);
    }
    BumpedLast(cart, x, total);
    assert x.(quantity := x.quantity + total) == CartItem(item, SumInts(ks));
  }

  /** A line appended for an absent id is the only line of that id. */
  lemma AppendedOnlyLine(cart: Cart, x: CartItem)
    requires !HasId(cart, x.Id())
    ensures OnlyLineOf(cart + [x], x.Id(), |cart|)
  {
    var r := cart + [x];
    assert forall j :: 0 <= j < |cart| ==> r[j] == cart[j];
  }

  /** Bumping the last line of `cart + [x]` bumps `x`. */
  lemma BumpedLast(cart: Cart, x: CartItem, k: int)
    ensures Bumped(cart + [x], |cart|, k) == cart + [x.(quantity := x.quantity + k)]
  {
  }

  /**
   * `addToCart` with a positive quantity keeps every quantity positive: it
   * either raises one line by that quantity or appends a line holding it.
   */
  lemma AddedKeepsPositive(cart: Cart, item: MenuItem, k: int)
    requires PositiveQuantities(cart) && k >= 1
    ensures PositiveQuantities(Added(cart, item, k))
  {
  }

  /**
   * `updateCartQuantity` keeps every quantity positive, whatever quantity it
   * is given, because a quantity of 0 or less removes the line instead of
   * storing it.
   */
  lemma UpdatedKeepsPositive(cart: Cart, id: string, q: int)
    requires PositiveQuantities(cart)
    ensures PositiveQuantities(Updated(cart, id, q))
  {
    if q <= 0 {
      var r := Updated(cart, id, q);
      forall i | 0 <= i < |r| ensures r[i].quantity >= 1 {
        var j :| 0 <= j < |cart| && cart[j] == r[i];
      }
    }
  }

  /** The `CartProvider` state: the current cart, replaced by each mutation. */
  class CartStore {
    var cart: Cart

    ghost predicate Valid()
      reads this
    {
      DistinctIds(cart)
    }

    /** `useState<CartItem[]>([])`. */
    constructor ()
      ensures Valid() && cart == []
    {
      cart := [];
    }

    method AddToCart(item: MenuItem, quantity: int)
      requires Valid()
      modifies this
      ensures Valid()
      ensures cart == Added(old(cart), item, quantity)
      ensures Count(cart) == old(Count(cart)) + quantity
      ensures Total(cart) == old(Total(cart)) + PriceInCart(old(cart), item) * quantity
      ensures old(PositiveQuantities(cart)) && quantity >= 1 ==> PositiveQuantities(cart)
    {
      AddedKeepsDistinct(cart, item, quantity);
      AddedTotals(cart, item, quantity);
      if PositiveQuantities(cart) && quantity >= 1 {
        AddedKeepsPositive(cart, item, quantity);
      }
      if Find(cart, item.id).Some? {
        cart := Incremented(cart, item.id, quantity);
      } else {
        cart := cart + [CartItem(item, quantity)];
      }
    }

    method UpdateCartQuantity(itemId: string, newQuantity: int)
      requires Valid()
      modifies this
      ensures Valid()
      ensures cart == Updated(old(cart), itemId, newQuantity)
      ensures old(PositiveQuantities(cart)) ==> PositiveQuantities(cart)
    {
      UpdatedKeepsDistinct(cart, itemId, newQuantity);
      if PositiveQuantities(cart) {
        UpdatedKeepsPositive(cart, itemId, newQuantity);
      }
      if newQuantity <= 0 {
        cart := Removed(cart, itemId);
      } else {
        cart := WithQuantity(cart, itemId, newQuantity);
      }
    }

    method ClearCart()
      modifies this
      ensures Valid()
      ensures cart == [] && Count(cart) == 0 && Total(cart) == 0
    {
      cart := [];
    }
  }

  /** A one-line cart counts that line's quantity and totals its price times it. */
  lemma SingleLineTotals(line: CartItem)
    ensures Count([line]) == line.quantity && Total([line]) == line.Price() * line.quantity
  {
    SumSingleton(line, LineQuantity);
    SumSingleton(line, LineTotal);
  }

  /**
   * An example session, on cart values: two adds of one item give one line
   * of 2, and setting its quantity to 0 removes it again.
   */
  lemma AddTwiceThenRemoveCarts(a: MenuItem)
    ensures Added([], a, 1) == [CartItem(a, 1)]
    ensures Added([CartItem(a, 1)], a, 1) == [CartItem(a, 2)]
    ensures Updated([CartItem(a, 2)], a.id, 0) == []
  {
    AddedNew([], a, 1);
    assert Added([CartItem(a, 1)], a, 1) == [CartItem(a, 2)] by {
      AddedAt([CartItem(a, 1)], a, 1, 0);
    }
    RemovedAt([CartItem(a, 2)], a.id, 0);
  }

  /**
   * The same session driven through the store's methods; returns
   * `cartCount` and `cartTotal` after each of the three steps.
   */
  method AddTwiceThenRemove(a: MenuItem) returns (counts: seq<int>, totals: seq<int>)
    requires a.price == 25000
    ensures counts == [1, 2, 0] && totals == [25000, 50000, 0]
  {
    AddTwiceThenRemoveCarts(a);
    SingleLineTotals(CartItem(a, 1));
    SingleLineTotals(CartItem(a, 2));
    var store := new CartStore();
    store.AddToCart(a, 1);
    assert store.cart == [CartItem(a, 1)];
    counts, totals := [Count(store.cart)], [Total(store.cart)];
    store.AddToCart(a, 1);
    assert store.cart == [CartItem(a, 2)];
    counts, totals := counts + [Count(store.cart)], totals + [Total(store.cart)];
    store.UpdateCartQuantity(a.id, 0);
    assert store.cart == [];
    counts, totals := counts + [Count(store.cart)], totals + [Total(store.cart)];
  }

  /**
   * Another example session: two different items, then two clears.
   * Returns `cartTotal` after the adds and `cartCount` and `cartTotal`
   * after each clear.
   */
  method AddTwoThenClearTwice(a: MenuItem, b: MenuItem) returns (added: int, cleared: seq<(int, int)>)
    requires a.price == 25000 && b.price == 19000 && a.id != b.id
    ensures added == 44000 && cleared == [(0, 0), (0, 0)]
  {
    var store := new CartStore();
    store.AddToCart(a, 1);
    assert store.cart == [CartItem(a, 1)] by {
      AddedNew([], a, 1);
    }
    assert Total(store.cart) == 25000 && PriceInCart(store.cart, b) == 19000 by {
      SingleLineTotals(CartItem(a, 1));
      assert !HasId([CartItem(a, 1)], b.id);
    }
    store.AddToCart(b, 1);
    added := Total(store.cart);
    store.ClearCart();
    cleared := [(Count(store.cart), Total(store.cart))];
    store.ClearCart();
    cleared := cleared + [(Count(store.cart), Total(store.cart))];
  }
}
