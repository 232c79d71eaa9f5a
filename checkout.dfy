/**
 * The checkout page's own order list. It is seeded with three fixed lines
 * and edited by `handleQuantityChange`, which ignores negative quantities
 * and stores every other one, 0 included: unlike the cart store, a line is
 * never removed here. `totalPrice` is the reduce of price times quantity.
 */
module Checkout {
  import opened Wrappers
  import opened Sequences

  /** One entry of `orderedItems`: the literal's fields, quantity included. */
  datatype OrderLine = OrderLine(
    id: string,
    name: string,
    price: int,
    quantity: int,
    image: Option<string>,
    imageHint: string)

  predicate HasId(items: seq<OrderLine>, id: string) {
    exists i :: 0 <= i < |items| && items[i].id == id
  }

  predicate DistinctIds(items: seq<OrderLine>) {
    forall i, j :: 0 <= i < |items| && 0 <= j < |items| && i != j ==> items[i].id != items[j].id
  }

  predicate NonNegativeQuantities(items: seq<OrderLine>) {
    forall i :: 0 <= i < |items| ==> items[i].quantity >= 0
  }

  /** The ids of the lines, in list order. */
  function Ids(items: seq<OrderLine>): (r: seq<string>)
    ensures |r| == |items| && forall i :: 0 <= i < |items| ==> r[i] == items[i].id
  {
    Map(items, (line: OrderLine) => line.id)
  }

  /**
   * `orderedItems`. Each image is looked up by key in the placeholder-image
   * catalogue, which is not part of this model: `imageUrlOf` stands for
   * that lookup and may find nothing.
   */
  function Seed(imageUrlOf: string -> Option<string>): (r: seq<OrderLine>)
    ensures |r| == 3 && DistinctIds(r) && NonNegativeQuantities(r)
    ensures Ids(r) == ["1", "2", "3"]
  {
    [ OrderLine("1", "Paket Chicken Grill", 25000, 1, imageUrlOf("chicken-grill-meal"), "grilled chicken"),
      OrderLine("2", "Paket Chicken Katsu", 25000, 1, imageUrlOf("chicken-katsu-meal"), "chicken katsu"),
      OrderLine("3", "Paket Combo Double Chicken", 19000, 1, imageUrlOf("combo-chicken-meal"), "teriyaki chicken") ]
  }

  function LineTotal(line: OrderLine): int { line.price * line.quantity }

  /** `totalPrice`: the reduce adding up price times quantity over the lines. */
  function TotalPrice(items: seq<OrderLine>): (t: int)
    ensures (forall i :: 0 <= i < |items| ==> items[i].price >= 0 && items[i].quantity >= 0) ==> t >= 0
  {
    SumNonNegative(items, LineTotal);
    Sum(items, LineTotal)
  }

  /** The seeded list totals 25000 + 25000 + 19000. */
  lemma SeedTotal(imageUrlOf: string -> Option<string>)
    ensures TotalPrice(Seed(imageUrlOf)) == 69000
  {
    var s := Seed(imageUrlOf);
    SumConcat(s[..2], [s[2]], LineTotal);
    SumConcat(s[..1], [s[1]], LineTotal);
    SumSingleton(s[0], LineTotal);
    SumSingleton(s[1], LineTotal);
    SumSingleton(s[2], LineTotal);
    assert s == s[..2] + [s[2]] && s[..2] == s[..1] + [s[1]] && s[..1] == [s[0]];
  }

  /** The list after `handleQuantityChange(id, q)`. */
  function QuantityChanged(items: seq<OrderLine>, id: string, q: int): (r: seq<OrderLine>)
    ensures q < 0 ==> r == items
    ensures |r| == |items| && Ids(r) == Ids(items)
    ensures forall i :: 0 <= i < |items| && items[i].id != id ==> r[i] == items[i]
    ensures q >= 0 ==> forall i :: 0 <= i < |items| && items[i].id == id ==> r[i] == items[i].(quantity := q)
  {
    if q >= 0 then Map(items, (line: OrderLine) => if line.id == id then line.(quantity := q) else line)
    else items
  }

  /** An unknown id leaves the list as it was, whatever the quantity. */
  lemma UnknownIdUnchanged(items: seq<OrderLine>, id: string, q: int)
    requires !HasId(items, id)
    ensures QuantityChanged(items, id, q) == items
  {
    var r := QuantityChanged(items, id, q);
    assert forall i :: 0 <= i < |items| ==> r[i] == items[i];
  }

  /**
   * A change to 0 keeps the line, now holding 0; the cart store would
   * remove it instead.
   */
  lemma ZeroKeepsLine(items: seq<OrderLine>, i: nat)
    requires i < |items|
    ensures var r := QuantityChanged(items, items[i].id, 0);
      HasId(r, items[i].id) && r[i] == items[i].(quantity := 0)
  {
    var r := QuantityChanged(items, items[i].id, 0);
    assert r[i].id == items[i].id;
  }

  /** With distinct ids, a change touches exactly the one line with that id. */
  lemma QuantityChangedAt(items: seq<OrderLine>, i: nat, q: int)
    requires DistinctIds(items) && i < |items| && q >= 0
    ensures QuantityChanged(items, items[i].id, q) == items[i := items[i].(quantity := q)]
  {
  }

  /**
   * With distinct ids, a change of line `i` to `q >= 0` moves `totalPrice`
   * by that line's price times the difference in quantity.
   */
  lemma QuantityChangedTotal(items: seq<OrderLine>, i: nat, q: int)
    requires DistinctIds(items) && i < |items| && q >= 0
    ensures TotalPrice(QuantityChanged(items, items[i].id, q)) ==
              TotalPrice(items) - LineTotal(items[i]) + LineTotal(items[i].(quantity := q))
  {
    assert QuantityChanged(items, items[i].id, q) == items[i := items[i].(quantity := q)] by {
      QuantityChangedAt(items, i, q);
    }
    SumUpdate(items, LineTotal, i, items[i].(quantity := q));
  }

  /** One more or one less of a line adds or takes away its price once. */
  lemma LineTotalStep(line: OrderLine, d: int)
    requires d == 1 || d == -1
    ensures LineTotal(line.(quantity := line.quantity + d)) == LineTotal(line) + d * line.price
  {
    var p, n := line.price, line.quantity;
    assert p * (n + d) == p * n + p * d;
  }

  /** One more of line `i` adds that line's price to `totalPrice`. */
  lemma IncrementTotal(items: seq<OrderLine>, i: nat)
    requires i < |items|
    ensures TotalPrice(items[i := items[i].(quantity := items[i].quantity + 1)]) == TotalPrice(items) + items[i].price
  {
    var line := items[i];
    var x := line.(quantity := line.quantity + 1);
    SumUpdate(items, LineTotal, i, x);
    assert LineTotal(x) == LineTotal(line) + line.price by {
      LineTotalStep(line, 1);
    }
  }

  /** One less of line `i` takes that line's price off `totalPrice`. */
  lemma DecrementTotal(items: seq<OrderLine>, i: nat)
    requires i < |items|
    ensures TotalPrice(items[i := items[i].(quantity := items[i].quantity - 1)]) == TotalPrice(items) - items[i].price
  {
    var line := items[i];
    var x := line.(quantity := line.quantity - 1);
    SumUpdate(items, LineTotal, i, x);
    assert LineTotal(x) == LineTotal(line) - line.price by {
      LineTotalStep(line, -1);
    }
  }

  /**
   * The plus button's call on line `i`: that line alone gains one, and
   * `totalPrice` gains its price.
   */
  lemma IncrementStep(items: seq<OrderLine>, i: nat)
    requires DistinctIds(items) && NonNegativeQuantities(items) && i < |items|
    ensures var line := items[i]; var r := QuantityChanged(items, line.id, line.quantity + 1);
      r == items[i := line.(quantity := line.quantity + 1)] && TotalPrice(r) == TotalPrice(items) + line.price
  {
    var line := items[i];
    assert QuantityChanged(items, line.id, line.quantity + 1) == items[i := line.(quantity := line.quantity + 1)] by {
      QuantityChangedAt(items, i, line.quantity + 1);
    }
    IncrementTotal(items, i);
  }

  /**
   * The minus button's call on line `i` holding at least one: that line
   * alone loses one, and `totalPrice` loses its price.
   */
  lemma DecrementStep(items: seq<OrderLine>, i: nat)
    requires DistinctIds(items) && i < |items| && items[i].quantity >= 1
    ensures var line := items[i]; var r := QuantityChanged(items, line.id, line.quantity - 1);
      r == items[i := line.(quantity := line.quantity - 1)] && TotalPrice(r) == TotalPrice(items) - line.price
  {
    var line := items[i];
    assert QuantityChanged(items, line.id, line.quantity - 1) == items[i := line.(quantity := line.quantity - 1)] by {
      QuantityChangedAt(items, i, line.quantity - 1);
    }
    DecrementTotal(items, i);
  }

  /** One call keeps the quantities non-negative and the ids distinct. */
  lemma QuantityChangedKeepsValid(items: seq<OrderLine>, id: string, q: int)
    requires DistinctIds(items) && NonNegativeQuantities(items)
    ensures var r := QuantityChanged(items, id, q); DistinctIds(r) && NonNegativeQuantities(r)
  {
    var r := QuantityChanged(items, id, q);
    assert forall i :: 0 <= i < |r| ==> r[i].id == Ids(r)[i] == Ids(items)[i] == items[i].id;
  }

  /** `handleQuantityChange(id, q)` for each `(id, q)` of `calls`, in order. */
  function Replayed(items: seq<OrderLine>, calls: seq<(string, int)>): seq<OrderLine>
    decreases |calls|
  {
    if calls == [] then items
    else Replayed(QuantityChanged(items, calls[0].0, calls[0].1), calls[1..])
  }

  /**
   * Any sequence of calls keeps the ids, their order, their distinctness
   * and the non-negative quantities.
   */
  lemma {:induction false} ReplayedKeepsValid(items: seq<OrderLine>, calls: seq<(string, int)>)
    requires DistinctIds(items) && NonNegativeQuantities(items)
    ensures var r := Replayed(items, calls);
      Ids(r) == Ids(items) && DistinctIds(r) && NonNegativeQuantities(r)
    decreases |calls|
  {
    if calls != [] {
      var next := QuantityChanged(items, calls[0].0, calls[0].1);
      QuantityChangedKeepsValid(items, calls[0].0, calls[0].1);
      ReplayedKeepsValid(next, calls[1..]);
    }
  }

  /** From the seed, every quantity stays at 0 or more whatever the calls. */
  lemma SeedStaysNonNegative(imageUrlOf: string -> Option<string>, calls: seq<(string, int)>)
    ensures NonNegativeQuantities(Replayed(Seed(imageUrlOf), calls))
    ensures Ids(Replayed(Seed(imageUrlOf), calls)) == ["1", "2", "3"]
  {
    ReplayedKeepsValid(Seed(imageUrlOf), calls);
  }

  /** The `CheckoutPage` component's `cartItems` state. */
  class CheckoutPage {
    var cartItems: seq<OrderLine>

    ghost predicate Valid()
      reads this
    {
      DistinctIds(cartItems) && NonNegativeQuantities(cartItems)
    }

    /** `useState(orderedItems)`. */
    constructor (imageUrlOf: string -> Option<string>)
      ensures Valid() && cartItems == Seed(imageUrlOf)
      ensures TotalPrice(cartItems) == 69000
    {
      cartItems := Seed(imageUrlOf);
      SeedTotal(imageUrlOf);
    }

    method HandleQuantityChange(id: string, newQuantity: int)
      requires Valid()
      modifies this
      ensures Valid()
      ensures cartItems == QuantityChanged(old(cartItems), id, newQuantity)
      ensures newQuantity < 0 ==> cartItems == old(cartItems)
    {
      QuantityChangedKeepsValid(cartItems, id, newQuantity);
      if newQuantity >= 0 {
        cartItems := Map(cartItems, (line: OrderLine) => if line.id == id then line.(quantity := newQuantity) else line);
      }
    }

    /**
     * The minus button of line `i`: asks for one less, and is disabled at
     * 0 or less, so it then does nothing.
     */
    method PressMinus(i: nat)
      requires Valid() && i < |cartItems|
      modifies this
      ensures Valid()
      ensures old(cartItems[i].quantity) <= 0 ==> cartItems == old(cartItems)
      ensures old(cartItems[i].quantity) > 0 ==>
                cartItems == old(cartItems)[i := old(cartItems[i]).(quantity := old(cartItems[i].quantity) - 1)]
      ensures old(cartItems[i].quantity) > 0 ==> TotalPrice(cartItems) == old(TotalPrice(cartItems)) - old(cartItems[i].price)
    {
      var items := cartItems;
      var line := items[i];
      if line.quantity > 0 {
        DecrementStep(items, i);
        HandleQuantityChange(line.id, line.quantity - 1);
      }
    }

    /** The plus button of line `i`: asks for one more. */
    method PressPlus(i: nat)
      requires Valid() && i < |cartItems|
      modifies this
      ensures Valid()
      ensures cartItems == old(cartItems)[i := old(cartItems[i]).(quantity := old(cartItems[i].quantity) + 1)]
      ensures TotalPrice(cartItems) == old(TotalPrice(cartItems)) + old(cartItems[i].price)
    {
      var items := cartItems;
      var line := items[i];
      IncrementStep(items, i);
      HandleQuantityChange(line.id, line.quantity + 1);
    }
  }
}
