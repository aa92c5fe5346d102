/**
 * The storefront's cart: an ordered list of lines, each a catalog product and
 * a quantity, with the three updaters the page applies to it (add one unit,
 * remove a line, adjust a quantity) and the two values read from it (the
 * total in cents and the item count shown on the cart badge).
 *
 * The updaters are pure functions from the old list to the new one, as the
 * page's state updaters are. The invariant they keep is WellFormed: at most
 * one line per product id and every quantity positive.
 */
module Cart {
  import opened Seqs
  import opened Money

  datatype Language = En | Km | Ch

  /** A text in each of the three supported languages. */
  datatype LocalizedString = LocalizedString(en: string, km: string, ch: string)

  /** `name[lang]` */
  function Localize(s: LocalizedString, lang: Language): string
  {
    match lang
    case En => s.en
    case Km => s.km
    case Ch => s.ch
  }

  /** A catalog entry; its price is a non-negative amount of cents. */
  datatype Product = Product(id: string, name: LocalizedString, price: nat, image: string, category: string)

  /** A product together with how many of it are ordered. */
  datatype CartItem = CartItem(product: Product, quantity: int)
  {
    function Id(): string { product.id }
  }

  predicate Positive(cart: seq<CartItem>)
  {
    forall i :: 0 <= i < |cart| ==> cart[i].quantity > 0
  }

  predicate DistinctIds(cart: seq<CartItem>)
  {
    forall i, j :: 0 <= i < j < |cart| ==> cart[i].Id() != cart[j].Id()
  }

  /** The cart invariant: one line per product id, every quantity positive. */
  predicate WellFormed(cart: seq<CartItem>)
  {
    Positive(cart) && DistinctIds(cart)
  }

  predicate HasLine(cart: seq<CartItem>, id: string)
  {
    exists i :: 0 <= i < |cart| && cart[i].Id() == id
  }

  /** `cart.find(item => item.id === id)`: the first line with that id, if any. */
  function Find(cart: seq<CartItem>, id: string): (r: Option<CartItem>)
    ensures r.Some? <==> HasLine(cart, id)
    ensures r.Some? ==> exists i :: 0 <= i < |cart| && cart[i] == r.value && cart[i].Id() == id
                                     && forall j :: 0 <= j < i ==> cart[j].Id() != id
  {
    if cart == [] then None
    else if cart[0].Id() == id then Some(cart[0])
    else
      var r := Find(cart[1..], id);
      assert HasLine(cart[1..], id) ==> HasLine(cart, id) by {
        if HasLine(cart[1..], id) {
          var i :| 0 <= i < |cart[1..]| && cart[1..][i].Id() == id;
          assert cart[i + 1].Id() == id;
        }
      }
      if r.Some? then
        var i :| 0 <= i < |cart[1..]| && cart[1..][i] == r.value && cart[1..][i].Id() == id
                 && forall j :: 0 <= j < i ==> cart[1..][j].Id() != id;
        assert cart[i + 1] == r.value && forall j :: 0 <= j < i + 1 ==> cart[j].Id() != id by {
          forall j | 0 <= j < i + 1 ensures cart[j].Id() != id {
            if j > 0 { assert cart[j] == cart[1..][j - 1]; }
          }
        }
        r
      else
        assert !HasLine(cart, id) by {
          forall i | 0 <= i < |cart| ensures cart[i].Id() != id {
            if i > 0 { assert cart[i] == cart[1..][i - 1]; }
          }
        }
        r
  }

  /**
   * addToCart's updater: one more unit on the product's line when the cart
   * has one, otherwise a new line with quantity 1 at the end.
   */
  function AddToCart(cart: seq<CartItem>, product: Product): seq<CartItem>
  {
    if Find(cart, product.id).Some? then
      Map(cart, (item: CartItem) => if item.Id() == product.id then item.(quantity := item.quantity + 1) else item)
    else
      cart + [CartItem(product, 1)]
  }

  /** removeFromCart's updater: every line except those with this id. */
  function RemoveFromCart(cart: seq<CartItem>, id: string): (r: seq<CartItem>)
    ensures !HasLine(r, id) && |r| <= |cart|
  {
    Filter(cart, (item: CartItem) => item.Id() != id)
  }

  /** The quantity updateQuantity gives a line: `Math.max(0, quantity + delta)`. */
  function Clamped(quantity: int, delta: int): (q: nat)
    ensures q >= quantity + delta
    ensures q == quantity + delta || q == 0
  {
    if quantity + delta > 0 then quantity + delta else 0
  }

  /** The `map` step of updateQuantity: the line with this id gets the clamped quantity. */
  function Adjusted(cart: seq<CartItem>, id: string, delta: int): (r: seq<CartItem>)
    ensures |r| == |cart|
    ensures forall i :: 0 <= i < |cart| ==>
      && r[i].product == cart[i].product
      && (cart[i].Id() == id ==> r[i].quantity == Clamped(cart[i].quantity, delta))
      && (cart[i].Id() != id ==> r[i] == cart[i])
  {
    Map(cart, (item: CartItem) => if item.Id() == id then item.(quantity := Clamped(item.quantity, delta)) else item)
  }

  predicate PositiveLine(item: CartItem)
  {
    item.quantity > 0
  }

  /**
   * updateQuantity's updater: add `delta` to the line's quantity, clamped at
   * 0, then drop every line whose quantity is not positive.
   */
  function UpdateQuantity(cart: seq<CartItem>, id: string, delta: int): (r: seq<CartItem>)
    ensures Positive(r) && |r| <= |cart|
  {
    Filter(Adjusted(cart, id, delta), PositiveLine)
  }

  /** The cost of one line in cents. */
  function Subtotal(item: CartItem): int
  {
    item.product.price * item.quantity
  }

  function Quantity(item: CartItem): int
  {
    item.quantity
  }

  /** `totalAmount`: the sum of price times quantity over the lines. */
  function Total(cart: seq<CartItem>): Cents
  {
    SumOf(cart, Subtotal)
  }

  /** The cart badge: the sum of the quantities. */
  function ItemCount(cart: seq<CartItem>): int
  {
    SumOf(cart, Quantity)
  }

  /** The unit price that adding `product` puts on the bill: the existing line's, or the product's own. */
  function AddedPrice(cart: seq<CartItem>, product: Product): nat
  {
    match Find(cart, product.id)
    case Some(item) => item.product.price
    case None => product.price
  }

  /** Taking one line out of a well-formed cart leaves a well-formed cart without that id. */
  lemma WithoutLineWellFormed(cart: seq<CartItem>, k: nat)
    requires WellFormed(cart) && k < |cart|
    ensures WellFormed(cart[..k] + cart[k + 1..])
    ensures !HasLine(cart[..k] + cart[k + 1..], cart[k].Id())
  {
    var r := cart[..k] + cart[k + 1..];
    assert forall i :: 0 <= i < |r| ==> r[i] == cart[if i < k then i else i + 1];
  }

  /** Giving one line of a well-formed cart another positive quantity keeps it well-formed. */
  lemma SetQuantityWellFormed(cart: seq<CartItem>, k: nat, q: int)
    requires WellFormed(cart) && k < |cart| && q > 0
    ensures WellFormed(cart[k := cart[k].(quantity := q)])
  {
    var r := cart[k := cart[k].(quantity := q)];
    assert forall i :: 0 <= i < |r| ==> r[i].Id() == cart[i].Id();
  }

  /** Appending a positive line for a new id to a well-formed cart keeps it well-formed. */
  lemma AppendWellFormed(cart: seq<CartItem>, item: CartItem)
    requires WellFormed(cart) && !HasLine(cart, item.Id()) && item.quantity > 0
    ensures WellFormed(cart + [item])
  {
    var r := cart + [item];
    assert forall i :: 0 <= i < |cart| ==> r[i] == cart[i];
  }

  /** Adding a product the cart already holds adds exactly one unit to that line, in place. */
  lemma AddExisting(cart: seq<CartItem>, product: Product, k: nat)
    requires WellFormed(cart) && k < |cart| && cart[k].Id() == product.id
    ensures AddToCart(cart, product) == cart[k := cart[k].(quantity := cart[k].quantity + 1)]
  {
    assert HasLine(cart, product.id);
  }

  /** Adding a product the cart does not hold appends one line with quantity 1. */
  lemma AddAbsent(cart: seq<CartItem>, product: Product)
    requires !HasLine(cart, product.id)
    ensures AddToCart(cart, product) == cart + [CartItem(product, 1)]
  {
  }

  lemma AddExistingEffects(cart: seq<CartItem>, product: Product, k: nat)
    requires WellFormed(cart) && k < |cart| && cart[k].Id() == product.id
    ensures WellFormed(AddToCart(cart, product))
    ensures ItemCount(AddToCart(cart, product)) == ItemCount(cart) + 1
    ensures Total(AddToCart(cart, product)) == Total(cart) + cart[k].product.price
  {
    var line := cart[k].(quantity := cart[k].quantity + 1);
    assert AddToCart(cart, product) == cart[k := line] by {
      AddExisting(cart, product, k);
    }
    SetQuantityWellFormed(cart, k, cart[k].quantity + 1);
    SumOfUpdate(cart, k, line, Quantity);
    SumOfUpdate(cart, k, line, Subtotal);
    MulSucc(cart[k].product.price, cart[k].quantity);
  }

  lemma MulSucc(a: int, b: int)
    ensures a * (b + 1) == a * b + a
  {
  }

  lemma AddAbsentEffects(cart: seq<CartItem>, product: Product)
    requires WellFormed(cart) && !HasLine(cart, product.id)
    ensures WellFormed(AddToCart(cart, product))
    ensures ItemCount(AddToCart(cart, product)) == ItemCount(cart) + 1
    ensures Total(AddToCart(cart, product)) == Total(cart) + product.price
  {
    var line := CartItem(product, 1);
    AddAbsent(cart, product);
    AppendWellFormed(cart, line);
    SumOfAppend(cart, [line], Quantity);
    SumOfAppend(cart, [line], Subtotal);
    SumOfSingleton(line, Quantity);
    SumOfSingleton(line, Subtotal);
  }

  /** Adding keeps the invariant, raises the badge by one and the total by one unit price. */
  lemma AddKeepsWellFormed(cart: seq<CartItem>, product: Product)
    requires WellFormed(cart)
    ensures WellFormed(AddToCart(cart, product))
    ensures ItemCount(AddToCart(cart, product)) == ItemCount(cart) + 1
    ensures Total(AddToCart(cart, product)) == Total(cart) + AddedPrice(cart, product)
  {
    var found := Find(cart, product.id);
    if found.Some? {
      var k :| 0 <= k < |cart| && cart[k] == found.value && cart[k].Id() == product.id;
      AddExistingEffects(cart, product, k);
    } else {
      AddAbsentEffects(cart, product);
    }
  }

  /** The cart after `n` presses of a product's add button. */
  function AddTimes(cart: seq<CartItem>, product: Product, n: nat): seq<CartItem>
  {
    if n == 0 then cart else AddToCart(AddTimes(cart, product, n - 1), product)
  }

  lemma AddTimesStep(cart: seq<CartItem>, product: Product, n: nat)
    ensures AddTimes(cart, product, n + 1) == AddToCart(AddTimes(cart, product, n), product)
  {
  }

  /** Adding a product whose only line is the last one raises that line by one. */
  lemma AddToLastLine(cart: seq<CartItem>, product: Product, q: int)
    requires !HasLine(cart, product.id)
    ensures AddToCart(cart + [CartItem(product, q)], product) == cart + [CartItem(product, q + 1)]
  {
    var prev := cart + [CartItem(product, q)];
    assert prev[|cart|].Id() == product.id;
    var r := AddToCart(prev, product);
    assert |r| == |prev|;
    forall i | 0 <= i < |cart|
      ensures r[i] == cart[i]
    {
      assert prev[i] == cart[i] && cart[i].Id() != product.id;
    }
    assert r == cart + [CartItem(product, q + 1)];
  }

  lemma AddTimesFirst(cart: seq<CartItem>, product: Product)
    requires !HasLine(cart, product.id)
    ensures AddTimes(cart, product, 1) == cart + [CartItem(product, 1)]
  {
    AddTimesStep(cart, product, 0);
    AddAbsent(cart, product);
  }

  lemma AddTimesNext(cart: seq<CartItem>, product: Product, n: nat)
    requires !HasLine(cart, product.id)
    requires AddTimes(cart, product, n) == cart + [CartItem(product, n)]
    ensures AddTimes(cart, product, n + 1) == cart + [CartItem(product, n + 1)]
  {
    AddTimesStep(cart, product, n);
    AddToLastLine(cart, product, n);
  }

  /** `n` additions of a product the cart lacks give one line, at the end, with quantity `n`. */
  lemma {:induction false} AddTimesAbsent(cart: seq<CartItem>, product: Product, n: nat)
    requires !HasLine(cart, product.id) && n >= 1
    ensures AddTimes(cart, product, n) == cart + [CartItem(product, n)]
  {
    if n == 1 {
      AddTimesFirst(cart, product);
    } else {
      AddTimesAbsent(cart, product, n - 1);
      AddTimesNext(cart, product, n - 1);
    }
  }

  /** Removing a line of a well-formed cart takes out exactly that line and keeps the order of the rest. */
  lemma RemoveExisting(cart: seq<CartItem>, id: string, k: nat)
    requires WellFormed(cart) && k < |cart| && cart[k].Id() == id
    ensures RemoveFromCart(cart, id) == cart[..k] + cart[k + 1..]
    ensures WellFormed(RemoveFromCart(cart, id)) && !HasLine(RemoveFromCart(cart, id), id)
    ensures Total(RemoveFromCart(cart, id)) == Total(cart) - Subtotal(cart[k])
    ensures ItemCount(RemoveFromCart(cart, id)) == ItemCount(cart) - cart[k].quantity
  {
    var keep := (item: CartItem) => item.Id() != id;
    assert cart == cart[..k] + ([cart[k]] + cart[k + 1..]);
    FilterAppend(cart[..k], [cart[k]] + cart[k + 1..], keep);
    FilterAppend([cart[k]], cart[k + 1..], keep);
    FilterKeepsAll(cart[..k], keep);
    FilterKeepsAll(cart[k + 1..], keep);
    assert Filter([cart[k]], keep) == [];
    WithoutLineWellFormed(cart, k);
    SumOfSplit(cart, k, Subtotal);
    SumOfSplit(cart, k, Quantity);
  }

  /** Removing an id the cart does not hold changes nothing. */
  lemma RemoveAbsent(cart: seq<CartItem>, id: string)
    requires !HasLine(cart, id)
    ensures RemoveFromCart(cart, id) == cart
  {
    FilterKeepsAll(cart, (item: CartItem) => item.Id() != id);
  }

  /** Dropping the non-positive lines of a positive cart with one line replaced. */
  lemma FilterPositiveAt(cart: seq<CartItem>, k: nat, line: CartItem)
    requires Positive(cart) && k < |cart|
    ensures Filter(cart[k := line], PositiveLine)
      == if line.quantity > 0 then cart[k := line] else cart[..k] + cart[k + 1..]
  {
    assert cart[k := line] == cart[..k] + ([line] + cart[k + 1..]);
    FilterAppend(cart[..k], [line] + cart[k + 1..], PositiveLine);
    FilterAppend([line], cart[k + 1..], PositiveLine);
    FilterKeepsAll(cart[..k], PositiveLine);
    FilterKeepsAll(cart[k + 1..], PositiveLine);
    assert Filter([line], PositiveLine) == if line.quantity > 0 then [line] else [];
  }

  /**
   * Adjusting a line of a well-formed cart sets its quantity to the clamped
   * sum in place when that is positive and removes the line otherwise.
   */
  lemma UpdateExisting(cart: seq<CartItem>, id: string, delta: int, k: nat)
    requires WellFormed(cart) && k < |cart| && cart[k].Id() == id
    ensures UpdateQuantity(cart, id, delta)
      == if Clamped(cart[k].quantity, delta) > 0
         then cart[k := cart[k].(quantity := cart[k].quantity + delta)]
         else cart[..k] + cart[k + 1..]
    ensures WellFormed(UpdateQuantity(cart, id, delta))
    ensures ItemCount(UpdateQuantity(cart, id, delta))
      == ItemCount(cart) - cart[k].quantity + Clamped(cart[k].quantity, delta)
  {
    var q := cart[k].quantity;
    var line := cart[k].(quantity := Clamped(q, delta));
    assert Adjusted(cart, id, delta) == cart[k := line];
    FilterPositiveAt(cart, k, line);
    if Clamped(q, delta) > 0 {
      SetQuantityWellFormed(cart, k, q + delta);
      SumOfUpdate(cart, k, line, Quantity);
    } else {
      WithoutLineWellFormed(cart, k);
      SumOfSplit(cart, k, Quantity);
    }
  }

  /** Adjusting an id absent from a well-formed cart leaves it unchanged, with no error. */
  lemma UpdateAbsent(cart: seq<CartItem>, id: string, delta: int)
    requires WellFormed(cart) && !HasLine(cart, id)
    ensures UpdateQuantity(cart, id, delta) == cart
  {
    assert Adjusted(cart, id, delta) == cart;
    FilterKeepsAll(cart, PositiveLine);
  }

  /** Every adjustment keeps the cart invariant. */
  lemma UpdateKeepsWellFormed(cart: seq<CartItem>, id: string, delta: int)
    requires WellFormed(cart)
    ensures WellFormed(UpdateQuantity(cart, id, delta))
  {
    if HasLine(cart, id) {
      var k :| 0 <= k < |cart| && cart[k].Id() == id;
      UpdateExisting(cart, id, delta, k);
    } else {
      UpdateAbsent(cart, id, delta);
    }
  }

  /** Every removal keeps the cart invariant. */
  lemma RemoveKeepsWellFormed(cart: seq<CartItem>, id: string)
    requires WellFormed(cart)
    ensures WellFormed(RemoveFromCart(cart, id))
  {
    if HasLine(cart, id) {
      var k :| 0 <= k < |cart| && cart[k].Id() == id;
      RemoveExisting(cart, id, k);
    } else {
      RemoveAbsent(cart, id);
    }
  }

  /** The minus button on a quantity-1 line (the trash icon) is the same as removing the line. */
  lemma DecrementLastUnitRemoves(cart: seq<CartItem>, id: string, k: nat)
    requires WellFormed(cart) && k < |cart| && cart[k].Id() == id && cart[k].quantity == 1
    ensures UpdateQuantity(cart, id, -1) == RemoveFromCart(cart, id)
  {
    UpdateExisting(cart, id, -1, k);
    RemoveExisting(cart, id, k);
  }

  /** The cart after `n` presses of a line's minus button. */
  function DecrementTimes(cart: seq<CartItem>, id: string, n: nat): seq<CartItem>
    decreases n
  {
    if n == 0 then cart else DecrementTimes(UpdateQuantity(cart, id, -1), id, n - 1)
  }

  lemma DecrementStep(cart: seq<CartItem>, id: string, n: nat)
    ensures DecrementTimes(cart, id, n + 1) == DecrementTimes(UpdateQuantity(cart, id, -1), id, n)
  {
  }

  /** Presses of minus on a product with no line change nothing. */
  lemma {:induction false} DecrementAbsent(cart: seq<CartItem>, id: string, n: nat)
    requires WellFormed(cart) && !HasLine(cart, id)
    ensures DecrementTimes(cart, id, n) == cart
  {
    if n > 0 {
      UpdateAbsent(cart, id, -1);
      DecrementAbsent(cart, id, n - 1);
    }
  }

  /** One press of minus on a line with more than one unit: one unit fewer, and the same cart once the line is removed. */
  lemma DecrementOnce(cart: seq<CartItem>, id: string, k: nat)
    requires WellFormed(cart) && k < |cart| && cart[k].Id() == id && cart[k].quantity > 1
    ensures UpdateQuantity(cart, id, -1) == cart[k := cart[k].(quantity := cart[k].quantity - 1)]
    ensures WellFormed(UpdateQuantity(cart, id, -1))
    ensures RemoveFromCart(UpdateQuantity(cart, id, -1), id) == RemoveFromCart(cart, id)
  {
    var next := cart[k := cart[k].(quantity := cart[k].quantity - 1)];
    UpdateExisting(cart, id, -1, k);
    RemoveExisting(cart, id, k);
    RemoveExisting(next, id, k);
    assert next[..k] == cart[..k] && next[k + 1..] == cart[k + 1..];
  }

  /**
   * Pressing minus as many times as the line's quantity removes the line and
   * nothing else; further presses change nothing.
   */
  lemma {:induction false} DecrementTimesRemoves(cart: seq<CartItem>, id: string, k: nat, extra: nat)
    requires WellFormed(cart) && k < |cart| && cart[k].Id() == id
    ensures DecrementTimes(cart, id, cart[k].quantity + extra) == RemoveFromCart(cart, id)
    decreases cart[k].quantity
  {
    var q := cart[k].quantity;
    if q == 1 {
      DecrementStep(cart, id, extra);
      DecrementLastUnitRemoves(cart, id, k);
      RemoveKeepsWellFormed(cart, id);
      RemoveExisting(cart, id, k);
      DecrementAbsent(RemoveFromCart(cart, id), id, extra);
    } else {
      DecrementOnce(cart, id, k);
      var next := UpdateQuantity(cart, id, -1);
      assert next[k].quantity == q - 1 && next[k].Id() == id && k < |next|;
      DecrementStep(cart, id, q - 1 + extra);
      DecrementTimesRemoves(next, id, k, extra);
    }
  }

  /** In a well-formed cart the badge counts at least one per line, so it shows 0 only for an empty cart. */
  lemma {:induction false} ItemCountAtLeastLines(cart: seq<CartItem>)
    requires WellFormed(cart)
    ensures ItemCount(cart) >= |cart|
    ensures ItemCount(cart) == 0 <==> cart == []
  {
    if cart != [] {
      var init := cart[..|cart| - 1];
      assert WellFormed(init);
      ItemCountAtLeastLines(init);
    }
  }

  /** The total of a cart with positive quantities is never negative. */
  lemma {:induction false} TotalNonNegative(cart: seq<CartItem>)
    requires Positive(cart)
    ensures Total(cart) >= 0
  {
    if cart != [] {
      var init := cart[..|cart| - 1];
      assert Positive(init);
      TotalNonNegative(init);
    }
  }
}
