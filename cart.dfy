/** The client cart of `CartContext.tsx`: a list of cart lines, merged by
    product on add, with a counter that hands out fresh line ids. The pure
    functions below say what each handler does to the list; the class
    `CartStore` holds the state the handlers replace and is proved against
    them. */
module Cart {
  import opened Base
  import opened Schema

  /** One line of the cart. */
  datatype CartItem = CartItem(id: int, product: Product, quantity: int)

  // ---------------------------------------------------------------------
  // Derived totals

  /** The sum of `w` over the lines: the `reduce` behind both derived
      totals (integer addition, so the order of summation is immaterial). */
  function Sum(items: seq<CartItem>, w: CartItem -> int): (r: int)
    ensures items == [] ==> r == 0
    ensures (forall i :: 0 <= i < |items| ==> w(items[i]) >= 0) ==> r >= 0
    ensures (forall i :: 0 <= i < |items| ==> w(items[i]) >= 1) ==> r >= |items|
  {
    if items == [] then 0 else w(items[0]) + Sum(items[1..], w)
  }

  function Quantity(item: CartItem): int { item.quantity }

  /** What one line adds to the total: effective price times quantity. */
  function LineTotal(item: CartItem): int { EffectivePrice(item.product) * item.quantity }

  /** `cartCount`: the sum of the quantities; an empty cart counts 0, and
      a cart of positive quantities counts at least one per line. */
  function CartCount(items: seq<CartItem>): (r: int)
    ensures items == [] ==> r == 0
    ensures PositiveQuantities(items) ==> r >= |items|
  {
    Sum(items, Quantity)
  }

  /** `cartTotal`: the sum over the lines of effective price times quantity;
      an empty cart totals 0, and no line with a price and a quantity that
      are not negative makes it negative. */
  function CartTotal(items: seq<CartItem>): (r: int)
    ensures items == [] ==> r == 0
    ensures (forall i :: 0 <= i < |items| ==> items[i].quantity >= 0 && EffectivePrice(items[i].product) >= 0) ==> r >= 0
  {
    assert forall i :: (0 <= i < |items| && items[i].quantity >= 0 && EffectivePrice(items[i].product) >= 0
      ==> LineTotal(items[i]) >= 0);
    Sum(items, LineTotal)
  }

  lemma {:induction false} SumAppend(items: seq<CartItem>, x: CartItem, w: CartItem -> int)
    ensures Sum(items + [x], w) == Sum(items, w) + w(x)
  {
    if items != [] {
      assert (items + [x])[1..] == items[1..] + [x];
      SumAppend(items[1..], x, w);
    }
  }

  lemma {:induction false} SumUpdate(items: seq<CartItem>, k: int, x: CartItem, w: CartItem -> int)
    requires 0 <= k < |items|
    ensures Sum(items[k := x], w) == Sum(items, w) - w(items[k]) + w(x)
  {
    if k > 0 {
      assert items[k := x][1..] == items[1..][k - 1 := x];
      SumUpdate(items[1..], k - 1, x, w);
    }
  }

  // ---------------------------------------------------------------------
  // The invariant

  /** No two lines are for the same product. */
  predicate UniqueProducts(items: seq<CartItem>)
  {
    forall i, j :: 0 <= i < j < |items| ==> items[i].product.id != items[j].product.id
  }

  /** No two lines share a line id. */
  predicate UniqueIds(items: seq<CartItem>)
  {
    forall i, j :: 0 <= i < j < |items| ==> items[i].id != items[j].id
  }

  predicate PositiveQuantities(items: seq<CartItem>)
  {
    forall i :: 0 <= i < |items| ==> items[i].quantity >= 1
  }

  /** The cart invariant every handler keeps. */
  predicate WellFormed(items: seq<CartItem>)
  {
    UniqueProducts(items) && UniqueIds(items) && PositiveQuantities(items)
  }

  /** Every line id is below `bound`, so `bound` is a fresh id. */
  predicate IdsBelow(items: seq<CartItem>, bound: int)
  {
    forall i :: 0 <= i < |items| ==> items[i].id < bound
  }

  // ---------------------------------------------------------------------
  // addToCart

  /** `findIndex(item => item.product.id === productId)`: the first line for
      the product, or -1 when there is none. */
  function IndexOfProduct(items: seq<CartItem>, productId: int): (k: int)
    ensures -1 <= k < |items|
    ensures 0 <= k ==> items[k].product.id == productId
    ensures forall j :: 0 <= j < |items| && (k < 0 || j < k) ==> items[j].product.id != productId
  {
    if items == [] then -1
    else if items[0].product.id == productId then 0
    else
      var k := IndexOfProduct(items[1..], productId);
      if k < 0 then -1 else k + 1
  }

  /** The search `addToCart` runs over the lines. */
  method FindIndexOfProduct(items: seq<CartItem>, productId: int) returns (k: int)
    ensures -1 <= k < |items|
    ensures 0 <= k ==> items[k].product.id == productId
    ensures forall j :: 0 <= j < |items| && (k < 0 || j < k) ==> items[j].product.id != productId
    ensures k == IndexOfProduct(items, productId)
  {
    var i := 0;
    while i < |items|
      invariant 0 <= i <= |items|
      invariant forall j :: 0 <= j < i ==> items[j].product.id != productId
    {
      if items[i].product.id == productId {
        IndexOfProductIsFirst(items, productId, i);
        return i;
      }
      i := i + 1;
    }
    k := -1;
    IndexOfProductIsFirst(items, productId, -1);
  }

  /** The first matching line (or -1 when none matches) is what
      `IndexOfProduct` returns. */
  lemma IndexOfProductIsFirst(items: seq<CartItem>, productId: int, k: int)
    requires -1 <= k < |items|
    requires 0 <= k ==> items[k].product.id == productId
    requires forall j :: 0 <= j < |items| && (k < 0 || j < k) ==> items[j].product.id != productId
    ensures k == IndexOfProduct(items, productId)
  {
  }

  /** The lines after `addToCart(product, quantity)` when `freshId` is the
      counter's value: a non-positive quantity changes nothing; otherwise
      the cart grows by one line exactly when the product was not in it,
      and every earlier line keeps its id and its product. */
  function AddLine(items: seq<CartItem>, freshId: int, product: Product, quantity: int): (r: seq<CartItem>)
    ensures quantity <= 0 ==> r == items
    ensures |r| == |items| + (if AddsLine(items, product, quantity) then 1 else 0)
    ensures forall i :: 0 <= i < |items| ==> r[i].id == items[i].id && r[i].product == items[i].product
  {
    if quantity <= 0 then items
    else
      var k := IndexOfProduct(items, product.id);
      if k >= 0 then items[k := items[k].(quantity := items[k].quantity + quantity)]
      else items + [CartItem(freshId, product, quantity)]
  }

  /** Whether `addToCart` appends a line (and so consumes an id). */
  predicate AddsLine(items: seq<CartItem>, product: Product, quantity: int)
  {
    quantity > 0 && IndexOfProduct(items, product.id) < 0
  }

  /** Adding a product already in the cart raises that line's quantity by the
      amount and leaves the length and every other line as they were. */
  lemma AddExistingMerges(items: seq<CartItem>, freshId: int, product: Product, quantity: int, k: int)
    requires quantity > 0
    requires 0 <= k < |items| && items[k].product.id == product.id
    requires UniqueProducts(items)
    ensures var r := AddLine(items, freshId, product, quantity);
      && |r| == |items|
      && r[k] == items[k].(quantity := items[k].quantity + quantity)
      && (forall j :: 0 <= j < |items| && j != k ==> r[j] == items[j])
  {
  }

  /** Adding a product not in the cart appends exactly one line with the
      fresh id at the end and leaves the earlier lines as they were. */
  lemma AddNewAppends(items: seq<CartItem>, freshId: int, product: Product, quantity: int)
    requires quantity > 0
    requires forall j :: 0 <= j < |items| ==> items[j].product.id != product.id
    ensures AddLine(items, freshId, product, quantity) == items + [CartItem(freshId, product, quantity)]
  {
  }

  /** `addToCart` keeps the invariant, and the counter after it (bumped
      exactly when a line is appended) is still fresh. */
  lemma {:induction false} AddKeepsInvariant(items: seq<CartItem>, freshId: int, product: Product, quantity: int)
    requires WellFormed(items) && IdsBelow(items, freshId)
    ensures var r := AddLine(items, freshId, product, quantity);
      WellFormed(r) && IdsBelow(r, if AddsLine(items, product, quantity) then freshId + 1 else freshId)
  {
    if quantity > 0 {
      var k := IndexOfProduct(items, product.id);
      var r := AddLine(items, freshId, product, quantity);
      if k < 0 {
        assert r == items + [CartItem(freshId, product, quantity)];
        assert r[|items|].id == freshId;
        forall i, j | 0 <= i < j < |r|
          ensures r[i].product.id != r[j].product.id && r[i].id != r[j].id
        {
          if j == |items| {
            assert r[i] == items[i];
          }
        }
      } else {
        assert forall i :: 0 <= i < |r| ==> r[i].id == items[i].id && r[i].product == items[i].product;
      }
    }
  }

  /** The count grows by exactly the quantity added (nothing for a
      non-positive quantity). */
  lemma CountAfterAdd(items: seq<CartItem>, freshId: int, product: Product, quantity: int)
    ensures CartCount(AddLine(items, freshId, product, quantity))
         == CartCount(items) + (if quantity > 0 then quantity else 0)
  {
    if quantity > 0 {
      var k := IndexOfProduct(items, product.id);
      if k >= 0 {
        SumUpdate(items, k, items[k].(quantity := items[k].quantity + quantity), Quantity);
      } else {
        SumAppend(items, CartItem(freshId, product, quantity), Quantity);
      }
    }
  }

  /** The total grows by the effective price of the line's product times
      the quantity added; when the product is merged into an existing line,
      the price counted is the one stored on that line. */
  lemma TotalAfterAdd(items: seq<CartItem>, freshId: int, product: Product, quantity: int)
    ensures var k := IndexOfProduct(items, product.id);
      var priced := if k >= 0 then items[k].product else product;
      CartTotal(AddLine(items, freshId, product, quantity))
        == CartTotal(items) + (if quantity > 0 then EffectivePrice(priced) * quantity else 0)
  {
    if quantity > 0 {
      var k := IndexOfProduct(items, product.id);
      var r := AddLine(items, freshId, product, quantity);
      if k >= 0 {
        var line := items[k].(quantity := items[k].quantity + quantity);
        assert r == items[k := line];
        SumUpdate(items, k, line, LineTotal);
        var p := EffectivePrice(items[k].product);
        assert p * (items[k].quantity + quantity) == p * items[k].quantity + p * quantity;
        assert LineTotal(line) == LineTotal(items[k]) + p * quantity;
        assert CartTotal(r) == Sum(items[k := line], LineTotal);
      } else {
        var line := CartItem(freshId, product, quantity);
        assert r == items + [line];
        SumAppend(items, line, LineTotal);
        assert CartTotal(r) == Sum(items + [line], LineTotal);
      }
    }
  }

  // ---------------------------------------------------------------------
  // updateCartItemQuantity

  /** The lines after `updateCartItemQuantity(itemId, quantity)`. */
  function SetQuantity(items: seq<CartItem>, itemId: int, quantity: int): (r: seq<CartItem>)
    ensures |r| == |items|
    ensures quantity <= 0 ==> r == items
  {
    if quantity <= 0 then items
    else
      seq(|items|, i requires 0 <= i < |items| =>
        if items[i].id == itemId then items[i].(quantity := quantity) else items[i])
  }

  /** A positive update touches only the line with that id, which gets the
      new quantity; order, length, ids and products are preserved, and the
      invariant is kept. */
  lemma SetQuantityEffect(items: seq<CartItem>, itemId: int, quantity: int)
    requires quantity > 0
    ensures var r := SetQuantity(items, itemId, quantity);
      && (forall i :: 0 <= i < |items| ==> r[i].id == items[i].id && r[i].product == items[i].product)
      && (forall i :: 0 <= i < |items| && items[i].id == itemId ==> r[i].quantity == quantity)
      && (forall i :: 0 <= i < |items| && items[i].id != itemId ==> r[i] == items[i])
      && (WellFormed(items) ==> WellFormed(r))
  {
  }

  /** With unique ids, updating line `k` replaces its quantity in the count. */
  lemma {:induction false} CountAfterSetQuantity(items: seq<CartItem>, k: int, quantity: int)
    requires UniqueIds(items) && 0 <= k < |items| && quantity > 0
    ensures CartCount(SetQuantity(items, items[k].id, quantity))
         == CartCount(items) - items[k].quantity + quantity
  {
    var r := SetQuantity(items, items[k].id, quantity);
    assert r == items[k := items[k].(quantity := quantity)];
    SumUpdate(items, k, items[k].(quantity := quantity), Quantity);
  }

  // ---------------------------------------------------------------------
  // removeFromCart

  /** `prevItems.filter(item => item.id !== itemId)` */
  function RemoveLines(items: seq<CartItem>, itemId: int): (r: seq<CartItem>)
    ensures IsSubsequence(r, items)
    ensures forall i :: 0 <= i < |r| ==> r[i].id != itemId
    ensures forall i :: 0 <= i < |items| && items[i].id != itemId ==> items[i] in r
    ensures forall i :: 0 <= i < |r| ==> r[i] in items
  {
    Filter(items, (item: CartItem) => item.id != itemId)
  }

  /** Removing keeps every copy of a line with another id and no copy of
      a line with the id. */
  lemma RemoveLinesCounts(items: seq<CartItem>, itemId: int)
    ensures forall i :: 0 <= i < |items| ==>
      multiset(RemoveLines(items, itemId))[items[i]] ==
        (if items[i].id != itemId then multiset(items)[items[i]] else 0)
  {
    FilterCounts(items, (item: CartItem) => item.id != itemId);
  }

  /** Removing an id no line has leaves the cart as it was. */
  lemma RemoveUnknownKeeps(items: seq<CartItem>, itemId: int)
    requires forall i :: 0 <= i < |items| ==> items[i].id != itemId
    ensures RemoveLines(items, itemId) == items
  {
    FilterKeepsAll(items, (item: CartItem) => item.id != itemId);
  }

  /** Removing keeps the invariant and a fresh counter fresh. */
  lemma {:induction false} RemoveKeepsInvariant(items: seq<CartItem>, itemId: int, bound: int)
    requires WellFormed(items) && IdsBelow(items, bound)
    ensures WellFormed(RemoveLines(items, itemId)) && IdsBelow(RemoveLines(items, itemId), bound)
  {
    if items != [] {
      var tail := items[1..];
      assert WellFormed(tail) && IdsBelow(tail, bound);
      RemoveKeepsInvariant(tail, itemId, bound);
      var rest := RemoveLines(tail, itemId);
      assert forall k :: 0 <= k < |rest| ==> rest[k] in tail;
      HeadDistinctFromRest(items, rest);
      if items[0].id != itemId {
        assert RemoveLines(items, itemId) == [items[0]] + rest;
        ConsKeepsInvariant(items[0], rest, bound);
      } else {
        assert RemoveLines(items, itemId) == rest;
      }
    }
  }

  /** In a well-formed cart, no later line shares the first line's id or
      product. */
  lemma HeadDistinctFromRest(items: seq<CartItem>, rest: seq<CartItem>)
    requires WellFormed(items) && items != []
    requires forall k :: 0 <= k < |rest| ==> rest[k] in items[1..]
    ensures forall k :: 0 <= k < |rest| ==> rest[k].id != items[0].id && rest[k].product.id != items[0].product.id
  {
    forall k | 0 <= k < |rest|
      ensures rest[k].id != items[0].id && rest[k].product.id != items[0].product.id
    {
      var m :| 0 <= m < |items[1..]| && items[1..][m] == rest[k];
      assert items[m + 1] == rest[k];
    }
  }

  /** A line whose id and product no other line has, with a positive
      quantity and an id below the bound, keeps the invariant in front of a
      well-formed cart. */
  lemma ConsKeepsInvariant(x: CartItem, rest: seq<CartItem>, bound: int)
    requires WellFormed(rest) && IdsBelow(rest, bound) && x.id < bound && x.quantity >= 1
    requires forall k :: 0 <= k < |rest| ==> rest[k].id != x.id && rest[k].product.id != x.product.id
    ensures WellFormed([x] + rest) && IdsBelow([x] + rest, bound)
  {
    var r := [x] + rest;
    forall i, j | 0 <= i < j < |r|
      ensures r[i].id != r[j].id && r[i].product.id != r[j].product.id
    {
      assert r[j] == rest[j - 1];
      if i > 0 {
        assert r[i] == rest[i - 1];
      }
    }
  }


  /** With unique ids, removing the line `k` takes exactly its quantity off
      the count and its line total off the total. */
  lemma {:induction false} TotalsAfterRemove(items: seq<CartItem>, k: int)
    requires UniqueIds(items) && 0 <= k < |items|
    ensures CartCount(RemoveLines(items, items[k].id)) == CartCount(items) - items[k].quantity
    ensures CartTotal(RemoveLines(items, items[k].id)) == CartTotal(items) - LineTotal(items[k])
  {
    var id := items[k].id;
    if k == 0 {
      RemoveUnknownKeeps(items[1..], id);
    } else {
      TotalsAfterRemove(items[1..], k - 1);
    }
  }

  /** After `clearCart` both derived totals are zero. */
  lemma ClearedTotals()
    ensures CartCount([]) == 0 && CartTotal([]) == 0
  {
  }

  // ---------------------------------------------------------------------
  // The id counter restored from a saved cart

  /** `Math.max(...items.map(item => item.id))` */
  function MaxId(items: seq<CartItem>): (m: int)
    requires items != []
    ensures forall i :: 0 <= i < |items| ==> items[i].id <= m
    ensures exists i :: 0 <= i < |items| && items[i].id == m
  {
    if |items| == 1 then items[0].id
    else
      var rest := MaxId(items[1..]);
      assert items[1..][0] == items[1];
      if items[0].id >= rest then items[0].id else rest
  }

  /** The counter set from a saved cart exceeds every saved id. */
  lemma RestoredCounterIsFresh(saved: seq<CartItem>)
    requires saved != []
    ensures IdsBelow(saved, MaxId(saved) + 1)
  {
  }

  // ---------------------------------------------------------------------
  // The cart state

  /** The provider's state: the lines, the drawer flag, and the counter of
      line ids (a module-level variable in the source, one per page load). */
  class CartStore {
    var items: seq<CartItem>
    var nextId: int
    var isOpen: bool

    /** The invariant the handlers keep. */
    ghost predicate Valid()
      reads this
    {
      WellFormed(items) && IdsBelow(items, nextId)
    }

    function Count(): int
      reads this
    {
      CartCount(items)
    }

    function Total(): int
      reads this
    {
      CartTotal(items)
    }

    constructor ()
      ensures Valid()
      ensures items == [] && nextId == 1 && !isOpen
    {
      items := [];
      nextId := 1;
      isOpen := false;
    }

    /** The lines read back from storage on mount; a non-empty saved cart
        moves the counter to its largest id plus one. */
    method Restore(saved: seq<CartItem>)
      modifies this
      ensures items == saved && isOpen == old(isOpen)
      ensures nextId == if saved == [] then old(nextId) else MaxId(saved) + 1
      ensures IdsBelow(items, nextId)
      ensures WellFormed(saved) ==> Valid()
    {
      items := saved;
      if saved != [] {
        nextId := MaxId(saved) + 1;
      }
    }

    /** `addToCart`: merge into the product's line or append a fresh line,
        then open the drawer; a non-positive quantity does nothing at all. */
    method AddToCart(product: Product, quantity: int)
      modifies this
      ensures items == AddLine(old(items), old(nextId), product, quantity)
      ensures nextId == if AddsLine(old(items), product, quantity) then old(nextId) + 1 else old(nextId)
      ensures isOpen == (old(isOpen) || quantity > 0)
      ensures old(Valid()) ==> Valid()
      ensures Count() == old(Count()) + (if quantity > 0 then quantity else 0)
    {
      if quantity <= 0 {
        return;
      }
      ghost var before := items;
      ghost var freshId := nextId;
      var k := FindIndexOfProduct(items, product.id);
      if k >= 0 {
        items := items[k := items[k].(quantity := items[k].quantity + quantity)];
      } else {
        items := items + [CartItem(nextId, product, quantity)];
        nextId := nextId + 1;
      }
      isOpen := true;
      CountAfterAdd(before, freshId, product, quantity);
      if WellFormed(before) && IdsBelow(before, freshId) {
        AddKeepsInvariant(before, freshId, product, quantity);
      }
    }

    /** `updateCartItemQuantity` */
    method UpdateCartItemQuantity(itemId: int, quantity: int)
      modifies this
      ensures items == SetQuantity(old(items), itemId, quantity)
      ensures quantity <= 0 ==> items == old(items)
      ensures nextId == old(nextId) && isOpen == old(isOpen)
      ensures old(Valid()) ==> Valid()
    {
      if quantity <= 0 {
        return;
      }
      var prev := items;
      items := seq(|prev|, i requires 0 <= i < |prev| =>
        if prev[i].id == itemId then prev[i].(quantity := quantity) else prev[i]);
      SetQuantityEffect(old(items), itemId, quantity);
    }

    /** `removeFromCart` */
    method RemoveFromCart(itemId: int)
      modifies this
      ensures items == RemoveLines(old(items), itemId)
      ensures nextId == old(nextId) && isOpen == old(isOpen)
      ensures old(Valid()) ==> Valid()
    {
      items := Filter(items, (item: CartItem) => item.id != itemId);
      if WellFormed(old(items)) && IdsBelow(old(items), nextId) {
        RemoveKeepsInvariant(old(items), itemId, nextId);
      }
    }

    /** `clearCart` */
    method ClearCart()
      modifies this
      ensures items == [] && nextId == old(nextId) && isOpen == old(isOpen)
      ensures Valid() && Count() == 0 && Total() == 0
    {
      items := [];
    }

    /** `toggleCart` */
    method ToggleCart()
      modifies this
      ensures isOpen == !old(isOpen)
      ensures items == old(items) && nextId == old(nextId)
    {
      isOpen := !isOpen;
    }
  }
}
