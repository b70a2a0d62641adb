/**
 * The basket cart shared by the storefront pages: one mutable state cell holding the lines.
 * Every action computes the new lines with a CartLines transformer and commits them to the
 * cell; the totals are read from the committed lines.
 */
module CartContext {
  import opened Wrappers
  import opened CartLines

  /** The cart provider's state cell `items` and the operations it hands to its consumers. */
  class CartProvider {
    var items: seq<CartItem>

    /** The first render: the snapshot saved in local storage when there is one, else empty.
        Reading and parsing the snapshot is outside this model; `saved` is its parsed value. */
    constructor (saved: Option<seq<CartItem>>)
      ensures items == if saved.Some? then saved.value else []
    {
      items := if saved.Some? then saved.value else [];
    }

    /** `addItem(basket, quantity)`. */
    method AddItem(product: Product, quantity: int)
      modifies this
      ensures items == CartLines.AddItem(old(items), product, quantity)
      ensures UniqueIds(old(items)) ==> UniqueIds(items) && TotalItems(items) == TotalItems(old(items)) + quantity
      ensures WellFormed(old(items)) && quantity >= 1 ==> WellFormed(items)
    {
      if UniqueIds(items) {
        AddItemTotals(items, product, quantity);
      }
      AddItemKeepsInvariant(items, product, quantity);
      items := CartLines.AddItem(items, product, quantity);
    }

    /** `removeItem(basketId)`. */
    method RemoveItem(id: string)
      modifies this
      ensures items == Remove(old(items), id)
      ensures WellFormed(old(items)) ==> WellFormed(items)
    {
      RemoveKeepsInvariant(items, id);
      items := Remove(items, id);
    }

    /** `updateQuantity(basketId, quantity)`; below 1 it is `removeItem(basketId)`. */
    method UpdateQuantity(id: string, quantity: int)
      modifies this
      ensures items == CartLines.UpdateQuantity(old(items), id, quantity)
      ensures quantity < 1 ==> items == Remove(old(items), id)
      ensures WellFormed(old(items)) ==> WellFormed(items)
    {
      UpdateQuantityKeepsInvariant(items, id, quantity);
      if quantity < 1 {
        RemoveItem(id);
        return;
      }
      items := SetQuantity(items, id, quantity);
    }

    /** `clearCart()`: both totals are 0 afterwards. */
    method ClearCart()
      modifies this
      ensures items == []
      ensures TotalPrice(items) == 0 && TotalItems(items) == 0
    {
      items := [];
    }

    /** `getTotalPrice()`. */
    method GetTotalPrice() returns (total: int)
      ensures total == Sum(items, LineTotal)
    {
      total := TotalPrice(items);
    }

    /** `getTotalItems()`. */
    method GetTotalItems() returns (count: int)
      ensures count == Sum(items, Quantity)
    {
      count := TotalItems(items);
    }
  }

  // ---- any run of actions ----

  /** One user action on the cart. */
  datatype CartAction =
    | Add(product: Product, quantity: int)
    | RemoveLine(id: string)
    | Update(id: string, quantity: int)
    | Clear

  /** The lines an action commits, given the lines before it. */
  function Step(items: seq<CartItem>, action: CartAction): seq<CartItem> {
    match action
    case Add(p, n) => CartLines.AddItem(items, p, n)
    case RemoveLine(id) => Remove(items, id)
    case Update(id, n) => CartLines.UpdateQuantity(items, id, n)
    case Clear => []
  }

  /** The lines after the actions, applied in order. */
  function Replay(items: seq<CartItem>, actions: seq<CartAction>): seq<CartItem>
    decreases |actions|
  {
    if actions == [] then items else Replay(Step(items, actions[0]), actions[1..])
  }

  /** Every `addItem` in the run passes a quantity of at least 1, as the basket pages do. */
  predicate PositiveAdds(actions: seq<CartAction>) {
    forall i :: 0 <= i < |actions| && actions[i].Add? ==> actions[i].quantity >= 1
  }

  /** Whatever actions run, a cart with one line per id keeps one line per id. */
  lemma {:induction false} ReplayKeepsUniqueIds(items: seq<CartItem>, actions: seq<CartAction>)
    requires UniqueIds(items)
    ensures UniqueIds(Replay(items, actions))
    decreases |actions|
  {
    if actions != [] {
      var next := Step(items, actions[0]);
      match actions[0] {
        case Add(p, n) => AddItemKeepsInvariant(items, p, n);
        case RemoveLine(id) => RemoveKeepsInvariant(items, id);
        case Update(id, n) => UpdateQuantityKeepsInvariant(items, id, n);
        case Clear =>
      }
      ReplayKeepsUniqueIds(next, actions[1..]);
    }
  }

  /** With positive `addItem` quantities the whole invariant holds after any run. */
  lemma {:induction false} ReplayKeepsWellFormed(items: seq<CartItem>, actions: seq<CartAction>)
    requires WellFormed(items) && PositiveAdds(actions)
    ensures WellFormed(Replay(items, actions))
    decreases |actions|
  {
    if actions != [] {
      var next := Step(items, actions[0]);
      match actions[0] {
        case Add(p, n) => AddItemKeepsInvariant(items, p, n);
        case RemoveLine(id) => RemoveKeepsInvariant(items, id);
        case Update(id, n) => UpdateQuantityKeepsInvariant(items, id, n);
        case Clear =>
      }
      assert PositiveAdds(actions[1..]) by {
        forall i | 0 <= i < |actions[1..]| && actions[1..][i].Add? ensures actions[1..][i].quantity >= 1 {
          assert actions[1..][i] == actions[i + 1];
        }
      }
      ReplayKeepsWellFormed(next, actions[1..]);
    }
  }

  /** Starting from the empty cart: one line per id always, and quantities of at least 1
      whenever every `addItem` passed at least 1. */
  lemma FromEmptyCart(actions: seq<CartAction>)
    ensures UniqueIds(Replay([], actions))
    ensures PositiveAdds(actions) ==> WellFormed(Replay([], actions))
  {
    ReplayKeepsUniqueIds([], actions);
    if PositiveAdds(actions) {
      ReplayKeepsWellFormed([], actions);
    }
  }

  /** A basket at 1000 added twice (2, then 1) is one line of 3 costing 3000; removing it
      leaves an empty cart with total 0. */
  lemma MergeThenRemoveScenario(p1: Product)
    requires p1.price == 1000
    ensures Replay([], [Add(p1, 2), Add(p1, 1)]) == [CartItem(p1, 3)]
    ensures TotalPrice(Replay([], [Add(p1, 2), Add(p1, 1)])) == 3000
    ensures Replay([], [Add(p1, 2), Add(p1, 1), RemoveLine(p1.id)]) == []
    ensures TotalPrice(Replay([], [Add(p1, 2), Add(p1, 1), RemoveLine(p1.id)])) == 0
  {
    var a := [Add(p1, 2), Add(p1, 1)];
    var b := a + [RemoveLine(p1.id)];
    var one := Step([], a[0]);
    assert one == [CartItem(p1, 2)];
    assert HasId(one, p1.id) by { assert one[0].product.id == p1.id; }
    var two := Step(one, a[1]);
    assert two == [CartItem(p1, 3)];
    assert Replay([], a) == Replay(one, a[1..]);
    assert Replay(one, a[1..]) == Replay(two, a[1..][1..]);
    assert a[1..][1..] == [];
    assert b[0] == a[0] && b[1..][0] == a[1];
    assert Replay([], b) == Replay(one, b[1..]);
    assert Replay(one, b[1..]) == Replay(two, b[1..][1..]);
    assert b[1..][1..] == [RemoveLine(p1.id)];
    assert Step(two, RemoveLine(p1.id)) == [] by {
      RemoveUnfold(two, p1.id);
      assert two[1..] == [];
    }
    assert Replay(two, [RemoveLine(p1.id)]) == Replay([], [RemoveLine(p1.id)][1..]);
    calc {
      TotalPrice([CartItem(p1, 3)]);
      Sum([CartItem(p1, 3)], LineTotal);
      LineTotal(CartItem(p1, 3)) + Sum([], LineTotal);
    }
  }

}
