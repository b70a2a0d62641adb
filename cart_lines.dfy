/**
 * The line algebra of a cart: a sequence of (product, quantity) lines keyed by product id,
 * the pure transformers an action commits to the cart (`find`/`map`/`filter`/spread in the
 * storefront code) and the two totals (`reduce` folds). The basket cart and the custom basket
 * selection both run on it.
 */
module CartLines {
  import opened Wrappers
  import opened Seqs

  /** The snapshot of a catalogue product a line keeps: the fields the cart logic reads. */
  datatype Product = Product(id: string, name: string, price: int)

  /** One cart line. The quantity is whatever the caller passed: nothing validates it. */
  datatype CartItem = CartItem(product: Product, quantity: int)

  /** Some line carries the product id `id`. */
  ghost predicate HasId(items: seq<CartItem>, id: string) {
    exists i :: 0 <= i < |items| && items[i].product.id == id
  }

  /** No two lines carry the same product id. */
  ghost predicate UniqueIds(items: seq<CartItem>) {
    forall i, j :: 0 <= i < j < |items| ==> items[i].product.id != items[j].product.id
  }

  /** The cart invariant: one line per product id and every quantity at least 1. */
  ghost predicate WellFormed(items: seq<CartItem>) {
    UniqueIds(items) && forall i :: 0 <= i < |items| ==> items[i].quantity >= 1
  }

  lemma HasIdTail(items: seq<CartItem>, id: string)
    requires items != []
    ensures HasId(items, id) <==> items[0].product.id == id || HasId(items[1..], id)
  {
    if HasId(items[1..], id) {
      var i :| 0 <= i < |items[1..]| && items[1..][i].product.id == id;
      assert items[i + 1].product.id == id;
    }
  }

  lemma UniqueIdsTail(items: seq<CartItem>)
    requires items != [] && UniqueIds(items)
    ensures UniqueIds(items[1..]) && !HasId(items[1..], items[0].product.id)
  {
  }

  /** `items.find(item => item.product.id === id)`: the first line with that id, if any. */
  function Find(items: seq<CartItem>, id: string): (r: Option<CartItem>)
    ensures r.Some? <==> HasId(items, id)
    ensures r.Some? ==> r.value in items && r.value.product.id == id
    ensures r.Some? ==> exists k :: 0 <= k < |items| && items[k] == r.value &&
                          forall j :: 0 <= j < k ==> items[j].product.id != id
  {
    if items == [] then None
    else
      HasIdTail(items, id);
      if items[0].product.id == id then Some(items[0])
      else
        var r := Find(items[1..], id);
        assert r.Some? ==> exists k :: 1 <= k < |items| && items[k] == r.value &&
                              forall j :: 0 <= j < k ==> items[j].product.id != id by {
          if r.Some? {
            var k :| 0 <= k < |items[1..]| && items[1..][k] == r.value &&
                     forall j :: 0 <= j < k ==> items[1..][j].product.id != id;
            assert items[k + 1] == r.value;
            assert forall j :: 0 <= j < k + 1 ==> items[j].product.id != id by {
              forall j | 0 <= j < k + 1 ensures items[j].product.id != id {
                if j > 0 { assert items[j] == items[1..][j - 1]; }
              }
            }
          }
        }
        r
  }

  /** The line-by-line rewrite `addItem` commits when the id is present: every line with
      that id gets `delta` more, all other lines stay as they are. */
  function Bump(items: seq<CartItem>, id: string, delta: int): (r: seq<CartItem>)
    ensures |r| == |items|
    ensures forall i :: 0 <= i < |items| ==> r[i].product == items[i].product
    ensures forall i :: 0 <= i < |items| ==>
              r[i].quantity == if items[i].product.id == id then items[i].quantity + delta else items[i].quantity
  {
    if items == [] then []
    else
      var head := if items[0].product.id == id then items[0].(quantity := items[0].quantity + delta) else items[0];
      [head] + Bump(items[1..], id, delta)
  }

  /** `addItem(product, quantity)`: merge into the existing line, which keeps its own product
      snapshot, or append a new line at the end. */
  function AddItem(items: seq<CartItem>, product: Product, quantity: int): (r: seq<CartItem>)
    ensures HasId(items, product.id) ==>
              |r| == |items| &&
              forall i :: 0 <= i < |items| ==>
                r[i].product == items[i].product &&
                r[i].quantity == items[i].quantity + (if items[i].product.id == product.id then quantity else 0)
    ensures !HasId(items, product.id) ==> r == items + [CartItem(product, quantity)]
  {
    if Find(items, product.id).Some? then Bump(items, product.id, quantity)
    else items + [CartItem(product, quantity)]
  }

  /** `items.filter(item => item.product.id !== id)`. */
  function Remove(items: seq<CartItem>, id: string): (r: seq<CartItem>)
    ensures forall x :: x in r <==> x in items && x.product.id != id
    ensures IsSubsequence(r, items)
    ensures !HasId(r, id)
    ensures !HasId(items, id) ==> r == items
  {
    if items == [] then []
    else
      HasIdTail(items, id);
      var rest := Remove(items[1..], id);
      if items[0].product.id == id then
        assert IsSubsequence(rest, items) by {
          if rest != [] { assert items[1..] == items[1..]; }
        }
        rest
      else
        var r := [items[0]] + rest;
        assert r[1..] == rest;
        assert !HasId(r, id) by { HasIdTail(r, id); }
        r
  }

  /** `Remove` keeps every line whose id differs as many times as it occurs, and no other line. */
  lemma {:induction false} RemoveCounts(items: seq<CartItem>, id: string)
    ensures forall x :: multiset(Remove(items, id))[x] == if x.product.id != id then multiset(items)[x] else 0
    decreases |items|
  {
    if items != [] {
      RemoveCounts(items[1..], id);
      RemoveUnfold(items, id);
      assert multiset(items) == multiset{items[0]} + multiset(items[1..]) by {
        assert items == [items[0]] + items[1..];
      }
    }
  }

  /** The line-by-line rewrite `updateQuantity` commits for a quantity of at least 1. */
  function SetQuantity(items: seq<CartItem>, id: string, quantity: int): (r: seq<CartItem>)
    ensures |r| == |items|
    ensures forall i :: 0 <= i < |items| ==> r[i].product == items[i].product
    ensures forall i :: 0 <= i < |items| ==>
              r[i].quantity == if items[i].product.id == id then quantity else items[i].quantity
  {
    if items == [] then []
    else
      var head := if items[0].product.id == id then items[0].(quantity := quantity) else items[0];
      [head] + SetQuantity(items[1..], id, quantity)
  }

  /** `updateQuantity(id, quantity)`: a quantity below 1 removes the line; otherwise only the
      lines with that id take the new quantity. An absent id leaves the cart as it is. */
  function UpdateQuantity(items: seq<CartItem>, id: string, quantity: int): (r: seq<CartItem>)
    ensures quantity < 1 ==> r == Remove(items, id)
    ensures quantity >= 1 ==>
              |r| == |items| &&
              forall i :: 0 <= i < |items| ==>
                r[i].product == items[i].product &&
                r[i].quantity == if items[i].product.id == id then quantity else items[i].quantity
    ensures !HasId(items, id) ==> r == items
  {
    if quantity < 1 then Remove(items, id)
    else
      var r := SetQuantity(items, id, quantity);
      assert !HasId(items, id) ==> r == items by {
        if !HasId(items, id) {
          assert forall i :: 0 <= i < |items| ==> r[i] == items[i];
        }
      }
      r
  }

  /** `updateQuantity` with the same arguments twice is the same as once. */
  lemma UpdateQuantityIdempotent(items: seq<CartItem>, id: string, quantity: int)
    ensures UpdateQuantity(UpdateQuantity(items, id, quantity), id, quantity) == UpdateQuantity(items, id, quantity)
  {
    var once := UpdateQuantity(items, id, quantity);
    var twice := UpdateQuantity(once, id, quantity);
    if quantity >= 1 {
      assert forall i :: 0 <= i < |once| ==> twice[i] == once[i];
    }
  }

  // ---- totals ----

  /** What one line adds to `getTotalPrice`. */
  function LineTotal(item: CartItem): int {
    item.product.price * item.quantity
  }

  /** What one line adds to `getTotalItems`. */
  function Quantity(item: CartItem): int {
    item.quantity
  }

  /** `items.reduce((total, item) => total + f(item), acc)`: a left fold. */
  function Reduce(acc: int, items: seq<CartItem>, f: CartItem -> int): int
    decreases |items|
  {
    if items == [] then acc else Reduce(acc + f(items[0]), items[1..], f)
  }

  /** The sum of `f` over the lines: the reference sum the folds are proved equal to. */
  function Sum(items: seq<CartItem>, f: CartItem -> int): int
    decreases |items|
  {
    if items == [] then 0 else f(items[0]) + Sum(items[1..], f)
  }

  lemma {:induction false} ReduceIsSum(acc: int, items: seq<CartItem>, f: CartItem -> int)
    ensures Reduce(acc, items, f) == acc + Sum(items, f)
    decreases |items|
  {
    if items != [] {
      ReduceIsSum(acc + f(items[0]), items[1..], f);
    }
  }

  lemma {:induction false} SumAppend(a: seq<CartItem>, b: seq<CartItem>, f: CartItem -> int)
    ensures Sum(a + b, f) == Sum(a, f) + Sum(b, f)
    decreases |a|
  {
    if a == [] {
      assert a + b == b;
    } else {
      assert (a + b)[0] == a[0];
      assert (a + b)[1..] == a[1..] + b;
      SumAppend(a[1..], b, f);
    }
  }

  /** `getTotalPrice()`: the sum of price times quantity over the lines. */
  function TotalPrice(items: seq<CartItem>): (r: int)
    ensures r == Sum(items, LineTotal)
  {
    ReduceIsSum(0, items, LineTotal);
    Reduce(0, items, LineTotal)
  }

  /** `getTotalItems()`: the sum of the quantities. */
  function TotalItems(items: seq<CartItem>): (r: int)
    ensures r == Sum(items, Quantity)
  {
    ReduceIsSum(0, items, Quantity);
    Reduce(0, items, Quantity)
  }

  // ---- the cart invariant under each transformer ----

  lemma {:induction false} BumpAbsent(items: seq<CartItem>, id: string, delta: int)
    requires !HasId(items, id)
    ensures Bump(items, id, delta) == items
  {
    var r := Bump(items, id, delta);
    assert forall i :: 0 <= i < |items| ==> r[i] == items[i];
  }

  /** Merging into the one line with that id adds `delta` to the item count and `delta` times
      the price stored on that line (not the price passed in) to the total price. */
  lemma {:induction false} BumpTotals(items: seq<CartItem>, id: string, delta: int)
    requires UniqueIds(items) && HasId(items, id)
    ensures Sum(Bump(items, id, delta), Quantity) == Sum(items, Quantity) + delta
    ensures Sum(Bump(items, id, delta), LineTotal) == Sum(items, LineTotal) + delta * Find(items, id).value.product.price
    decreases |items|
  {
    var r := Bump(items, id, delta);
    UniqueIdsTail(items);
    HasIdTail(items, id);
    assert r[1..] == Bump(items[1..], id, delta);
    if items[0].product.id == id {
      BumpAbsent(items[1..], id, delta);
      assert r[0] == items[0].(quantity := items[0].quantity + delta);
      calc {
        LineTotal(r[0]);
        items[0].product.price * (items[0].quantity + delta);
        LineTotal(items[0]) + delta * items[0].product.price;
      }
    } else {
      BumpTotals(items[1..], id, delta);
      assert Find(items, id) == Find(items[1..], id);
    }
  }

  /** `addItem(product, n)` raises `getTotalItems` by exactly `n`, merged or appended; the price
      total grows by `n` times the price of the stored snapshot when the line existed. */
  lemma AddItemTotals(items: seq<CartItem>, product: Product, quantity: int)
    requires UniqueIds(items)
    ensures TotalItems(AddItem(items, product, quantity)) == TotalItems(items) + quantity
    ensures TotalPrice(AddItem(items, product, quantity)) ==
            TotalPrice(items) + quantity * (if HasId(items, product.id) then Find(items, product.id).value.product.price else product.price)
  {
    if HasId(items, product.id) {
      BumpTotals(items, product.id, quantity);
    } else {
      var line := CartItem(product, quantity);
      SumAppend(items, [line], Quantity);
      SumAppend(items, [line], LineTotal);
      assert LineTotal(line) == quantity * product.price;
    }
  }

  /** Removing the one line at index `k` leaves the lines before and after it, in order. */
  lemma {:induction false} RemoveAt(items: seq<CartItem>, k: nat)
    requires UniqueIds(items) && k < |items|
    ensures Remove(items, items[k].product.id) == items[..k] + items[k + 1..]
    decreases k
  {
    var id := items[k].product.id;
    var rest := items[1..];
    UniqueIdsTail(items);
    RemoveUnfold(items, id);
    if k == 0 {
      assert Remove(items, id) == Remove(rest, id);
      assert items[..0] + items[1..] == rest;
    } else {
      assert items[0].product.id != id;
      assert rest[k - 1] == items[k];
      RemoveAt(rest, k - 1);
      assert items[..k] + items[k + 1..] == [items[0]] + (rest[..k - 1] + rest[k..]);
    }
  }

  lemma RemoveUnfold(items: seq<CartItem>, id: string)
    requires items != []
    ensures Remove(items, id) ==
            if items[0].product.id == id then Remove(items[1..], id) else [items[0]] + Remove(items[1..], id)
  {
  }

  /** Removing the one line at index `k` lowers every total by exactly that line's share. */
  lemma RemoveTotals(items: seq<CartItem>, k: nat, f: CartItem -> int)
    requires UniqueIds(items) && k < |items|
    ensures Sum(Remove(items, items[k].product.id), f) == Sum(items, f) - f(items[k])
  {
    RemoveAt(items, k);
    SumWithout(items, k, f);
  }

  lemma SumWithout(items: seq<CartItem>, k: nat, f: CartItem -> int)
    requires k < |items|
    ensures Sum(items[..k] + items[k + 1..], f) == Sum(items, f) - f(items[k])
  {
    var before, line, after := items[..k], items[k], items[k + 1..];
    assert items == before + ([line] + after);
    SumAppend(before, [line] + after, f);
    SumAppend(before, after, f);
    assert Sum([line] + after, f) == f(line) + Sum(after, f) by {
      assert ([line] + after)[1..] == after;
    }
  }

  /** A line-by-line rewrite that keeps every product keeps the ids unique. */
  lemma SameProductsKeepUniqueIds(items: seq<CartItem>, r: seq<CartItem>)
    requires UniqueIds(items) && |r| == |items|
    requires forall i :: 0 <= i < |items| ==> r[i].product == items[i].product
    ensures UniqueIds(r)
  {
    forall i, j | 0 <= i < j < |r| ensures r[i].product.id != r[j].product.id {
      assert r[i].product == items[i].product && r[j].product == items[j].product;
    }
  }

  lemma {:induction false} RemoveKeepsUniqueIds(items: seq<CartItem>, id: string)
    requires UniqueIds(items)
    ensures UniqueIds(Remove(items, id))
    decreases |items|
  {
    if items != [] {
      UniqueIdsTail(items);
      RemoveKeepsUniqueIds(items[1..], id);
      var rest := Remove(items[1..], id);
      if items[0].product.id != id {
        var r := [items[0]] + rest;
        forall i, j | 0 <= i < j < |r| ensures r[i].product.id != r[j].product.id {
          if i == 0 {
            assert r[j] == rest[j - 1];
            assert rest[j - 1] in items[1..];
            var m :| 0 <= m < |items[1..]| && items[1..][m] == rest[j - 1];
            assert items[m + 1] == r[j];
          } else {
            assert r[i] == rest[i - 1] && r[j] == rest[j - 1];
          }
        }
      }
    }
  }

  /** `addItem` keeps one line per id; with a quantity of at least 1 it keeps the whole invariant. */
  lemma AddItemKeepsInvariant(items: seq<CartItem>, product: Product, quantity: int)
    ensures UniqueIds(items) ==> UniqueIds(AddItem(items, product, quantity))
    ensures WellFormed(items) && quantity >= 1 ==> WellFormed(AddItem(items, product, quantity))
  {
    var r := AddItem(items, product, quantity);
    if UniqueIds(items) {
      if HasId(items, product.id) {
        SameProductsKeepUniqueIds(items, r);
      } else {
        forall i, j | 0 <= i < j < |r| ensures r[i].product.id != r[j].product.id {
          if j == |items| {
            assert r[i] == items[i];
          } else {
            assert r[i] == items[i] && r[j] == items[j];
          }
        }
      }
    }
  }

  /** `removeItem` keeps the invariant. */
  lemma RemoveKeepsInvariant(items: seq<CartItem>, id: string)
    ensures UniqueIds(items) ==> UniqueIds(Remove(items, id))
    ensures WellFormed(items) ==> WellFormed(Remove(items, id))
  {
    var r := Remove(items, id);
    if UniqueIds(items) {
      RemoveKeepsUniqueIds(items, id);
    }
    if WellFormed(items) {
      forall i | 0 <= i < |r| ensures r[i].quantity >= 1 {
        assert r[i] in items;
      }
    }
  }

  /** `updateQuantity` keeps the invariant, whatever the quantity passed. */
  lemma UpdateQuantityKeepsInvariant(items: seq<CartItem>, id: string, quantity: int)
    ensures UniqueIds(items) ==> UniqueIds(UpdateQuantity(items, id, quantity))
    ensures WellFormed(items) ==> WellFormed(UpdateQuantity(items, id, quantity))
  {
    if quantity < 1 {
      RemoveKeepsInvariant(items, id);
    } else if UniqueIds(items) {
      SameProductsKeepUniqueIds(items, UpdateQuantity(items, id, quantity));
    }
  }

}
