/** The shopping cart: a list of lines keyed by (product id, size), the derived total and
    loyalty points, and the cart object whose methods replace the list. */
module CartContext {
  import opened Common
  import opened ProductsData

  /** One cart line. `size` is optional; an absent size is a key value of its own. */
  datatype CartItem = CartItem(id: string, name: string, price: int, quantity: int, size: Option<string>)

  /** A line has key (id, size); an absent size matches only an absent size. */
  predicate Matches(item: CartItem, id: string, size: Option<string>) {
    item.id == id && item.size == size
  }

  /** No two lines share a key. */
  predicate KeysDistinct(items: seq<CartItem>) {
    forall i, j :: 0 <= i < j < |items| ==> !Matches(items[j], items[i].id, items[i].size)
  }

  function LineAmount(item: CartItem): int {
    item.price * item.quantity
  }

  /** `total`: the left fold of price times quantity over the lines, starting from 0. */
  function Total(items: seq<CartItem>): int {
    if items == [] then 0 else Total(items[..|items| - 1]) + LineAmount(items[|items| - 1])
  }

  /** `pointsToEarn`: one point per 100 yen, rounded down (`Math.floor(total / 100)`). */
  function PointsToEarn(total: int): (points: int)
    ensures points * 100 <= total < points * 100 + 100
  {
    total / 100
  }

  /** `prev.find(...)`: the position of the first line with the key, if any. */
  function FindIndex(items: seq<CartItem>, id: string, size: Option<string>): (r: Option<nat>)
    ensures r.None? <==> forall k :: 0 <= k < |items| ==> !Matches(items[k], id, size)
    ensures r.Some? ==> r.value < |items| && Matches(items[r.value], id, size)
    ensures r.Some? ==> forall k :: 0 <= k < r.value ==> !Matches(items[k], id, size)
  {
    if items == [] then None
    else if Matches(items[0], id, size) then Some(0)
    else match FindIndex(items[1..], id, size)
      case None => None
      case Some(k) => Some(k + 1)
  }

  /** The `map` step of `addToCart`: every line with the key gets `quantity` more. */
  function Bumped(items: seq<CartItem>, id: string, size: Option<string>, quantity: int): seq<CartItem> {
    seq(|items|, k requires 0 <= k < |items| =>
      if Matches(items[k], id, size) then items[k].(quantity := items[k].quantity + quantity) else items[k])
  }

  /** The line `addToCart` appends for a product it has not seen with this size. */
  function NewLine(product: Product, size: Option<string>, quantity: int): CartItem {
    CartItem(product.id, product.name, product.price, quantity, size)
  }

  /** `addToCart`'s update of the list: merge into the existing line, or append a new one. */
  function Added(items: seq<CartItem>, product: Product, size: Option<string>, quantity: int): seq<CartItem> {
    match FindIndex(items, product.id, size)
    case Some(_) => Bumped(items, product.id, size, quantity)
    case None => items + [NewLine(product, size, quantity)]
  }

  /** `removeItem`'s update of the list: keep the lines whose key differs. */
  function Removed(items: seq<CartItem>, id: string, size: Option<string>): seq<CartItem> {
    Filter(items, (p: CartItem) => !Matches(p, id, size))
  }

  /** The unit price `addToCart` adds at: the existing line's for a key already in the
      cart, the product's otherwise. */
  function UnitPriceAdded(items: seq<CartItem>, product: Product, size: Option<string>): int {
    match FindIndex(items, product.id, size)
    case Some(k) => items[k].price
    case None => product.price
  }

  /** `quantity = 1` when the caller gives none; any given quantity is kept as is. */
  function RequestedQuantity(quantity: Option<int>): int {
    match quantity
    case Some(q) => q
    case None => 1
  }

  // ---------------------------------------------------------------------------
  // Total and points

  /** The total of two lists put together is the sum of their totals. */
  lemma {:induction false} TotalOfConcat(a: seq<CartItem>, b: seq<CartItem>)
    ensures Total(a + b) == Total(a) + Total(b)
    decreases |b|
  {
    if b == [] {
      assert a + b == a;
    } else {
      var b' := b[..|b| - 1];
      assert (a + b)[..|a + b| - 1] == a + b';
      TotalOfConcat(a, b');
    }
  }

  /** With no negative price or quantity, the total and the points are never negative. */
  lemma {:induction false} TotalNonNegative(items: seq<CartItem>)
    requires forall k :: 0 <= k < |items| ==> items[k].price >= 0 && items[k].quantity >= 0
    ensures Total(items) >= 0 && PointsToEarn(Total(items)) >= 0
  {
    if items != [] {
      TotalNonNegative(items[..|items| - 1]);
    }
  }

  /** Replacing one line changes the total by the difference of the two line amounts. */
  lemma {:induction false} TotalOfUpdate(items: seq<CartItem>, k: nat, x: CartItem)
    requires k < |items|
    ensures Total(items[k := x]) == Total(items) - LineAmount(items[k]) + LineAmount(x)
    decreases |items|
  {
    var n := |items|;
    if k == n - 1 {
      assert items[k := x][..n - 1] == items[..n - 1];
    } else {
      assert items[k := x][..n - 1] == items[..n - 1][k := x];
      TotalOfUpdate(items[..n - 1], k, x);
    }
  }

  /** An empty cart has total 0 and earns 0 points. */
  lemma EmptyCartTotal()
    ensures Total([]) == 0 && PointsToEarn(Total([])) == 0
  {
  }

  // ---------------------------------------------------------------------------
  // addToCart

  /** Adding a product whose (id, size) is already in the cart keeps the length, raises the
      quantity of the lines with that key by the added quantity and leaves every other line
      as it was; with distinct keys that is the one line found. */
  lemma AddExistingKey(items: seq<CartItem>, product: Product, size: Option<string>, quantity: int, k: nat)
    requires FindIndex(items, product.id, size) == Some(k)
    ensures |Added(items, product, size, quantity)| == |items|
    ensures Added(items, product, size, quantity)[k] == items[k].(quantity := items[k].quantity + quantity)
    ensures forall j :: 0 <= j < |items| && !Matches(items[j], product.id, size) ==>
              Added(items, product, size, quantity)[j] == items[j]
    ensures KeysDistinct(items) ==> Added(items, product, size, quantity) == items[k := items[k].(quantity := items[k].quantity + quantity)]
  {
    var r := Added(items, product, size, quantity);
    if KeysDistinct(items) {
      forall j | 0 <= j < |items| && j != k ensures !Matches(items[j], product.id, size) {
        if j < k {
          assert !Matches(items[k], items[j].id, items[j].size);
        }
      }
    }
  }

  /** Adding a product with a new (id, size) appends exactly one line at the end, built from
      the product, the size and the quantity; earlier lines are untouched. */
  lemma AddNewKey(items: seq<CartItem>, product: Product, size: Option<string>, quantity: int)
    requires FindIndex(items, product.id, size).None?
    ensures |Added(items, product, size, quantity)| == |items| + 1
    ensures Added(items, product, size, quantity)[..|items|] == items
    ensures var line := Added(items, product, size, quantity)[|items|];
            line.id == product.id && line.name == product.name && line.price == product.price &&
            line.size == size && line.quantity == quantity
  {
    assert Added(items, product, size, quantity) == items + [NewLine(product, size, quantity)];
  }

  /** `addToCart` keeps the keys of the cart pairwise distinct. */
  lemma AddPreservesDistinct(items: seq<CartItem>, product: Product, size: Option<string>, quantity: int)
    requires KeysDistinct(items)
    ensures KeysDistinct(Added(items, product, size, quantity))
  {
    var r := Added(items, product, size, quantity);
    match FindIndex(items, product.id, size)
    case Some(k) =>
      forall i, j | 0 <= i < j < |r| ensures !Matches(r[j], r[i].id, r[i].size) {
        assert r[i].id == items[i].id && r[i].size == items[i].size;
        assert r[j].id == items[j].id && r[j].size == items[j].size;
      }
    case None =>
      forall i, j | 0 <= i < j < |r| ensures !Matches(r[j], r[i].id, r[i].size) {
        if j == |items| {
          assert r[i] == items[i];
        } else {
          assert r[i] == items[i] && r[j] == items[j];
        }
      }
  }

  /** Raising a line's quantity by `quantity` raises its amount by its price times `quantity`. */
  lemma LineAmountGrows(line: CartItem, quantity: int)
    ensures LineAmount(line.(quantity := line.quantity + quantity)) == LineAmount(line) + line.price * quantity
  {
    assert line.price * (line.quantity + quantity) == line.price * line.quantity + line.price * quantity;
  }

  /** Merging into the line at `k` raises the total by that line's price times the added
      quantity. */
  lemma {:induction false} AddTotalMerge(items: seq<CartItem>, product: Product, size: Option<string>, quantity: int, k: nat)
    requires KeysDistinct(items) && FindIndex(items, product.id, size) == Some(k)
    ensures Total(Added(items, product, size, quantity)) == Total(items) + items[k].price * quantity
  {
    var old_line := items[k];
    var new_line := old_line.(quantity := old_line.quantity + quantity);
    AddExistingKey(items, product, size, quantity, k);
    assert Added(items, product, size, quantity) == items[k := new_line];
    TotalOfUpdate(items, k, new_line);
    LineAmountGrows(old_line, quantity);
  }

  /** Appending a new line raises the total by the product's price times the quantity. */
  lemma {:induction false} AddTotalAppend(items: seq<CartItem>, product: Product, size: Option<string>, quantity: int)
    requires FindIndex(items, product.id, size).None?
    ensures Total(Added(items, product, size, quantity)) == Total(items) + product.price * quantity
  {
    var line := NewLine(product, size, quantity);
    TotalOfConcat(items, [line]);
    assert Total([line]) == Total([]) + LineAmount(line);
  }

  /** With distinct keys, `addToCart` raises the total by the unit price of the line it
      touches times the added quantity: the existing line's price on a merge, the product's
      price on an append. */
  lemma AddTotal(items: seq<CartItem>, product: Product, size: Option<string>, quantity: int)
    requires KeysDistinct(items)
    ensures Total(Added(items, product, size, quantity)) == Total(items) + UnitPriceAdded(items, product, size) * quantity
  {
    match FindIndex(items, product.id, size)
    case Some(k) => AddTotalMerge(items, product, size, quantity, k);
    case None => AddTotalAppend(items, product, size, quantity);
  }

  // ---------------------------------------------------------------------------
  // removeItem

  /** `removeItem(id, size)` drops exactly the lines with that key (an absent size matches only
      an absent size), keeps the others in order, and does nothing when no line has the key. */
  lemma RemoveExact(items: seq<CartItem>, id: string, size: Option<string>)
    ensures forall x :: x in Removed(items, id, size) <==> x in items && !Matches(x, id, size)
    ensures IsSubsequence(Removed(items, id, size), items)
    ensures FindIndex(items, id, size).None? ==> Removed(items, id, size) == items
  {
    FilterIsSubsequence(items, (p: CartItem) => !Matches(p, id, size));
    if FindIndex(items, id, size).None? {
      forall x | x in items ensures !Matches(x, id, size) {
        var k :| 0 <= k < |items| && items[k] == x;
      }
      FilterKeepingAll(items, (p: CartItem) => !Matches(p, id, size));
    }
  }

  /** A filter keeps the keys of the lines it keeps apart. */
  lemma {:induction false} FilterKeepsKeysDistinct(items: seq<CartItem>, keep: CartItem -> bool)
    requires KeysDistinct(items)
    ensures KeysDistinct(Filter(items, keep))
  {
    if items != [] {
      var rest := items[1..];
      assert KeysDistinct(rest) by {
        forall i, j | 0 <= i < j < |rest| ensures !Matches(rest[j], rest[i].id, rest[i].size) {
          assert rest[i] == items[i + 1] && rest[j] == items[j + 1];
        }
      }
      FilterKeepsKeysDistinct(rest, keep);
      var f := Filter(rest, keep);
      if keep(items[0]) {
        var r := [items[0]] + f;
        assert Filter(items, keep) == r;
        forall i, j | 0 <= i < j < |r| ensures !Matches(r[j], r[i].id, r[i].size) {
          assert r[j] == f[j - 1];
          if i == 0 {
            assert f[j - 1] in f;
            var k :| 0 <= k < |rest| && rest[k] == f[j - 1];
            assert items[k + 1] == rest[k];
          } else {
            assert r[i] == f[i - 1];
          }
        }
      } else {
        assert Filter(items, keep) == f;
      }
    }
  }

  /** `removeItem` keeps the keys of the remaining lines pairwise distinct. */
  lemma RemovedPreservesDistinct(items: seq<CartItem>, id: string, size: Option<string>)
    requires KeysDistinct(items)
    ensures KeysDistinct(Removed(items, id, size))
  {
    FilterKeepsKeysDistinct(items, (p: CartItem) => !Matches(p, id, size));
  }

  /** The cart as the provider holds it: the list of lines, replaced by each operation. */
  class Cart {
    var items: seq<CartItem>

    constructor ()
      ensures items == [] && KeysDistinct(items)
    {
      items := [];
    }

    /** `addToCart(product, { size, quantity })` */
    method AddToCart(product: Product, size: Option<string>, quantity: Option<int>)
      modifies this
      ensures items == Added(old(items), product, size, RequestedQuantity(quantity))
      ensures KeysDistinct(old(items)) ==> KeysDistinct(items)
      ensures KeysDistinct(old(items)) ==>
                Total(items) == Total(old(items)) + UnitPriceAdded(old(items), product, size) * RequestedQuantity(quantity)
    {
      var q := RequestedQuantity(quantity);
      if KeysDistinct(items) {
        AddPreservesDistinct(items, product, size, q);
        AddTotal(items, product, size, q);
      }
      items := Added(items, product, size, q);
    }

    /** `removeItem(id, size)` */
    method RemoveItem(id: string, size: Option<string>)
      modifies this
      ensures items == Removed(old(items), id, size)
      ensures forall x :: x in items <==> x in old(items) && !Matches(x, id, size)
      ensures IsSubsequence(items, old(items))
      ensures KeysDistinct(old(items)) ==> KeysDistinct(items)
    {
      RemoveExact(items, id, size);
      if KeysDistinct(items) {
        RemovedPreservesDistinct(items, id, size);
      }
      items := Removed(items, id, size);
    }

    /** `clearCart()` */
    method ClearCart()
      modifies this
      ensures items == [] && KeysDistinct(items)
      ensures Total(items) == 0 && PointsToEarn(Total(items)) == 0
    {
      items := [];
    }
  }
}
