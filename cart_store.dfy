/** The shopping cart: a sequence of (product, quantity) lines in the
    order products were first added, the two updates the storefront
    applies to it, and the two sums it displays. */
module CartStore {
  import Seqs
  import opened Catalog

  datatype Option<T> = None | Some(value: T)

  /** One cart entry. The quantity is a JavaScript number, so it is an
      `int` here; the cart invariant is what keeps it positive. */
  datatype CartLine = CartLine(product: Product, quantity: int)

  /** At most one line per product id. */
  predicate UniqueIds(cart: seq<CartLine>) {
    forall i, j :: 0 <= i < j < |cart| ==> cart[i].product.id != cart[j].product.id
  }

  /** Every line holds at least one item. */
  predicate AllPositive(cart: seq<CartLine>) {
    forall i :: 0 <= i < |cart| ==> cart[i].quantity > 0
  }

  /** The cart invariant the two updates maintain. */
  predicate ValidCart(cart: seq<CartLine>) {
    UniqueIds(cart) && AllPositive(cart)
  }

  /** No line is for product `id`. */
  predicate Lacks(cart: seq<CartLine>, id: int) {
    forall i :: 0 <= i < |cart| ==> cart[i].product.id != id
  }

  /** The first line for product `id`, as `Array.prototype.find` returns it. */
  function Find(cart: seq<CartLine>, id: int): (r: Option<CartLine>)
    ensures r.None? <==> Lacks(cart, id)
    ensures r.Some? ==> exists i :: 0 <= i < |cart| && cart[i] == r.value && r.value.product.id == id &&
                                   Lacks(cart[..i], id)
    decreases |cart|
  {
    if cart == [] then None
    else if cart[0].product.id == id then
      assert Lacks(cart[..0], id);
      Some(cart[0])
    else
      var r := Find(cart[1..], id);
      assert r.Some? ==> exists i :: 0 <= i < |cart| - 1 && cart[1..][i] == r.value && Lacks(cart[1..][..i], id);
      assert forall i :: 0 <= i < |cart| - 1 ==> cart[..i + 1] == [cart[0]] + cart[1..][..i];
      r
  }

  /** A line with its quantity passed through `f` when it is for product `id`. */
  function Retally(line: CartLine, id: int, f: int -> int): CartLine {
    if line.product.id == id then line.(quantity := f(line.quantity)) else line
  }

  /** The `cart.map(...)` that rewrites the quantity of the lines for `id`. */
  function MapQuantity(cart: seq<CartLine>, id: int, f: int -> int): (r: seq<CartLine>)
    ensures |r| == |cart|
    ensures forall i :: 0 <= i < |cart| ==> r[i] == Retally(cart[i], id, f)
    decreases |cart|
  {
    if cart == [] then [] else [Retally(cart[0], id, f)] + MapQuantity(cart[1..], id, f)
  }

  function Max(a: int, b: int): int {
    if a < b then b else a
  }

  /** `quantity + 1`, as adding a product already in the cart applies it. */
  const Increment: int -> int := (q: int) => q + 1

  /** `Math.max(0, quantity + change)`. */
  function ClampedAdd(change: int): int -> int {
    (q: int) => Max(0, q + change)
  }

  /** The `filter(item => item.quantity > 0)` test. */
  const InStock: CartLine -> bool := (line: CartLine) => line.quantity > 0

  /** The cart after `addToCart(product)`: the product now has a line, the
      lines already there keep their products and their places, and a
      line is appended exactly when the product had none. */
  function Add(cart: seq<CartLine>, product: Product): (r: seq<CartLine>)
    ensures !Lacks(r, product.id)
    ensures |r| == if Lacks(cart, product.id) then |cart| + 1 else |cart|
    ensures forall i :: 0 <= i < |cart| ==> r[i].product == cart[i].product
  {
    if Find(cart, product.id).Some? then
      var r := MapQuantity(cart, product.id, Increment);
      assert exists i :: 0 <= i < |cart| && cart[i].product.id == product.id;
      r
    else
      var r := cart + [CartLine(product, 1)];
      assert r[|cart|].product.id == product.id;
      r
  }

  /** The cart after `updateQuantity(id, change)`: no line it keeps is empty. */
  function Update(cart: seq<CartLine>, id: int, change: int): (r: seq<CartLine>)
    ensures AllPositive(r)
  {
    Seqs.Filter(MapQuantity(cart, id, ClampedAdd(change)), InStock)
  }

  function Subtotal(line: CartLine): int {
    line.product.price * line.quantity
  }

  function Quantity(line: CartLine): int {
    line.quantity
  }

  /** `getTotalPrice()`: the sum of price times quantity over the lines,
      0 for the empty cart and never negative while the quantities are
      positive. */
  function TotalPrice(cart: seq<CartLine>): (total: int)
    ensures cart == [] ==> total == 0
    ensures AllPositive(cart) ==> total >= 0
  {
    SubtotalsNonNegative(cart);
    Seqs.Sum(cart, Subtotal)
  }

  /** The cart badge: the sum of the quantities, at least one per line
      while the quantities are positive. */
  function ItemCount(cart: seq<CartLine>): (count: int)
    ensures cart == [] ==> count == 0
    ensures AllPositive(cart) ==> count >= |cart| && (count == 0 <==> cart == [])
  {
    QuantitiesCountLines(cart);
    Seqs.Sum(cart, Quantity)
  }

  lemma SubtotalsNonNegative(cart: seq<CartLine>)
    ensures AllPositive(cart) ==> Seqs.Sum(cart, Subtotal) >= 0
  {
    if AllPositive(cart) {
      assert forall i :: 0 <= i < |cart| ==> Subtotal(cart[i]) >= 0;
      Seqs.SumOfNonNegatives(cart, Subtotal);
    }
  }

  lemma QuantitiesCountLines(cart: seq<CartLine>)
    ensures AllPositive(cart) ==>
      Seqs.Sum(cart, Quantity) >= |cart| && (Seqs.Sum(cart, Quantity) == 0 <==> cart == [])
  {
    if AllPositive(cart) {
      Seqs.SumOfPositives(cart, Quantity);
    }
  }

  /** Every line for product `id` holds exactly `product` (true of a cart
      filled from a catalog whose ids are unique). */
  predicate AgreesWith(cart: seq<CartLine>, product: Product) {
    forall i :: 0 <= i < |cart| && cart[i].product.id == product.id ==> cart[i].product == product
  }

  /** The only line for `id` in a cart with unique ids is the one at `k`. */
  lemma MapQuantityAt(cart: seq<CartLine>, id: int, f: int -> int, k: nat)
    requires UniqueIds(cart) && k < |cart| && cart[k].product.id == id
    ensures MapQuantity(cart, id, f) == cart[k := cart[k].(quantity := f(cart[k].quantity))]
  {
  }

  /** A cart with no line for `id` is left as it is by the map. */
  lemma MapQuantityMissing(cart: seq<CartLine>, id: int, f: int -> int)
    requires Lacks(cart, id)
    ensures MapQuantity(cart, id, f) == cart
  {
  }

  /** Adding a product with no line appends one line `(product, 1)` at the end. */
  lemma AddNew(cart: seq<CartLine>, product: Product)
    requires Lacks(cart, product.id)
    ensures Add(cart, product) == cart + [CartLine(product, 1)]
  {
  }

  /** Adding a product that has a line raises that line's quantity by one
      and changes nothing else. */
  lemma AddExisting(cart: seq<CartLine>, product: Product, k: nat)
    requires UniqueIds(cart) && k < |cart| && cart[k].product.id == product.id
    ensures Add(cart, product) == cart[k := CartLine(cart[k].product, cart[k].quantity + 1)]
  {
    assert !Lacks(cart, product.id);
    assert Add(cart, product) == MapQuantity(cart, product.id, Increment);
    MapQuantityAt(cart, product.id, Increment, k);
    assert cart[k].(quantity := Increment(cart[k].quantity)) == CartLine(cart[k].product, cart[k].quantity + 1);
  }

  /** Adding keeps one line per id and every quantity positive. */
  lemma AddPreservesValid(cart: seq<CartLine>, product: Product)
    requires ValidCart(cart)
    ensures ValidCart(Add(cart, product))
  {
    if Lacks(cart, product.id) {
      AddNew(cart, product);
    } else {
      var k :| 0 <= k < |cart| && cart[k].product.id == product.id;
      AddExisting(cart, product, k);
    }
  }

  /** Adding a product raises the total by its price and the badge by one. */
  lemma AddTotals(cart: seq<CartLine>, product: Product)
    requires ValidCart(cart) && AgreesWith(cart, product)
    ensures TotalPrice(Add(cart, product)) == TotalPrice(cart) + product.price
    ensures ItemCount(Add(cart, product)) == ItemCount(cart) + 1
  {
    if Lacks(cart, product.id) {
      AddNew(cart, product);
      AppendTotals(cart, CartLine(product, 1));
    } else {
      var k :| 0 <= k < |cart| && cart[k].product.id == product.id;
      AddExisting(cart, product, k);
      BumpTotals(cart, k);
    }
  }

  lemma AppendTotals(cart: seq<CartLine>, line: CartLine)
    ensures TotalPrice(cart + [line]) == TotalPrice(cart) + Subtotal(line)
    ensures ItemCount(cart + [line]) == ItemCount(cart) + line.quantity
  {
    Seqs.SumAppend(cart, [line], Subtotal);
    Seqs.SumAppend(cart, [line], Quantity);
  }

  lemma BumpTotals(cart: seq<CartLine>, k: nat)
    requires k < |cart|
    ensures var bumped := cart[k := CartLine(cart[k].product, cart[k].quantity + 1)];
      TotalPrice(bumped) == TotalPrice(cart) + cart[k].product.price &&
      ItemCount(bumped) == ItemCount(cart) + 1
  {
    var line := CartLine(cart[k].product, cart[k].quantity + 1);
    Seqs.SumUpdate(cart, k, line, Subtotal);
    assert Subtotal(line) == Subtotal(cart[k]) + cart[k].product.price;
    Seqs.SumUpdate(cart, k, line, Quantity);
  }

  /** For the line `k` of product `id`, `updateQuantity(id, change)` sets its
      quantity to `max(0, q + change)`, or removes the line when that is 0;
      every other line keeps its quantity and its place. */
  lemma UpdateExisting(cart: seq<CartLine>, id: int, change: int, k: nat)
    requires ValidCart(cart) && k < |cart| && cart[k].product.id == id
    ensures var q := Max(0, cart[k].quantity + change);
      Update(cart, id, change) ==
        if q > 0 then cart[k := cart[k].(quantity := q)] else cart[..k] + cart[k + 1..]
  {
    var line := cart[k].(quantity := Max(0, cart[k].quantity + change));
    MapClampedAt(cart, id, change, k);
    FilterReplaced(cart, k, line);
  }

  lemma MapClampedAt(cart: seq<CartLine>, id: int, change: int, k: nat)
    requires UniqueIds(cart) && k < |cart| && cart[k].product.id == id
    ensures MapQuantity(cart, id, ClampedAdd(change)) ==
      cart[k := cart[k].(quantity := Max(0, cart[k].quantity + change))]
  {
    MapQuantityAt(cart, id, ClampedAdd(change), k);
    assert ClampedAdd(change)(cart[k].quantity) == Max(0, cart[k].quantity + change);
  }

  /** The stock filter on a cart of non-empty lines with line `k` replaced
      keeps the replacement if it is non-empty and drops it otherwise. */
  lemma FilterReplaced(cart: seq<CartLine>, k: nat, line: CartLine)
    requires AllPositive(cart) && k < |cart|
    ensures Seqs.Filter(cart[k := line], InStock) ==
      if line.quantity > 0 then cart[k := line] else cart[..k] + cart[k + 1..]
  {
    if line.quantity > 0 {
      assert AllPositive(cart[k := line]);
      KeepInStock(cart[k := line]);
    } else {
      var before, after := cart[..k], cart[k + 1..];
      assert AllPositive(before) && AllPositive(after);
      assert cart[k := line] == (before + [line]) + after;
      FilterDropsEmpty(before, line, after);
    }
  }

  /** The stock filter removes exactly the one empty line between two runs
      of non-empty lines. */
  lemma FilterDropsEmpty(before: seq<CartLine>, line: CartLine, after: seq<CartLine>)
    requires AllPositive(before) && AllPositive(after) && line.quantity <= 0
    ensures Seqs.Filter((before + [line]) + after, InStock) == before + after
  {
    Seqs.FilterAppend(before + [line], after, InStock);
    Seqs.FilterAppend(before, [line], InStock);
    KeepInStock(before);
    KeepInStock(after);
    DropEmptyLine(line);
    assert before + [] == before;
  }

  /** The stock filter keeps a cart of non-empty lines as it is. */
  lemma KeepInStock(cart: seq<CartLine>)
    requires AllPositive(cart)
    ensures Seqs.Filter(cart, InStock) == cart
  {
    Seqs.FilterKeepsAll(cart, InStock);
  }

  /** The stock filter drops an empty line. */
  lemma DropEmptyLine(line: CartLine)
    requires line.quantity <= 0
    ensures Seqs.Filter([line], InStock) == []
  {
    Seqs.FilterKeepsNone([line], InStock);
  }

  /** Updating an id with no line leaves a cart of non-empty lines unchanged. */
  lemma UpdateMissing(cart: seq<CartLine>, id: int, change: int)
    requires AllPositive(cart) && Lacks(cart, id)
    ensures Update(cart, id, change) == cart
  {
    MapQuantityMissing(cart, id, ClampedAdd(change));
    KeepInStock(cart);
  }

  /** Lowering a line by its whole quantity removes it. */
  lemma UpdateToZeroRemoves(cart: seq<CartLine>, k: nat)
    requires ValidCart(cart) && k < |cart|
    ensures Update(cart, cart[k].product.id, -cart[k].quantity) == cart[..k] + cart[k + 1..]
  {
    UpdateExisting(cart, cart[k].product.id, -cart[k].quantity, k);
  }

  /** Removing one line keeps the other ids distinct. */
  lemma RemovePreservesValid(cart: seq<CartLine>, k: nat)
    requires ValidCart(cart) && k < |cart|
    ensures ValidCart(cart[..k] + cart[k + 1..])
  {
    var r := cart[..k] + cart[k + 1..];
    forall i, j | 0 <= i < j < |r|
      ensures r[i].product.id != r[j].product.id
    {
      var i' := if i < k then i else i + 1;
      var j' := if j < k then j else j + 1;
      assert r[i] == cart[i'] && r[j] == cart[j'];
    }
  }

  /** Updating keeps one line per id and every quantity positive. */
  lemma UpdatePreservesValid(cart: seq<CartLine>, id: int, change: int)
    requires ValidCart(cart)
    ensures ValidCart(Update(cart, id, change))
  {
    if Lacks(cart, id) {
      UpdateMissing(cart, id, change);
    } else {
      var k :| 0 <= k < |cart| && cart[k].product.id == id;
      UpdateExisting(cart, id, change, k);
      if Max(0, cart[k].quantity + change) == 0 {
        RemovePreservesValid(cart, k);
      }
    }
  }

  /** Updating line `k` moves the total by its price times the change in
      its quantity, and the badge by the change in quantity. */
  lemma UpdateTotals(cart: seq<CartLine>, id: int, change: int, k: nat)
    requires ValidCart(cart) && k < |cart| && cart[k].product.id == id
    ensures var delta := Max(0, cart[k].quantity + change) - cart[k].quantity;
      TotalPrice(Update(cart, id, change)) == TotalPrice(cart) + cart[k].product.price * delta &&
      ItemCount(Update(cart, id, change)) == ItemCount(cart) + delta
  {
    var q := Max(0, cart[k].quantity + change);
    UpdateExisting(cart, id, change, k);
    ClampedTotals(cart, k, q, Update(cart, id, change));
  }

  lemma ClampedTotals(cart: seq<CartLine>, k: nat, q: int, r: seq<CartLine>)
    requires k < |cart| && q >= 0
    requires r == if q > 0 then cart[k := cart[k].(quantity := q)] else cart[..k] + cart[k + 1..]
    ensures TotalPrice(r) == TotalPrice(cart) + cart[k].product.price * (q - cart[k].quantity)
    ensures ItemCount(r) == ItemCount(cart) + (q - cart[k].quantity)
  {
    if q > 0 {
      RetallyTotals(cart, k, q);
    } else {
      RemoveTotals(cart, k);
      var p, n := cart[k].product.price, cart[k].quantity;
      assert p * (q - n) == 0 - p * n by {
        assert q - n == 0 - n;
      }
    }
  }

  lemma RetallyTotals(cart: seq<CartLine>, k: nat, q: int)
    requires k < |cart|
    ensures var r := cart[k := cart[k].(quantity := q)];
      TotalPrice(r) == TotalPrice(cart) + cart[k].product.price * (q - cart[k].quantity) &&
      ItemCount(r) == ItemCount(cart) + (q - cart[k].quantity)
  {
    var line := cart[k].(quantity := q);
    Seqs.SumUpdate(cart, k, line, Subtotal);
    Seqs.SumUpdate(cart, k, line, Quantity);
    var p := cart[k].product.price;
    assert Subtotal(line) - Subtotal(cart[k]) == p * q - p * cart[k].quantity == p * (q - cart[k].quantity);
  }

  lemma RemoveTotals(cart: seq<CartLine>, k: nat)
    requires k < |cart|
    ensures var r := cart[..k] + cart[k + 1..];
      TotalPrice(r) == TotalPrice(cart) - Subtotal(cart[k]) &&
      ItemCount(r) == ItemCount(cart) - cart[k].quantity
  {
    Seqs.SumRemove(cart, k, Subtotal);
    Seqs.SumRemove(cart, k, Quantity);
  }

  /** On a valid cart of positively priced products the total is positive
      exactly when the cart is not empty, and the badge counts at least one
      item per line. */
  lemma TotalsOfValidCart(cart: seq<CartLine>)
    requires ValidCart(cart)
    requires forall i :: 0 <= i < |cart| ==> cart[i].product.price > 0
    ensures TotalPrice(cart) >= 0 && (TotalPrice(cart) == 0 <==> cart == [])
    ensures ItemCount(cart) >= |cart| && (ItemCount(cart) == 0 <==> cart == [])
  {
    assert forall i :: 0 <= i < |cart| ==> Subtotal(cart[i]) > 0;
    Seqs.SumOfPositives(cart, Subtotal);
  }

  /** Every line holds a product of `catalog`. */
  predicate ProductsFrom(cart: seq<CartLine>, catalog: seq<Product>) {
    forall i :: 0 <= i < |cart| ==> cart[i].product in catalog
  }

  /** Adding a catalog product keeps every line's product in the catalog. */
  lemma AddKeepsProductsFrom(cart: seq<CartLine>, product: Product, catalog: seq<Product>)
    requires ValidCart(cart) && ProductsFrom(cart, catalog) && product in catalog
    ensures ProductsFrom(Add(cart, product), catalog)
  {
    if Lacks(cart, product.id) {
      AddNew(cart, product);
    } else {
      var k :| 0 <= k < |cart| && cart[k].product.id == product.id;
      AddExisting(cart, product, k);
    }
  }

  /** Everything adding a catalog product does to a valid cart drawn from
      a catalog with unique ids: the cart stays valid and drawn from the
      catalog, the product's line is appended or raised by one, and the
      total and the badge grow by the price and by one. */
  lemma AddFromCatalog(cart: seq<CartLine>, product: Product, catalog: seq<Product>)
    requires ValidCart(cart) && ProductsFrom(cart, catalog) && product in catalog
    requires IdsDistinct(catalog)
    ensures ValidCart(Add(cart, product)) && ProductsFrom(Add(cart, product), catalog)
    ensures Lacks(cart, product.id) ==> Add(cart, product) == cart + [CartLine(product, 1)]
    ensures forall k :: 0 <= k < |cart| && cart[k].product.id == product.id ==>
      Add(cart, product) == cart[k := CartLine(cart[k].product, cart[k].quantity + 1)]
    ensures TotalPrice(Add(cart, product)) == TotalPrice(cart) + product.price
    ensures ItemCount(Add(cart, product)) == ItemCount(cart) + 1
  {
    assert AgreesWith(cart, product);
    AddPreservesValid(cart, product);
    AddKeepsProductsFrom(cart, product, catalog);
    AddTotals(cart, product);
    if Lacks(cart, product.id) {
      AddNew(cart, product);
    }
    forall k | 0 <= k < |cart| && cart[k].product.id == product.id
      ensures Add(cart, product) == cart[k := CartLine(cart[k].product, cart[k].quantity + 1)]
    {
      AddExisting(cart, product, k);
    }
  }

  /** Everything updating does to a valid cart drawn from a catalog: the
      cart stays valid and drawn from the catalog, a missing id changes
      nothing, and the line for the id is re-tallied or removed. */
  lemma UpdateFromCatalog(cart: seq<CartLine>, id: int, change: int, catalog: seq<Product>)
    requires ValidCart(cart) && ProductsFrom(cart, catalog)
    ensures ValidCart(Update(cart, id, change)) && ProductsFrom(Update(cart, id, change), catalog)
    ensures Lacks(cart, id) ==> Update(cart, id, change) == cart
    ensures forall k :: 0 <= k < |cart| && cart[k].product.id == id ==>
      var q := Max(0, cart[k].quantity + change);
      Update(cart, id, change) ==
        if q > 0 then cart[k := cart[k].(quantity := q)] else cart[..k] + cart[k + 1..]
  {
    UpdatePreservesValid(cart, id, change);
    UpdateKeepsProductsFrom(cart, id, change, catalog);
    if Lacks(cart, id) {
      UpdateMissing(cart, id, change);
    }
    forall k | 0 <= k < |cart| && cart[k].product.id == id
      ensures var q := Max(0, cart[k].quantity + change);
        Update(cart, id, change) ==
          if q > 0 then cart[k := cart[k].(quantity := q)] else cart[..k] + cart[k + 1..]
    {
      UpdateExisting(cart, id, change, k);
    }
  }

  /** Updating never brings in a product that was not in the cart. */
  lemma UpdateKeepsProductsFrom(cart: seq<CartLine>, id: int, change: int, catalog: seq<Product>)
    requires ProductsFrom(cart, catalog)
    ensures ProductsFrom(Update(cart, id, change), catalog)
  {
    var m := MapQuantity(cart, id, ClampedAdd(change));
    var r := Update(cart, id, change);
    assert ProductsFrom(m, catalog) by {
      forall i | 0 <= i < |m| ensures m[i].product in catalog {
        assert m[i].product == cart[i].product;
      }
    }
    Seqs.FilterMembers(m, InStock);
    forall i | 0 <= i < |r| ensures r[i].product in catalog {
      assert r[i] in m;
      var j :| 0 <= j < |m| && m[j] == r[i];
    }
  }
}
