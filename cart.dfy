/** The shopping cart: an ordered list of `{id, qty}` lines that the storefront updates in place,
    and the items and subtotal derived from it. */
module Cart {
  import opened Wrappers
  import opened Seqs
  import opened Catalog

  datatype CartLine = CartLine(id: string, qty: int)

  /** `cart.find(c => c.id === id)`, as a position: the first line with that id. */
  function LineIndex(lines: seq<CartLine>, id: string): (r: Option<nat>)
    ensures r.Some? ==> r.value < |lines| && lines[r.value].id == id
    ensures r.Some? ==> forall j :: 0 <= j < r.value ==> lines[j].id != id
    ensures r.None? <==> forall j :: 0 <= j < |lines| ==> lines[j].id != id
  {
    FindIndex(lines, (c: CartLine) => c.id == id)
  }

  /** At most one line per product, and no line below quantity 1. */
  predicate CartInvariant(lines: seq<CartLine>)
  {
    && (forall i, j :: 0 <= i < j < |lines| ==> lines[i].id != lines[j].id)
    && (forall i :: 0 <= i < |lines| ==> lines[i].qty >= 1)
  }

  /** `Math.max(1, qty)`: the quantity `setQty` stores. */
  function Clamp(qty: int): (q: int)
    ensures q >= 1
    ensures q == qty || (qty < 1 && q == 1)
  {
    if qty < 1 then 1 else qty
  }

  /** The cart after `addToCart(id)`: unchanged for an id missing from the catalog; otherwise the
      existing line for `id` counts one more, in place, or a line `{id, qty: 1}` is appended. */
  function AfterAdd(catalog: seq<Product>, lines: seq<CartLine>, id: string): (r: seq<CartLine>)
    ensures FindProduct(catalog, id).None? ==> r == lines
    ensures FindProduct(catalog, id).Some? && LineIndex(lines, id).Some? ==>
              var k := LineIndex(lines, id).value;
              && |r| == |lines|
              && r[k] == CartLine(id, lines[k].qty + 1)
              && (forall j :: 0 <= j < |lines| && j != k ==> r[j] == lines[j])
    ensures FindProduct(catalog, id).Some? && LineIndex(lines, id).None? ==>
              r == lines + [CartLine(id, 1)]
  {
    if FindProduct(catalog, id).None? then lines
    else match LineIndex(lines, id)
      case Some(k) => lines[k := lines[k].(qty := lines[k].qty + 1)]
      case None => lines + [CartLine(id, 1)]
  }

  /** The cart after `removeFromCart(id)`: every line with that id is gone, every other line is
      kept, in its order; an id without a line changes nothing. */
  function AfterRemove(lines: seq<CartLine>, id: string): (r: seq<CartLine>)
    ensures forall j :: 0 <= j < |r| ==> r[j].id != id
    ensures forall c :: c in r <==> c in lines && c.id != id
    ensures Subseq(r, lines)
    ensures LineIndex(lines, id).None? ==> r == lines
  {
    var keep := (c: CartLine) => c.id != id;
    var r := Filter(lines, keep);
    FilterIsSubseq(lines, keep);
    assert forall j :: 0 <= j < |r| ==> r[j] in r;
    if LineIndex(lines, id).None? then
      FilterKeepsAll(lines, keep);
      r
    else r
  }

  /** The cart after `setQty(id, qty)`: the line for `id` gets quantity `max(1, qty)` in place and is
      never removed; every other line is unchanged; an id without a line changes nothing. */
  function AfterSetQty(lines: seq<CartLine>, id: string, qty: int): (r: seq<CartLine>)
    ensures LineIndex(lines, id).None? ==> r == lines
    ensures LineIndex(lines, id).Some? ==>
              var k := LineIndex(lines, id).value;
              && |r| == |lines|
              && r[k] == CartLine(id, Clamp(qty))
              && (forall j :: 0 <= j < |lines| && j != k ==> r[j] == lines[j])
  {
    match LineIndex(lines, id)
    case Some(k) => lines[k := lines[k].(qty := Clamp(qty))]
    case None => lines
  }

  lemma AddKeepsInvariant(catalog: seq<Product>, lines: seq<CartLine>, id: string)
    requires CartInvariant(lines)
    ensures CartInvariant(AfterAdd(catalog, lines, id))
  {
  }

  /** Dropping lines from a cart keeps its invariant. */
  lemma {:induction false} FilterKeepsInvariant(lines: seq<CartLine>, test: CartLine -> bool)
    requires CartInvariant(lines)
    ensures CartInvariant(Filter(lines, test))
  {
    if lines != [] {
      var tail := lines[1..];
      assert CartInvariant(tail);
      FilterKeepsInvariant(tail, test);
      var rest := Filter(tail, test);
      if test(lines[0]) {
        forall j | 0 <= j < |rest|
          ensures lines[0].id != rest[j].id
        {
          assert rest[j] in tail;
          var i :| 0 <= i < |tail| && tail[i] == rest[j];
          assert lines[i + 1] == tail[i];
        }
        assert Filter(lines, test) == [lines[0]] + rest;
      }
    }
  }

  lemma RemoveKeepsInvariant(lines: seq<CartLine>, id: string)
    requires CartInvariant(lines)
    ensures CartInvariant(AfterRemove(lines, id))
  {
    FilterKeepsInvariant(lines, (c: CartLine) => c.id != id);
  }

  lemma SetQtyKeepsInvariant(lines: seq<CartLine>, id: string, qty: int)
    requires CartInvariant(lines)
    ensures CartInvariant(AfterSetQty(lines, id, qty))
  {
  }

  /** Asking for quantity 0 (the "-" button on a line of 1) leaves the line at quantity 1. */
  lemma SetQtyZeroKeepsLine(lines: seq<CartLine>, id: string)
    requires LineIndex(lines, id).Some?
    ensures var k := LineIndex(lines, id).value;
            AfterSetQty(lines, id, 0)[k] == CartLine(id, 1) && |AfterSetQty(lines, id, 0)| == |lines|
  {
  }

  /** Filtering out a position that fails the test anyway, before or after overwriting it with
      another failing value, gives the same result. */
  lemma FilterIgnoresDropped<T>(s: seq<T>, k: nat, v: T, test: T -> bool)
    requires k < |s| && !test(s[k]) && !test(v)
    ensures Filter(s[k := v], test) == Filter(s, test)
  {
    var pre, post := s[..k], s[k + 1..];
    assert s == pre + [s[k]] + post;
    assert s[k := v] == pre + [v] + post;
    FilterConcat(pre + [s[k]], post, test);
    FilterConcat(pre, [s[k]], test);
    FilterConcat(pre + [v], post, test);
    FilterConcat(pre, [v], test);
    FilterSingle(s[k], test);
    FilterSingle(v, test);
  }

  /** Adding a catalog product that is not in the cart and then removing it restores the cart. */
  lemma AddThenRemoveRestores(catalog: seq<Product>, lines: seq<CartLine>, id: string)
    requires FindProduct(catalog, id).Some? && LineIndex(lines, id).None?
    ensures AfterRemove(AfterAdd(catalog, lines, id), id) == lines
  {
    var keep := (c: CartLine) => c.id != id;
    FilterConcat(lines, [CartLine(id, 1)], keep);
    FilterKeepsAll(lines, keep);
    FilterSingle(CartLine(id, 1), keep);
  }

  /** Adding a product that already has a line and then removing it is the same as removing it: the
      increment is not remembered. */
  lemma AddThenRemoveForgets(catalog: seq<Product>, lines: seq<CartLine>, id: string)
    requires LineIndex(lines, id).Some?
    ensures AfterRemove(AfterAdd(catalog, lines, id), id) == AfterRemove(lines, id)
  {
    if FindProduct(catalog, id).Some? {
      var k := LineIndex(lines, id).value;
      assert AfterAdd(catalog, lines, id) == lines[k := CartLine(id, lines[k].qty + 1)];
      FilterIgnoresDropped(lines, k, CartLine(id, lines[k].qty + 1), (c: CartLine) => c.id != id);
    }
  }

  // ---------------------------------------------------------------------------------------------
  // Totals

  /** A cart line spread over its catalog product: `{...product, qty}`. */
  datatype Item = Item(product: Product, qty: int)

  datatype Totals = Totals(items: seq<Item>, subtotal: int)

  /** Every line names a catalog product; `cartTotals` is only meaningful then, because for any
      other line it spreads `undefined` and the subtotal becomes NaN. */
  predicate AllResolve(catalog: seq<Product>, lines: seq<CartLine>)
  {
    forall i :: 0 <= i < |lines| ==> FindProduct(catalog, lines[i].id).Some?
  }

  function ToItem(catalog: seq<Product>, line: CartLine): Item
    requires FindProduct(catalog, line.id).Some?
  {
    Item(FindProduct(catalog, line.id).value, line.qty)
  }

  /** `cart.map(c => ({...PRODUCTS.find(p => p.id === c.id), qty: c.qty}))`. */
  function Items(catalog: seq<Product>, lines: seq<CartLine>): (items: seq<Item>)
    requires AllResolve(catalog, lines)
    ensures |items| == |lines|
    ensures forall i :: 0 <= i < |lines| ==>
              && items[i].qty == lines[i].qty
              && items[i].product.id == lines[i].id
              && items[i].product in catalog
  {
    seq(|lines|, i requires 0 <= i < |lines| => ToItem(catalog, lines[i]))
  }

  /** What one item adds to the subtotal: price times quantity. */
  function Amount(it: Item): int
  {
    it.product.price * it.qty
  }

  /** `items.reduce((s, it) => s + it.price * it.qty, 0)`, folding from the left. The start value 0
      adds nothing: a single item's subtotal is its own amount. */
  function Subtotal(items: seq<Item>): (r: int)
    ensures items == [] ==> r == 0
    ensures |items| == 1 ==> r == Amount(items[0])
  {
    if items == [] then 0 else Subtotal(items[..|items| - 1]) + Amount(items[|items| - 1])
  }

  /** `cartTotals()`: the items in cart order and their subtotal. */
  function CartTotals(catalog: seq<Product>, lines: seq<CartLine>): (t: Totals)
    requires AllResolve(catalog, lines)
    ensures |t.items| == |lines|
    ensures forall i :: 0 <= i < |lines| ==>
              t.items[i].qty == lines[i].qty && t.items[i].product.id == lines[i].id
    ensures lines == [] ==> t.subtotal == 0
    ensures (forall i :: 0 <= i < |lines| ==> lines[i].qty >= 0) ==> t.subtotal >= 0
  {
    var items := Items(catalog, lines);
    SubtotalNonNegative(items);
    Totals(items, Subtotal(items))
  }

  lemma {:induction false} SubtotalNonNegative(items: seq<Item>)
    ensures (forall i :: 0 <= i < |items| ==> items[i].qty >= 0) ==> Subtotal(items) >= 0
  {
    if items != [] {
      SubtotalNonNegative(items[..|items| - 1]);
    }
  }

  lemma {:induction false} SubtotalConcat(a: seq<Item>, b: seq<Item>)
    ensures Subtotal(a + b) == Subtotal(a) + Subtotal(b)
    decreases |b|
  {
    if b == [] {
      assert a + b == a;
    } else {
      var init := b[..|b| - 1];
      assert (a + b)[..|a + b| - 1] == a + init;
      SubtotalConcat(a, init);
    }
  }

  /** The subtotal of the three parts of a cart split around position `k`. */
  lemma SubtotalAround(items: seq<Item>, k: nat)
    requires k < |items|
    ensures Subtotal(items) == Subtotal(items[..k]) + Amount(items[k]) + Subtotal(items[k + 1..])
  {
    var pre, mid, post := items[..k], [items[k]], items[k + 1..];
    assert items == (pre + mid) + post;
    SubtotalConcat(pre + mid, post);
    SubtotalConcat(pre, mid);
    assert Subtotal(mid) == Amount(items[k]);
  }

  /** Cutting one item out lowers the subtotal by its amount. */
  lemma SubtotalCut(items: seq<Item>, k: nat)
    requires k < |items|
    ensures Subtotal(items[..k] + items[k + 1..]) == Subtotal(items) - Amount(items[k])
  {
    SubtotalAround(items, k);
    SubtotalConcat(items[..k], items[k + 1..]);
  }

  /** Replacing one item changes the subtotal by the difference of the two amounts. */
  lemma SubtotalUpdate(items: seq<Item>, k: nat, v: Item)
    requires k < |items|
    ensures Subtotal(items[k := v]) == Subtotal(items) - Amount(items[k]) + Amount(v)
  {
    SubtotalAround(items, k);
    SubtotalAround(items[k := v], k);
    assert items[k := v][..k] == items[..k] && items[k := v][k + 1..] == items[k + 1..];
  }

  /** Moving a quantity from `a` to `b` changes the amount by the price times the difference. */
  lemma AmountChange(p: Product, a: int, b: int)
    ensures Amount(Item(p, b)) == Amount(Item(p, a)) + p.price * (b - a)
  {
  }

  /** Overwriting one line overwrites the matching item. */
  lemma ItemsUpdate(catalog: seq<Product>, lines: seq<CartLine>, k: nat, line: CartLine)
    requires AllResolve(catalog, lines) && k < |lines| && FindProduct(catalog, line.id).Some?
    ensures AllResolve(catalog, lines[k := line])
    ensures Items(catalog, lines[k := line]) == Items(catalog, lines)[k := ToItem(catalog, line)]
  {
  }

  /** Appending one line appends the matching item. */
  lemma ItemsAppend(catalog: seq<Product>, lines: seq<CartLine>, line: CartLine)
    requires AllResolve(catalog, lines) && FindProduct(catalog, line.id).Some?
    ensures AllResolve(catalog, lines + [line])
    ensures Items(catalog, lines + [line]) == Items(catalog, lines) + [ToItem(catalog, line)]
  {
  }

  /** Adding a catalog product raises the subtotal by exactly its price, whether it was already in
      the cart or not. */
  lemma AddRaisesSubtotal(catalog: seq<Product>, lines: seq<CartLine>, id: string)
    requires AllResolve(catalog, lines) && FindProduct(catalog, id).Some?
    ensures AllResolve(catalog, AfterAdd(catalog, lines, id))
    ensures CartTotals(catalog, AfterAdd(catalog, lines, id)).subtotal
            == CartTotals(catalog, lines).subtotal + FindProduct(catalog, id).value.price
  {
    var p := FindProduct(catalog, id).value;
    var after := AfterAdd(catalog, lines, id);
    var items := Items(catalog, lines);
    match LineIndex(lines, id)
    case Some(k) =>
      var line := CartLine(id, lines[k].qty + 1);
      assert after == lines[k := line];
      ItemsUpdate(catalog, lines, k, line);
      SubtotalUpdate(items, k, ToItem(catalog, line));
      assert items[k] == Item(p, lines[k].qty);
      AmountChange(p, lines[k].qty, lines[k].qty + 1);
    case None =>
      var line := CartLine(id, 1);
      assert after == lines + [line];
      ItemsAppend(catalog, lines, line);
      SubtotalConcat(items, [ToItem(catalog, line)]);
      assert Subtotal([ToItem(catalog, line)]) == p.price by {
        assert [ToItem(catalog, line)][..0] == [];
      }
  }

  /** Changing a quantity moves the subtotal by the price times the change, the new quantity being
      clamped to at least 1. */
  lemma SetQtyAdjustsSubtotal(catalog: seq<Product>, lines: seq<CartLine>, id: string, qty: int)
    requires AllResolve(catalog, lines) && LineIndex(lines, id).Some?
    ensures AllResolve(catalog, AfterSetQty(lines, id, qty))
    ensures var k := LineIndex(lines, id).value;
            var price := FindProduct(catalog, id).value.price;
            CartTotals(catalog, AfterSetQty(lines, id, qty)).subtotal
            == CartTotals(catalog, lines).subtotal + price * (Clamp(qty) - lines[k].qty)
  {
    var k := LineIndex(lines, id).value;
    var p := FindProduct(catalog, id).value;
    var items := Items(catalog, lines);
    var q := Clamp(qty);
    var line := CartLine(id, q);
    assert AfterSetQty(lines, id, qty) == lines[k := line];
    ItemsUpdate(catalog, lines, k, line);
    assert ToItem(catalog, line) == Item(p, q);
    SubtotalUpdate(items, k, Item(p, q));
    assert items[k] == Item(p, lines[k].qty);
    AmountChange(p, lines[k].qty, q);
  }

  lemma ItemsConcat(catalog: seq<Product>, a: seq<CartLine>, b: seq<CartLine>)
    requires AllResolve(catalog, a) && AllResolve(catalog, b)
    ensures AllResolve(catalog, a + b)
    ensures Items(catalog, a + b) == Items(catalog, a) + Items(catalog, b)
  {
    assert forall i :: 0 <= i < |b| ==> (a + b)[|a| + i] == b[i];
  }

  /** In a cart with one line per product, removing a product cuts exactly its line out. */
  lemma RemoveCutsLine(lines: seq<CartLine>, id: string)
    requires CartInvariant(lines) && LineIndex(lines, id).Some?
    ensures var k := LineIndex(lines, id).value;
            AfterRemove(lines, id) == lines[..k] + lines[k + 1..]
  {
    var k := LineIndex(lines, id).value;
    var keep := (c: CartLine) => c.id != id;
    assert forall i :: 0 <= i < |lines| && i != k ==> keep(lines[i]);
    FilterCutsOne(lines, k, keep);
  }

  /** The items of a stretch of the cart are that stretch of its items. */
  lemma ItemsSlice(catalog: seq<Product>, lines: seq<CartLine>, lo: nat, hi: nat)
    requires AllResolve(catalog, lines) && lo <= hi <= |lines|
    ensures AllResolve(catalog, lines[lo..hi])
    ensures Items(catalog, lines[lo..hi]) == Items(catalog, lines)[lo..hi]
  {
  }

  /** Removing a product's line lowers the subtotal by exactly that line's amount. */
  lemma RemoveLowersSubtotal(catalog: seq<Product>, lines: seq<CartLine>, id: string)
    requires AllResolve(catalog, lines) && CartInvariant(lines) && LineIndex(lines, id).Some?
    ensures AllResolve(catalog, AfterRemove(lines, id))
    ensures var k := LineIndex(lines, id).value;
            CartTotals(catalog, AfterRemove(lines, id)).subtotal
            == CartTotals(catalog, lines).subtotal - FindProduct(catalog, id).value.price * lines[k].qty
  {
    var k := LineIndex(lines, id).value;
    var p := FindProduct(catalog, id).value;
    var items := Items(catalog, lines);
    RemoveCutsLine(lines, id);
    ItemsSlice(catalog, lines, 0, k);
    ItemsSlice(catalog, lines, k + 1, |lines|);
    ItemsConcat(catalog, lines[..k], lines[k + 1..]);
    assert Items(catalog, AfterRemove(lines, id)) == items[..k] + items[k + 1..];
    SubtotalCut(items, k);
    assert items[k] == Item(p, lines[k].qty);
  }

  /** The subtotal read off the cart lines directly, front to back: the price of each line's
      product times its quantity, summed. */
  function LinesAmount(catalog: seq<Product>, lines: seq<CartLine>): int
    requires AllResolve(catalog, lines)
  {
    if lines == [] then 0
    else Amount(ToItem(catalog, lines[0])) + LinesAmount(catalog, lines[1..])
  }

  /** The items of a non-empty cart: the first line's item, then the items of the rest. */
  lemma ItemsFront(catalog: seq<Product>, lines: seq<CartLine>)
    requires AllResolve(catalog, lines) && lines != []
    ensures AllResolve(catalog, lines[1..])
    ensures Items(catalog, lines) == [ToItem(catalog, lines[0])] + Items(catalog, lines[1..])
  {
  }

  /** The left fold of `cartTotals` over the items equals the sum of price times quantity over the
      cart lines. */
  lemma {:induction false} SubtotalIsLinesAmount(catalog: seq<Product>, lines: seq<CartLine>)
    requires AllResolve(catalog, lines)
    ensures CartTotals(catalog, lines).subtotal == LinesAmount(catalog, lines)
  {
    if lines != [] {
      ItemsFront(catalog, lines);
      var first, rest := ToItem(catalog, lines[0]), Items(catalog, lines[1..]);
      SubtotalConcat([first], rest);
      assert Subtotal([first]) == Amount(first) by {
        assert [first][..0] == [];
      }
      SubtotalIsLinesAmount(catalog, lines[1..]);
    }
  }

  /** Two units of a 3.50 product and one of a 12.90 product come to 19.90. */
  lemma TwoLineSubtotal(P: seq<Product>)
    requires UniqueIds(P) && |P| >= 2 && P[0].price == 350 && P[1].price == 1290
    ensures var lines := [CartLine(P[0].id, 2), CartLine(P[1].id, 1)];
            AllResolve(P, lines) && CartTotals(P, lines).subtotal == 1990
  {
    var lines := [CartLine(P[0].id, 2), CartLine(P[1].id, 1)];
    FindOwnId(P, 0);
    FindOwnId(P, 1);
    SubtotalIsLinesAmount(P, lines);
    assert ToItem(P, lines[0]) == Item(P[0], 2) && ToItem(P, lines[1]) == Item(P[1], 1);
    assert lines[1..] == [lines[1]] && lines[1..][1..] == [];
    assert LinesAmount(P, lines[1..]) == 1290;
  }

  /** Two Paracetamol and one Hyaluronic Serum make a subtotal of 19.90. */
  lemma TotalsExample()
    ensures var lines := [CartLine("med-001", 2), CartLine("cos-001", 1)];
            AllResolve(PRODUCTS, lines) && CartTotals(PRODUCTS, lines).subtotal == 1990
  {
    CatalogUnique();
    TwoLineSubtotal(PRODUCTS);
    assert PRODUCTS[0].id == "med-001" && PRODUCTS[1].id == "cos-001";
  }

  // ---------------------------------------------------------------------------------------------
  // The cart store

  /** The global `cart` array and the functions that mutate it. Each mutation is followed in the
      source by `saveCart()` and `updateCartUI()`, which are not part of this model. */
  class CartStore {
    /** The catalog that ids are checked against: always the shipped `PRODUCTS`. */
    const catalog: seq<Product>
    var lines: seq<CartLine>

    ghost predicate Valid()
      reads this
    {
      CartInvariant(lines)
    }

    /** The cart as read from storage at start-up (decoding it is not part of this model). */
    constructor (saved: seq<CartLine>)
      ensures catalog == PRODUCTS && lines == saved
    {
      catalog := PRODUCTS;
      lines := saved;
    }

    method AddToCart(id: string)
      modifies this
      ensures lines == AfterAdd(catalog, old(lines), id)
      ensures old(Valid()) ==> Valid()
    {
      if Valid() {
        AddKeepsInvariant(catalog, lines, id);
      }
      var item := FindProduct(catalog, id);
      if item.None? {
        return;
      }
      var found := LineIndex(lines, id);
      if found.Some? {
        var k := found.value;
        lines := lines[k := lines[k].(qty := lines[k].qty + 1)];
      } else {
        lines := lines + [CartLine(id, 1)];
      }
    }

    method RemoveFromCart(id: string)
      modifies this
      ensures lines == AfterRemove(old(lines), id)
      ensures old(Valid()) ==> Valid()
    {
      if Valid() {
        RemoveKeepsInvariant(lines, id);
      }
      lines := Filter(lines, (c: CartLine) => c.id != id);
    }

    method SetQty(id: string, qty: int)
      modifies this
      ensures lines == AfterSetQty(old(lines), id, qty)
      ensures old(Valid()) ==> Valid()
    {
      if Valid() {
        SetQtyKeepsInvariant(lines, id, qty);
      }
      var found := LineIndex(lines, id);
      if found.None? {
        return;
      }
      var k := found.value;
      lines := lines[k := lines[k].(qty := Clamp(qty))];
    }

    /** `cart = []` after an order is accepted. */
    method Clear()
      modifies this
      ensures lines == [] && Valid()
    {
      lines := [];
    }

    /** `cartTotals()` on the current cart. */
    method Totals() returns (t: Totals)
      requires AllResolve(catalog, lines)
      ensures t == CartTotals(catalog, lines)
    {
      t := CartTotals(catalog, lines);
    }
  }
}
