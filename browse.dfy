/** The product list shown by `renderProducts`: the catalog filtered by category, price ceiling and
    search text, then sorted stably by the chosen key (or left in catalog order). */
module Browse {
  import opened Wrappers
  import opened Seqs
  import opened Text
  import opened Catalog

  /** The search text as it is used: `(value || "").toLowerCase().trim()`. */
  function NormalizeQuery(raw: string): (q: string)
    ensures |q| <= |raw|
    ensures raw == "" ==> q == ""
  {
    Trim(Lower(raw))
  }

  /** The category as it is used: an empty selection falls back to the wildcard "All". */
  function EffectiveCategory(raw: string): (cat: string)
    ensures cat != ""
    ensures raw == "" ==> cat == "All"
    ensures raw != "" ==> cat == raw
  {
    if raw == "" then "All" else raw
  }

  /** The filter test: category ("All" is a wildcard), price ceiling, and the query inside the
      lower-cased name or inside some lower-cased tag. */
  predicate Matches(p: Product, q: string, cat: string, maxPrice: int)
  {
    && (cat == "All" || p.category == cat)
    && p.price <= maxPrice
    && (Includes(Lower(p.name), q) || exists t :: t in p.tags && Includes(Lower(t), q))
  }

  /** `PRODUCTS.filter(...)`: exactly the matching products, in catalog order. */
  function FilterCatalog(catalog: seq<Product>, q: string, cat: string, maxPrice: int): (r: seq<Product>)
    ensures forall p :: p in r <==> p in catalog && Matches(p, q, cat, maxPrice)
    ensures Subseq(r, catalog)
  {
    var test := (p: Product) => Matches(p, q, cat, maxPrice);
    FilterIsSubseq(catalog, test);
    Filter(catalog, test)
  }

  /** With an empty query, the wildcard category and a ceiling above every price, nothing is
      filtered out. */
  lemma EmptyQueryShowsAll(catalog: seq<Product>, maxPrice: int)
    requires forall i :: 0 <= i < |catalog| ==> catalog[i].price <= maxPrice
    ensures FilterCatalog(catalog, "", "All", maxPrice) == catalog
  {
    forall i | 0 <= i < |catalog|
      ensures Matches(catalog[i], "", "All", maxPrice)
    {
      EmptyIncluded(Lower(catalog[i].name));
    }
    FilterKeepsAll(catalog, (p: Product) => Matches(p, "", "All", maxPrice));
  }

  /** An empty query never excludes a product: only category and price decide. */
  lemma EmptyQueryMatches(p: Product, cat: string, maxPrice: int)
    ensures Matches(p, "", cat, maxPrice) <==> (cat == "All" || p.category == cat) && p.price <= maxPrice
  {
    EmptyIncluded(Lower(p.name));
  }

  /** The three sort orders of the sort selector; any other value keeps catalog order. */
  datatype SortKey = PriceAsc | PriceDesc | RatingDesc

  /** `sortSelect.value || "featured"`, then the `switch`: `None` is its default branch. */
  function ParseSort(raw: string): (k: Option<SortKey>)
    ensures k == Some(PriceAsc) <==> raw == "price-asc"
    ensures k == Some(PriceDesc) <==> raw == "price-desc"
    ensures k == Some(RatingDesc) <==> raw == "rating-desc"
  {
    if raw == "price-asc" then Some(PriceAsc)
    else if raw == "price-desc" then Some(PriceDesc)
    else if raw == "rating-desc" then Some(RatingDesc)
    else None
  }

  /** The sort position of a product: lower ranks come first. */
  function Rank(p: Product, key: SortKey): int
  {
    match key
    case PriceAsc => p.price as int
    case PriceDesc => -(p.price as int)
    case RatingDesc => -(p.rating as int)
  }

  /** The comparator handed to `list.sort` for each key. It is the difference of the two ranks, so
      it puts `a` before `b` exactly when `a` ranks lower and calls them equal exactly when their
      ranks tie. */
  function Compare(a: Product, b: Product, key: SortKey): (d: int)
    ensures d == Rank(a, key) - Rank(b, key)
    ensures d < 0 <==> Rank(a, key) < Rank(b, key)
    ensures d == 0 <==> Rank(a, key) == Rank(b, key)
  {
    match key
    case PriceAsc => a.price - b.price
    case PriceDesc => b.price - a.price
    case RatingDesc => b.rating - a.rating
  }

  predicate SortedBy(s: seq<Product>, key: SortKey)
  {
    forall i, j :: 0 <= i < j < |s| ==> Rank(s[i], key) <= Rank(s[j], key)
  }

  /** The products of `s` with rank `k`, in their order in `s`. */
  function SameRank(s: seq<Product>, key: SortKey, k: int): seq<Product>
  {
    if s == [] then []
    else SameRank(s[..|s| - 1], key, k) + (if Rank(s[|s| - 1], key) == k then [s[|s| - 1]] else [])
  }

  lemma SameRankAppend(s: seq<Product>, y: Product, key: SortKey, k: int)
    ensures SameRank(s + [y], key, k) == SameRank(s, key, k) + (if Rank(y, key) == k then [y] else [])
  {
    assert (s + [y])[..|s|] == s;
  }

  /** Insert `x` into `t` after every element that does not rank above it. */
  function InsertBack(x: Product, t: seq<Product>, key: SortKey): (r: seq<Product>)
    ensures |r| == |t| + 1
    decreases |t|
  {
    if t == [] || Rank(t[|t| - 1], key) <= Rank(x, key) then t + [x]
    else InsertBack(x, t[..|t| - 1], key) + [t[|t| - 1]]
  }

  /** An upper bound on the ranks of `t` and of `x` bounds the ranks after inserting. */
  lemma {:induction false} InsertBackBounded(x: Product, t: seq<Product>, key: SortKey, b: int)
    requires Rank(x, key) <= b
    requires forall i :: 0 <= i < |t| ==> Rank(t[i], key) <= b
    ensures forall i :: 0 <= i < |t| + 1 ==> Rank(InsertBack(x, t, key)[i], key) <= b
    decreases |t|
  {
    if t != [] && Rank(t[|t| - 1], key) > Rank(x, key) {
      InsertBackBounded(x, t[..|t| - 1], key, b);
    }
  }

  /** Inserting adds `x` and loses nothing. */
  lemma {:induction false} InsertBackPermutes(x: Product, t: seq<Product>, key: SortKey)
    ensures multiset(InsertBack(x, t, key)) == multiset(t) + multiset{x}
    decreases |t|
  {
    if t != [] && Rank(t[|t| - 1], key) > Rank(x, key) {
      var init := t[..|t| - 1];
      assert t == init + [t[|t| - 1]];
      InsertBackPermutes(x, init, key);
    }
  }

  /** The stable sort that `Array.prototype.sort` performs (stable since ECMAScript 2019); what it
      promises is proved below: a permutation (StableSortPermutes), ordered by rank
      (StableSortSorted), with ties in their original order (StableSortKeepsTies). */
  function StableSort(s: seq<Product>, key: SortKey): (r: seq<Product>)
    ensures |r| == |s|
  {
    if s == [] then []
    else InsertBack(s[|s| - 1], StableSort(s[..|s| - 1], key), key)
  }

  lemma {:induction false} StableSortPermutes(s: seq<Product>, key: SortKey)
    ensures multiset(StableSort(s, key)) == multiset(s)
  {
    if s != [] {
      var init := s[..|s| - 1];
      assert s == init + [s[|s| - 1]];
      StableSortPermutes(init, key);
      InsertBackPermutes(s[|s| - 1], StableSort(init, key), key);
    }
  }

  lemma {:induction false} StableSortSorted(s: seq<Product>, key: SortKey)
    ensures SortedBy(StableSort(s, key), key)
  {
    if s != [] {
      StableSortSorted(s[..|s| - 1], key);
      InsertBackSorted(s[|s| - 1], StableSort(s[..|s| - 1], key), key);
    }
  }

  lemma {:induction false} InsertBackSorted(x: Product, t: seq<Product>, key: SortKey)
    requires SortedBy(t, key)
    ensures SortedBy(InsertBack(x, t, key), key)
    decreases |t|
  {
    if t != [] && Rank(t[|t| - 1], key) > Rank(x, key) {
      var init, last := t[..|t| - 1], t[|t| - 1];
      InsertBackSorted(x, init, key);
      InsertBackBounded(x, init, key, Rank(last, key));
    }
  }

  /** Inserting `x` adds it at the end of its own rank class and disturbs no other class. */
  lemma {:induction false} InsertBackTies(x: Product, t: seq<Product>, key: SortKey, k: int)
    ensures SameRank(InsertBack(x, t, key), key, k)
            == SameRank(t, key, k) + (if Rank(x, key) == k then [x] else [])
    decreases |t|
  {
    if t == [] || Rank(t[|t| - 1], key) <= Rank(x, key) {
      assert InsertBack(x, t, key) == t + [x];
      SameRankAppend(t, x, key, k);
    } else {
      var init, last := t[..|t| - 1], t[|t| - 1];
      var X := if Rank(x, key) == k then [x] else [];
      var L := if Rank(last, key) == k then [last] else [];
      assert InsertBack(x, t, key) == InsertBack(x, init, key) + [last];
      InsertBackTies(x, init, key, k);
      SameRankAppend(InsertBack(x, init, key), last, key, k);
      assert SameRank(t, key, k) == SameRank(init, key, k) + L;
      assert X == [] || L == [];
    }
  }

  /** Stability: products of equal rank keep their relative order. */
  lemma {:induction false} StableSortKeepsTies(s: seq<Product>, key: SortKey, k: int)
    ensures SameRank(StableSort(s, key), key, k) == SameRank(s, key, k)
  {
    if s != [] {
      var init, last := s[..|s| - 1], s[|s| - 1];
      StableSortKeepsTies(init, key, k);
      InsertBackTies(last, StableSort(init, key), key, k);
    }
  }

  /** Where `x` lands: after position `j - 1`, which does not rank above it, and before the
      run `t[j..]`, which all ranks above it. */
  lemma {:induction false} InsertBackAt(x: Product, t: seq<Product>, key: SortKey, j: nat)
    requires j <= |t|
    requires j == 0 || Rank(t[j - 1], key) <= Rank(x, key)
    requires forall m :: j <= m < |t| ==> Rank(t[m], key) > Rank(x, key)
    ensures InsertBack(x, t, key) == t[..j] + [x] + t[j..]
    decreases |t|
  {
    if j == |t| {
      assert t[..j] == t && t[j..] == [];
    } else {
      var init, last := t[..|t| - 1], t[|t| - 1];
      InsertBackAt(x, init, key, j);
      assert init[..j] == t[..j];
      assert init[j..] + [last] == t[j..];
    }
  }

  /** A sequence laid out as `t[..j]`, then `x`, then `t[j..]`, where `x` belongs at `j`, is
      `InsertBack(x, t, key)`. */
  lemma SpliceIsInsert(x: Product, t: seq<Product>, key: SortKey, j: nat, u: seq<Product>)
    requires j <= |t| && |u| == |t| + 1
    requires j == 0 || Rank(t[j - 1], key) <= Rank(x, key)
    requires forall m :: j <= m < |t| ==> Rank(t[m], key) > Rank(x, key)
    requires forall m :: 0 <= m < j ==> u[m] == t[m]
    requires u[j] == x
    requires forall m :: j < m < |u| ==> u[m] == t[m - 1]
    ensures u == InsertBack(x, t, key)
  {
    InsertBackAt(x, t, key, j);
    assert u == t[..j] + [x] + t[j..];
  }

  /** One step of the insertion sort: shift the elements of `a[..i]` that rank above `a[i]` one
      place to the right and drop `a[i]` into the gap. */
  method InsertInPlace(a: array<Product>, i: nat, key: SortKey)
    requires i < a.Length
    modifies a
    ensures a[..i + 1] == InsertBack(old(a[i]), old(a[..i]), key)
    ensures a[i + 1..] == old(a[i + 1..])
  {
    ghost var done := a[..i];
    var x := a[i];
    var j := i;
    while j > 0 && Rank(a[j - 1], key) > Rank(x, key)
      invariant 0 <= j <= i
      invariant forall m :: 0 <= m < j ==> a[m] == done[m]
      invariant forall m :: j < m <= i ==> a[m] == done[m - 1]
      invariant forall m :: i < m < a.Length ==> a[m] == old(a[m])
      invariant forall m :: j <= m < i ==> Rank(done[m], key) > Rank(x, key)
    {
      a[j] := a[j - 1];
      j := j - 1;
    }
    a[j] := x;
    SpliceIsInsert(x, done, key, j, a[..i + 1]);
  }

  /** Sorting one more element of `s` inserts it into the sorted prefix. */
  lemma StableSortStep(s: seq<Product>, i: nat, key: SortKey)
    requires i < |s|
    ensures StableSort(s[..i + 1], key) == InsertBack(s[i], StableSort(s[..i], key), key)
  {
    var grown := s[..i + 1];
    assert grown[..|grown| - 1] == s[..i] && grown[|grown| - 1] == s[i];
  }

  /** Two sequences that agree from `i` on agree at `i` and from `i + 1` on. */
  lemma SuffixStep<T>(x: seq<T>, y: seq<T>, i: nat)
    requires |x| == |y| && i < |x| && x[i..] == y[i..]
    ensures x[i] == y[i] && x[i + 1..] == y[i + 1..]
  {
    assert x[i] == x[i..][0] && y[i] == y[i..][0];
    assert x[i + 1..] == x[i..][1..] && y[i + 1..] == y[i..][1..];
  }

  /** `list.sort(cmp)` on the filtered array: an insertion sort in place, which gives the same
      result as every stable sort. */
  method SortInPlace(a: array<Product>, key: SortKey)
    modifies a
    ensures a[..] == StableSort(old(a[..]), key)
  {
    ghost var input := a[..];
    var i := 0;
    while i < a.Length
      invariant 0 <= i <= a.Length
      invariant a[..i] == StableSort(input[..i], key)
      invariant a[i..] == input[i..]
    {
      SuffixStep(a[..], input, i);
      InsertInPlace(a, i, key);
      StableSortStep(input, i, key);
      i := i + 1;
    }
    assert input[..a.Length] == input;
  }

  /** What `renderProducts` shows, as a value. */
  function Select(catalog: seq<Product>, rawQuery: string, rawCat: string, maxPrice: int, rawSort: string)
    : (r: seq<Product>)
    ensures forall p :: p in r <==>
      p in catalog && Matches(p, NormalizeQuery(rawQuery), EffectiveCategory(rawCat), maxPrice)
    ensures multiset(r) == multiset(FilterCatalog(catalog, NormalizeQuery(rawQuery), EffectiveCategory(rawCat), maxPrice))
    ensures ParseSort(rawSort).Some? ==> SortedBy(r, ParseSort(rawSort).value)
    ensures ParseSort(rawSort).None? ==> r == FilterCatalog(catalog, NormalizeQuery(rawQuery), EffectiveCategory(rawCat), maxPrice)
  {
    var list := FilterCatalog(catalog, NormalizeQuery(rawQuery), EffectiveCategory(rawCat), maxPrice);
    match ParseSort(rawSort)
    case None => list
    case Some(key) =>
      var r := StableSort(list, key);
      StableSortPermutes(list, key);
      StableSortSorted(list, key);
      assert forall p :: p in r <==> p in multiset(r);
      r
  }

  /** Sorting never reorders two shown products of equal rank. */
  lemma SelectKeepsTies(catalog: seq<Product>, rawQuery: string, rawCat: string, maxPrice: int, rawSort: string, k: int)
    requires ParseSort(rawSort).Some?
    ensures var key := ParseSort(rawSort).value;
            SameRank(Select(catalog, rawQuery, rawCat, maxPrice, rawSort), key, k)
            == SameRank(FilterCatalog(catalog, NormalizeQuery(rawQuery), EffectiveCategory(rawCat), maxPrice), key, k)
  {
    var list := FilterCatalog(catalog, NormalizeQuery(rawQuery), EffectiveCategory(rawCat), maxPrice);
    StableSortKeepsTies(list, ParseSort(rawSort).value, k);
  }

  /** `renderProducts` up to the point where the list is drawn: filter into a fresh array, then sort
      it in place unless the sort key is the default. */
  method VisibleProducts(catalog: seq<Product>, rawQuery: string, rawCat: string, maxPrice: int, rawSort: string)
    returns (list: seq<Product>)
    ensures list == Select(catalog, rawQuery, rawCat, maxPrice, rawSort)
  {
    var filtered := FilterCatalog(catalog, NormalizeQuery(rawQuery), EffectiveCategory(rawCat), maxPrice);
    var a := new Product[|filtered|](i requires 0 <= i < |filtered| => filtered[i]);
    assert a[..] == filtered;
    match ParseSort(rawSort) {
      case Some(key) => SortInPlace(a, key);
      case None =>
    }
    list := a[..];
  }

  /** With nothing typed, "All" selected and the slider at its default of 9999 dollars, the whole
      catalog is shown. */
  lemma DefaultFiltersShowCatalog()
    ensures FilterCatalog(PRODUCTS, NormalizeQuery(""), EffectiveCategory(""), 999900) == PRODUCTS
  {
    assert NormalizeQuery("") == "";
    EmptyQueryShowsAll(PRODUCTS, 999900);
  }

  /** The facts about the shipped catalog that the examples below rely on. */
  predicate ShapedLikeCatalog(P: seq<Product>)
  {
    && |P| == 4
    && P[0].price == 350 && P[1].price == 1290 && P[2].price == 950 && P[3].price == 1450
    && P[0].rating == 48 && P[1].rating == 49 && P[2].rating == 48 && P[3].rating == 46
    && P[0].category == "Medicines" && P[1].category == "Cosmetics"
    && P[2].category == "Cosmetics" && P[3].category == "Wellness"
  }

  lemma CatalogShape()
    ensures ShapedLikeCatalog(PRODUCTS)
  {
  }

  lemma {:induction false} CosmeticsFilter(P: seq<Product>)
    requires ShapedLikeCatalog(P)
    ensures FilterCatalog(P, "", "Cosmetics", 999900) == [P[1], P[2]]
  {
    var test := (p: Product) => Matches(p, "", "Cosmetics", 999900);
    EmptyQueryMatches(P[0], "Cosmetics", 999900);
    EmptyQueryMatches(P[1], "Cosmetics", 999900);
    EmptyQueryMatches(P[2], "Cosmetics", 999900);
    EmptyQueryMatches(P[3], "Cosmetics", 999900);
    assert "Medicines"[0] != "Cosmetics"[0] && "Wellness"[0] != "Cosmetics"[0];
    assert !test(P[0]) && test(P[1]) && test(P[2]) && !test(P[3]);
    FilterSingle(P[0], test);
    FilterSingle(P[1], test);
    FilterSingle(P[2], test);
    FilterSingle(P[3], test);
    var a, b, c, d := [P[0]], [P[1]], [P[2]], [P[3]];
    assert P == a + b + c + d;
    FilterConcat(a, b, test);
    FilterConcat(a + b, c, test);
    FilterConcat(a + b + c, d, test);
  }

  /** Selecting "Cosmetics" shows exactly the two cosmetics, in catalog order. */
  lemma CosmeticsExample()
    ensures Select(PRODUCTS, "", "Cosmetics", 999900, "featured") == [PRODUCTS[1], PRODUCTS[2]]
  {
    CatalogShape();
    assert NormalizeQuery("") == "";
    CosmeticsFilter(PRODUCTS);
  }

  lemma {:induction false} PriceAscOrder(P: seq<Product>)
    requires ShapedLikeCatalog(P)
    ensures StableSort(P, PriceAsc) == [P[0], P[2], P[1], P[3]]
  {
    assert P[..1][..0] == [] && P[..2][..1] == P[..1] && P[..3][..2] == P[..2] && P[..4][..3] == P[..3];
    assert StableSort(P[..1], PriceAsc) == [P[0]];
    assert StableSort(P[..2], PriceAsc) == [P[0], P[1]];
    assert [P[0], P[1]][..1] == [P[0]];
    assert InsertBack(P[2], [P[0], P[1]], PriceAsc) == InsertBack(P[2], [P[0]], PriceAsc) + [P[1]];
    assert StableSort(P[..3], PriceAsc) == [P[0], P[2], P[1]];
    assert P[..4] == P;
  }

  /** Sorting the whole catalog by ascending price: Paracetamol (3.50), sunscreen (9.50), serum
      (12.90), fish oil (14.50). */
  lemma PriceAscExample()
    ensures Select(PRODUCTS, "", "", 999900, "price-asc") == [PRODUCTS[0], PRODUCTS[2], PRODUCTS[1], PRODUCTS[3]]
  {
    CatalogShape();
    DefaultFiltersShowCatalog();
    PriceAscOrder(PRODUCTS);
  }

  lemma {:induction false} RatingDescOrder(P: seq<Product>)
    requires ShapedLikeCatalog(P)
    ensures StableSort(P, RatingDesc) == [P[1], P[0], P[2], P[3]]
  {
    assert P[..1][..0] == [] && P[..2][..1] == P[..1] && P[..3][..2] == P[..2] && P[..4][..3] == P[..3];
    assert StableSort(P[..1], RatingDesc) == [P[0]];
    assert InsertBack(P[1], [P[0]], RatingDesc) == InsertBack(P[1], [], RatingDesc) + [P[0]];
    assert StableSort(P[..2], RatingDesc) == [P[1], P[0]];
    var three := [P[1], P[0], P[2]];
    assert InsertBack(P[2], [P[1], P[0]], RatingDesc) == three;
    assert StableSort(P[..3], RatingDesc) == three;
    assert InsertBack(P[3], three, RatingDesc) == three + [P[3]];
    assert P[..4] == P;
  }

  /** Sorting by rating keeps Paracetamol before the sunscreen: both have 4.8 stars, and the sort is
      stable. */
  lemma RatingDescExample()
    ensures Select(PRODUCTS, "", "", 999900, "rating-desc") == [PRODUCTS[1], PRODUCTS[0], PRODUCTS[2], PRODUCTS[3]]
  {
    CatalogShape();
    DefaultFiltersShowCatalog();
    RatingDescOrder(PRODUCTS);
  }
}
