/** The read-only product catalog, with prices in integer cents and ratings in tenths of a star. */
module Catalog {
  import opened Wrappers
  import Seqs

  datatype Product = Product(
    id: string,
    name: string,
    price: nat,      // cents: 3.5 is 350
    category: string,
    rating: nat,     // tenths of a star: 4.8 is 48
    tags: seq<string>,
    img: string)

  const PRODUCTS: seq<Product> := [
    Product("med-001", "Paracetamol 500mg", 350, "Medicines", 48, ["Pain Relief", "Fever"],
            "https://images.unsplash.com/photo-1582719478250-c89cae4dc85b?q=80&w=1200&auto=format&fit=crop"),
    Product("cos-001", "Hyaluronic Serum", 1290, "Cosmetics", 49, ["Hydration", "Glow"],
            "https://images.unsplash.com/photo-1608248597279-d8e0c5a2d2b0?q=80&w=1200&auto=format&fit=crop"),
    Product("cos-002", "SPF 50+ Sunscreen", 950, "Cosmetics", 48, ["UV Protection"],
            "https://images.unsplash.com/photo-1608248596091-2e76aa87e311?q=80&w=1200&auto=format&fit=crop"),
    Product("wel-001", "Omega-3 Fish Oil", 1450, "Wellness", 46, ["Heart", "Brain"],
            "https://images.unsplash.com/photo-1595433562696-3d1a4a03a3ee?q=80&w=1200&auto=format&fit=crop")
  ]

  /** The delivery fee added to every order: 2 dollars, in cents. */
  const DELIVERY_FEE: nat := 200

  /** No two catalog products share an id. */
  predicate UniqueIds(catalog: seq<Product>)
  {
    forall i, j :: 0 <= i < j < |catalog| ==> catalog[i].id != catalog[j].id
  }

  /** `catalog.find(p => p.id === id)`: the first product with that id, if any. */
  function FindProduct(catalog: seq<Product>, id: string): (r: Option<Product>)
    ensures r.Some? ==> r.value in catalog && r.value.id == id
    ensures r.None? <==> forall p :: p in catalog ==> p.id != id
  {
    match Seqs.FindIndex(catalog, (p: Product) => p.id == id)
    case Some(i) => Some(catalog[i])
    case None => None
  }

  /** In a catalog without repeated ids, looking a product up by its own id finds that product. */
  lemma FindOwnId(catalog: seq<Product>, k: nat)
    requires UniqueIds(catalog) && k < |catalog|
    ensures FindProduct(catalog, catalog[k].id) == Some(catalog[k])
  {
    var r := Seqs.FindIndex(catalog, (p: Product) => p.id == catalog[k].id);
    assert r.Some?;
  }

  /** `find` returns the first product with the id: whenever `catalog[k]` carries the id and no
      earlier product does, the lookup yields `catalog[k]`. */
  lemma FindProductFirst(catalog: seq<Product>, id: string, k: nat)
    requires k < |catalog| && catalog[k].id == id
    requires forall j :: 0 <= j < k ==> catalog[j].id != id
    ensures FindProduct(catalog, id) == Some(catalog[k])
  {
    var r := Seqs.FindIndex(catalog, (p: Product) => p.id == id);
    assert r.Some?;
    assert r.value == k;
  }

  /** The shipped catalog has unique ids. */
  lemma CatalogUnique()
    ensures UniqueIds(PRODUCTS)
  {
    assert PRODUCTS[0].id[0] == 'm' && PRODUCTS[3].id[0] == 'w';
    assert PRODUCTS[1].id[0] == 'c' && PRODUCTS[2].id[0] == 'c';
    assert PRODUCTS[1].id[6] == '1' && PRODUCTS[2].id[6] == '2';
  }

  /** Every product of the shipped catalog is found by its id. */
  lemma CatalogLookup()
    ensures forall k :: 0 <= k < |PRODUCTS| ==> FindProduct(PRODUCTS, PRODUCTS[k].id) == Some(PRODUCTS[k])
  {
    CatalogUnique();
    forall k | 0 <= k < |PRODUCTS|
      ensures FindProduct(PRODUCTS, PRODUCTS[k].id) == Some(PRODUCTS[k])
    {
      FindOwnId(PRODUCTS, k);
    }
  }
}
