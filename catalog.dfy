/** The storefront catalog (src/pages/Catalog.tsx): the category list built
    from the loaded products, the search/category filter and the buy button. */
module Catalog {
  import opened Seqs
  import opened Text
  import opened Entities

  function CategoryOf(p: Product): string {
    p.category
  }

  /** fetchProducts' `[...new Set(data.map(p => p.category).filter(Boolean))]` */
  function UniqueCategories(products: seq<Product>): seq<string> {
    Dedup(Filter(Map(products, CategoryOf), NonEmpty))
  }

  /** The category list names every non-empty category of the products once,
      never the empty one, in the order the categories first appear. */
  lemma {:induction false} UniqueCategoriesSpec(products: seq<Product>)
    ensures Distinct(UniqueCategories(products))
    ensures forall c :: c in UniqueCategories(products)
                        <==> c != "" && exists i :: 0 <= i < |products| && products[i].category == c
    ensures InFirstOccurrenceOrder(UniqueCategories(products), Map(products, CategoryOf))
    ensures IsSubseq(UniqueCategories(products), Map(products, CategoryOf))
  {
    var cats := Map(products, CategoryOf);
    var nonEmpty := Filter(cats, NonEmpty);
    var r := Dedup(nonEmpty);
    DedupDistinct(nonEmpty);
    assert IsSubseq(r, cats) by {
      DedupIsSubseq(nonEmpty);
      FilterIsSubseq(cats, NonEmpty);
      SubseqTrans(r, nonEmpty, cats);
    }
    forall c ensures c in r <==> c != "" && exists i :: 0 <= i < |products| && products[i].category == c {
      DedupMembers(nonEmpty, c);
      FilterMembers(cats, NonEmpty, c);
      if c in cats {
        var i :| 0 <= i < |cats| && cats[i] == c;
        assert products[i].category == c;
      }
      if exists i :: 0 <= i < |products| && products[i].category == c {
        var i :| 0 <= i < |products| && products[i].category == c;
        assert cats[i] == c;
      }
    }
    forall i | 0 <= i < |r| ensures r[i] in cats {
      DedupMembers(nonEmpty, r[i]);
      FilterMembers(cats, NonEmpty, r[i]);
    }
    forall i, j | 0 <= i < j < |r| ensures FirstIndex(cats, r[i]) < FirstIndex(cats, r[j])
    {
      DedupFirstOccurrenceOrder(nonEmpty, i, j);
      FilterFirstIndexOrder(cats, NonEmpty, r[i], r[j]);
    }
    assert InFirstOccurrenceOrder(r, cats);
  }

  /** the search box: name, description or any tag, ignoring case */
  predicate MatchesSearch(p: Product, term: string) {
    ContainsIgnoringCase(p.name, term)
    || ContainsIgnoringCase(p.description, term)
    || exists i :: 0 <= i < |p.tags| && ContainsIgnoringCase(p.tags[i], term)
  }

  /** filterProducts: search first, then the category, each only when set */
  function FilterCatalog(products: seq<Product>, searchTerm: string, selectedCategory: string): seq<Product> {
    var bySearch := if searchTerm != "" then Filter(products, (p: Product) => MatchesSearch(p, searchTerm)) else products;
    if selectedCategory != "" then Filter(bySearch, (p: Product) => p.category == selectedCategory) else bySearch
  }

  predicate ProductMatches(p: Product, searchTerm: string, selectedCategory: string) {
    && (searchTerm == "" || MatchesSearch(p, searchTerm))
    && (selectedCategory == "" || p.category == selectedCategory)
  }

  /** The shown products are, in order, exactly those meeting the active
      criteria; with neither set the whole catalog is shown, and with a
      category set every product shown has exactly that category. */
  lemma {:induction false} FilterCatalogSpec(products: seq<Product>, searchTerm: string, selectedCategory: string)
    ensures FilterCatalog(products, searchTerm, selectedCategory)
         == Filter(products, (p: Product) => ProductMatches(p, searchTerm, selectedCategory))
    ensures IsSubseq(FilterCatalog(products, searchTerm, selectedCategory), products)
    ensures forall p :: p in FilterCatalog(products, searchTerm, selectedCategory)
                        <==> p in products && ProductMatches(p, searchTerm, selectedCategory)
    ensures searchTerm == "" && selectedCategory == ""
            ==> FilterCatalog(products, searchTerm, selectedCategory) == products
    ensures selectedCategory != "" ==>
            forall p :: p in FilterCatalog(products, searchTerm, selectedCategory) ==> p.category == selectedCategory
  {
    var t, c := searchTerm, selectedCategory;
    var pSearch := (p: Product) => MatchesSearch(p, t);
    var qSearch := (p: Product) => t == "" || MatchesSearch(p, t);
    var pCat := (p: Product) => p.category == c;
    var qCat := (p: Product) => c == "" || p.category == c;
    var qAll := (p: Product) => ProductMatches(p, t, c);
    assert FilterCatalog(products, t, c) == Filter(products, qAll) by {
      var bySearch := if t != "" then Filter(products, pSearch) else products;
      FilterWhen(products, t != "", pSearch, qSearch);
      FilterWhen(bySearch, c != "", pCat, qCat);
      FilterFilter(products, qSearch, qCat, qAll);
    }
    FilterIsSubseq(products, qAll);
    forall p ensures p in Filter(products, qAll) <==> p in products && qAll(p) {
      FilterMembers(products, qAll, p);
    }
    if t == "" && c == "" {
      FilterAll(products, qAll);
    }
  }

  // ------------------------------------------------------------ buy button

  /** handleAddToCart: one unit of the product */
  function AddToCart(p: Product): CartCommand {
    AddItem(p, 1)
  }

  /** the Beli button is disabled when stock is exactly 0 */
  predicate BuyEnabled(p: Product) {
    p.stock != 0
  }

  /** An enabled buy button asks the cart for one unit of that product, which
      the stock covers whenever stock is not negative */
  lemma {:induction false} AddToCartSpec(p: Product)
    ensures AddToCart(p).AddItem? && AddToCart(p).product == p && AddToCart(p).quantity == 1
    ensures BuyEnabled(p) && p.stock >= 0 ==> AddToCart(p).quantity <= p.stock
  {
  }
}
