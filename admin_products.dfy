/** The product list of the admin panel (src/pages/admin/Products.tsx): the
    search filter, the edit form's conversions to and from a product (tags as
    comma-separated text, an optional barcode as possibly empty text) and the
    stock colour. */
module AdminProducts {
  import opened Seqs
  import opened Text
  import opened Entities

  /** the search box: name, category and barcode, all ignoring case */
  predicate MatchesSearch(p: Product, term: string) {
    ContainsIgnoringCase(p.name, term)
    || ContainsIgnoringCase(p.category, term)
    || (p.barcode.Some? && ContainsIgnoringCase(p.barcode.value, term))
  }

  /** filterProducts */
  function FilterProducts(products: seq<Product>, searchTerm: string): seq<Product> {
    if searchTerm != "" then Filter(products, (p: Product) => MatchesSearch(p, searchTerm)) else products
  }

  /** The filtered list keeps, in order, exactly the products that match the
      term, and is the whole list for an empty term; a product without a
      barcode can only be found by its name or category. */
  lemma {:induction false} FilterProductsSpec(products: seq<Product>, searchTerm: string)
    ensures IsSubseq(FilterProducts(products, searchTerm), products)
    ensures searchTerm == "" ==> FilterProducts(products, searchTerm) == products
    ensures forall p :: p in FilterProducts(products, searchTerm)
                        <==> p in products && (searchTerm == "" || MatchesSearch(p, searchTerm))
    ensures forall p :: p in FilterProducts(products, searchTerm) && searchTerm != "" && p.barcode.None?
                        ==> ContainsIgnoringCase(p.name, searchTerm) || ContainsIgnoringCase(p.category, searchTerm)
  {
    var t := searchTerm;
    var q := (p: Product) => t == "" || MatchesSearch(p, t);
    FilterWhen(products, t != "", (p: Product) => MatchesSearch(p, t), q);
    FilterIsSubseq(products, q);
    forall p ensures p in Filter(products, q) <==> p in products && q(p) {
      FilterMembers(products, q, p);
    }
    if t == "" {
      FilterAll(products, q);
    }
  }

  // ------------------------------------------------------------------ tags

  /** handleSubmit's `tags.split(',').map(tag => tag.trim()).filter(Boolean)` */
  function ParseTags(field: string): seq<string> {
    Filter(Map(Split(field, ','), Trim), NonEmpty)
  }

  /** handleEdit's `tags.join(', ')` */
  function TagsText(tags: seq<string>): string {
    Join(tags, ", ")
  }

  /** a tag as the form produces it: trimmed, non-empty, without a comma */
  predicate IsCleanTag(t: string) {
    t != "" && IsTrimmed(t) && ',' !in t
  }

  /** Every parsed tag is clean, and an empty field gives no tags */
  lemma {:induction false} ParseTagsSpec(field: string)
    ensures forall i :: 0 <= i < |ParseTags(field)| ==> IsCleanTag(ParseTags(field)[i])
    ensures field == "" ==> ParseTags(field) == []
  {
    var pieces := Split(field, ',');
    var trimmed := Map(pieces, Trim);
    forall t | t in ParseTags(field) ensures IsCleanTag(t) {
      FilterMembers(trimmed, NonEmpty, t);
      var i :| 0 <= i < |trimmed| && trimmed[i] == t;
      TrimSpec(pieces[i]);
      if ',' in t {
        TrimKeepsOnlyOwnChars(pieces[i], ',');
      }
    }
    if field == "" {
      assert trimmed == [Trim("")];
    }
  }

  /** Showing clean tags in the form and saving the form unchanged gives the
      same tags back */
  lemma {:induction false} TagsRoundTrip(tags: seq<string>)
    requires forall i :: 0 <= i < |tags| ==> IsCleanTag(tags[i])
    ensures ParseTags(TagsText(tags)) == tags
  {
    if tags == [] {
      assert Split("", ',') == [""];
      assert Map([""], Trim) == [Trim("")];
    } else {
      var padded := Padded(tags);
      JoinWithSpace(tags);
      SplitJoin(padded, ',');
      assert Split(TagsText(tags), ',') == padded;
      TrimPadded(tags);
      FilterAll(tags, NonEmpty);
    }
  }

  /** trimming the read-back pieces removes exactly the added spaces */
  lemma {:induction false} TrimPadded(tags: seq<string>)
    requires tags != []
    requires forall i :: 0 <= i < |tags| ==> IsTrimmed(tags[i])
    ensures Map(Padded(tags), Trim) == tags
  {
    var padded := Padded(tags);
    var trimmed := Map(padded, Trim);
    forall i | 0 <= i < |tags| ensures trimmed[i] == tags[i] {
      TrimOfTrimmed(tags[i]);
      assert trimmed[i] == Trim(padded[i]);
      if i > 0 {
        assert padded[i] == " " + tags[i];
      }
    }
  }

  /** a trimmed tag trims to itself, with or without one space before it */
  lemma {:induction false} TrimOfTrimmed(t: string)
    requires IsTrimmed(t)
    ensures Trim(t) == t && Trim(" " + t) == t
  {
    assert TrimStart(t) == t;
    assert (" " + t)[1..] == t;
    assert TrimStart(" " + t) == t;
    assert TrimEnd(t) == t;
  }

  /** the pieces `join(', ')` produces when read back by `split(',')`: every
      tag after the first keeps the space that followed the comma */
  function Padded(tags: seq<string>): (r: seq<string>)
    requires tags != []
    ensures |r| == |tags| && r[0] == tags[0]
    ensures forall i :: 1 <= i < |tags| ==> r[i] == " " + tags[i]
  {
    [tags[0]] + Map(tags[1..], (t: string) => " " + t)
  }

  lemma {:induction false} JoinWithSpace(tags: seq<string>)
    requires tags != []
    requires forall i :: 0 <= i < |tags| ==> ',' !in tags[i]
    ensures Join(tags, ", ") == Join(Padded(tags), ",")
    ensures forall i :: 0 <= i < |tags| ==> ',' !in Padded(tags)[i]
  {
    if |tags| > 1 {
      JoinWithSpace(tags[1..]);
      var rest := Padded(tags[1..]);
      var p := Padded(tags);
      assert p[1..] == [" " + rest[0]] + rest[1..];
      JoinPrefixedHead(rest, " ");
      assert Join(p, ",") == tags[0] + "," + Join(p[1..], ",");
    }
    forall i | 0 <= i < |tags| ensures ',' !in Padded(tags)[i] {
      if i > 0 {
        assert Padded(tags)[i] == " " + tags[i];
      }
    }
  }

  /** adding a prefix to the first piece adds it to the front of the join */
  lemma {:induction false} JoinPrefixedHead(parts: seq<string>, prefix: string)
    requires parts != []
    ensures Join([prefix + parts[0]] + parts[1..], ",") == prefix + Join(parts, ",")
  {
    var q := [prefix + parts[0]] + parts[1..];
    if |parts| > 1 {
      assert q[1..] == parts[1..];
    }
  }

  // ------------------------------------------------------------- barcode

  /** handleEdit's `product.barcode || ''` */
  function BarcodeField(barcode: Option<string>): string {
    barcode.GetOr("")
  }

  /** handleSubmit's `formData.barcode || null` */
  function SavedBarcode(field: string): Option<string> {
    if field == "" then None else Some(field)
  }

  /** Editing and saving keeps a barcode (a missing one stays missing; an
      empty one is normalised to missing), and saving then editing shows
      exactly what was typed */
  lemma {:induction false} BarcodeRoundTrip(barcode: Option<string>, field: string)
    ensures barcode != Some("") ==> SavedBarcode(BarcodeField(barcode)) == barcode
    ensures barcode == Some("") ==> SavedBarcode(BarcodeField(barcode)) == None
    ensures BarcodeField(SavedBarcode(field)) == field
    ensures barcode.None? ==> BarcodeField(barcode) == ""
  {
  }

  // ----------------------------------------------------------------- form

  /** the product form; price and stock are held as numbers here */
  datatype ProductForm = ProductForm(
    name: string,
    description: string,
    price: int,
    imageUrl: string,
    category: string,
    stock: int,
    tags: string,
    isFeatured: bool,
    isLimitedStock: bool,
    barcode: string)

  /** the record handleSubmit sends to the database */
  datatype ProductData = ProductData(
    name: string,
    description: string,
    price: int,
    imageUrl: string,
    category: string,
    stock: int,
    tags: seq<string>,
    isFeatured: bool,
    isLimitedStock: bool,
    barcode: Option<string>)

  /** resetForm */
  const EmptyForm := ProductForm("", "", 0, "", "", 0, "", false, false, "")

  /** handleEdit: the form filled from a product */
  function EditForm(p: Product): ProductForm {
    ProductForm(p.name, p.description, p.price, p.imageUrl, p.category, p.stock,
                TagsText(p.tags), p.isFeatured, p.isLimitedStock, BarcodeField(p.barcode))
  }

  /** handleSubmit: the record built from the form */
  function ProductDataOf(f: ProductForm): ProductData {
    ProductData(f.name, f.description, f.price, f.imageUrl, f.category, f.stock,
                ParseTags(f.tags), f.isFeatured, f.isLimitedStock, SavedBarcode(f.barcode))
  }

  /** Opening a product for editing and saving without changes writes back
      the product's own fields, provided its tags are clean and its barcode
      is not the empty string */
  lemma {:induction false} EditThenSaveUnchanged(p: Product)
    requires forall i :: 0 <= i < |p.tags| ==> IsCleanTag(p.tags[i])
    requires p.barcode != Some("")
    ensures ProductDataOf(EditForm(p)) ==
            ProductData(p.name, p.description, p.price, p.imageUrl, p.category, p.stock,
                        p.tags, p.isFeatured, p.isLimitedStock, p.barcode)
  {
    TagsRoundTrip(p.tags);
    BarcodeRoundTrip(p.barcode, "");
  }

  /** a fresh form saves no tags and no barcode */
  lemma {:induction false} EmptyFormSavesNothingOptional()
    ensures ProductDataOf(EmptyForm).tags == []
    ensures ProductDataOf(EmptyForm).barcode == None
  {
    ParseTagsSpec("");
  }

  // ----------------------------------------------------------------- stock

  datatype StockLevel = Plenty | Low | Out

  /** the stock colour: green above 10, yellow from 1 to 10, red otherwise */
  function StockLevelOf(stock: int): StockLevel {
    if stock > 10 then Plenty else if stock > 0 then Low else Out
  }

  /** each stock figure gets exactly one colour, by these bounds */
  lemma {:induction false} StockLevelSpec(stock: int)
    ensures StockLevelOf(stock) == Plenty <==> stock > 10
    ensures StockLevelOf(stock) == Low <==> 0 < stock <= 10
    ensures StockLevelOf(stock) == Out <==> stock <= 0
  {
  }

  // ------------------------------------------------------- activity logging

  /** the action handleSubmit logs */
  function SaveAction(editing: bool): string {
    if editing then "update_product" else "create_product"
  }

  /** the action handleDelete logs */
  const DeleteAction := "delete_product"
}
