/**
 * The product service: size normalisation, the variant and stock rules of
 * product creation and update, deletion, the filtered and paged listing,
 * and the compensated stock adjustment.
 */
module ProductService {
  import opened Common
  import opened Store
  import opened ProductDto

  // ---------------------------------------------------------------------------
  // Sizes and variants
  // ---------------------------------------------------------------------------

  /** `normalizeSizeValue`: trimmed and upper-cased; the order of the two
      steps does not matter. */
  function NormalizeSizeValue(value: string): (r: string)
    ensures r == Trim(ToUpper(value))
    ensures r == [] || (!IsSpace(r[0]) && !IsSpace(r[|r| - 1]))
  {
    TrimUpperCommute(value);
    ToUpper(Trim(value))
  }

  lemma NormalizeSizeValueIdempotent(value: string)
    ensures NormalizeSizeValue(NormalizeSizeValue(value)) == NormalizeSizeValue(value)
  {
    var t := Trim(value);
    TrimUpperCommute(ToUpper(t));
    TrimUpperCommute(value);
    assert NormalizeSizeValue(ToUpper(t)) == ToUpper(Trim(ToUpper(t)));
    TrimUpperCommute(t);
    TrimIdempotent(value);
    UpperIdempotent(t);
  }

  /** How a new variant is attached to its size row. */
  datatype SizeLink =
    | Connect(sizeId: Id)
    | ConnectOrCreate(value: string, sizeLabel: string)

  datatype VariantCreate = VariantCreate(sizeValue: string, stock: int, size: SizeLink)

  /** `mapVariantCreateInput`. A non-empty size id connects to that size;
      otherwise the size with the normalised value is used, created with the
      given label or "<sizeValue> EU" when absent. */
  function MapVariantCreateInput(v: VariantInput): (r: VariantCreate)
    ensures r.sizeValue == Trim(v.sizeValue) && r.stock == v.stock
    ensures r.size.Connect? <==> v.sizeId.Some? && v.sizeId.value != ""
    ensures r.size.Connect? ==> r.size.sizeId == v.sizeId.value
    ensures r.size.ConnectOrCreate? ==>
      r.size.value == NormalizeSizeValue(v.sizeValue)
      && (v.sizeLabel.Some? ==> r.size.sizeLabel == v.sizeLabel.value)
      && (v.sizeLabel.None? ==> r.size.sizeLabel == v.sizeValue + " EU")
  {
    VariantCreate(
      Trim(v.sizeValue), v.stock,
      if v.sizeId.Some? && v.sizeId.value != "" then Connect(v.sizeId.value)
      else ConnectOrCreate(NormalizeSizeValue(v.sizeValue), v.sizeLabel.GetOr(v.sizeValue + " EU")))
  }

  /** The stored variant value and the size row it creates agree: the row's
      key is the normalised form of the variant's trimmed value. */
  lemma VariantValueMatchesSize(v: VariantInput)
    requires MapVariantCreateInput(v).size.ConnectOrCreate?
    ensures NormalizeSizeValue(MapVariantCreateInput(v).sizeValue) == MapVariantCreateInput(v).size.value
  {
    var t := Trim(v.sizeValue);
    TrimUpperCommute(t);
    TrimUpperCommute(v.sizeValue);
    TrimIdempotent(v.sizeValue);
  }

  function MapVariants(vs: seq<VariantInput>): (r: seq<VariantCreate>)
    ensures |r| == |vs| && forall i :: 0 <= i < |vs| ==> r[i] == MapVariantCreateInput(vs[i])
  {
    seq(|vs|, i requires 0 <= i < |vs| => MapVariantCreateInput(vs[i]))
  }

  function Stocks(vs: seq<VariantInput>): (r: seq<int>)
    ensures |r| == |vs| && forall i :: 0 <= i < |vs| ==> r[i] == vs[i].stock
  {
    seq(|vs|, i requires 0 <= i < |vs| => vs[i].stock)
  }

  /** `computeStockFromVariants`: nothing for a missing or empty list, else
      the total of the variant stocks, which is at least each of them when
      they are non-negative (as the schema requires). */
  function ComputeStockFromVariants(variants: Option<seq<VariantInput>>): (r: Option<int>)
    ensures r.None? <==> variants.None? || |variants.value| == 0
    ensures r.Some? && (forall i :: 0 <= i < |variants.value| ==> variants.value[i].stock >= 0) ==>
      (r.value >= 0 && forall i :: 0 <= i < |variants.value| ==> variants.value[i].stock <= r.value)
  {
    if variants.None? || |variants.value| == 0 then None
    else
      var xs := Stocks(variants.value);
      SumNonNegativeIfAll(xs);
      Some(Sum(xs))
  }

  lemma SumNonNegativeIfAll(xs: seq<int>)
    ensures (forall i :: 0 <= i < |xs| ==> xs[i] >= 0) ==>
      (Sum(xs) >= 0 && forall i :: 0 <= i < |xs| ==> xs[i] <= Sum(xs))
  {
    if forall i :: 0 <= i < |xs| ==> xs[i] >= 0 {
      SumNonNegative(xs);
    }
  }

  /** Adding one more variant adds its stock to the computed total. */
  lemma ComputeStockAppend(vs: seq<VariantInput>, v: VariantInput)
    ensures ComputeStockFromVariants(Some(vs + [v])) == Some(ComputeStockFromVariants(Some(vs)).GetOr(0) + v.stock)
  {
    assert Stocks(vs + [v]) == Stocks(vs) + [v.stock];
    SumAppend(Stocks(vs), [v.stock]);
  }

  /** `computed ?? stock ?? 0`. */
  function StockFor(variants: Option<seq<VariantInput>>, stock: Option<int>): (r: int)
    ensures variants.Some? && |variants.value| > 0 ==> Some(r) == ComputeStockFromVariants(variants)
    ensures (variants.None? || |variants.value| == 0) && stock.Some? ==> r == stock.value
    ensures (variants.None? || |variants.value| == 0) && stock.None? ==> r == 0
  {
    ComputeStockFromVariants(variants).GetOr(stock.GetOr(0))
  }

  /** No value's new row would be given this id (generated ids are fresh
      uuids). */
  ghost predicate NeverGenerated(newSizeId: string -> Id, id: Id) {
    forall v :: newSizeId(v) != id
  }

  /** Resolves one size link against the size table: a connect needs a row
      with that id and points to it; a connect-or-create finds the row by its
      normalised value, or adds it with the id the database generates for
      it (`newSizeId`). */
  function LinkSize(t: SizeTable, link: SizeLink, newSizeId: string -> Id): (r: Result<(SizeTable, string)>)
    ensures r.Failure? <==> link.Connect? && !HasSizeRow(t, link.sizeId)
    ensures r.Failure? ==> r.error == RecordNotFound
    ensures r.Success? ==> (
      var (t', key) := r.value;
      key in t'.labels && t.labels.Keys <= t'.labels.Keys
      && (forall k :: k in t.labels ==> t'.labels[k] == t.labels[k])
      && (link.Connect? ==> t' == t && key == t.ids[link.sizeId])
      && (link.ConnectOrCreate? ==> (key == link.value && t'.labels.Keys == t.labels.Keys + {link.value}
            && (link.value !in t.labels ==>
                  t'.labels[key] == link.sizeLabel && newSizeId(key) in t'.ids && t'.ids[newSizeId(key)] == key))))
  {
    match link
    case Connect(id) => if HasSizeRow(t, id) then Success((t, t.ids[id])) else Failure(RecordNotFound)
    case ConnectOrCreate(value, sizeLabel) =>
      if value in t.labels then Success((t, value))
      else Success((SizeTable(t.labels[value := sizeLabel], t.ids[newSizeId(value) := value]), value))
  }

  /** Linking keeps every row, and every id that the database does not
      generate again keeps naming its row; a table whose ids all name rows
      stays so. */
  lemma LinkSizeById(t: SizeTable, link: SizeLink, newSizeId: string -> Id)
    requires LinkSize(t, link, newSizeId).Success?
    ensures var t' := LinkSize(t, link, newSizeId).value.0;
      && (forall id :: HasSizeRow(t, id) ==> HasSizeRow(t', id))
      && (forall id :: id in t.ids && NeverGenerated(newSizeId, id) ==> id in t'.ids && t'.ids[id] == t.ids[id])
      && (SizeIdsIndexed(t) ==> SizeIdsIndexed(t'))
  {
  }

  /** The nested variant create: each variant is linked in turn, sizes
      created by earlier variants being visible to later ones; the first
      missing connect target fails the whole write. */
  function LinkAll(t: SizeTable, cs: seq<VariantCreate>, newSizeId: string -> Id): (r: Result<(SizeTable, seq<Variant>)>)
    ensures r.Failure? ==> r.error == RecordNotFound
    ensures r.Success? ==> (
      var (t', vs) := r.value;
      |vs| == |cs| && t.labels.Keys <= t'.labels.Keys
      && (forall k :: k in t.labels ==> t'.labels[k] == t.labels[k])
      && (forall i :: 0 <= i < |cs| ==>
            vs[i].sizeValue == cs[i].sizeValue && vs[i].stock == cs[i].stock
            && vs[i].sizeKey.Some? && vs[i].sizeKey.value in t'.labels)
      && (forall i :: 0 <= i < |cs| && cs[i].size.ConnectOrCreate? ==> vs[i].sizeKey == Some(cs[i].size.value)))
    decreases |cs|
  {
    if |cs| == 0 then Success((t, []))
    else
      match LinkSize(t, cs[0].size, newSizeId)
      case Failure(e) => Failure(e)
      case Success((t1, key)) =>
        match LinkAll(t1, cs[1..], newSizeId)
        case Failure(e) => Failure(e)
        case Success((t2, vs)) =>
          var r := [Variant(cs[0].sizeValue, Some(key), cs[0].stock)] + vs;
          assert forall i :: 0 <= i < |cs| ==>
                   r[i].sizeValue == cs[i].sizeValue && r[i].stock == cs[i].stock
                   && r[i].sizeKey.Some? && r[i].sizeKey.value in t2.labels
                   && (cs[i].size.ConnectOrCreate? ==> r[i].sizeKey == Some(cs[i].size.value)) by {
            forall i | 1 <= i < |cs| ensures cs[i] == cs[1..][i - 1] && r[i] == vs[i - 1] {
            }
          }
          Success((t2, r))
  }

  /** The write fails exactly when a connect names an id no size row has:
      a row that exists stays, so only a missing id can fail, and with every
      connected id present the write goes through. */
  lemma {:induction false} LinkAllFails(t: SizeTable, cs: seq<VariantCreate>, newSizeId: string -> Id)
    ensures LinkAll(t, cs, newSizeId).Failure? ==>
      exists i :: 0 <= i < |cs| && cs[i].size.Connect? && !HasSizeRow(t, cs[i].size.sizeId)
    ensures (forall i :: 0 <= i < |cs| && cs[i].size.Connect? ==> HasSizeRow(t, cs[i].size.sizeId)) ==>
      LinkAll(t, cs, newSizeId).Success?
    decreases |cs|
  {
    if |cs| > 0 {
      var first := LinkSize(t, cs[0].size, newSizeId);
      if first.Success? {
        var t1 := first.value.0;
        LinkSizeById(t, cs[0].size, newSizeId);
        LinkAllFails(t1, cs[1..], newSizeId);
        forall i | 0 <= i < |cs[1..]| ensures cs[1..][i] == cs[i + 1] {
        }
      }
    }
  }

  /** The ids already in the table keep naming the same rows (unless the
      database generates one of them again), so a connect to such an id
      points the variant to that id's row; and a table whose ids all name
      rows stays so. */
  lemma {:induction false} LinkAllById(t: SizeTable, cs: seq<VariantCreate>, newSizeId: string -> Id)
    requires LinkAll(t, cs, newSizeId).Success?
    ensures var (t', vs) := LinkAll(t, cs, newSizeId).value;
      && (forall id :: id in t.ids && NeverGenerated(newSizeId, id) ==> id in t'.ids && t'.ids[id] == t.ids[id])
      && (SizeIdsIndexed(t) ==> SizeIdsIndexed(t'))
      && (forall i :: (0 <= i < |cs| && cs[i].size.Connect? && cs[i].size.sizeId in t.ids
                       && NeverGenerated(newSizeId, cs[i].size.sizeId)) ==>
            vs[i].sizeKey == Some(t.ids[cs[i].size.sizeId]))
    decreases |cs|
  {
    if |cs| > 0 {
      var (t1, key) := LinkSize(t, cs[0].size, newSizeId).value;
      LinkSizeById(t, cs[0].size, newSizeId);
      LinkAllById(t1, cs[1..], newSizeId);
      var (t', vs) := LinkAll(t, cs, newSizeId).value;
      var vs1 := LinkAll(t1, cs[1..], newSizeId).value.1;
      assert vs == [Variant(cs[0].sizeValue, Some(key), cs[0].stock)] + vs1;
      forall i | (0 <= i < |cs| && cs[i].size.Connect? && cs[i].size.sizeId in t.ids
                  && NeverGenerated(newSizeId, cs[i].size.sizeId))
        ensures vs[i].sizeKey == Some(t.ids[cs[i].size.sizeId])
      {
        if i > 0 {
          assert cs[i] == cs[1..][i - 1] && vs[i] == vs1[i - 1];
        }
      }
    }
  }

  function VariantStocks(vs: seq<Variant>): (r: seq<int>)
    ensures |r| == |vs| && forall i :: 0 <= i < |vs| ==> r[i] == vs[i].stock
  {
    seq(|vs|, i requires 0 <= i < |vs| => vs[i].stock)
  }

  /** A product whose stock is the total of its variants' stocks; the service
      keeps this whenever it writes variants. */
  predicate StockMatchesVariants(p: Product) {
    |p.variants| > 0 ==> p.stock == Sum(VariantStocks(p.variants))
  }

  /** The stored variants carry the stocks of the request variants. */
  lemma LinkedStocks(t: SizeTable, vs: seq<VariantInput>, newSizeId: string -> Id)
    requires LinkAll(t, MapVariants(vs), newSizeId).Success?
    ensures VariantStocks(LinkAll(t, MapVariants(vs), newSizeId).value.1) == Stocks(vs)
  {
  }

  // ---------------------------------------------------------------------------
  // Create, read, update, delete
  // ---------------------------------------------------------------------------

  /** The product row and size table a create request produces. */
  function NewProduct(t: SizeTable, input: ProductInput, newSizeId: string -> Id): (r: Result<(SizeTable, Product)>)
    requires input.sku.Some? && input.name.Some? && input.description.Some? && input.price.Some?
    ensures r.Failure? ==> r.error == RecordNotFound
    ensures r.Success? ==> (
      var p := r.value.1;
      p.sku == input.sku.value && p.name == input.name.value
      && p.description == input.description.value && p.price == input.price.value
      && p.imageUrl == input.imageUrl && p.brandId == input.brandId
      && p.genderId == input.genderId && p.shoeTypeId == input.shoeTypeId
      && p.stock == StockFor(input.variants, input.stock)
      && (input.variants.Some? ==> |p.variants| == |input.variants.value|)
      && (input.variants.None? ==> p.variants == []))
  {
    var vs := if input.variants.Some? then input.variants.value else [];
    var stock := StockFor(input.variants, input.stock);
    match LinkAll(t, MapVariants(vs), newSizeId)
    case Failure(e) => Failure(e)
    case Success((t', variants)) =>
      Success((t', Product(input.sku.value, input.name.value, input.description.value, input.price.value,
                               stock, input.imageUrl, input.brandId, input.genderId, input.shoeTypeId, variants)))
  }

  /** A created product with variants has the total of their stocks. */
  lemma NewProductStockMatches(t: SizeTable, input: ProductInput, newSizeId: string -> Id)
    requires input.sku.Some? && input.name.Some? && input.description.Some? && input.price.Some?
    requires NewProduct(t, input, newSizeId).Success?
    ensures StockMatchesVariants(NewProduct(t, input, newSizeId).value.1)
  {
    if input.variants.Some? {
      LinkedStocks(t, input.variants.value, newSizeId);
    }
  }

  predicate SkuTaken(products: map<Id, Product>, sku: string, except: Option<Id>) {
    exists id :: id in products && products[id].sku == sku && Some(id) != except
  }

  /** `createProduct`. `id` is the generated id of the new row and
      `newSizeId` the id generated for each size row it creates. A duplicate
      sku or a missing size fails the whole write. */
  method CreateProduct(db: Db, id: Id, input: ProductInput, newSizeId: string -> Id) returns (r: Result<Product>)
    requires id !in db.products
    requires input.sku.Some? && input.name.Some? && input.description.Some? && input.price.Some?
    modifies db`products, db`sizes
    ensures SkuTaken(old(db.products), input.sku.value, None) ==>
      r == Failure(UniqueViolation) && unchanged(db)
    ensures !SkuTaken(old(db.products), input.sku.value, None) ==>
      match NewProduct(old(db.sizes), input, newSizeId)
      case Failure(e) => r == Failure(e) && unchanged(db)
      case Success((t', p)) =>
        r == Success(p) && db.products == old(db.products)[id := p] && db.sizes == t'
  {
    if exists other :: other in db.products && db.products[other].sku == input.sku.value {
      return Failure(UniqueViolation);
    }
    var created := NewProduct(db.sizes, input, newSizeId);
    if created.Failure? {
      return Failure(created.error);
    }
    var (t', p) := created.value;
    db.sizes := t';
    db.products := db.products[id := p];
    return Success(p);
  }

  /** `getProductById`. */
  function GetProductById(products: map<Id, Product>, id: Id): (r: Result<Product>)
    ensures r.Success? <==> id in products
    ensures r.Success? ==> r.value == products[id]
    ensures r.Failure? ==> r.error == Http(404, "Product not found")
  {
    if id in products then Success(products[id]) else Failure(Http(404, "Product not found"))
  }

  /** The scalar fields of an update: each supplied one replaces the stored
      one; stock and variants are kept. */
  function Patch(p: Product, input: ProductInput): (q: Product)
    ensures q.sku == input.sku.GetOr(p.sku) && q.name == input.name.GetOr(p.name)
    ensures q.description == input.description.GetOr(p.description)
    ensures q.price == input.price.GetOr(p.price)
    ensures q.imageUrl == (if input.imageUrl.Some? then input.imageUrl else p.imageUrl)
    ensures q.brandId == (if input.brandId.Some? then input.brandId else p.brandId)
    ensures q.genderId == (if input.genderId.Some? then input.genderId else p.genderId)
    ensures q.shoeTypeId == (if input.shoeTypeId.Some? then input.shoeTypeId else p.shoeTypeId)
    ensures q.stock == p.stock && q.variants == p.variants
  {
    p.(
      sku := input.sku.GetOr(p.sku), name := input.name.GetOr(p.name),
      description := input.description.GetOr(p.description), price := input.price.GetOr(p.price),
      imageUrl := if input.imageUrl.Some? then input.imageUrl else p.imageUrl,
      brandId := if input.brandId.Some? then input.brandId else p.brandId,
      genderId := if input.genderId.Some? then input.genderId else p.genderId,
      shoeTypeId := if input.shoeTypeId.Some? then input.shoeTypeId else p.shoeTypeId)
  }

  /** The row an update writes: every supplied scalar field replaces the
      stored one; supplied variants replace the whole variant set and reset
      the stock, otherwise a supplied stock is written alone. */
  function UpdatedProduct(t: SizeTable, p: Product, input: ProductInput, newSizeId: string -> Id): (r: Result<(SizeTable, Product)>)
    ensures r.Failure? ==> input.variants.Some? && r.error == RecordNotFound
    ensures r.Success? ==> (
      var q := r.value.1;
      q.sku == input.sku.GetOr(p.sku) && q.name == input.name.GetOr(p.name)
      && q.description == input.description.GetOr(p.description)
      && q.price == input.price.GetOr(p.price)
      && (input.imageUrl.Some? ==> q.imageUrl == input.imageUrl)
      && (input.imageUrl.None? ==> q.imageUrl == p.imageUrl)
      && (input.brandId.Some? ==> q.brandId == input.brandId)
      && (input.brandId.None? ==> q.brandId == p.brandId)
      && (input.genderId.Some? ==> q.genderId == input.genderId)
      && (input.genderId.None? ==> q.genderId == p.genderId)
      && (input.shoeTypeId.Some? ==> q.shoeTypeId == input.shoeTypeId)
      && (input.shoeTypeId.None? ==> q.shoeTypeId == p.shoeTypeId)
      && (input.variants.Some? ==> (q.stock == StockFor(input.variants, input.stock)
            && |q.variants| == |input.variants.value|))
      && (input.variants.None? ==> q.variants == p.variants && q.stock == input.stock.GetOr(p.stock)))
    ensures input.variants.None? ==> r.Success? && r.value.0 == t
  {
    var patched := Patch(p, input);
    if input.variants.Some? then
      match LinkAll(t, MapVariants(input.variants.value), newSizeId)
      case Failure(e) => Failure(e)
      case Success((t', variants)) =>
        Success((t', patched.(stock := StockFor(input.variants, input.stock), variants := variants)))
    else
      Success((t, patched.(stock := input.stock.GetOr(p.stock))))
  }

  /** An update without variants and without stock leaves the stock and
      variants as they were; an update with variants leaves a product whose
      stock is their total. */
  lemma UpdateStockRule(t: SizeTable, p: Product, input: ProductInput, newSizeId: string -> Id)
    ensures input.variants.None? && input.stock.None? ==>
      UpdatedProduct(t, p, input, newSizeId).value.1.stock == p.stock
      && UpdatedProduct(t, p, input, newSizeId).value.1.variants == p.variants
    ensures input.variants.Some? && UpdatedProduct(t, p, input, newSizeId).Success? ==>
      StockMatchesVariants(UpdatedProduct(t, p, input, newSizeId).value.1)
  {
    if input.variants.Some? && UpdatedProduct(t, p, input, newSizeId).Success? {
      LinkedStocks(t, input.variants.value, newSizeId);
    }
  }

  /** `updateProduct`. An unknown id and a missing size (both reported by the
      database as a missing record) give 404; a sku already used by another
      product fails with the unique violation. */
  method UpdateProduct(db: Db, id: Id, input: ProductInput, newSizeId: string -> Id) returns (r: Result<Product>)
    modifies db`products, db`sizes
    ensures id !in old(db.products) ==> r == Failure(Http(404, "Product not found")) && unchanged(db)
    ensures id in old(db.products) && input.sku.Some? && SkuTaken(old(db.products), input.sku.value, Some(id)) ==>
      r == Failure(UniqueViolation) && unchanged(db)
    ensures id in old(db.products) && !(input.sku.Some? && SkuTaken(old(db.products), input.sku.value, Some(id))) ==>
      match UpdatedProduct(old(db.sizes), old(db.products)[id], input, newSizeId)
      case Failure(_) => r == Failure(Http(404, "Product not found")) && unchanged(db)
      case Success((t', q)) =>
        r == Success(q) && db.products == old(db.products)[id := q] && db.sizes == t'
  {
    if id !in db.products {
      return Failure(Http(404, "Product not found"));
    }
    if input.sku.Some? && exists other :: other in db.products && db.products[other].sku == input.sku.value && Some(other) != Some(id) {
      return Failure(UniqueViolation);
    }
    var updated := UpdatedProduct(db.sizes, db.products[id], input, newSizeId);
    if updated.Failure? {
      return Failure(Http(404, "Product not found"));
    }
    var (t', q) := updated.value;
    db.sizes := t';
    db.products := db.products[id := q];
    return Success(q);
  }

  /** `deleteProduct`: 404 for an unknown id, else the row alone is removed. */
  method DeleteProduct(db: Db, id: Id) returns (r: Result<()>)
    modifies db`products
    ensures id !in old(db.products) ==> r == Failure(Http(404, "Product not found")) && unchanged(db)
    ensures id in old(db.products) ==> r == Success(()) && db.products == old(db.products) - {id}
  {
    if id !in db.products {
      return Failure(Http(404, "Product not found"));
    }
    db.products := db.products - {id};
    return Success(());
  }

  // ---------------------------------------------------------------------------
  // Listing
  // ---------------------------------------------------------------------------

  datatype Listing = Listing(items: seq<(Id, Product)>, total: nat, page: int, limit: int, pages: nat)

  /** The filter of `listProducts`: a non-empty search must occur, ignoring
      case, in the name or the description; each non-empty reference id must
      match; each supplied price bound (in currency units) is inclusive. */
  predicate Matches(p: Product, f: ProductFilter) {
    (f.search.Some? && f.search.value != "" ==>
       Includes(ToLower(p.name), ToLower(f.search.value))
       || Includes(ToLower(p.description), ToLower(f.search.value)))
    && (f.brandId.Some? && f.brandId.value != "" ==> p.brandId == f.brandId)
    && (f.genderId.Some? && f.genderId.value != "" ==> p.genderId == f.genderId)
    && (f.shoeTypeId.Some? && f.shoeTypeId.value != "" ==> p.shoeTypeId == f.shoeTypeId)
    && (f.minPrice.Some? ==> p.price as real / 100.0 >= f.minPrice.value)
    && (f.maxPrice.Some? ==> p.price as real / 100.0 <= f.maxPrice.value)
  }

  /** The matching rows, in catalogue order (newest first). */
  function Filtered(catalog: seq<(Id, Product)>, f: ProductFilter): (r: seq<(Id, Product)>)
    ensures |r| <= |catalog|
    ensures forall k :: 0 <= k < |r| ==> r[k] in catalog && Matches(r[k].1, f)
  {
    if |catalog| == 0 then []
    else if Matches(catalog[0].1, f) then [catalog[0]] + Filtered(catalog[1..], f)
    else Filtered(catalog[1..], f)
  }

  /** Every matching row is listed. */
  lemma {:induction false} FilteredComplete(catalog: seq<(Id, Product)>, f: ProductFilter, k: nat)
    requires k < |catalog| && Matches(catalog[k].1, f)
    ensures catalog[k] in Filtered(catalog, f)
  {
    if k > 0 {
      FilteredComplete(catalog[1..], f, k - 1);
    }
  }

  /** `listProducts`: skip `(page - 1) * limit`, take `limit`, and the page
      count `max(1, ceil(total / limit))`. */
  function ListProducts(catalog: seq<(Id, Product)>, f: ProductFilter): (r: Listing)
    requires f.limit >= 1 && f.page >= 1
    ensures r.total == |Filtered(catalog, f)| && r.page == f.page && r.limit == f.limit
    ensures r.pages == PageCount(r.total, f.limit) && r.pages >= 1
    ensures r.items == Window(Filtered(catalog, f), (f.page - 1) * f.limit, f.limit)
  {
    var all := Filtered(catalog, f);
    Listing(Window(all, (f.page - 1) * f.limit, f.limit), |all|, f.page, f.limit, PageCount(|all|, f.limit))
  }

  /** Position `m` of page `f.page` holds matching row `(f.page - 1) * f.limit + m`. */
  lemma ListingItemAt(catalog: seq<(Id, Product)>, f: ProductFilter, m: nat, k: nat)
    requires f.limit >= 1 && f.page >= 1 && m < f.limit
    requires (f.page - 1) * f.limit + m == k && k < |Filtered(catalog, f)|
    ensures m < |ListProducts(catalog, f).items| && ListProducts(catalog, f).items[m] == Filtered(catalog, f)[k]
  {
    MulMonotone(0, f.page - 1, f.limit);
    WindowAt(Filtered(catalog, f), (f.page - 1) * f.limit, f.limit, m);
  }

  /** Every matching row is on exactly the page its position says, and a
      page past the last one is empty. */
  lemma ItemOnItsPage(catalog: seq<(Id, Product)>, f: ProductFilter, k: nat)
    requires f.limit >= 1 && k < |Filtered(catalog, f)|
    ensures var page := k / f.limit + 1;
      var l := ListProducts(catalog, f.(page := page));
      page <= l.pages && k % f.limit < |l.items| && l.items[k % f.limit] == Filtered(catalog, f)[k]
  {
    var g := f.(page := k / f.limit + 1);
    PageOfIndex(|Filtered(catalog, f)|, f.limit, k);
    FilteredIgnoresPaging(catalog, f, g.page);
    ListingItemAt(catalog, g, k % f.limit, k);
  }

  lemma PageBeyondLastIsEmpty(catalog: seq<(Id, Product)>, f: ProductFilter)
    requires f.limit >= 1 && f.page >= 1
    requires f.page > ListProducts(catalog, f).pages
    ensures ListProducts(catalog, f).items == []
  {
    PastLastPage(|Filtered(catalog, f)|, f.limit, f.page);
  }

  lemma {:induction false} FilteredIgnoresPaging(catalog: seq<(Id, Product)>, f: ProductFilter, page: int)
    ensures Filtered(catalog, f.(page := page)) == Filtered(catalog, f)
  {
    if |catalog| > 0 {
      FilteredIgnoresPaging(catalog[1..], f, page);
    }
  }

  /** The price bounds are inclusive: a product priced exactly at a bound
      passes it. */
  lemma PriceBoundsInclusive(p: Product, f: ProductFilter)
    requires f.minPrice == Some(p.price as real / 100.0) && f.maxPrice == Some(p.price as real / 100.0)
    requires f.search.None? && f.brandId.None? && f.genderId.None? && f.shoeTypeId.None?
    ensures Matches(p, f)
  {
  }

  // ---------------------------------------------------------------------------
  // Stock adjustment
  // ---------------------------------------------------------------------------

  /** `adjustProductStock`: the stock is incremented by `delta`; a negative
      result is compensated by the opposite update and reported as 422, so
      the stock ends where it started. An unknown product is a missing
      record. */
  method AdjustProductStock(db: Db, productId: Id, delta: int) returns (r: Result<Product>)
    modifies db`products
    ensures productId !in old(db.products) ==> r == Failure(RecordNotFound) && unchanged(db)
    ensures productId in old(db.products) && old(db.products)[productId].stock + delta < 0 ==>
      r == Failure(Http(422, "Insufficient stock for product")) && db.products == old(db.products)
    ensures productId in old(db.products) && old(db.products)[productId].stock + delta >= 0 ==>
      r.Success? && r.value.stock >= 0
      && r.value == old(db.products)[productId].(stock := old(db.products)[productId].stock + delta)
      && db.products == old(db.products)[productId := r.value]
  {
    if productId !in db.products {
      return Failure(RecordNotFound);
    }
    var before := db.products[productId];
    var product := before.(stock := before.stock + delta);
    db.products := db.products[productId := product];
    if product.stock < 0 {
      var current := db.products[productId];
      db.products := db.products[productId := current.(stock := current.stock - delta)];
      assert db.products[productId] == before;
      assert db.products == old(db.products);
      return Failure(Http(422, "Insufficient stock for product"));
    }
    return Success(product);
  }
}
