/**
 * The product, variant and listing-filter request schemas, as parses from
 * the raw JSON shape (numbers as reals, prices as integer cents) to the typed
 * inputs of the product service.
 */
module ProductDto {
  import opened Common
  import opened Store

  datatype RawVariant = RawVariant(
    id: Option<string>, sizeId: Option<string>, sizeValue: string,
    sizeLabel: Option<string>, stock: real)

  datatype VariantInput = VariantInput(
    id: Option<Id>, sizeId: Option<Id>, sizeValue: string, sizeLabel: Option<string>, stock: int)

  datatype RawProduct = RawProduct(
    sku: Option<string>, name: Option<string>, description: Option<string>,
    price: Option<int>, stock: Option<real>, imageUrl: Option<string>,
    brandId: Option<string>, genderId: Option<string>, shoeTypeId: Option<string>,
    variants: Option<seq<RawVariant>>)

  /** A create or update request once validated; for a create the four
      required fields are present. */
  datatype ProductInput = ProductInput(
    sku: Option<string>, name: Option<string>, description: Option<string>,
    price: Option<int>, stock: Option<int>, imageUrl: Option<string>,
    brandId: Option<Id>, genderId: Option<Id>, shoeTypeId: Option<Id>,
    variants: Option<seq<VariantInput>>)

  datatype RawFilter = RawFilter(
    genderId: Option<string>, shoeTypeId: Option<string>, brandId: Option<string>,
    minPrice: Option<real>, maxPrice: Option<real>, search: Option<string>,
    limit: Option<real>, page: Option<real>)

  datatype ProductFilter = ProductFilter(
    genderId: Option<Id>, shoeTypeId: Option<Id>, brandId: Option<Id>,
    minPrice: Option<real>, maxPrice: Option<real>, search: Option<string>,
    limit: int, page: int)

  /** `z.string().uuid().optional()`. */
  predicate OptionalUuid(s: Option<string>) {
    s.Some? ==> IsUuid(s.value)
  }

  predicate NonNegativeInt(x: real) {
    IsIntegral(x) && x >= 0.0
  }

  /** The variant schema. `keepId` is false for a create variant: the create
      schema omits `id`, so a supplied id is dropped, not rejected. */
  function ParseVariant(raw: RawVariant, keepId: bool): (r: Option<VariantInput>)
    ensures r.Some? <==>
      (keepId ==> OptionalUuid(raw.id)) && OptionalUuid(raw.sizeId) && |raw.sizeValue| >= 1
      && (raw.sizeLabel.Some? ==> |raw.sizeLabel.value| >= 1) && NonNegativeInt(raw.stock)
    ensures r.Some? ==> (r.value.stock >= 0 && r.value.stock as real == raw.stock
      && r.value.sizeValue == raw.sizeValue && r.value.sizeId == raw.sizeId
      && r.value.sizeLabel == raw.sizeLabel
      && r.value.id == if keepId then raw.id else None)
  {
    if (keepId ==> OptionalUuid(raw.id)) && OptionalUuid(raw.sizeId) && |raw.sizeValue| >= 1
      && (raw.sizeLabel.Some? ==> |raw.sizeLabel.value| >= 1) && NonNegativeInt(raw.stock)
    then Some(VariantInput(if keepId then raw.id else None, raw.sizeId, raw.sizeValue,
                           raw.sizeLabel, raw.stock.Floor))
    else None
  }

  function ParseVariants(raw: seq<RawVariant>, keepId: bool): (r: Option<seq<VariantInput>>)
    ensures r.Some? <==> forall i :: 0 <= i < |raw| ==> ParseVariant(raw[i], keepId).Some?
    ensures r.Some? ==> (|r.value| == |raw|
      && forall i :: 0 <= i < |raw| ==> Some(r.value[i]) == ParseVariant(raw[i], keepId))
  {
    if |raw| == 0 then Some([])
    else
      match (ParseVariant(raw[0], keepId), ParseVariants(raw[1..], keepId))
      case (Some(v), Some(vs)) => Some([v] + vs)
      case _ => None
  }

  /** The field rules shared by create and update, each applied when the
      field is present. */
  predicate FieldsValid(raw: RawProduct) {
    (raw.sku.Some? ==> |raw.sku.value| >= 3)
    && (raw.name.Some? ==> |raw.name.value| >= 1)
    && (raw.description.Some? ==> |raw.description.value| >= 1)
    && (raw.price.Some? ==> raw.price.value > 0)
    && (raw.stock.Some? ==> NonNegativeInt(raw.stock.value))
    && OptionalUuid(raw.brandId) && OptionalUuid(raw.genderId) && OptionalUuid(raw.shoeTypeId)
  }

  function ParseProduct(raw: RawProduct, keepVariantIds: bool, isValidUrl: string -> bool): (r: Option<ProductInput>)
    ensures r.Some? <==> (FieldsValid(raw) && (raw.imageUrl.Some? ==> isValidUrl(raw.imageUrl.value))
      && (raw.variants.Some? ==> ParseVariants(raw.variants.value, keepVariantIds).Some?))
    ensures r.Some? ==> (r.value.sku == raw.sku && r.value.name == raw.name
      && r.value.description == raw.description && r.value.price == raw.price
      && r.value.imageUrl == raw.imageUrl && r.value.brandId == raw.brandId
      && r.value.genderId == raw.genderId && r.value.shoeTypeId == raw.shoeTypeId
      && (r.value.stock.Some? <==> raw.stock.Some?)
      && (r.value.stock.Some? ==> r.value.stock.value >= 0 && r.value.stock.value as real == raw.stock.value)
      && (r.value.variants.Some? <==> raw.variants.Some?))
  {
    var variants := if raw.variants.Some? then ParseVariants(raw.variants.value, keepVariantIds) else None;
    if FieldsValid(raw) && (raw.imageUrl.Some? ==> isValidUrl(raw.imageUrl.value))
      && (raw.variants.Some? ==> variants.Some?)
    then Some(ProductInput(raw.sku, raw.name, raw.description, raw.price,
                           if raw.stock.Some? then Some(raw.stock.value.Floor) else None,
                           raw.imageUrl, raw.brandId, raw.genderId, raw.shoeTypeId,
                           if raw.variants.Some? then Some(variants.value) else None))
    else None
  }

  /** `createProductSchema`: sku, name, description and price are required;
      a supplied variant id is dropped. */
  function ParseCreateProduct(raw: RawProduct, isValidUrl: string -> bool): (r: Option<ProductInput>)
    ensures r.Some? ==> (r.value.sku.Some? && |r.value.sku.value| >= 3
      && r.value.name.Some? && |r.value.name.value| >= 1
      && r.value.description.Some? && |r.value.description.value| >= 1
      && r.value.price.Some? && r.value.price.value > 0
      && (r.value.stock.Some? ==> r.value.stock.value >= 0)
      && (r.value.variants.Some? ==> forall i :: 0 <= i < |r.value.variants.value| ==>
            r.value.variants.value[i].id.None? && r.value.variants.value[i].stock >= 0
            && |r.value.variants.value[i].sizeValue| >= 1))
    ensures (raw.sku.None? || raw.name.None? || raw.description.None? || raw.price.None?) ==> r.None?
    ensures r.Some? <==> (raw.sku.Some? && raw.name.Some? && raw.description.Some? && raw.price.Some?
      && FieldsValid(raw) && (raw.imageUrl.Some? ==> isValidUrl(raw.imageUrl.value))
      && (raw.variants.Some? ==> ParseVariants(raw.variants.value, false).Some?))
    ensures r.Some? ==> (r.value.sku == raw.sku && r.value.name == raw.name
      && r.value.description == raw.description && r.value.price == raw.price
      && r.value.imageUrl == raw.imageUrl && r.value.brandId == raw.brandId
      && r.value.genderId == raw.genderId && r.value.shoeTypeId == raw.shoeTypeId
      && (r.value.stock.Some? <==> raw.stock.Some?)
      && (r.value.stock.Some? ==> r.value.stock.value as real == raw.stock.value)
      && (r.value.variants.Some? <==> raw.variants.Some?)
      && (r.value.variants.Some? ==>
            (|r.value.variants.value| == |raw.variants.value|
             && forall i :: 0 <= i < |raw.variants.value| ==>
                  Some(r.value.variants.value[i]) == ParseVariant(raw.variants.value[i], false))))
  {
    if raw.sku.Some? && raw.name.Some? && raw.description.Some? && raw.price.Some?
    then
      var r := ParseProduct(raw, false, isValidUrl);
      if r.Some? && r.value.variants.Some? then
        var vs := r.value.variants.value;
        assert forall i :: 0 <= i < |vs| ==> Some(vs[i]) == ParseVariant(raw.variants.value[i], false);
        r
      else r
    else None
  }

  /** `updateProductSchema`: every field optional, variants may keep an id. */
  function ParseUpdateProduct(raw: RawProduct, isValidUrl: string -> bool): (r: Option<ProductInput>)
    ensures r.Some? <==> (FieldsValid(raw) && (raw.imageUrl.Some? ==> isValidUrl(raw.imageUrl.value))
      && (raw.variants.Some? ==> ParseVariants(raw.variants.value, true).Some?))
  {
    ParseProduct(raw, true, isValidUrl)
  }

  /** An empty update body is accepted. */
  lemma EmptyUpdateAccepted(isValidUrl: string -> bool)
    ensures ParseUpdateProduct(RawProduct(None, None, None, None, None, None, None, None, None, None), isValidUrl)
         == Some(ProductInput(None, None, None, None, None, None, None, None, None, None))
  {
  }

  /** `productFilterSchema`: limit an integer in 1..100 defaulting to 20, page
      an integer from 1 defaulting to 1, price bounds non-negative. */
  function ParseFilter(raw: RawFilter): (r: Option<ProductFilter>)
    ensures r.Some? ==> (1 <= r.value.limit <= 100 && r.value.page >= 1
      && (raw.limit.None? ==> r.value.limit == 20) && (raw.page.None? ==> r.value.page == 1)
      && (raw.limit.Some? ==> r.value.limit as real == raw.limit.value)
      && (raw.page.Some? ==> r.value.page as real == raw.page.value)
      && (r.value.minPrice.Some? ==> r.value.minPrice.value >= 0.0)
      && (r.value.maxPrice.Some? ==> r.value.maxPrice.value >= 0.0)
      && r.value.minPrice == raw.minPrice && r.value.maxPrice == raw.maxPrice
      && r.value.search == raw.search)
    ensures r.Some? <==>
      OptionalUuid(raw.genderId) && OptionalUuid(raw.shoeTypeId) && OptionalUuid(raw.brandId)
      && (raw.minPrice.Some? ==> raw.minPrice.value >= 0.0)
      && (raw.maxPrice.Some? ==> raw.maxPrice.value >= 0.0)
      && (raw.limit.Some? ==> IsIntegral(raw.limit.value) && 1.0 <= raw.limit.value <= 100.0)
      && (raw.page.Some? ==> IsIntegral(raw.page.value) && raw.page.value >= 1.0)
  {
    if OptionalUuid(raw.genderId) && OptionalUuid(raw.shoeTypeId) && OptionalUuid(raw.brandId)
      && (raw.minPrice.Some? ==> raw.minPrice.value >= 0.0)
      && (raw.maxPrice.Some? ==> raw.maxPrice.value >= 0.0)
      && (raw.limit.Some? ==> IsIntegral(raw.limit.value) && 1.0 <= raw.limit.value <= 100.0)
      && (raw.page.Some? ==> IsIntegral(raw.page.value) && raw.page.value >= 1.0)
    then Some(ProductFilter(raw.genderId, raw.shoeTypeId, raw.brandId, raw.minPrice, raw.maxPrice,
                            raw.search,
                            if raw.limit.Some? then raw.limit.value.Floor else 20,
                            if raw.page.Some? then raw.page.value.Floor else 1))
    else None
  }

  /** A listing request with no parameters asks for page 1 of 20. */
  lemma DefaultFilter()
    ensures var f := ParseFilter(RawFilter(None, None, None, None, None, None, None, None));
      f.Some? && f.value.limit == 20 && f.value.page == 1
  {
  }
}
