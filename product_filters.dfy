// The filter bar of the catalogue: the filter value it edits, the patch each
// control sends, the reset and whether the reset button shows. Prices are
// exact reals; how the browser turns the typed text into a number is the
// parameter `number`.

module ProductFilters {
  import opened Common

  /** `ProductFilterValue`: every field may be absent. */
  datatype FilterValue = FilterValue(
    brandId: Option<string>,
    shoeTypeId: Option<string>,
    minPrice: Option<real>,
    maxPrice: Option<real>,
    search: Option<string>)

  /** A `Partial<ProductFilterValue>`: `None` for a key the patch does not
      hold, `Some(None)` for a key it holds with the value `undefined`. */
  datatype Patch = Patch(
    brandId: Option<Option<string>>,
    shoeTypeId: Option<Option<string>>,
    minPrice: Option<Option<real>>,
    maxPrice: Option<Option<real>>,
    search: Option<Option<string>>)

  const NoFilters: FilterValue := FilterValue(None, None, None, None, None)
  const EmptyPatch: Patch := Patch(None, None, None, None, None)

  /** A string the source tests for truthiness: present and not "". */
  predicate Truthy(s: Option<string>) {
    s.Some? && s.value != ""
  }

  /** `hasActiveFilters`: a truthy brand or type, a minimum or maximum price,
      or a search that is not blank. */
  function HasActiveFilters(v: FilterValue): (r: bool)
    ensures !r <==>
      (v.brandId.None? || v.brandId == Some("")) && (v.shoeTypeId.None? || v.shoeTypeId == Some(""))
      && v.minPrice.None? && v.maxPrice.None? && (v.search.None? || IsBlank(v.search.value))
  {
    Truthy(v.brandId) || Truthy(v.shoeTypeId) || v.minPrice.Some? || v.maxPrice.Some?
    || (v.search.Some? && |Trim(v.search.value)| > 0)
  }

  /** `update`: `{ ...value, ...patch }`. */
  function Update(v: FilterValue, patch: Patch): FilterValue {
    FilterValue(
      patch.brandId.GetOr(v.brandId),
      patch.shoeTypeId.GetOr(v.shoeTypeId),
      patch.minPrice.GetOr(v.minPrice),
      patch.maxPrice.GetOr(v.maxPrice),
      patch.search.GetOr(v.search))
  }

  /** A patch sets the keys it holds and keeps the others; the empty patch
      changes nothing, and of two patches on the same key the later wins. */
  lemma UpdateSpec(v: FilterValue, p: Patch, q: Patch)
    ensures Update(v, EmptyPatch) == v
    ensures p.brandId.Some? ==> Update(v, p).brandId == p.brandId.value
    ensures p.brandId.None? ==> Update(v, p).brandId == v.brandId
    ensures p.shoeTypeId.Some? ==> Update(v, p).shoeTypeId == p.shoeTypeId.value
    ensures p.shoeTypeId.None? ==> Update(v, p).shoeTypeId == v.shoeTypeId
    ensures p.minPrice.Some? ==> Update(v, p).minPrice == p.minPrice.value
    ensures p.minPrice.None? ==> Update(v, p).minPrice == v.minPrice
    ensures p.maxPrice.Some? ==> Update(v, p).maxPrice == p.maxPrice.value
    ensures p.maxPrice.None? ==> Update(v, p).maxPrice == v.maxPrice
    ensures p.search.Some? ==> Update(v, p).search == p.search.value
    ensures p.search.None? ==> Update(v, p).search == v.search
    ensures p.brandId.Some? && p.shoeTypeId.Some? && p.minPrice.Some? && p.maxPrice.Some? && p.search.Some? ==>
      Update(Update(v, q), p) == Update(v, p)
  {
  }

  /** The search box: the typed text, or `undefined` when it is empty. */
  function SearchPatch(text: string): Patch {
    EmptyPatch.(search := Some(if |text| > 0 then Some(text) else None))
  }

  /** The brand select: the chosen id, or `undefined` for "all brands". */
  function BrandPatch(selected: string): Patch {
    EmptyPatch.(brandId := Some(if selected != "" then Some(selected) else None))
  }

  /** The type select: the chosen id, or `undefined` for "all types". */
  function TypePatch(selected: string): Patch {
    EmptyPatch.(shoeTypeId := Some(if selected != "" then Some(selected) else None))
  }

  /** A price input: `Number(raw)`, or `undefined` when the field is empty. */
  function PriceInput(raw: string, number: string -> real): (r: Option<real>)
    ensures r.None? <==> raw == ""
  {
    if raw != "" then Some(number(raw)) else None
  }

  function MinPricePatch(raw: string, number: string -> real): Patch {
    EmptyPatch.(minPrice := Some(PriceInput(raw, number)))
  }

  function MaxPricePatch(raw: string, number: string -> real): Patch {
    EmptyPatch.(maxPrice := Some(PriceInput(raw, number)))
  }

  /** `handleReset`: the empty filter value. */
  function Reset(): (r: FilterValue)
    ensures !HasActiveFilters(r)
  {
    NoFilters
  }

  /** What each control shows: `value ?? ""`. */
  function Shown(s: Option<string>): string {
    s.GetOr("")
  }

  /** Each control, given back the text it shows, leaves the value as it is
      (a present but empty string aside, which it turns into absent). `show`
      is how a price is written into its input. */
  lemma ControlsRoundTrip(v: FilterValue, number: string -> real, show: real -> string)
    ensures v.search != Some("") ==> Update(v, SearchPatch(Shown(v.search))) == v
    ensures v.brandId != Some("") ==> Update(v, BrandPatch(Shown(v.brandId))) == v
    ensures v.shoeTypeId != Some("") ==> Update(v, TypePatch(Shown(v.shoeTypeId))) == v
    ensures v.minPrice.Some? && show(v.minPrice.value) != "" && number(show(v.minPrice.value)) == v.minPrice.value ==>
      Update(v, MinPricePatch(show(v.minPrice.value), number)) == v
    ensures v.maxPrice.Some? && show(v.maxPrice.value) != "" && number(show(v.maxPrice.value)) == v.maxPrice.value ==>
      Update(v, MaxPricePatch(show(v.maxPrice.value), number)) == v
  {
  }

  /** Each control given "" clears its own field and nothing else. */
  lemma ControlsClear(v: FilterValue, number: string -> real)
    ensures Update(v, SearchPatch("")) == v.(search := None)
    ensures Update(v, BrandPatch("")) == v.(brandId := None)
    ensures Update(v, TypePatch("")) == v.(shoeTypeId := None)
    ensures Update(v, MinPricePatch("", number)) == v.(minPrice := None)
    ensures Update(v, MaxPricePatch("", number)) == v.(maxPrice := None)
  {
  }

  /** Clearing every control one after the other ends where the reset
      button does; choosing a brand always shows the reset button. */
  lemma ClearingEqualsReset(v: FilterValue, number: string -> real, brand: string)
    ensures Update(Update(Update(Update(Update(v, SearchPatch("")), BrandPatch("")), TypePatch("")),
                          MinPricePatch("", number)), MaxPricePatch("", number)) == Reset()
    ensures brand != "" ==> HasActiveFilters(Update(v, BrandPatch(brand)))
  {
  }
}
