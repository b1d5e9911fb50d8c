// The catalogue filters kept in the address bar: reading them from the
// search parameters and writing a new filter value back. `number` stands for
// `Number(text)` when the result is finite (`None` otherwise), `show` for
// `String(x)`.

module ProductFilterParams {
  import opened Common
  import opened SearchParams
  import opened ProductFilters

  /** `parseNumberParam`: nothing for a missing or empty parameter or a text
      that is not a finite number. */
  function ParseNumberParam(value: Option<string>, number: string -> Option<real>): (r: Option<real>)
    ensures value.None? || value == Some("") ==> r.None?
    ensures value.Some? && value.value != "" ==> r == number(value.value)
  {
    if value.None? || value.value == "" then None else number(value.value)
  }

  /** `x || undefined` on a string. */
  function OrNone(s: Option<string>): (r: Option<string>)
    ensures r.None? <==> !Truthy(s)
    ensures r.Some? ==> r == s
  {
    if Truthy(s) then s else None
  }

  /** `filters`: brand and type from "brand" and "type", the prices parsed
      from "minPrice" and "maxPrice"; the search is not read. */
  function ReadFilters(ps: Pairs, number: string -> Option<real>): FilterValue {
    FilterValue(
      OrNone(Get(ps, "brand")),
      OrNone(Get(ps, "type")),
      ParseNumberParam(Get(ps, "minPrice"), number),
      ParseNumberParam(Get(ps, "maxPrice"), number),
      None)
  }

  /** The value a falsy-checked parameter ends with. */
  function Written(value: Option<string>): seq<string> {
    if Truthy(value) then [value.value] else []
  }

  /** `String(x)` of a present price. */
  function PriceText(x: Option<real>, show: real -> string): Option<string> {
    if x.Some? then Some(show(x.value)) else None
  }

  /** `applyParam`: a falsy value deletes the parameter, any other sets it. */
  method ApplyParam(ps: Pairs, key: string, value: Option<string>) returns (r: Pairs)
    ensures Values(r, key) == Written(value)
    ensures forall other :: other != key ==> Values(r, other) == Values(ps, other)
  {
    if !Truthy(value) {
      r := Delete(ps, key);
      DeleteValues(ps, key, key);
      forall other ensures other != key ==> Values(r, other) == Values(ps, other) {
        DeleteValues(ps, key, other);
      }
    } else {
      r := SearchParams.Set(ps, key, value.value);
      SetValuesSame(ps, key, value.value);
      forall other | other != key ensures Values(r, other) == Values(ps, other) {
        SetValuesOther(ps, key, value.value, other);
      }
    }
  }

  /** The four `applyParam` calls of `setFilters`: brand, type and the two
      prices are written (or removed when falsy), and every other parameter
      is kept. */
  method WriteFilters(params: Pairs, next: FilterValue, show: real -> string) returns (u: Pairs)
    ensures Values(u, "brand") == Written(next.brandId)
    ensures Values(u, "type") == Written(next.shoeTypeId)
    ensures Values(u, "minPrice") == Written(PriceText(next.minPrice, show))
    ensures Values(u, "maxPrice") == Written(PriceText(next.maxPrice, show))
    ensures forall other :: other != "brand" && other != "type" && other != "minPrice" && other != "maxPrice" ==>
      Values(u, other) == Values(params, other)
  {
    var u1 := ApplyParam(params, "brand", next.brandId);
    var u2 := ApplyParam(u1, "type", next.shoeTypeId);
    var u3 := ApplyParam(u2, "minPrice", PriceText(next.minPrice, show));
    u := ApplyParam(u3, "maxPrice", PriceText(next.maxPrice, show));
    assert Values(u, "brand") == Values(u3, "brand") == Values(u2, "brand") == Values(u1, "brand");
    assert Values(u, "type") == Values(u3, "type") == Values(u2, "type");
    assert Values(u, "minPrice") == Values(u3, "minPrice");
  }

  /** `setFilters`: the filters are written, the page number is dropped so
      the list starts over, and every other parameter is kept. The search is
      not written. */
  method SetFilters(params: Pairs, next: FilterValue, show: real -> string) returns (updated: Pairs)
    ensures Values(updated, "brand") == Written(next.brandId)
    ensures Values(updated, "type") == Written(next.shoeTypeId)
    ensures Values(updated, "minPrice") == Written(PriceText(next.minPrice, show))
    ensures Values(updated, "maxPrice") == Written(PriceText(next.maxPrice, show))
    ensures Values(updated, "page") == []
    ensures forall other :: other != "brand" && other != "type" && other != "minPrice" && other != "maxPrice" && other != "page" ==>
      Values(updated, other) == Values(params, other)
  {
    var u := WriteFilters(params, next, show);
    updated := Delete(u, "page");
    DeleteValues(u, "page", "page");
    DeleteValues(u, "page", "brand");
    DeleteValues(u, "page", "type");
    DeleteValues(u, "page", "minPrice");
    DeleteValues(u, "page", "maxPrice");
    forall other | other != "brand" && other != "type" && other != "minPrice" && other != "maxPrice" && other != "page"
      ensures Values(updated, other) == Values(params, other)
    {
      DeleteValues(u, "page", other);
    }
  }

  /** Reading a parameter list whose values are exactly those written. */
  lemma ReadWritten(ps: Pairs, next: FilterValue, show: real -> string, number: string -> Option<real>)
    requires Values(ps, "brand") == Written(next.brandId)
    requires Values(ps, "type") == Written(next.shoeTypeId)
    requires Values(ps, "minPrice") == Written(PriceText(next.minPrice, show))
    requires Values(ps, "maxPrice") == Written(PriceText(next.maxPrice, show))
    ensures var back := ReadFilters(ps, number);
      && back.brandId == OrNone(next.brandId)
      && back.shoeTypeId == OrNone(next.shoeTypeId)
      && (next.minPrice.None? ==> back.minPrice.None?)
      && (next.maxPrice.None? ==> back.maxPrice.None?)
      && (next.minPrice.Some? && show(next.minPrice.value) != "" ==> back.minPrice == number(show(next.minPrice.value)))
      && (next.maxPrice.Some? && show(next.maxPrice.value) != "" ==> back.maxPrice == number(show(next.maxPrice.value)))
      && back.search.None?
  {
    GetIsFirstValue(ps, "brand");
    GetIsFirstValue(ps, "type");
    GetIsFirstValue(ps, "minPrice");
    GetIsFirstValue(ps, "maxPrice");
  }

  /** The filters written and read back: brand, type and prices come back as
      they were (when each price's text parses back to it), empty ids come
      back absent, and the search is lost. */
  method WriteThenRead(params: Pairs, next: FilterValue, show: real -> string, number: string -> Option<real>)
    returns (back: FilterValue)
    ensures back.brandId == OrNone(next.brandId) && back.shoeTypeId == OrNone(next.shoeTypeId)
    ensures next.minPrice.None? || (show(next.minPrice.value) != "" && number(show(next.minPrice.value)) == next.minPrice) ==>
      back.minPrice == next.minPrice
    ensures next.maxPrice.None? || (show(next.maxPrice.value) != "" && number(show(next.maxPrice.value)) == next.maxPrice) ==>
      back.maxPrice == next.maxPrice
    ensures back.search.None?
  {
    var updated := SetFilters(params, next, show);
    back := ReadFilters(updated, number);
    ReadWritten(updated, next, show, number);
  }
}
