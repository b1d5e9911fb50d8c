/**
 * The Courir listing scraper: tile extraction with its skip rules, the
 * crawl over listing pages, de-duplication by SKU and persistence into the
 * product table. The fetched site is given as a map from URL to the page
 * it serves (its product tiles and its "next page" URLs); a URL missing
 * from the map is a failed fetch. Price parsing and URL resolution are
 * parameters: `parsePrice` yields the price in cents and `absolute` the
 * absolute form of a link, when they exist.
 */
module ScrapeProducts {
  import opened Common
  import opened Store
  import opened ScrapeText

  // ---------------------------------------------------------------------------
  // Tiles
  // ---------------------------------------------------------------------------

  /** The fields read from a tile's parsed `data-gtm` payload. */
  datatype Gtm = Gtm(sku: JsValue, price: JsValue, name: JsValue, brand: JsValue, category: JsValue)

  /** What the extraction reads from one product tile: attributes (absent
      when the attribute is missing), element texts (empty when the element
      is missing) and the resolved image. `gtm` is absent when `data-gtm` is
      missing or malformed. */
  datatype Tile = Tile(
    linkHref: Option<string>,
    gtm: Option<Gtm>,
    tileItemId: Option<string>,
    tileProductId: Option<string>,
    containerItemId: Option<string>,
    defaultPriceAttr: Option<string>,
    defaultPriceText: string,
    promoPriceAttr: Option<string>,
    promoPriceText: string,
    nameText: string,
    brandText: string,
    genderText: string,
    discountText: string,
    ratingText: string,
    productCategory: Option<string>,
    image: Option<string>)

  /** A listing product; prices in cents. */
  datatype ListingProduct = ListingProduct(
    sku: string,
    name: Option<string>,
    brand: Option<string>,
    gender: Option<string>,
    shoeType: string,
    priceDefault: int,
    pricePromo: Option<int>,
    discount: Option<string>,
    url: string,
    image: Option<string>,
    rating: Option<string>,
    metadata: map<string, JsValue>)

  /** `a ?? b`. */
  function Coalesce<T>(a: Option<T>, b: Option<T>): (r: Option<T>)
    ensures a.Some? ==> r == a
    ensures a.None? ==> r == b
  {
    if a.Some? then a else b
  }

  /** An attribute as a JavaScript value. */
  function Attr(o: Option<string>): (v: JsValue)
    ensures ToStringSafe(v) == o
  {
    if o.Some? then Str(o.value) else Undefined
  }

  function GtmSku(g: Option<Gtm>): JsValue { if g.Some? then g.value.sku else Undefined }
  function GtmPrice(g: Option<Gtm>): JsValue { if g.Some? then g.value.price else Undefined }
  function GtmName(g: Option<Gtm>): JsValue { if g.Some? then g.value.name else Undefined }
  function GtmBrand(g: Option<Gtm>): JsValue { if g.Some? then g.value.brand else Undefined }
  function GtmCategory(g: Option<Gtm>): JsValue { if g.Some? then g.value.category else Undefined }

  /** The SKU: the first of the GTM sku, the tile's item id, the tile's
      product id and the container's item id that is present, cleaned. */
  function SkuOf(t: Tile): (r: Option<string>)
    ensures r.Some? ==> r.value != [] && Collapsed(r.value)
  {
    CleanText(Coalesce(ToStringSafe(GtmSku(t.gtm)),
              Coalesce(t.tileItemId, Coalesce(t.tileProductId, t.containerItemId))))
  }

  /** `parsePrice`: absent for a missing or empty text. */
  function ParsePrice(parsePrice: string -> Option<int>, raw: Option<string>): (r: Option<int>)
    ensures raw.None? || raw.value == [] ==> r.None?
    ensures raw.Some? && raw.value != [] ==> r == parsePrice(raw.value)
  {
    if raw.None? || raw.value == [] then None else parsePrice(raw.value)
  }

  function DefaultPriceOf(t: Tile, parsePrice: string -> Option<int>): Option<int> {
    Coalesce(ParsePrice(parsePrice, t.defaultPriceAttr),
    Coalesce(ParsePrice(parsePrice, Some(t.defaultPriceText)),
             ParsePrice(parsePrice, ToStringSafe(GtmPrice(t.gtm)))))
  }

  function PromoPriceOf(t: Tile, parsePrice: string -> Option<int>): Option<int> {
    Coalesce(ParsePrice(parsePrice, t.promoPriceAttr), ParsePrice(parsePrice, Some(t.promoPriceText)))
  }

  /** `toAbsoluteUrl`: absent for a missing or empty link. */
  function ProductUrlOf(t: Tile, absolute: string -> Option<string>): (r: Option<string>)
    ensures t.linkHref.None? || t.linkHref.value == [] ==> r.None?
  {
    if t.linkHref.None? || t.linkHref.value == [] then None else absolute(t.linkHref.value)
  }

  function CategoryPathOf(t: Tile): Option<string> {
    Coalesce(FormatCategory(ToStringSafe(GtmCategory(t.gtm))), FormatCategory(t.productCategory))
  }

  function OptStr(o: Option<string>): JsValue { if o.Some? then Str(o.value) else Null }
  function OptNum(o: Option<int>): JsValue { if o.Some? then Num(o.value) else Null }
  function OptStrOrUndefined(o: Option<string>): JsValue { if o.Some? then Str(o.value) else Undefined }

  /** The metadata object, compacted. */
  function Metadata(t: Tile, gender: Option<string>, shoeType: string, discount: Option<string>,
                    rating: Option<string>, promo: Option<int>, url: string,
                    path: Option<string>, segments: seq<string>): map<string, JsValue>
  {
    CompactObject(map[
      "gender" := OptStrOrUndefined(gender),
      "type" := Str(shoeType),
      "discount" := OptStr(discount),
      "rating" := OptStr(rating),
      "price_promo" := OptNum(promo),
      "source_url" := Str(url),
      "image_original" := OptStr(t.image),
      "category_path" := OptStrOrUndefined(path),
      "category_segments" := if |segments| > 0 then Strings(segments) else Undefined,
      "gtm" := if t.gtm.Some? then Other else Undefined,
      "raw_category" := Attr(t.productCategory)])
  }

  /** One tile of `extractCourirProducts`. A tile is skipped when it has no
      link, no SKU, no parseable default price or no absolute product URL. */
  function ExtractProduct(t: Tile, parsePrice: string -> Option<int>, absolute: string -> Option<string>)
    : (r: Option<ListingProduct>)
    ensures r.None? <==>
      t.linkHref.None? || t.linkHref.value == [] || SkuOf(t).None?
      || DefaultPriceOf(t, parsePrice).None? || ProductUrlOf(t, absolute).None?
    ensures r.Some? ==>
      var p := r.value;
      && p.sku == SkuOf(t).value && p.sku != []
      && p.priceDefault == DefaultPriceOf(t, parsePrice).value
      && p.pricePromo == PromoPriceOf(t, parsePrice)
      && p.url == ProductUrlOf(t, absolute).value
      && p.image == t.image
  {
    if t.linkHref.None? || t.linkHref.value == [] then None
    else
      var sku := SkuOf(t);
      if sku.None? then None
      else
        var priceDefault := DefaultPriceOf(t, parsePrice);
        if priceDefault.None? then None
        else
          var path := CategoryPathOf(t);
          var segments := SplitCategorySegments(path);
          var genderLabel := DeriveGenderLabel(CleanText(Some(t.genderText)), segments);
          var typeLabel := TypeLabelOrDefault(segments);
          var url := ProductUrlOf(t, absolute);
          if url.None? then None
          else
            var promo := PromoPriceOf(t, parsePrice);
            var discount := CleanText(Some(t.discountText));
            var rating := CleanText(Some(t.ratingText));
            Some(ListingProduct(
              sku.value,
              Coalesce(CleanText(Some(t.nameText)), CleanText(ToStringSafe(GtmName(t.gtm)))),
              Coalesce(CleanText(Some(t.brandText)), CleanText(ToStringSafe(GtmBrand(t.gtm)))),
              genderLabel, typeLabel, priceDefault.value, promo, discount, url.value, t.image, rating,
              Metadata(t, genderLabel, typeLabel, discount, rating, promo, url.value, path, segments)))
  }

  /** The labels of an extracted product: name and brand from the tile's
      text or else the GTM payload, the gender from the gender text or the
      category, the type from the category or else "Chaussures". */
  lemma ExtractedLabels(t: Tile, parsePrice: string -> Option<int>, absolute: string -> Option<string>)
    requires ExtractProduct(t, parsePrice, absolute).Some?
    ensures var p := ExtractProduct(t, parsePrice, absolute).value;
      && p.name == Coalesce(CleanText(Some(t.nameText)), CleanText(ToStringSafe(GtmName(t.gtm))))
      && p.brand == Coalesce(CleanText(Some(t.brandText)), CleanText(ToStringSafe(GtmBrand(t.gtm))))
      && p.gender == DeriveGenderLabel(CleanText(Some(t.genderText)), SplitCategorySegments(CategoryPathOf(t)))
      && p.shoeType == TypeLabelOrDefault(SplitCategorySegments(CategoryPathOf(t)))
      && p.shoeType != []
  {
    TypeLabelNonEmpty(SplitCategorySegments(CategoryPathOf(t)));
  }

  /** The type label is never empty: category segments are non-empty. */
  lemma TypeLabelNonEmpty(segments: seq<string>)
    requires forall k :: 0 <= k < |segments| ==> segments[k] != []
    ensures TypeLabelOrDefault(segments) != []
  {
    if |segments| >= 3 {
      JoinEmptyIff(segments[2..], " / ");
    }
  }

  /** `extractCourirProducts` as a fold: the products of the tiles that are
      not skipped, in tile order. */
  function ExtractAll(tiles: seq<Tile>, parsePrice: string -> Option<int>, absolute: string -> Option<string>)
    : (r: seq<ListingProduct>)
    ensures |r| <= |tiles|
  {
    if |tiles| == 0 then []
    else
      var last := ExtractProduct(tiles[|tiles| - 1], parsePrice, absolute);
      ExtractAll(tiles[..|tiles| - 1], parsePrice, absolute) + (if last.Some? then [last.value] else [])
  }

  /** Every extracted product comes from a tile that is not skipped. */
  lemma {:induction false} ExtractAllSound(tiles: seq<Tile>, parsePrice: string -> Option<int>,
                                           absolute: string -> Option<string>, p: ListingProduct)
    requires p in ExtractAll(tiles, parsePrice, absolute)
    ensures exists i :: 0 <= i < |tiles| && ExtractProduct(tiles[i], parsePrice, absolute) == Some(p)
    decreases |tiles|
  {
    var init := tiles[..|tiles| - 1];
    var last := ExtractProduct(tiles[|tiles| - 1], parsePrice, absolute);
    if p in ExtractAll(init, parsePrice, absolute) {
      ExtractAllSound(init, parsePrice, absolute, p);
      var i :| 0 <= i < |init| && ExtractProduct(init[i], parsePrice, absolute) == Some(p);
      assert init[i] == tiles[i];
    } else {
      assert last == Some(p);
    }
  }

  /** A tile that is not skipped contributes its product. */
  lemma {:induction false} ExtractAllComplete(tiles: seq<Tile>, parsePrice: string -> Option<int>,
                                              absolute: string -> Option<string>, i: nat)
    requires i < |tiles| && ExtractProduct(tiles[i], parsePrice, absolute).Some?
    ensures ExtractProduct(tiles[i], parsePrice, absolute).value in ExtractAll(tiles, parsePrice, absolute)
    decreases |tiles|
  {
    if i < |tiles| - 1 {
      ExtractAllComplete(tiles[..|tiles| - 1], parsePrice, absolute, i);
      assert tiles[..|tiles| - 1][i] == tiles[i];
    }
  }

  /** The extraction loop, pushing each kept product. */
  method ExtractCourirProducts(tiles: seq<Tile>, parsePrice: string -> Option<int>, absolute: string -> Option<string>)
    returns (products: seq<ListingProduct>)
    ensures products == ExtractAll(tiles, parsePrice, absolute)
  {
    products := [];
    var i := 0;
    while i < |tiles|
      invariant 0 <= i <= |tiles|
      invariant products == ExtractAll(tiles[..i], parsePrice, absolute)
    {
      var product := ExtractProduct(tiles[i], parsePrice, absolute);
      assert tiles[..i + 1][..i] == tiles[..i];
      assert ExtractAll(tiles[..i + 1], parsePrice, absolute)
        == ExtractAll(tiles[..i], parsePrice, absolute) + (if product.Some? then [product.value] else []);
      if product.Some? {
        products := products + [product.value];
      }
      i := i + 1;
    }
    assert tiles[..i] == tiles;
  }

  // ---------------------------------------------------------------------------
  // The crawl
  // ---------------------------------------------------------------------------

  /** A fetched listing page: its tiles and its collected next-page URLs. */
  datatype Page = Page(tiles: seq<Tile>, nextUrls: seq<string>)

  datatype ScrapeError = SourceUndefined | FetchFailed(url: string) | Database(error: Error)

  datatype Outcome<T> = Scraped(value: T) | Aborted(reason: ScrapeError)

  datatype Crawled = Crawled(fetched: seq<string>, products: seq<ListingProduct>, pages: nat)

  /** The products of the fetched pages, page after page. */
  function PagesProducts(site: map<string, Page>, fetched: seq<string>,
                         parsePrice: string -> Option<int>, absolute: string -> Option<string>)
    : (r: seq<ListingProduct>)
  {
    if |fetched| == 0 then []
    else PagesProducts(site, fetched[..|fetched| - 1], parsePrice, absolute)
         + (if fetched[|fetched| - 1] in site then ExtractAll(site[fetched[|fetched| - 1]].tiles, parsePrice, absolute)
            else [])
  }

  /** Every next-page link of a fetched page was itself fetched. */
  predicate Closed(site: map<string, Page>, fetched: seq<string>) {
    forall k, j :: 0 <= k < |fetched| && fetched[k] in site && 0 <= j < |site[fetched[k]].nextUrls| ==>
      site[fetched[k]].nextUrls[j] in fetched
  }

  /** The inner loop: each next URL neither visited nor queued is
      appended to the queue. */
  method EnqueueLinks(queue: seq<string>, visited: set<string>, nextUrls: seq<string>)
    returns (q: seq<string>)
    ensures |q| >= |queue| && forall i :: 0 <= i < |queue| ==> q[i] == queue[i]
    ensures forall i :: |queue| <= i < |q| ==> q[i] in nextUrls && q[i] !in visited
    ensures forall u :: u in nextUrls ==> u in visited || u in q
  {
    q := queue;
    var j := 0;
    while j < |nextUrls|
      invariant 0 <= j <= |nextUrls|
      invariant |q| >= |queue| && forall i :: 0 <= i < |queue| ==> q[i] == queue[i]
      invariant forall i :: |queue| <= i < |q| ==> q[i] in nextUrls && q[i] !in visited
      invariant forall i :: 0 <= i < j ==> nextUrls[i] in visited || nextUrls[i] in q
    {
      var nextUrl := nextUrls[j];
      if nextUrl !in visited && nextUrl !in q {
        q := q + [nextUrl];
      }
      j := j + 1;
    }
  }

  /** The links of every fetched page are visited or queued. */
  predicate Frontier(site: map<string, Page>, fetched: seq<string>, visited: set<string>, queue: seq<string>) {
    forall k, j :: 0 <= k < |fetched| && fetched[k] in site && 0 <= j < |site[fetched[k]].nextUrls| ==>
      site[fetched[k]].nextUrls[j] in visited || site[fetched[k]].nextUrls[j] in queue
  }

  /** Dropping an already visited URL from the head of the queue keeps the
      frontier. */
  lemma FrontierPop(site: map<string, Page>, fetched: seq<string>, visited: set<string>, queue: seq<string>)
    requires forall k :: 0 <= k < |fetched| ==> fetched[k] in site
    requires |queue| > 0 && queue[0] in visited
    requires Frontier(site, fetched, visited, queue)
    ensures Frontier(site, fetched, visited, queue[1..])
  {
    forall k, j | 0 <= k < |fetched| && fetched[k] in site && 0 <= j < |site[fetched[k]].nextUrls|
      ensures site[fetched[k]].nextUrls[j] in visited || site[fetched[k]].nextUrls[j] in queue[1..]
    {
      var u := site[fetched[k]].nextUrls[j];
      if u !in visited {
        var i :| 0 <= i < |queue| && queue[i] == u;
        assert queue[1..][i - 1] == u;
      }
    }
  }

  /** Fetching the head `u` of the queue and enqueueing its links keeps the
      frontier. */
  lemma FrontierVisit(site: map<string, Page>, fetched: seq<string>, visited: set<string>,
                      queue: seq<string>, q: seq<string>)
    requires forall k :: 0 <= k < |fetched| ==> fetched[k] in site
    requires |queue| > 0 && queue[0] in site
    requires Frontier(site, fetched, visited, queue)
    requires |q| >= |queue| - 1 && forall i :: 0 <= i < |queue| - 1 ==> q[i] == queue[1..][i]
    requires forall v :: v in site[queue[0]].nextUrls ==> v in visited + {queue[0]} || v in q
    ensures Frontier(site, fetched + [queue[0]], visited + {queue[0]}, q)
  {
    var fetched' := fetched + [queue[0]];
    forall k, j | 0 <= k < |fetched'| && fetched'[k] in site && 0 <= j < |site[fetched'[k]].nextUrls|
      ensures site[fetched'[k]].nextUrls[j] in visited + {queue[0]} || site[fetched'[k]].nextUrls[j] in q
    {
      var v := site[fetched'[k]].nextUrls[j];
      if k < |fetched| {
        assert fetched'[k] == fetched[k];
        if v !in visited && v != queue[0] {
          var i :| 0 <= i < |queue| && queue[i] == v;
          assert q[i - 1] == queue[1..][i - 1];
        }
      } else {
        assert v in site[queue[0]].nextUrls;
      }
    }
  }

  /** With an empty queue the frontier is closed. */
  lemma FrontierClosed(site: map<string, Page>, fetched: seq<string>, visited: set<string>)
    requires forall k :: 0 <= k < |fetched| ==> fetched[k] in site
    requires forall u :: u in visited <==> u in fetched
    requires Frontier(site, fetched, visited, [])
    ensures Closed(site, fetched)
  {
  }

  /** Appending a page to the fetched list appends its products. */
  lemma PagesProductsAppend(site: map<string, Page>, fetched: seq<string>, u: string,
                            parsePrice: string -> Option<int>, absolute: string -> Option<string>)
    requires forall k :: 0 <= k < |fetched| ==> fetched[k] in site
    requires u in site
    ensures PagesProducts(site, fetched + [u], parsePrice, absolute)
      == PagesProducts(site, fetched, parsePrice, absolute) + ExtractAll(site[u].tiles, parsePrice, absolute)
  {
    assert (fetched + [u])[..|fetched|] == fetched;
  }

  /** Appending a URL not yet fetched keeps the fetched list duplicate-free. */
  lemma DistinctAppend(fetched: seq<string>, u: string)
    requires Distinct(fetched) && u !in fetched
    ensures Distinct(fetched + [u])
  {
    var f := fetched + [u];
    forall i, j | 0 <= i < j < |f| ensures f[i] != f[j] {
      assert f[i] == fetched[i];
      if j < |fetched| {
        assert f[j] == fetched[j];
      }
    }
  }

  /** Every link of every page of the site leads to a page of the site. */
  predicate LinksInSite(site: map<string, Page>) {
    forall u, v :: u in site && v in site[u].nextUrls ==> v in site
  }

  /** The loop invariant of the crawl: the visited set is the set of fetched
      URLs, every fetched URL is a page of the site and was fetched once, the
      first fetch is the source URL, and every link of a fetched page is
      visited or queued. */
  ghost predicate Explored(site: map<string, Page>, sourceUrl: string, visited: set<string>,
                           fetched: seq<string>, queue: seq<string>)
  {
    && (forall u :: u in visited <==> u in fetched)
    && (forall k :: 0 <= k < |fetched| ==> fetched[k] in site)
    && Distinct(fetched)
    && (|fetched| == 0 ==> queue == [sourceUrl])
    && (|fetched| >= 1 ==> fetched[0] == sourceUrl)
    && Frontier(site, fetched, visited, queue)
  }

  /** Skipping an already visited head of the queue keeps `Explored`. */
  lemma ExploredPop(site: map<string, Page>, sourceUrl: string, visited: set<string>,
                    fetched: seq<string>, queue: seq<string>)
    requires Explored(site, sourceUrl, visited, fetched, queue)
    requires |queue| > 0 && queue[0] in visited
    ensures Explored(site, sourceUrl, visited, fetched, queue[1..])
  {
    FrontierPop(site, fetched, visited, queue);
  }

  /** Fetching a new head of the queue and enqueueing its links keeps
      `Explored`. */
  lemma ExploredVisit(site: map<string, Page>, sourceUrl: string, visited: set<string>,
                      fetched: seq<string>, queue: seq<string>, q: seq<string>)
    requires Explored(site, sourceUrl, visited, fetched, queue)
    requires |queue| > 0 && queue[0] !in visited && queue[0] in site
    requires |q| >= |queue| - 1 && forall i :: 0 <= i < |queue| - 1 ==> q[i] == queue[1..][i]
    requires forall v :: v in site[queue[0]].nextUrls ==> v in visited + {queue[0]} || v in q
    ensures Explored(site, sourceUrl, visited + {queue[0]}, fetched + [queue[0]], q)
  {
    FrontierVisit(site, fetched, visited, queue, q);
    DistinctAppend(fetched, queue[0]);
    var f := fetched + [queue[0]];
    forall k | 0 <= k < |f| ensures f[k] in site {
      if k < |fetched| {
        assert f[k] == fetched[k];
      }
    }
    forall u ensures u in visited + {queue[0]} <==> u in f {
      assert u in fetched ==> u in f by {
        if u in fetched {
          var k :| 0 <= k < |fetched| && fetched[k] == u;
          assert f[k] == u;
        }
      }
    }
  }

  /** The crawl loop of `scrapeProducts`: a queue seeded with the source URL
      and a visited set. Each URL is fetched at most once, every link of a
      fetched page is followed, and the page counter counts the fetches. */
  method Crawl(site: map<string, Page>, sourceUrl: string,
               parsePrice: string -> Option<int>, absolute: string -> Option<string>)
    returns (r: Outcome<Crawled>)
    ensures sourceUrl == [] ==> r == Aborted(SourceUndefined)
    ensures r.Aborted? && sourceUrl != [] ==> r.reason.FetchFailed? && r.reason.url !in site
    ensures r.Scraped? ==>
      var c := r.value;
      && |c.fetched| >= 1 && c.fetched[0] == sourceUrl
      && Distinct(c.fetched)
      && (forall k :: 0 <= k < |c.fetched| ==> c.fetched[k] in site)
      && Closed(site, c.fetched)
      && c.pages == |c.fetched|
      && c.products == PagesProducts(site, c.fetched, parsePrice, absolute)
    ensures sourceUrl != [] && sourceUrl in site && LinksInSite(site) ==> r.Scraped?
  {
    if sourceUrl == [] {
      return Aborted(SourceUndefined);
    }
    var queue := [sourceUrl];
    var visited: set<string> := {};
    var fetched: seq<string> := [];
    var products: seq<ListingProduct> := [];
    var processedPages := 0;
    while |queue| > 0
      invariant Explored(site, sourceUrl, visited, fetched, queue)
      invariant processedPages == |fetched|
      invariant products == PagesProducts(site, fetched, parsePrice, absolute)
      invariant sourceUrl in site && LinksInSite(site) ==> forall u :: u in queue ==> u in site
      decreases |site.Keys - visited|, |queue|
    {
      var currentUrl := queue[0];
      if currentUrl !in visited && currentUrl !in site {
        return Aborted(FetchFailed(currentUrl));
      }
      var pageProducts: seq<ListingProduct>;
      var fetchedPage: bool;
      var fetched';
      queue, visited, fetched', fetchedPage, pageProducts := CrawlStep(site, sourceUrl, visited, fetched, queue, parsePrice, absolute);
      if fetchedPage {
        processedPages := processedPages + 1;
        products := products + pageProducts;
      }
      fetched := fetched';
    }
    ExploredDone(site, sourceUrl, visited, fetched);
    return Scraped(Crawled(fetched, products, processedPages));
  }

  /** One turn of the crawl loop: shift the head of the queue; skip it when
      visited, otherwise mark it visited, extract its page's products and
      enqueue its links. */
  method CrawlStep(site: map<string, Page>, ghost sourceUrl: string, visited: set<string>,
                   fetched: seq<string>, queue: seq<string>,
                   parsePrice: string -> Option<int>, absolute: string -> Option<string>)
    returns (queue': seq<string>, visited': set<string>, fetched': seq<string>,
             fetchedPage: bool, pageProducts: seq<ListingProduct>)
    requires Explored(site, sourceUrl, visited, fetched, queue)
    requires |queue| > 0 && (queue[0] in visited || queue[0] in site)
    ensures Explored(site, sourceUrl, visited', fetched', queue')
    ensures fetchedPage <==> queue[0] !in visited
    ensures !fetchedPage ==> queue' == queue[1..] && visited' == visited && fetched' == fetched
    ensures forall u :: u in queue' ==> u in queue || (queue[0] in site && u in site[queue[0]].nextUrls)
    ensures fetchedPage ==>
      && visited' == visited + {queue[0]} && fetched' == fetched + [queue[0]]
      && pageProducts == ExtractAll(site[queue[0]].tiles, parsePrice, absolute)
      && PagesProducts(site, fetched', parsePrice, absolute)
         == PagesProducts(site, fetched, parsePrice, absolute) + pageProducts
      && |site.Keys - visited'| < |site.Keys - visited|
  {
    var currentUrl := queue[0];
    if currentUrl in visited {
      ExploredPop(site, sourceUrl, visited, fetched, queue);
      return queue[1..], visited, fetched, false, [];
    }
    queue', visited', fetched', pageProducts := VisitPage(site, sourceUrl, visited, fetched, queue, parsePrice, absolute);
    fetchedPage := true;
  }

  /** The fetching half of a turn: mark the head of the queue visited,
      extract its page's products and enqueue its links. */
  method VisitPage(site: map<string, Page>, ghost sourceUrl: string, visited: set<string>,
                   fetched: seq<string>, queue: seq<string>,
                   parsePrice: string -> Option<int>, absolute: string -> Option<string>)
    returns (queue': seq<string>, visited': set<string>, fetched': seq<string>, pageProducts: seq<ListingProduct>)
    requires Explored(site, sourceUrl, visited, fetched, queue)
    requires |queue| > 0 && queue[0] !in visited && queue[0] in site
    ensures Explored(site, sourceUrl, visited', fetched', queue')
    ensures visited' == visited + {queue[0]} && fetched' == fetched + [queue[0]]
    ensures forall u :: u in queue' ==> u in queue || u in site[queue[0]].nextUrls
    ensures pageProducts == ExtractAll(site[queue[0]].tiles, parsePrice, absolute)
    ensures PagesProducts(site, fetched', parsePrice, absolute)
      == PagesProducts(site, fetched, parsePrice, absolute) + pageProducts
    ensures |site.Keys - visited'| < |site.Keys - visited|
  {
    var currentUrl := queue[0];
    var page := site[currentUrl];
    pageProducts := ExtractCourirProducts(page.tiles, parsePrice, absolute);
    queue' := EnqueueLinks(queue[1..], visited + {currentUrl}, page.nextUrls);
    ExploredVisit(site, sourceUrl, visited, fetched, queue, queue');
    PagesProductsAppend(site, fetched, currentUrl, parsePrice, absolute);
    VisitShrinks(site.Keys, visited, currentUrl);
    visited' := visited + {currentUrl};
    fetched' := fetched + [currentUrl];
  }

  /** When the queue is empty the crawl is complete. */
  lemma ExploredDone(site: map<string, Page>, sourceUrl: string, visited: set<string>, fetched: seq<string>)
    requires Explored(site, sourceUrl, visited, fetched, [])
    ensures |fetched| >= 1 && fetched[0] == sourceUrl
    ensures forall k :: 0 <= k < |fetched| ==> fetched[k] in site
    ensures Distinct(fetched)
    ensures Closed(site, fetched)
  {
    FrontierClosed(site, fetched, visited);
  }

  /** Visiting a new URL of the site shrinks the set still to visit. */
  lemma VisitShrinks(keys: set<string>, visited: set<string>, u: string)
    requires u in keys && u !in visited
    ensures |keys - (visited + {u})| < |keys - visited|
  {
    assert keys - visited == (keys - (visited + {u})) + {u};
  }

  // ---------------------------------------------------------------------------
  // De-duplication
  // ---------------------------------------------------------------------------

  function SkuSet(ps: seq<ListingProduct>): set<string> {
    set k | 0 <= k < |ps| :: ps[k].sku
  }

  /** The first product of each non-empty SKU not in `seen`, in order of
      first appearance. */
  function FirstBySku(ps: seq<ListingProduct>, seen: set<string>): (r: seq<ListingProduct>)
    ensures |r| <= |ps|
    ensures forall k :: 0 <= k < |r| ==> r[k] in ps && r[k].sku != [] && r[k].sku !in seen
  {
    if |ps| == 0 then []
    else if ps[0].sku == [] || ps[0].sku in seen then FirstBySku(ps[1..], seen)
    else [ps[0]] + FirstBySku(ps[1..], seen + {ps[0].sku})
  }

  /** No two of the products share a SKU. */
  predicate DistinctSkus(ps: seq<ListingProduct>) {
    forall i, j :: 0 <= i < j < |ps| ==> ps[i].sku != ps[j].sku
  }

  /** Prepending a product whose SKU the others lack keeps SKUs distinct. */
  lemma DistinctSkusCons(p: ListingProduct, rest: seq<ListingProduct>)
    requires DistinctSkus(rest)
    requires forall k :: 0 <= k < |rest| ==> rest[k].sku != p.sku
    ensures DistinctSkus([p] + rest)
  {
    var r := [p] + rest;
    forall i, j | 0 <= i < j < |r| ensures r[i].sku != r[j].sku {
      assert r[j] == rest[j - 1];
      if i > 0 {
        assert r[i] == rest[i - 1];
      }
    }
  }

  /** The kept products have pairwise different SKUs. */
  lemma {:induction false} FirstBySkuDistinct(ps: seq<ListingProduct>, seen: set<string>)
    ensures DistinctSkus(FirstBySku(ps, seen))
    decreases |ps|
  {
    if |ps| > 0 {
      if ps[0].sku == [] || ps[0].sku in seen {
        FirstBySkuDistinct(ps[1..], seen);
      } else {
        var seen' := seen + {ps[0].sku};
        var rest := FirstBySku(ps[1..], seen');
        FirstBySkuDistinct(ps[1..], seen');
        assert forall k :: 0 <= k < |rest| ==> rest[k].sku !in seen';
        DistinctSkusCons(ps[0], rest);
      }
    }
  }

  /** Every non-empty SKU not already seen is kept, with the product that
      first carries it. */
  lemma {:induction false} FirstBySkuKeepsFirst(ps: seq<ListingProduct>, seen: set<string>, i: nat)
    requires i < |ps| && ps[i].sku != [] && ps[i].sku !in seen
    requires forall j :: 0 <= j < i ==> ps[j].sku != ps[i].sku
    ensures ps[i] in FirstBySku(ps, seen)
    decreases |ps|
  {
    if i > 0 {
      var seen' := if ps[0].sku == [] || ps[0].sku in seen then seen else seen + {ps[0].sku};
      FirstBySkuKeepsFirst(ps[1..], seen', i - 1);
    }
  }

  /** One step of the de-duplication, seen from position `i`. */
  lemma FirstBySkuStep(ps: seq<ListingProduct>, i: nat, seen: set<string>)
    requires i < |ps|
    ensures FirstBySku(ps[i..], seen)
      == if ps[i].sku == [] || ps[i].sku in seen then FirstBySku(ps[i + 1..], seen)
         else [ps[i]] + FirstBySku(ps[i + 1..], seen + {ps[i].sku})
  {
    assert ps[i..][1..] == ps[i + 1..];
  }

  /** The de-duplication loop over a Map keyed by SKU: the first product
      per SKU is kept, in insertion order. */
  method DedupBySku(products: seq<ListingProduct>) returns (unique: seq<ListingProduct>)
    ensures unique == FirstBySku(products, {})
    ensures |unique| <= |products|
  {
    unique := [];
    var seen: set<string> := {};
    var i := 0;
    while i < |products|
      invariant 0 <= i <= |products|
      invariant unique + FirstBySku(products[i..], seen) == FirstBySku(products, {})
    {
      var product := products[i];
      FirstBySkuStep(products, i, seen);
      if product.sku == [] {
        i := i + 1;
        continue;
      }
      if product.sku !in seen {
        ghost var rest := FirstBySku(products[i + 1..], seen + {product.sku});
        assert unique + ([product] + rest) == (unique + [product]) + rest;
        seen := seen + {product.sku};
        unique := unique + [product];
      }
      i := i + 1;
    }
  }


  // ---------------------------------------------------------------------------
  // Persistence
  // ---------------------------------------------------------------------------

  /** A new row id: a string longer than every existing one. */
  method FreshKey(keys: set<string>) returns (k: string)
    ensures k !in keys
  {
    var longest := 0;
    var rest := keys;
    while rest != {}
      invariant rest <= keys && longest >= 0
      invariant forall x :: x in keys - rest ==> |x| <= longest
      decreases |rest|
    {
      var x :| x in rest;
      longest := Max(longest, |x|);
      rest := rest - {x};
    }
    assert keys - rest == keys;
    k := seq(longest + 1, _ => 'n');
  }

  /** The name column of the brand, gender and product-type tables is
      unique. */
  predicate NamesUnique(table: map<Id, string>) {
    forall a, b :: a in table && b in table && table[a] == table[b] ==> a == b
  }

  /** `upsertReference`: the row with this name, created when missing. */
  method UpsertReference(table: map<Id, string>, name: string) returns (t: map<Id, string>, id: Id)
    ensures id in t && t[id] == name
    ensures (exists x :: x in table && table[x] == name) ==> t == table
    ensures !(exists x :: x in table && table[x] == name) ==> id !in table && t == table[id := name]
    ensures NamesUnique(table) ==> NamesUnique(t)
  {
    if exists x :: x in table && table[x] == name {
      id :| id in table && table[id] == name;
      t := table;
    } else {
      id := FreshKey(table.Keys);
      t := table[id := name];
    }
  }

  /** The row fields `persistProducts` writes. */
  datatype Payload = Payload(
    name: string, description: string, price: int, imageUrl: Option<string>,
    brandId: Id, genderId: Id, shoeTypeId: Id)

  /** "Chaussure <name> par <brand>", or "Chaussure <brand>" without a
      name. */
  function Description(name: Option<string>, brand: string): (d: string)
    ensures name.Some? && name.value != [] ==> d == "Chaussure " + name.value + " par " + brand
    ensures name.None? || name.value == [] ==> d == "Chaussure " + brand
  {
    if name.Some? && name.value != [] then "Chaussure " + name.value + " par " + brand else "Chaussure " + brand
  }

  function PayloadOf(p: ListingProduct, brandId: Id, genderId: Id, shoeTypeId: Id): (pl: Payload)
    ensures pl.price == p.priceDefault && pl.imageUrl == p.image
    ensures pl.name == p.name.GetOr(EnsureLabel(p.brand, "Courir") + " " + p.sku)
    ensures pl.description == Description(p.name, EnsureLabel(p.brand, "Courir"))
  {
    var brandLabel := EnsureLabel(p.brand, "Courir");
    Payload(p.name.GetOr(brandLabel + " " + p.sku), Description(p.name, brandLabel), p.priceDefault,
            p.image, brandId, genderId, shoeTypeId)
  }

  /** `product.update({ where: { sku }, data: payload })`: an absent image
      leaves the stored one; the stock is reset to 50; variants stay. */
  function UpdatedRow(row: Product, pl: Payload): (r: Product)
    ensures r.sku == row.sku && r.variants == row.variants && r.stock == 50 && r.price == pl.price
    ensures r.imageUrl == (if pl.imageUrl.Some? then pl.imageUrl else row.imageUrl)
  {
    row.(name := pl.name, description := pl.description, price := pl.price,
         imageUrl := if pl.imageUrl.Some? then pl.imageUrl else row.imageUrl, stock := 50,
         brandId := Some(pl.brandId), genderId := Some(pl.genderId), shoeTypeId := Some(pl.shoeTypeId))
  }

  /** `product.create({ data: { sku, ...payload } })`. */
  function CreatedRow(sku: string, pl: Payload): (r: Product)
    ensures r.sku == sku && r.variants == [] && r.stock == 50 && r.price == pl.price && r.imageUrl == pl.imageUrl
  {
    Product(sku, pl.name, pl.description, pl.price, 50, pl.imageUrl,
            Some(pl.brandId), Some(pl.genderId), Some(pl.shoeTypeId), [])
  }

  function Skus(products: map<Id, Product>): set<string> {
    set id | id in products :: products[id].sku
  }

  predicate SkusUnique(products: map<Id, Product>) {
    forall a, b :: a in products && b in products && products[a].sku == products[b].sku ==> a == b
  }

  /** How many of `ps` are created when `known` SKUs already exist: each
      SKU not yet known is created once. */
  function NewSkuCount(known: set<string>, ps: seq<ListingProduct>): (n: nat)
    ensures n <= |ps|
    decreases |ps|
  {
    if |ps| == 0 then 0
    else (if ps[0].sku in known then 0 else 1) + NewSkuCount(known + {ps[0].sku}, ps[1..])
  }

  /** With none of their SKUs stored, distinct products are all created. */
  lemma {:induction false} AllNewAllCreated(known: set<string>, ps: seq<ListingProduct>)
    requires forall k :: 0 <= k < |ps| ==> ps[k].sku !in known
    requires DistinctSkus(ps)
    ensures NewSkuCount(known, ps) == |ps|
    decreases |ps|
  {
    if |ps| > 0 {
      AllNewAllCreated(known + {ps[0].sku}, ps[1..]);
    }
  }

  /** With all their SKUs stored, products are all updates. */
  lemma {:induction false} AllKnownNoneCreated(known: set<string>, ps: seq<ListingProduct>)
    requires forall k :: 0 <= k < |ps| ==> ps[k].sku in known
    ensures NewSkuCount(known, ps) == 0
    decreases |ps|
  {
    if |ps| > 0 {
      assert known + {ps[0].sku} == known;
      AllKnownNoneCreated(known, ps[1..]);
    }
  }

  /** A stored row carries the product's SKU, price and the fixed stock. */
  predicate Stored(products: map<Id, Product>, p: ListingProduct) {
    exists id :: id in products && products[id].sku == p.sku
      && products[id].price == p.priceDefault && products[id].stock == 50
  }

  lemma SkusAfterWrite(products: map<Id, Product>, id: Id, row: Product)
    requires id in products ==> products[id].sku == row.sku
    ensures Skus(products[id := row]) == Skus(products) + {row.sku}
  {
    var after := products[id := row];
    forall s | s in Skus(after) ensures s in Skus(products) + {row.sku} {
      var x :| x in after && after[x].sku == s;
      if x != id {
        assert products[x].sku == s;
      }
    }
    assert row.sku in Skus(after) by {
      assert after[id] == row;
    }
    forall s | s in Skus(products) ensures s in Skus(after) {
      var x :| x in products && products[x].sku == s;
      assert after[x].sku == s;
    }
  }

  /** A product stays stored when only rows of another SKU change. */
  lemma StoredKept(before: map<Id, Product>, after: map<Id, Product>, sku: string, p: ListingProduct)
    requires Stored(before, p) && p.sku != sku
    requires forall id :: id in before && before[id].sku != sku ==> id in after && after[id] == before[id]
    ensures Stored(after, p)
  {
    var x :| x in before && before[x].sku == p.sku && before[x].price == p.priceDefault && before[x].stock == 50;
    assert after[x] == before[x];
  }

  /** The fallback reference names. */
  const DefaultBrand: string := "Courir"
  const DefaultGender: string := "Mixte"
  const DefaultType: string := "Chaussures"

  /** The reference name for a label: `ensureLabel` in `persistProducts`
      and again in `upsertReference`, with the same fallback. */
  function ReferenceLabel(value: Option<string>, fallback: string): string {
    EnsureLabel(Some(EnsureLabel(value, fallback)), fallback)
  }

  /** The three reference rows of a product, by name. */
  method UpsertReferences(db: Db, brandName: string, genderName: string, typeName: string)
    returns (brandId: Id, genderId: Id, shoeTypeId: Id)
    modifies db`brands, db`genders, db`shoeTypes
    ensures brandId in db.brands && db.brands[brandId] == brandName
    ensures genderId in db.genders && db.genders[genderId] == genderName
    ensures shoeTypeId in db.shoeTypes && db.shoeTypes[shoeTypeId] == typeName
    ensures old(NamesUnique(db.brands)) ==> NamesUnique(db.brands)
    ensures old(NamesUnique(db.genders)) ==> NamesUnique(db.genders)
    ensures old(NamesUnique(db.shoeTypes)) ==> NamesUnique(db.shoeTypes)
  {
    db.brands, brandId := UpsertReference(db.brands, brandName);
    db.genders, genderId := UpsertReference(db.genders, genderName);
    db.shoeTypes, shoeTypeId := UpsertReference(db.shoeTypes, typeName);
  }

  lemma SkuOfRowInSkus(products: map<Id, Product>, id: Id)
    requires id in products
    ensures products[id].sku in Skus(products)
  {
  }

  /** Writing a row with SKU `sku` at the id of that SKU, or at a new id when
      the SKU is not stored, keeps SKUs unique, adds `sku` to the stored
      SKUs and leaves the rows of other SKUs as they were. */
  lemma WriteFacts(before: map<Id, Product>, id: Id, row: Product)
    requires SkusUnique(before)
    requires id in before ==> before[id].sku == row.sku
    requires id !in before ==> row.sku !in Skus(before)
    ensures SkusUnique(before[id := row])
    ensures Skus(before[id := row]) == Skus(before) + {row.sku}
    ensures forall x :: x in before && before[x].sku != row.sku ==> x in before[id := row] && before[id := row][x] == before[x]
  {
    var after := before[id := row];
    SkusAfterWrite(before, id, row);
    forall a, b | a in after && b in after && after[a].sku == after[b].sku ensures a == b {
      if a != id && b != id {
        assert before[a].sku == before[b].sku;
      } else if a == id && b != id {
        SkuOfRowInSkus(before, b);
      } else if a != id && b == id {
        SkuOfRowInSkus(before, a);
      }
    }
  }

  /** `product.update({ where: { sku } })`, and on P2025 `product.create`. */
  method WriteProduct(db: Db, sku: string, payload: Payload) returns (id: Id, wasCreated: bool)
    modifies db`products
    ensures wasCreated <==> sku !in Skus(old(db.products))
    ensures !wasCreated ==>
      id in old(db.products) && old(db.products)[id].sku == sku
      && db.products == old(db.products)[id := UpdatedRow(old(db.products)[id], payload)]
    ensures wasCreated ==> id !in old(db.products) && db.products == old(db.products)[id := CreatedRow(sku, payload)]
  {
    if exists x :: x in db.products && db.products[x].sku == sku {
      id :| id in db.products && db.products[id].sku == sku;
      db.products := db.products[id := UpdatedRow(db.products[id], payload)];
      wasCreated := false;
    } else {
      id := FreshKey(db.products.Keys);
      db.products := db.products[id := CreatedRow(sku, payload)];
      wasCreated := true;
    }
  }

  /** One iteration of `persistProducts`: the reference rows, then the
      product row. */
  method PersistProduct(db: Db, product: ListingProduct) returns (wasCreated: bool)
    requires SkusUnique(db.products)
    modifies db`products, db`brands, db`genders, db`shoeTypes
    ensures wasCreated <==> product.sku !in Skus(old(db.products))
    ensures SkusUnique(db.products)
    ensures Skus(db.products) == Skus(old(db.products)) + {product.sku}
    ensures forall id :: id in old(db.products) && old(db.products)[id].sku != product.sku ==>
      id in db.products && db.products[id] == old(db.products)[id]
    ensures Stored(db.products, product)
  {
    var brandId, genderId, shoeTypeId := UpsertReferences(db,
      ReferenceLabel(product.brand, DefaultBrand),
      ReferenceLabel(product.gender, DefaultGender),
      ReferenceLabel(Some(product.shoeType), DefaultType));
    var payload := PayloadOf(product, brandId, genderId, shoeTypeId);
    var before := db.products;
    var id;
    id, wasCreated := WriteProduct(db, product.sku, payload);
    WriteFacts(before, id, db.products[id]);
    assert db.products[id].sku == product.sku && db.products[id].price == product.priceDefault
      && db.products[id].stock == 50;
  }

  /** `persistProducts`: `created` and `updated` count the two outcomes of
      each product. Reference rows are found or created by name, with the
      labels defaulting to Courir, Mixte and Chaussures. */
  method PersistProducts(db: Db, products: seq<ListingProduct>) returns (created: nat, updated: nat)
    requires SkusUnique(db.products)
    modifies db`products, db`brands, db`genders, db`shoeTypes
    ensures created + updated == |products|
    ensures created == NewSkuCount(Skus(old(db.products)), products)
    ensures SkusUnique(db.products)
    ensures Skus(db.products) == Skus(old(db.products)) + SkuSet(products)
    ensures forall id :: id in old(db.products) && old(db.products)[id].sku !in SkuSet(products) ==>
      id in db.products && db.products[id] == old(db.products)[id]
    ensures DistinctSkus(products) ==>
      forall k :: 0 <= k < |products| ==> Stored(db.products, products[k])
  {
    created := 0;
    updated := 0;
    ghost var start := db.products;
    var i := 0;
    assert products[..0] == [];
    while i < |products|
      invariant 0 <= i <= |products|
      invariant created + updated == i
      invariant created + NewSkuCount(Skus(db.products), products[i..]) == NewSkuCount(Skus(start), products)
      invariant Progress(start, db.products, products, i)
    {
      var wasCreated := PersistNext(db, start, products, i);
      if wasCreated {
        created := created + 1;
      } else {
        updated := updated + 1;
      }
      i := i + 1;
    }
    ProgressDone(start, db.products, products);
  }

  /** One iteration of `persistProducts`' loop: persist product `i`. */
  method PersistNext(db: Db, ghost start: map<Id, Product>, products: seq<ListingProduct>, i: nat)
    returns (wasCreated: bool)
    requires i < |products|
    requires Progress(start, db.products, products, i)
    modifies db`products, db`brands, db`genders, db`shoeTypes
    ensures Progress(start, db.products, products, i + 1)
    ensures (if wasCreated then 1 else 0) + NewSkuCount(Skus(db.products), products[i + 1..])
      == NewSkuCount(Skus(old(db.products)), products[i..])
  {
    ghost var before := db.products;
    wasCreated := PersistProduct(db, products[i]);
    PersistStep(Skus(before), products, i);
    ProgressStep(start, before, db.products, products, i);
  }

  /** What `persistProducts` has achieved after its first `i` products: SKUs
      stay unique, exactly their SKUs were added, other rows are untouched,
      and, when the SKUs are distinct, each of them is stored. */
  ghost predicate Progress(start: map<Id, Product>, now: map<Id, Product>, products: seq<ListingProduct>, i: nat)
    requires i <= |products|
  {
    && SkusUnique(now)
    && Skus(now) == Skus(start) + SkuSet(products[..i])
    && (forall id :: id in start && start[id].sku !in SkuSet(products[..i]) ==>
          id in now && now[id] == start[id])
    && (DistinctSkus(products) ==>
          forall k :: 0 <= k < i ==> Stored(now, products[k]))
  }

  /** `Progress` over all the products is `persistProducts`' promise. */
  lemma ProgressDone(start: map<Id, Product>, now: map<Id, Product>, products: seq<ListingProduct>)
    requires Progress(start, now, products, |products|)
    ensures SkusUnique(now)
    ensures Skus(now) == Skus(start) + SkuSet(products)
    ensures forall id :: id in start && start[id].sku !in SkuSet(products) ==> id in now && now[id] == start[id]
    ensures DistinctSkus(products) ==>
      forall k :: 0 <= k < |products| ==> Stored(now, products[k])
  {
    assert products[..|products|] == products;
  }

  /** Persisting product `i` advances `Progress` by one. */
  lemma ProgressStep(start: map<Id, Product>, before: map<Id, Product>, after: map<Id, Product>,
                     products: seq<ListingProduct>, i: nat)
    requires i < |products|
    requires Progress(start, before, products, i)
    requires SkusUnique(after)
    requires Skus(after) == Skus(before) + {products[i].sku}
    requires forall id :: id in before && before[id].sku != products[i].sku ==> id in after && after[id] == before[id]
    requires Stored(after, products[i])
    ensures Progress(start, after, products, i + 1)
  {
    SkuSetSnoc(products, i);
    if DistinctSkus(products) {
      forall k | 0 <= k < i + 1 ensures Stored(after, products[k]) {
        if k < i {
          StoredKept(before, after, products[i].sku, products[k]);
        }
      }
    }
  }

  lemma SkuSetSnoc(products: seq<ListingProduct>, i: nat)
    requires i < |products|
    ensures SkuSet(products[..i + 1]) == SkuSet(products[..i]) + {products[i].sku}
  {
    assert products[..i + 1] == products[..i] + [products[i]];
  }

  /** Bookkeeping for one step of `persistProducts`' loop. */
  lemma PersistStep(known: set<string>, products: seq<ListingProduct>, i: nat)
    requires i < |products|
    ensures NewSkuCount(known, products[i..])
      == (if products[i].sku in known then 0 else 1) + NewSkuCount(known + {products[i].sku}, products[i + 1..])
    ensures SkuSet(products[..i + 1]) == SkuSet(products[..i]) + {products[i].sku}
  {
    assert products[i..][1..] == products[i + 1..];
    assert products[..i + 1] == products[..i] + [products[i]];
  }

  // ---------------------------------------------------------------------------
  // scrapeProducts
  // ---------------------------------------------------------------------------

  datatype Summary = Summary(total: nat, created: nat, updated: nat, skipped: nat, pages: nat)

  datatype ScrapeResult = ScrapeResult(products: seq<ListingProduct>, summary: Summary)

  /** `scrapeProducts`: crawl, de-duplicate by SKU, persist, and report.
      `fetched` is the list of pages the crawl fetched, in order: the
      summary's counters are those of that crawl. */
  method Scrape(db: Db, site: map<string, Page>, sourceUrl: string,
                parsePrice: string -> Option<int>, absolute: string -> Option<string>)
    returns (r: Outcome<ScrapeResult>, ghost fetched: seq<string>)
    requires SkusUnique(db.products)
    modifies db`products, db`brands, db`genders, db`shoeTypes
    ensures sourceUrl == [] ==> r == Aborted(SourceUndefined) && unchanged(db)
    ensures r.Aborted? ==> unchanged(db)
    ensures r.Aborted? && sourceUrl != [] ==> r.reason.FetchFailed? && r.reason.url !in site
    ensures sourceUrl != [] && sourceUrl in site && LinksInSite(site) ==> r.Scraped?
    ensures r.Scraped? ==>
      var s := r.value.summary;
      var collected := PagesProducts(site, fetched, parsePrice, absolute);
      && |fetched| >= 1 && fetched[0] == sourceUrl && Distinct(fetched)
      && (forall k :: 0 <= k < |fetched| ==> fetched[k] in site)
      && Closed(site, fetched)
      && r.value.products == FirstBySku(collected, {})
      && s.total == |r.value.products|
      && s.skipped == |collected| - |r.value.products|
      && s.pages == |fetched|
      && s.created == NewSkuCount(Skus(old(db.products)), r.value.products)
      && s.updated == s.total - s.created
      && DistinctSkus(r.value.products)
      && Skus(db.products) == Skus(old(db.products)) + SkuSet(r.value.products)
      && (forall k :: 0 <= k < |r.value.products| ==> Stored(db.products, r.value.products[k]))
      && SkusUnique(db.products)
  {
    var crawl := Crawl(site, sourceUrl, parsePrice, absolute);
    if crawl.Aborted? {
      return Aborted(crawl.reason), [];
    }
    fetched := crawl.value.fetched;
    var collected := crawl.value.products;
    var unique := DedupBySku(collected);
    FirstBySkuDistinct(collected, {});
    var skipped := |collected| - |unique|;
    var created, updated := PersistProducts(db, unique);
    return Scraped(ScrapeResult(unique, Summary(|unique|, created, updated, skipped, crawl.value.pages))), fetched;
  }
}
