/** The backend aggregation service: the composite cache key, the time-to-live
    test, catalog selection, batched detail fetching with best-effort failure
    handling, the product-to-card mapper, and the class that owns the
    process-wide cache and orchestrates hit / miss, id lookup, title search
    and clearing.

    Upstream HTTP calls are the two total functions of an `Upstream` value:
    a catalog-id request gives a fixed id list or fails, a detail request for
    one batch gives its (optional) `Products` list or fails. The clock is the
    parameter `now`. */
module BackendService {
  import opened Common
  import opened BackendTypes

  // ---------------------------------------------------------------------------
  // Option defaults and the cache key.

  function PlatformOf(options: QueryOptions): string {
    OrElse(options.platform, "all")
  }

  function MarketOf(options: QueryOptions, config: Config): string {
    OrElse(options.market, config.market)
  }

  function LanguageOf(options: QueryOptions, config: Config): string {
    OrElse(options.language, config.language)
  }

  /** `platform-market-language`, after default substitution. */
  function CacheKey(options: QueryOptions, config: Config): (key: string)
    ensures Truthy(options.platform) ==> options.platform.value + "-" <= key
    ensures !Truthy(options.platform) ==> "all-" <= key
  {
    PlatformOf(options) + "-" + MarketOf(options, config) + "-" + LanguageOf(options, config)
  }

  /** With every field absent (or empty) the key is `all-<market>-<language>`
      of the configuration. */
  lemma CacheKeyDefaults(options: QueryOptions, config: Config)
    requires !Truthy(options.platform) && !Truthy(options.market) && !Truthy(options.language)
    ensures CacheKey(options, config) == "all-" + config.market + "-" + config.language
  {
  }

  /** An absent field and an empty one give the same key. */
  lemma CacheKeyEmptyIsAbsent(options: QueryOptions, config: Config)
    ensures CacheKey(options.(market := Some("")), config) == CacheKey(options.(market := None), config)
    ensures CacheKey(options.(language := Some("")), config) == CacheKey(options.(language := None), config)
    ensures CacheKey(options.(platform := Some("")), config) == CacheKey(options.(platform := None), config)
  {
  }

  lemma CacheKeyExample(config: Config)
    ensures CacheKey(QueryOptions(Some("pc"), Some("US"), Some("en-US")), config) == "pc-US-en-US"
  {
  }

  /** The key is not injective: a `-` inside the market or the language makes
      two different option triples collide. */
  lemma CacheKeyCollision(config: Config)
    ensures QueryOptions(Some("all"), Some("US-en"), Some("US")) != QueryOptions(Some("all"), Some("US"), Some("en-US"))
    ensures CacheKey(QueryOptions(Some("all"), Some("US-en"), Some("US")), config)
         == CacheKey(QueryOptions(Some("all"), Some("US"), Some("en-US")), config)
  {
    assert "all" + "-" + "US-en" + "-" + "US" == "all-US-en-US";
    assert "all" + "-" + "US" + "-" + "en-US" == "all-US-en-US";
  }

  /** Position of the first `-`. */
  function DashIndex(s: string): nat
    requires '-' in s
  {
    if s[0] == '-' then 0 else 1 + DashIndex(s[1..])
  }

  lemma {:induction false} DashIndexAfter(a: string, x: string)
    requires '-' !in a
    ensures '-' in a + "-" + x && DashIndex(a + "-" + x) == |a|
  {
    var s := a + "-" + x;
    assert s[|a|] == '-';
    if a != [] {
      assert s[1..] == a[1..] + "-" + x;
      DashIndexAfter(a[1..], x);
    }
  }

  /** Splitting at the first dash: a dash-free prefix is determined. */
  lemma DashSplit(a: string, x: string, b: string, y: string)
    requires '-' !in a && '-' !in b
    requires a + "-" + x == b + "-" + y
    ensures a == b && x == y
  {
    var s := a + "-" + x;
    DashIndexAfter(a, x);
    DashIndexAfter(b, y);
    assert a == s[..|a|] == b;
    assert x == s[|a| + 1..] == y;
  }

  /** The key is injective as long as the resolved platform and market hold
      no `-` (the language may). */
  lemma CacheKeyInjectiveWithoutDash(o1: QueryOptions, o2: QueryOptions, config: Config)
    requires '-' !in PlatformOf(o1) && '-' !in PlatformOf(o2)
    requires '-' !in MarketOf(o1, config) && '-' !in MarketOf(o2, config)
    requires CacheKey(o1, config) == CacheKey(o2, config)
    ensures PlatformOf(o1) == PlatformOf(o2)
    ensures MarketOf(o1, config) == MarketOf(o2, config)
    ensures LanguageOf(o1, config) == LanguageOf(o2, config)
  {
    var p1, m1, l1 := PlatformOf(o1), MarketOf(o1, config), LanguageOf(o1, config);
    var p2, m2, l2 := PlatformOf(o2), MarketOf(o2, config), LanguageOf(o2, config);
    assert CacheKey(o1, config) == p1 + "-" + (m1 + "-" + l1);
    assert CacheKey(o2, config) == p2 + "-" + (m2 + "-" + l2);
    DashSplit(p1, m1 + "-" + l1, p2, m2 + "-" + l2);
    DashSplit(m1, l1, m2, l2);
  }

  // ---------------------------------------------------------------------------
  // Cache validity.

  /** Present and strictly younger than the time-to-live. */
  predicate EntryValid(cache: map<string, CachedEntry>, key: string, now: int, ttl: int)
    ensures EntryValid(cache, key, now, ttl) ==> key in cache
    ensures key in cache && now - cache[key].timestamp >= ttl ==> !EntryValid(cache, key, now, ttl)
  {
    key in cache && now - cache[key].timestamp < ttl
  }

  /** Storing an entry decides the validity of its own key by its stamp alone
      and leaves the validity of every other key as it was. */
  lemma EntryValidAfterStore(cache: map<string, CachedEntry>, key: string, e: CachedEntry, k: string, now: int, ttl: int)
    ensures k == key ==> (EntryValid(cache[key := e], k, now, ttl) <==> now < e.timestamp + ttl)
    ensures k != key ==> (EntryValid(cache[key := e], k, now, ttl) <==> EntryValid(cache, k, now, ttl))
  {
  }

  // ---------------------------------------------------------------------------
  // Catalog selection and the catalog-id request.

  /** `catalogIds[platform]`: only the four keys of the table are present. */
  function CatalogLookup(ids: CatalogIds, platform: string): Option<string> {
    if platform == "console" then Some(ids.console)
    else if platform == "pc" then Some(ids.pc)
    else if platform == "eaPlay" then Some(ids.eaPlay)
    else if platform == "all" then Some(ids.all)
    else None
  }

  /** `catalogIds[platform] || catalogIds.all`. */
  function CatalogId(ids: CatalogIds, platform: string): (id: string)
    ensures platform !in {"console", "pc", "eaPlay", "all"} ==> id == ids.all
    ensures platform == "pc" && ids.pc != "" ==> id == ids.pc
    ensures platform == "console" && ids.console != "" ==> id == ids.console
    ensures platform == "eaPlay" && ids.eaPlay != "" ==> id == ids.eaPlay
  {
    OrElse(CatalogLookup(ids, platform), ids.all)
  }

  /** With the configured table, the lower-case `eaplay` and `cloud`
      platforms are not table keys and both read the `all` catalog. */
  lemma CatalogIdFallsBackToAll()
    ensures CatalogId(DefaultConfig.catalogIds, "cloud") == DefaultConfig.catalogIds.all
    ensures CatalogId(DefaultConfig.catalogIds, "eaplay") == DefaultConfig.catalogIds.all
    ensures CatalogId(DefaultConfig.catalogIds, "eaplay") != DefaultConfig.catalogIds.eaPlay
    ensures CatalogId(DefaultConfig.catalogIds, "console") == DefaultConfig.catalogIds.console
    ensures CatalogId(DefaultConfig.catalogIds, "pc") == DefaultConfig.catalogIds.pc
  {
  }

  datatype IdsOutcome = IdsOk(ids: seq<string>) | IdsFailed
  datatype BatchOutcome = BatchOk(products: Option<seq<MicrosoftProduct>>) | BatchFailed

  /** The two upstream endpoints. `listIds(catalogId, market, language)` and
      `fetchBatch(ids, market, language)`. */
  datatype Upstream = Upstream(
    listIds: (string, string, string) -> IdsOutcome,
    fetchBatch: (seq<string>, string, string) -> BatchOutcome)

  /** Step 1: the catalog-id request for the selected catalog. */
  function GamePassIds(options: QueryOptions, config: Config, up: Upstream): (r: IdsOutcome)
    ensures r == up.listIds(CatalogId(config.catalogIds, OrElse(options.platform, "all")),
                            OrElse(options.market, config.market), OrElse(options.language, config.language))
    ensures !Truthy(options.platform) ==>
      r == up.listIds(config.catalogIds.all, MarketOf(options, config), LanguageOf(options, config))
  {
    up.listIds(CatalogId(config.catalogIds, PlatformOf(options)), MarketOf(options, config), LanguageOf(options, config))
  }

  // ---------------------------------------------------------------------------
  // Step 2: batching and best-effort collection.

  const BatchSize: nat := 20

  function Min(a: int, b: int): int {
    if a <= b then a else b
  }

  /** Consecutive batches of `BatchSize`, the last one possibly shorter. */
  function Chunks<T>(s: seq<T>): seq<seq<T>>
    decreases |s|
  {
    if |s| == 0 then []
    else if |s| <= BatchSize then [s]
    else [s[..BatchSize]] + Chunks(s[BatchSize..])
  }

  lemma {:induction false} ChunksShape<T>(s: seq<T>)
    ensures |Chunks(s)| == (|s| + BatchSize - 1) / BatchSize
    ensures forall k :: 0 <= k < |Chunks(s)| ==> 0 < |Chunks(s)[k]| <= BatchSize
    ensures forall k :: 0 <= k < |Chunks(s)| - 1 ==> |Chunks(s)[k]| == BatchSize
    ensures Flatten(Chunks(s)) == s
    decreases |s|
  {
    if |s| == 0 {
    } else if |s| <= BatchSize {
      assert Flatten(Chunks(s)) == s + Flatten([]);
    } else {
      var rest := Chunks(s[BatchSize..]);
      ChunksShape(s[BatchSize..]);
      assert Chunks(s) == [s[..BatchSize]] + rest;
      assert forall k :: 1 <= k < |Chunks(s)| ==> Chunks(s)[k] == rest[k - 1];
      assert ([s[..BatchSize]] + rest)[1..] == rest;
      assert Flatten(Chunks(s)) == s[..BatchSize] + s[BatchSize..];
    }
  }

  /** One iteration of the batching loop. */
  lemma ChunksStep<T>(s: seq<T>, i: nat)
    requires i < |s|
    ensures Chunks(s[i..]) == [JsSlice(s, i, i + BatchSize)] + Chunks(s[Min(i + BatchSize, |s|)..])
  {
    if |s[i..]| <= BatchSize {
      assert s[|s|..] == [];
    } else {
      assert s[i..][..BatchSize] == s[i..i + BatchSize];
      assert s[i..][BatchSize..] == s[i + BatchSize..];
    }
  }

  /** What one batch adds: its `Products` when the request succeeds and the
      list is present, nothing otherwise. */
  function Contribution(batch: seq<string>, up: Upstream, market: string, language: string): seq<MicrosoftProduct> {
    match up.fetchBatch(batch, market, language)
    case BatchOk(Some(products)) => products
    case _ => []
  }

  /** In-order concatenation of the batches' contributions. */
  function CollectProducts(batches: seq<seq<string>>, up: Upstream, market: string, language: string): seq<MicrosoftProduct> {
    if batches == [] then []
    else CollectProducts(batches[..|batches| - 1], up, market, language) + Contribution(batches[|batches| - 1], up, market, language)
  }

  lemma {:induction false} CollectAppend(a: seq<seq<string>>, b: seq<seq<string>>, up: Upstream, market: string, language: string)
    ensures CollectProducts(a + b, up, market, language) == CollectProducts(a, up, market, language) + CollectProducts(b, up, market, language)
    decreases |b|
  {
    if b == [] {
      assert a + b == a;
    } else {
      var b' := b[..|b| - 1];
      assert (a + b)[..|a + b| - 1] == a + b';
      CollectAppend(a, b', up, market, language);
    }
  }

  /** A failed batch, or one without `Products`, contributes nothing: the
      result is what the batches around it give. */
  lemma CollectSkipsFailedBatch(a: seq<seq<string>>, b: seq<string>, c: seq<seq<string>>, up: Upstream, market: string, language: string)
    requires up.fetchBatch(b, market, language).BatchFailed? || up.fetchBatch(b, market, language) == BatchOk(None)
    ensures CollectProducts(a + [b] + c, up, market, language) == CollectProducts(a, up, market, language) + CollectProducts(c, up, market, language)
  {
    CollectAppend(a + [b], c, up, market, language);
    assert (a + [b])[..|a + [b]| - 1] == a;
  }

  /** When every request fails the result is empty. */
  lemma {:induction false} CollectAllFailed(batches: seq<seq<string>>, up: Upstream, market: string, language: string)
    requires forall k :: 0 <= k < |batches| ==> up.fetchBatch(batches[k], market, language).BatchFailed?
    ensures CollectProducts(batches, up, market, language) == []
    decreases |batches|
  {
    if batches != [] {
      CollectAllFailed(batches[..|batches| - 1], up, market, language);
    }
  }

  /** The products that step 2 yields for `ids`. */
  function ProductDetails(ids: seq<string>, options: QueryOptions, config: Config, up: Upstream): seq<MicrosoftProduct> {
    CollectProducts(Chunks(ids), up, MarketOf(options, config), LanguageOf(options, config))
  }

  /** The first loop of step 2: `ids` cut into slices of `BatchSize`. */
  method MakeBatches(ids: seq<string>) returns (batches: seq<seq<string>>)
    ensures batches == Chunks(ids)
  {
    batches := [];
    var i := 0;
    while i < |ids|
      invariant 0 <= i
      invariant batches + Chunks(ids[Min(i, |ids|)..]) == Chunks(ids)
      decreases |ids| - i
    {
      ChunksStep(ids, i);
      batches := batches + [JsSlice(ids, i, i + BatchSize)];
      i := i + BatchSize;
    }
    assert ids[|ids|..] == [];
  }

  /** The second loop of step 2: request each batch in order and keep the
      products of the requests that succeed. */
  method FetchBatches(batches: seq<seq<string>>, up: Upstream, market: string, language: string)
    returns (allProducts: seq<MicrosoftProduct>)
    ensures allProducts == CollectProducts(batches, up, market, language)
  {
    allProducts := [];
    var k := 0;
    while k < |batches|
      invariant 0 <= k <= |batches|
      invariant allProducts == CollectProducts(batches[..k], up, market, language)
    {
      var batch := batches[k];
      assert batches[..k + 1][..k] == batches[..k];
      match up.fetchBatch(batch, market, language) {
        case BatchOk(Some(products)) =>
          allProducts := allProducts + products;
        case _ =>
      }
      k := k + 1;
    }
    assert batches[..k] == batches;
  }

  /** Step 2: cut `ids` into batches, request each batch in order, keep the
      products of the batches that succeed. Never fails. `requests` is the
      number of detail requests issued. */
  method GetProductsDetails(ids: seq<string>, options: QueryOptions, config: Config, up: Upstream)
    returns (allProducts: seq<MicrosoftProduct>, requests: nat)
    ensures allProducts == ProductDetails(ids, options, config, up)
    ensures requests == (|ids| + BatchSize - 1) / BatchSize
    ensures ids == [] ==> allProducts == [] && requests == 0
  {
    var market := MarketOf(options, config);
    var language := LanguageOf(options, config);
    var batches := MakeBatches(ids);
    allProducts := FetchBatches(batches, up, market, language);
    requests := |batches|;
    ChunksShape(ids);
  }

  // ---------------------------------------------------------------------------
  // Step 3: the product mapper.

  /** `xs?.[0]`. */
  function FirstOf<T>(xs: Option<seq<T>>): (r: Option<T>)
    ensures r.Some? <==> xs.Some? && |xs.value| > 0
    ensures r.Some? ==> r.value == xs.value[0]
  {
    if xs.Some? && |xs.value| > 0 then Some(xs.value[0]) else None
  }

  /** `images.find(img => img.ImagePurpose === purpose)`. */
  function FindByPurpose(images: seq<ProductImage>, purpose: string): (r: Option<ProductImage>)
    ensures r.None? <==> forall i :: 0 <= i < |images| ==> images[i].imagePurpose != purpose
    ensures r.Some? ==> exists i :: 0 <= i < |images| && images[i] == r.value && r.value.imagePurpose == purpose
                                && forall j :: 0 <= j < i ==> images[j].imagePurpose != purpose
  {
    if images == [] then None
    else if images[0].imagePurpose == purpose then Some(images[0])
    else
      var r := FindByPurpose(images[1..], purpose);
      assert forall i :: 0 < i < |images| ==> images[i] == images[1..][i - 1];
      r
  }

  /** `img?.Uri`. */
  function UriOf(image: Option<ProductImage>): Option<string> {
    if image.Some? then image.value.uri else None
  }

  /** Poster, else BoxArt, else the first image, else none. */
  function CoverUrl(localized: Option<LocalizedProperty>): (r: Option<string>)
    ensures r.Some? ==> r.value != ""
    ensures r.Some? ==> localized.Some? && localized.value.images.Some?
    ensures r.Some? ==> exists i :: 0 <= i < |localized.value.images.value| && localized.value.images.value[i].uri == r
  {
    if localized.Some? && localized.value.images.Some? then
      var images := localized.value.images.value;
      var r := FirstTruthy([UriOf(FindByPurpose(images, "Poster")), UriOf(FindByPurpose(images, "BoxArt")),
                            if |images| > 0 then images[0].uri else None]);
      r
    else None
  }

  /** The pushes of the attribute loop, attribute by attribute. */
  function PushesFor(attr: Attribute): seq<string> {
    (if attr.name == "PlatformDependencyXboxOne" then ["Console"] else [])
    + (if attr.name == "PlatformDependencyXboxSeriesX" then ["Console"] else [])
    + (if attr.name == "PlatformDependencyWindows" then ["PC"] else [])
    + (if attr.name == "XboxLiveGoldRequired" && attr.minimum == Some(0) then ["Cloud"] else [])
  }

  function RawPlatforms(attributes: seq<Attribute>): seq<string> {
    if attributes == [] then []
    else RawPlatforms(attributes[..|attributes| - 1]) + PushesFor(attributes[|attributes| - 1])
  }

  /** `Array.from(new Set(s))`: first occurrences, in order. */
  function Dedupe(s: seq<string>): (r: seq<string>)
    ensures forall x :: x in r <==> x in s
    ensures NoDuplicates(r)
  {
    if s == [] then []
    else
      var d := Dedupe(s[..|s| - 1]);
      assert forall x :: x in s <==> x in s[..|s| - 1] || x == s[|s| - 1];
      if s[|s| - 1] in d then d else d + [s[|s| - 1]]
  }

  /** Index of the first occurrence. */
  function FirstIndex(s: seq<string>, x: string): (k: nat)
    requires x in s
    ensures k < |s| && s[k] == x
    ensures forall j :: 0 <= j < k ==> s[j] != x
  {
    if s[0] == x then 0 else 1 + FirstIndex(s[1..], x)
  }

  lemma FirstIndexInPrefix(s: seq<string>, n: nat, x: string)
    requires n <= |s| && x in s[..n]
    ensures FirstIndex(s, x) == FirstIndex(s[..n], x)
  {
    var k := FirstIndex(s[..n], x);
    var k' := FirstIndex(s, x);
    assert s[k] == x;
  }

  /** `Dedupe` keeps elements in the order of their first occurrence. */
  lemma {:induction false} DedupeFirstOccurrenceOrder(s: seq<string>)
    ensures forall i, j :: 0 <= i < j < |Dedupe(s)| ==> FirstIndex(s, Dedupe(s)[i]) < FirstIndex(s, Dedupe(s)[j])
    decreases |s|
  {
    if s != [] {
      var init := s[..|s| - 1];
      var last := s[|s| - 1];
      var d := Dedupe(init);
      DedupeFirstOccurrenceOrder(init);
      forall x | x in init ensures FirstIndex(s, x) == FirstIndex(init, x) && FirstIndex(init, x) < |init| {
        FirstIndexInPrefix(s, |s| - 1, x);
      }
      if last !in d {
        assert last !in init;
        assert FirstIndex(s, last) == |s| - 1;
      }
    }
  }

  predicate IsConsoleAttribute(attr: Attribute) {
    attr.name == "PlatformDependencyXboxOne" || attr.name == "PlatformDependencyXboxSeriesX"
  }

  predicate IsPcAttribute(attr: Attribute) {
    attr.name == "PlatformDependencyWindows"
  }

  predicate IsCloudAttribute(attr: Attribute) {
    attr.name == "XboxLiveGoldRequired" && attr.minimum == Some(0)
  }

  predicate IsPlatformName(x: string) {
    x == "Console" || x == "PC" || x == "Cloud"
  }

  lemma PushesForMembers(attr: Attribute)
    ensures "Console" in PushesFor(attr) <==> IsConsoleAttribute(attr)
    ensures "PC" in PushesFor(attr) <==> IsPcAttribute(attr)
    ensures "Cloud" in PushesFor(attr) <==> IsCloudAttribute(attr)
    ensures forall x :: x in PushesFor(attr) ==> IsPlatformName(x)
  {
  }

  /** A name pushed for the whole list was pushed for one of its attributes. */
  lemma {:induction false} RawPlatformsFrom(attributes: seq<Attribute>, x: string) returns (i: nat)
    requires x in RawPlatforms(attributes)
    ensures i < |attributes| && x in PushesFor(attributes[i])
    decreases |attributes|
  {
    var init := attributes[..|attributes| - 1];
    if x in RawPlatforms(init) {
      i := RawPlatformsFrom(init, x);
      assert attributes[i] == init[i];
    } else {
      i := |attributes| - 1;
    }
  }

  /** A name pushed for one attribute is pushed for the whole list. */
  lemma {:induction false} RawPlatformsTo(attributes: seq<Attribute>, x: string, i: nat)
    requires i < |attributes| && x in PushesFor(attributes[i])
    ensures x in RawPlatforms(attributes)
    decreases |attributes|
  {
    var init := attributes[..|attributes| - 1];
    if i < |init| {
      assert init[i] == attributes[i];
      RawPlatformsTo(init, x, i);
    }
  }

  /** A name occurs in the pushes of a list exactly when some attribute of the
      list pushes it. */
  lemma {:induction false} RawPlatformsContains(attributes: seq<Attribute>, x: string)
    ensures x in RawPlatforms(attributes) <==> exists i :: 0 <= i < |attributes| && x in PushesFor(attributes[i])
  {
    if x in RawPlatforms(attributes) {
      var i := RawPlatformsFrom(attributes, x);
    }
    forall i | 0 <= i < |attributes| && x in PushesFor(attributes[i]) ensures x in RawPlatforms(attributes) {
      RawPlatformsTo(attributes, x, i);
    }
  }

  lemma {:induction false} RawPlatformsNames(attributes: seq<Attribute>)
    ensures forall x :: x in RawPlatforms(attributes) ==> IsPlatformName(x)
    decreases |attributes|
  {
    if attributes != [] {
      RawPlatformsNames(attributes[..|attributes| - 1]);
      PushesForMembers(attributes[|attributes| - 1]);
    }
  }

  lemma {:induction false} RawPlatformsMembers(attributes: seq<Attribute>)
    ensures "Console" in RawPlatforms(attributes) <==> exists i :: 0 <= i < |attributes| && IsConsoleAttribute(attributes[i])
    ensures "PC" in RawPlatforms(attributes) <==> exists i :: 0 <= i < |attributes| && IsPcAttribute(attributes[i])
    ensures "Cloud" in RawPlatforms(attributes) <==> exists i :: 0 <= i < |attributes| && IsCloudAttribute(attributes[i])
    ensures forall x :: x in RawPlatforms(attributes) ==> IsPlatformName(x)
  {
    forall i | 0 <= i < |attributes| {
      PushesForMembers(attributes[i]);
    }
    RawPlatformsContains(attributes, "Console");
    RawPlatformsContains(attributes, "PC");
    RawPlatformsContains(attributes, "Cloud");
    RawPlatformsNames(attributes);
  }

  /** The attribute loop: push a platform name per matching attribute. */
  method CollectPlatforms(attributes: seq<Attribute>) returns (platforms: seq<string>)
    ensures platforms == RawPlatforms(attributes)
  {
    platforms := [];
    for k := 0 to |attributes|
      invariant platforms == RawPlatforms(attributes[..k])
    {
      var attr := attributes[k];
      assert attributes[..k + 1][..k] == attributes[..k];
      if attr.name == "PlatformDependencyXboxOne" { platforms := platforms + ["Console"]; }
      if attr.name == "PlatformDependencyXboxSeriesX" { platforms := platforms + ["Console"]; }
      if attr.name == "PlatformDependencyWindows" { platforms := platforms + ["PC"]; }
      if attr.name == "XboxLiveGoldRequired" && attr.minimum == Some(0) { platforms := platforms + ["Cloud"]; }
    }
    assert attributes[..|attributes|] == attributes;
  }

  function AttributesOf(properties: Option<ProductProperties>): seq<Attribute> {
    if properties.Some? && properties.value.attributes.Some? then properties.value.attributes.value else []
  }

  /** The mapper, total over every product shape. */
  function ToGameCard(product: MicrosoftProduct): (card: GameCard)
    ensures card.id == product.productId
    ensures card.title != ""
    ensures NoDuplicates(card.platforms)
    ensures forall x :: x in card.platforms ==> IsPlatformName(x)
    ensures card.coverUrl.Some? ==> card.coverUrl.value != ""
    ensures card.releaseDate.Some? ==> card.releaseDate.value != ""
  {
    var localized := FirstOf(product.localizedProperties);
    var market := FirstOf(product.marketProperties);
    var properties := product.properties;
    var title := OrElse(if localized.Some? then localized.value.productTitle else None, "Unknown Game");
    var description := OrElse(
      if localized.Some? then FirstTruthy([localized.value.shortDescription, localized.value.productDescription]) else None,
      "");
    var attributes := AttributesOf(properties);
    RawPlatformsMembers(attributes);
    var platforms := if properties.Some? && properties.value.attributes.Some? then Dedupe(RawPlatforms(attributes)) else [];
    var genres := if properties.Some? && properties.value.categories.Some? then properties.value.categories.value else [];
    var releaseDate := FirstTruthy([
      if market.Some? then market.value.releaseDate else None,
      if market.Some? then market.value.originalReleaseDate else None,
      if properties.Some? then properties.value.releaseDate else None]);
    GameCard(product.productId, title, description, platforms, genres, CoverUrl(localized), releaseDate)
  }

  /** Title and description precedence; falsy values fall through. */
  lemma MapperText(product: MicrosoftProduct)
    ensures var l := FirstOf(product.localizedProperties);
      && (l.Some? && Truthy(l.value.productTitle) ==> ToGameCard(product).title == l.value.productTitle.value)
      && (!(l.Some? && Truthy(l.value.productTitle)) ==> ToGameCard(product).title == "Unknown Game")
      && (l.Some? && Truthy(l.value.shortDescription) ==> ToGameCard(product).description == l.value.shortDescription.value)
      && ((l.Some? && !Truthy(l.value.shortDescription) && Truthy(l.value.productDescription))
            ==> ToGameCard(product).description == l.value.productDescription.value)
      && ((!(l.Some? && (Truthy(l.value.shortDescription) || Truthy(l.value.productDescription))))
            ==> ToGameCard(product).description == "")
  {
    var l := FirstOf(product.localizedProperties);
    if l.Some? {
      FirstTruthyPair(l.value.shortDescription, l.value.productDescription);
    }
  }

  /** Cover precedence: the first Poster's Uri, else the first BoxArt's Uri,
      else the first image's Uri, else none. */
  lemma MapperCover(product: MicrosoftProduct)
    ensures var l := FirstOf(product.localizedProperties);
      var card := ToGameCard(product);
      l.Some? && l.value.images.Some? ==>
        var images := l.value.images.value;
        var poster := UriOf(FindByPurpose(images, "Poster"));
        var boxArt := UriOf(FindByPurpose(images, "BoxArt"));
        var first := if |images| > 0 then images[0].uri else None;
        && (Truthy(poster) ==> card.coverUrl == poster)
        && (!Truthy(poster) && Truthy(boxArt) ==> card.coverUrl == boxArt)
        && (!Truthy(poster) && !Truthy(boxArt) && Truthy(first) ==> card.coverUrl == first)
        && (!Truthy(poster) && !Truthy(boxArt) && !Truthy(first) ==> card.coverUrl == None)
    ensures var l := FirstOf(product.localizedProperties);
      !(l.Some? && l.value.images.Some?) ==> ToGameCard(product).coverUrl == None
  {
    var l := FirstOf(product.localizedProperties);
    if l.Some? && l.value.images.Some? {
      var images := l.value.images.value;
      FirstTruthyTriple(UriOf(FindByPurpose(images, "Poster")), UriOf(FindByPurpose(images, "BoxArt")),
                        if |images| > 0 then images[0].uri else None);
    }
  }

  /** The platform list: `Console` iff an XboxOne or XboxSeriesX dependency,
      `PC` iff a Windows dependency, `Cloud` iff `XboxLiveGoldRequired` with
      minimum 0; first-occurrence order of the pushes. */
  lemma MapperPlatforms(product: MicrosoftProduct)
    ensures var attributes := AttributesOf(product.properties);
      var platforms := ToGameCard(product).platforms;
      && ("Console" in platforms <==> exists i :: 0 <= i < |attributes| && IsConsoleAttribute(attributes[i]))
      && ("PC" in platforms <==> exists i :: 0 <= i < |attributes| && IsPcAttribute(attributes[i]))
      && ("Cloud" in platforms <==> exists i :: 0 <= i < |attributes| && IsCloudAttribute(attributes[i]))
      && forall i, j :: 0 <= i < j < |platforms| ==>
            FirstIndex(RawPlatforms(attributes), platforms[i]) < FirstIndex(RawPlatforms(attributes), platforms[j])
  {
    var attributes := AttributesOf(product.properties);
    RawPlatformsMembers(attributes);
    DedupeFirstOccurrenceOrder(RawPlatforms(attributes));
    assert RawPlatforms([]) == [];
  }

  /** Genres and release date precedence. */
  lemma MapperGenresAndRelease(product: MicrosoftProduct)
    ensures var p := product.properties;
      ToGameCard(product).genres == if p.Some? && p.value.categories.Some? then p.value.categories.value else []
    ensures var m := FirstOf(product.marketProperties);
      var p := product.properties;
      var card := ToGameCard(product);
      && (m.Some? && Truthy(m.value.releaseDate) ==> card.releaseDate == m.value.releaseDate)
      && (m.Some? && !Truthy(m.value.releaseDate) && Truthy(m.value.originalReleaseDate) ==> card.releaseDate == m.value.originalReleaseDate)
      && ((!(m.Some? && (Truthy(m.value.releaseDate) || Truthy(m.value.originalReleaseDate))) && p.Some? && Truthy(p.value.releaseDate))
            ==> card.releaseDate == p.value.releaseDate)
      && ((!(m.Some? && (Truthy(m.value.releaseDate) || Truthy(m.value.originalReleaseDate))) && !(p.Some? && Truthy(p.value.releaseDate)))
            ==> card.releaseDate == None)
  {
    var m := FirstOf(product.marketProperties);
    var p := product.properties;
    FirstTruthyTriple(if m.Some? then m.value.releaseDate else None,
                      if m.Some? then m.value.originalReleaseDate else None,
                      if p.Some? then p.value.releaseDate else None);
  }

  /** A product missing every optional field maps to the default card. */
  lemma MapperAllAbsent(id: string)
    ensures ToGameCard(MicrosoftProduct(id, None, None, None)) == GameCard(id, "Unknown Game", "", [], [], None, None)
  {
  }

  /** The mapper as the source writes it, with the attribute loop. */
  method MapProductToGameCard(product: MicrosoftProduct) returns (card: GameCard)
    ensures card == ToGameCard(product)
  {
    var localized := FirstOf(product.localizedProperties);
    var market := FirstOf(product.marketProperties);
    var properties := product.properties;
    var title := OrElse(if localized.Some? then localized.value.productTitle else None, "Unknown Game");
    var description := OrElse(
      if localized.Some? then FirstTruthy([localized.value.shortDescription, localized.value.productDescription]) else None,
      "");
    var platforms: seq<string> := [];
    if properties.Some? && properties.value.attributes.Some? {
      platforms := CollectPlatforms(properties.value.attributes.value);
    }
    var uniquePlatforms := Dedupe(platforms);
    var genres := if properties.Some? && properties.value.categories.Some? then properties.value.categories.value else [];
    var releaseDate := FirstTruthy([
      if market.Some? then market.value.releaseDate else None,
      if market.Some? then market.value.originalReleaseDate else None,
      if properties.Some? then properties.value.releaseDate else None]);
    card := GameCard(product.productId, title, description, uniquePlatforms, genres, CoverUrl(localized), releaseDate);
  }

  function MapCards(products: seq<MicrosoftProduct>): (cards: seq<GameCard>)
    ensures |cards| == |products|
    ensures forall i :: 0 <= i < |products| ==> cards[i] == ToGameCard(products[i])
  {
    seq(|products|, i requires 0 <= i < |products| => ToGameCard(products[i]))
  }

  // ---------------------------------------------------------------------------
  // Lookups over a game list.

  /** `games.find(g => g.id === id) || null`. */
  function FindById(games: seq<GameCard>, id: string): (r: Option<GameCard>)
    ensures r.None? <==> forall i :: 0 <= i < |games| ==> games[i].id != id
    ensures r.Some? ==> exists i :: 0 <= i < |games| && games[i] == r.value && r.value.id == id
                                && forall j :: 0 <= j < i ==> games[j].id != id
  {
    if games == [] then None
    else if games[0].id == id then Some(games[0])
    else
      var r := FindById(games[1..], id);
      assert forall i :: 0 < i < |games| ==> games[i] == games[1..][i - 1];
      r
  }

  predicate TitleMatches(game: GameCard, query: string) {
    Includes(Lower(game.title), Lower(query))
  }

  /** Order-preserving, case-insensitive title filter. */
  function SearchFilter(games: seq<GameCard>, query: string): (r: seq<GameCard>)
    ensures forall g :: g in r <==> g in games && Includes(Lower(g.title), Lower(query))
    ensures query == "" ==> r == games
  {
    if query == "" then
      forall g | g in games ensures TitleMatches(g, query) {
        IncludesEmpty(Lower(g.title));
      }
      FilterKeepsAll(games, g => TitleMatches(g, query));
      Filter(games, g => TitleMatches(g, query))
    else
      Filter(games, g => TitleMatches(g, query))
  }

  // ---------------------------------------------------------------------------
  // getAllGames as a state transition.

  datatype Step = Step(result: ServiceResult<seq<GameCard>>, cache: map<string, CachedEntry>, calls: nat)

  /** The result, the new cache and the number of upstream requests of one
      `getAllGames(options)` at time `now`. */
  function AllGamesStep(cache: map<string, CachedEntry>, options: QueryOptions, config: Config, now: int, up: Upstream): (s: Step)
    ensures var key := CacheKey(options, config);
      forall k :: k != key ==> (k in s.cache <==> k in cache) && (k in cache ==> s.cache[k] == cache[k])
    ensures var key := CacheKey(options, config);
      EntryValid(cache, key, now, config.ttlMs) ==> s == Step(Ok(cache[key].games), cache, 0)
    ensures var key := CacheKey(options, config);
      !EntryValid(cache, key, now, config.ttlMs) ==> s.calls >= 1
    ensures s.result.CatalogFetchFailed? ==> s.cache == cache && GamePassIds(options, config, up).IdsFailed?
    ensures var key := CacheKey(options, config);
      s.result.Ok? ==> key in s.cache && s.cache[key].games == s.result.value
  {
    var key := CacheKey(options, config);
    if EntryValid(cache, key, now, config.ttlMs) then
      Step(Ok(cache[key].games), cache, 0)
    else
      match GamePassIds(options, config, up)
      case IdsFailed => Step(CatalogFetchFailed, cache, 1)
      case IdsOk(ids) =>
        var games := MapCards(ProductDetails(ids, options, config, up));
        Step(Ok(games), cache[key := CachedEntry(now, games)], 1 + (|ids| + BatchSize - 1) / BatchSize)
  }

  /** On a miss whose id request succeeds, the stored entry is stamped `now`
      and holds one card per fetched product. */
  lemma AllGamesMissStores(cache: map<string, CachedEntry>, options: QueryOptions, config: Config, now: int, up: Upstream)
    requires !EntryValid(cache, CacheKey(options, config), now, config.ttlMs)
    requires GamePassIds(options, config, up).IdsOk?
    ensures var s := AllGamesStep(cache, options, config, now, up);
      var products := ProductDetails(GamePassIds(options, config, up).ids, options, config, up);
      && s.result == Ok(MapCards(products))
      && |s.result.value| == |products|
      && s.cache == cache[CacheKey(options, config) := CachedEntry(now, s.result.value)]
      && s.calls == 1 + (|GamePassIds(options, config, up).ids| + BatchSize - 1) / BatchSize
  {
  }

  /** A second call with the same options, less than the time-to-live after a
      call that fetched, is answered from the cache with no upstream request,
      whatever the upstream would say. */
  lemma AllGamesRepeatWithinTtl(cache: map<string, CachedEntry>, options: QueryOptions, config: Config,
                                t1: int, t2: int, up1: Upstream, up2: Upstream)
    requires t2 - t1 < config.ttlMs
    requires AllGamesStep(cache, options, config, t1, up1).result.Ok?
    requires AllGamesStep(cache, options, config, t1, up1).calls > 0
    ensures var s1 := AllGamesStep(cache, options, config, t1, up1);
      var s2 := AllGamesStep(s1.cache, options, config, t2, up2);
      s2.result == s1.result && s2.cache == s1.cache && s2.calls == 0
  {
    var key := CacheKey(options, config);
    var s1 := AllGamesStep(cache, options, config, t1, up1);
    assert !EntryValid(cache, key, t1, config.ttlMs);
    assert s1.cache[key].timestamp == t1;
  }

  /** Once the time-to-live has elapsed since a fetch, the next call fetches
      again. */
  lemma AllGamesRefetchAfterTtl(cache: map<string, CachedEntry>, options: QueryOptions, config: Config,
                                t1: int, t2: int, up1: Upstream, up2: Upstream)
    requires t2 - t1 >= config.ttlMs
    requires AllGamesStep(cache, options, config, t1, up1).result.Ok?
    requires AllGamesStep(cache, options, config, t1, up1).calls > 0
    ensures var s1 := AllGamesStep(cache, options, config, t1, up1);
      AllGamesStep(s1.cache, options, config, t2, up2).calls >= 1
  {
    var key := CacheKey(options, config);
    var s1 := AllGamesStep(cache, options, config, t1, up1);
    assert !EntryValid(cache, key, t1, config.ttlMs);
    assert s1.cache[key].timestamp == t1;
  }

  /** After clearing, every call requests the catalog ids again. */
  lemma AllGamesAfterClearFetches(options: QueryOptions, config: Config, now: int, up: Upstream)
    ensures AllGamesStep(map[], options, config, now, up).calls >= 1
  {
  }

  // ---------------------------------------------------------------------------
  // The service and its process-wide cache.

  class GamePassService {
    var cache: map<string, CachedEntry>
    const config: Config

    /** A fresh process: empty cache. */
    constructor (config: Config)
      ensures this.config == config && cache == map[]
    {
      this.config := config;
      cache := map[];
    }

    predicate IsCacheValid(key: string, now: int)
      reads this
      ensures IsCacheValid(key, now) ==> key in cache && now - cache[key].timestamp < config.ttlMs
      ensures key in cache && now - cache[key].timestamp >= config.ttlMs ==> !IsCacheValid(key, now)
    {
      EntryValid(cache, key, now, config.ttlMs)
    }

    /** Cache hit: the stored games; miss: ids, details, map, store. */
    method GetAllGames(options: QueryOptions, now: int, up: Upstream)
      returns (result: ServiceResult<seq<GameCard>>, calls: nat)
      modifies this
      ensures Step(result, cache, calls) == AllGamesStep(old(cache), options, config, now, up)
    {
      var cacheKey := CacheKey(options, config);
      if IsCacheValid(cacheKey, now) {
        return Ok(cache[cacheKey].games), 0;
      }
      match GamePassIds(options, config, up)
      case IdsFailed =>
        return CatalogFetchFailed, 1;
      case IdsOk(ids) =>
        var products, requests := GetProductsDetails(ids, options, config, up);
        var games: seq<GameCard> := [];
        for k := 0 to |products|
          invariant games == MapCards(products[..k])
          invariant cache == old(cache)
        {
          var card := MapProductToGameCard(products[k]);
          games := games + [card];
        }
        assert products[..|products|] == products;
        assert games == MapCards(ProductDetails(ids, options, config, up));
        cache := cache[cacheKey := CachedEntry(now, games)];
        return Ok(games), 1 + requests;
    }

    /** The first game with that id among `getAllGames`, or none. */
    method GetGameById(id: string, options: QueryOptions, now: int, up: Upstream)
      returns (result: ServiceResult<Option<GameCard>>, calls: nat)
      modifies this
      ensures var s := AllGamesStep(old(cache), options, config, now, up);
        && cache == s.cache && calls == s.calls
        && result == if s.result.Ok? then Ok(FindById(s.result.value, id)) else CatalogFetchFailed
    {
      var all;
      all, calls := GetAllGames(options, now, up);
      if all.Ok? {
        result := Ok(FindById(all.value, id));
      } else {
        result := CatalogFetchFailed;
      }
    }

    /** `getAllGames` filtered by lower-cased title containing the lower-cased
      query. */
    method SearchGames(query: string, options: QueryOptions, now: int, up: Upstream)
      returns (result: ServiceResult<seq<GameCard>>, calls: nat)
      modifies this
      ensures var s := AllGamesStep(old(cache), options, config, now, up);
        && cache == s.cache && calls == s.calls
        && result == if s.result.Ok? then Ok(SearchFilter(s.result.value, query)) else CatalogFetchFailed
    {
      var all;
      all, calls := GetAllGames(options, now, up);
      if all.Ok? {
        result := Ok(SearchFilter(all.value, query));
      } else {
        result := CatalogFetchFailed;
      }
    }

    /** Delete every key; clearing an empty cache changes nothing, so a
        second clear is the same as one. */
    method ClearCache()
      modifies this
      ensures cache == map[]
    {
      var keys := cache.Keys;
      while keys != {}
        invariant cache.Keys == keys
        decreases keys
      {
        var k :| k in keys;
        cache := cache - {k};
        keys := keys - {k};
      }
      assert cache.Keys == {};
    }
  }
}
