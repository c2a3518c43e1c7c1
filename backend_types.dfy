/** The backend's records: the upstream product shape it reads, the game card
    it produces, the cache entry it stores, the query options it is called
    with and the configuration constants it uses. Optional string fields are
    `Option<string>`, so that both an absent field and `""` can be expressed
    (both are falsy for the `||` chains of the mapper). */
module BackendTypes {
  import opened Common

  // ---------------------------------------------------------------------------
  // Upstream product record (read only).

  datatype ProductImage = ProductImage(imagePurpose: string, uri: Option<string>)

  datatype LocalizedProperty = LocalizedProperty(
    productTitle: Option<string>,
    productDescription: Option<string>,
    shortDescription: Option<string>,
    images: Option<seq<ProductImage>>)

  datatype MarketProperty = MarketProperty(
    releaseDate: Option<string>,
    originalReleaseDate: Option<string>)

  datatype Attribute = Attribute(name: string, minimum: Option<int>)

  datatype ProductProperties = ProductProperties(
    categories: Option<seq<string>>,
    attributes: Option<seq<Attribute>>,
    releaseDate: Option<string>)

  datatype MicrosoftProduct = MicrosoftProduct(
    productId: string,
    localizedProperties: Option<seq<LocalizedProperty>>,
    marketProperties: Option<seq<MarketProperty>>,
    properties: Option<ProductProperties>)

  // ---------------------------------------------------------------------------
  // What the backend produces and stores.

  datatype GameCard = GameCard(
    id: string,
    title: string,
    description: string,
    platforms: seq<string>,
    genres: seq<string>,
    coverUrl: Option<string>,
    releaseDate: Option<string>)

  datatype CachedEntry = CachedEntry(timestamp: int, games: seq<GameCard>)

  /** The outcome of a service call: its value, or the error thrown when the
      catalog-id request fails (the only failure that escapes the service). */
  datatype ServiceResult<T> = Ok(value: T) | CatalogFetchFailed

  /** Query options; every field may be absent. The route layer only ever
      passes a whitelisted platform, but the service itself accepts any. */
  datatype QueryOptions = QueryOptions(
    platform: Option<string>,
    market: Option<string>,
    language: Option<string>)

  // ---------------------------------------------------------------------------
  // Configuration.

  /** The catalog-id table; its keys are exactly `console`, `pc`, `eaPlay`
      and `all`. */
  datatype CatalogIds = CatalogIds(console: string, pc: string, eaPlay: string, all: string)

  datatype Config = Config(
    market: string,
    language: string,
    catalogIds: CatalogIds,
    ttlMs: int,
    refreshToken: string)

  /** The configuration the backend uses when no environment variable is set. */
  const DefaultConfig := Config(
    "BR",
    "pt-BR",
    CatalogIds(
      "f6f1f99f-9b49-4ccd-b3bf-4d9767a77f5e",
      "fdd9e2a7-0fee-49f6-ad69-4354098401ff",
      "b8900d09-a491-44cc-916e-32b5acae621a",
      "f13cf6b4-57e6-4459-89df-6aec18cf0538"),
    3600000,
    "")
}
