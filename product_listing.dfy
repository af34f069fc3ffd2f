/** The home page's product list: each product of the catalogue becomes a card
    with its EUR price and an absolute image URL. */
module ProductListing {
  import opened Common

  datatype Price = Price(currencyCode: string, amount: int)
  datatype Variant = Variant(id: string, prices: seq<Price>)
  datatype Image = Image(url: Option<string>)

  datatype Product = Product(
    id: string,
    handle: string,
    title: string,
    description: Option<string>,
    thumbnail: Option<string>,
    images: seq<Image>,
    variants: seq<Variant>)

  /** The price shown on a card; amounts are integer cents and the formatted
      text is left to the locale formatter. */
  datatype PriceLabel = OnRequest | Formatted(cents: int)

  datatype ProductCard = ProductCard(
    id: string,
    handle: string,
    title: string,
    description: string,
    thumbnail: Option<string>,
    price: PriceLabel,
    defaultVariantId: Option<string>)

  const Eur: string := "eur"

  /** `prices.find(p => p.currency_code === "eur")`, as the index it finds. */
  function FindEur(prices: seq<Price>): (r: Option<nat>)
    ensures r.Some? ==> r.value < |prices| && prices[r.value].currencyCode == Eur
    ensures r.Some? ==> forall j :: 0 <= j < r.value ==> prices[j].currencyCode != Eur
    ensures r.None? ==> forall j :: 0 <= j < |prices| ==> prices[j].currencyCode != Eur
  {
    if prices == [] then None
    else if prices[0].currencyCode == Eur then Some(0)
    else match FindEur(prices[1..])
      case None => None
      case Some(k) => Some(k + 1)
  }

  /** The amount of the first variant's first EUR price, or 0. */
  function PriceAmount(p: Product): (r: int)
    ensures p.variants == [] ==> r == 0
    ensures p.variants != [] && (forall j :: 0 <= j < |p.variants[0].prices| ==> p.variants[0].prices[j].currencyCode != Eur) ==> r == 0
    ensures p.variants != [] && FindEur(p.variants[0].prices).Some? ==>
      r == p.variants[0].prices[FindEur(p.variants[0].prices).value].amount
    ensures r != 0 ==> p.variants != []
    ensures r != 0 ==>
      exists k :: 0 <= k < |p.variants[0].prices| && p.variants[0].prices[k].currencyCode == Eur &&
        r == p.variants[0].prices[k].amount &&
        (forall j :: 0 <= j < k ==> p.variants[0].prices[j].currencyCode != Eur)
  {
    if p.variants == [] then 0
    else match FindEur(p.variants[0].prices)
      case None => 0
      case Some(k) => p.variants[0].prices[k].amount
  }

  /** A zero amount is shown as "Preis auf Anfrage". */
  function Label(amount: int): PriceLabel {
    if amount != 0 then Formatted(amount) else OnRequest
  }

  /** `product.thumbnail || product.images?.[0]?.url || null`. */
  function RawImageUrl(p: Product): (r: Option<string>)
    ensures Truthy(p.thumbnail) ==> r == p.thumbnail
    ensures !Truthy(p.thumbnail) && p.images != [] && Truthy(p.images[0].url) ==> r == p.images[0].url
    ensures !Truthy(p.thumbnail) && (p.images == [] || !Truthy(p.images[0].url)) ==> r.None?
    ensures r.Some? ==> r.value != ""
  {
    var first := if p.images == [] then None else p.images[0].url;
    if Truthy(p.thumbnail) then p.thumbnail
    else if Truthy(first) then first
    else None
  }

  /** A relative URL gets the backend's base URL in front of it. */
  function Normalise(url: Option<string>, env: Option<string>): (r: Option<string>)
    ensures r.Some? <==> url.Some?
    ensures url.Some? && StartsWith(url.value, "http") ==> r == url
    ensures Truthy(url) && !StartsWith(url.value, "http") ==> r == Some(BackendUrl(env) + url.value)
    ensures url == Some("") ==> r == url
  {
    if Truthy(url) && !StartsWith(url.value, "http") then Some(BackendUrl(env) + url.value) else url
  }

  function ToCard(p: Product, env: Option<string>): (c: ProductCard)
    ensures c.id == p.id && c.handle == p.handle && c.title == p.title
    ensures c.description == OrElse(p.description, "")
    ensures c.defaultVariantId.None? <==> p.variants == []
    ensures p.variants != [] ==> c.defaultVariantId == Some(p.variants[0].id)
  {
    ProductCard(
      p.id, p.handle, p.title,
      OrElse(p.description, ""),
      Normalise(RawImageUrl(p), env),
      Label(PriceAmount(p)),
      if p.variants == [] then None else Some(p.variants[0].id))
  }

  /** The cards for the fetched catalogue, one per product in order; a failed
      fetch gives no cards. */
  function GetProducts(fetched: Outcome<seq<Product>>, env: Option<string>): (cards: seq<ProductCard>)
    ensures fetched.Err? ==> cards == []
    ensures fetched.Ok? ==> |cards| == |fetched.value|
    ensures fetched.Ok? ==> forall i :: 0 <= i < |cards| ==> cards[i] == ToCard(fetched.value[i], env)
  {
    match fetched
    case Err(_, _) => []
    case Ok(products) => seq(|products|, i requires 0 <= i < |products| => ToCard(products[i], env))
  }

  /** The price on a card: formatted exactly when the first variant has an EUR
      price with a non-zero amount, and then it is the first such price. */
  lemma CardPrice(p: Product, env: Option<string>)
    ensures ToCard(p, env).price.Formatted? <==>
      (p.variants != [] && FindEur(p.variants[0].prices).Some? &&
       p.variants[0].prices[FindEur(p.variants[0].prices).value].amount != 0)
    ensures ToCard(p, env).price.Formatted? ==>
      exists k :: 0 <= k < |p.variants[0].prices| && p.variants[0].prices[k].currencyCode == Eur &&
        ToCard(p, env).price.cents == p.variants[0].prices[k].amount &&
        (forall j :: 0 <= j < k ==> p.variants[0].prices[j].currencyCode != Eur)
  {
    if ToCard(p, env).price.Formatted? {
      var k := FindEur(p.variants[0].prices).value;
      assert p.variants[0].prices[k].currencyCode == Eur;
    }
  }

  /** The image of a card: none without a raw URL, an absolute URL as it is,
      a relative one behind the backend URL. */
  lemma CardImage(p: Product, env: Option<string>)
    ensures RawImageUrl(p).None? ==> ToCard(p, env).thumbnail.None?
    ensures RawImageUrl(p).Some? && StartsWith(RawImageUrl(p).value, "http") ==> ToCard(p, env).thumbnail == RawImageUrl(p)
    ensures RawImageUrl(p).Some? && !StartsWith(RawImageUrl(p).value, "http") ==>
      ToCard(p, env).thumbnail == Some(BackendUrl(env) + RawImageUrl(p).value)
  {
  }

  lemma PrefixStartsWith(a: string, b: string, prefix: string)
    requires StartsWith(a, prefix)
    ensures StartsWith(a + b, prefix)
  {
    assert (a + b)[..|prefix|] == a[..|prefix|];
  }

  /** With a backend URL that is itself absolute, every normalised URL starts
      with "http", so normalising twice is normalising once. */
  lemma NormaliseIdempotent(url: Option<string>, env: Option<string>)
    requires StartsWith(BackendUrl(env), "http")
    ensures Normalise(url, env).Some? ==> url.Some? && (url.value == "" || StartsWith(Normalise(url, env).value, "http"))
    ensures Normalise(Normalise(url, env), env) == Normalise(url, env)
  {
    if Truthy(url) && !StartsWith(url.value, "http") {
      PrefixStartsWith(BackendUrl(env), url.value, "http");
    }
  }

  /** The default backend URL is absolute. */
  lemma DefaultBackendIsAbsolute()
    ensures StartsWith(BackendUrl(None), "http")
  {
    assert DefaultBackendUrl[..4] == "http";
  }
}
