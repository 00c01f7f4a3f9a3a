/**
 * The thumbnail service: the pure helpers behind a generation request (image-size table,
 * provider aspect-ratio bucket and resolution tier, extraction of the image URL from the
 * provider's response, the deterministic placeholder URL, the download file name) and the
 * in-memory thumbnail store with its generate, lookup, update, delete and download
 * operations.
 */
module ThumbnailService {
  import opened Wrappers
  import opened JsValues
  import opened Text
  import opened Records

  // ---------------------------------------------------------------------------------------
  // Image sizes

  datatype Dimensions = Dimensions(width: int, height: int)

  /** The size used for an image-size key the table does not know. */
  const DefaultDimensions := Dimensions(800, 450)

  /** The named image sizes a generation request may ask for. */
  const ImageSizes: map<string, Dimensions> := map[
    "youtube-thumbnail" := Dimensions(1280, 720),
    "instagram-post" := Dimensions(1080, 1080),
    "instagram-story" := Dimensions(1080, 1920),
    "facebook-post" := Dimensions(1200, 630),
    "facebook-cover" := Dimensions(1640, 859),
    "twitter-post" := Dimensions(1024, 512),
    "linkedin-post" := Dimensions(1200, 627),
    "blog-header" := Dimensions(1200, 600)
  ]

  /** `imageSizeMap[imageSize] || { width: 800, height: 450 }`. */
  function DimensionsFor(imageSize: string): (d: Dimensions)
    ensures d.width > 0 && d.height > 0
  {
    if imageSize in ImageSizes then ImageSizes[imageSize] else DefaultDimensions
  }

  /** Each of the eight keys gives its listed size; every other key gives 800x450. */
  lemma DimensionTable(imageSize: string)
    ensures DimensionsFor("youtube-thumbnail") == Dimensions(1280, 720)
    ensures DimensionsFor("instagram-post") == Dimensions(1080, 1080)
    ensures DimensionsFor("instagram-story") == Dimensions(1080, 1920)
    ensures DimensionsFor("facebook-post") == Dimensions(1200, 630)
    ensures DimensionsFor("facebook-cover") == Dimensions(1640, 859)
    ensures DimensionsFor("twitter-post") == Dimensions(1024, 512)
    ensures DimensionsFor("linkedin-post") == Dimensions(1200, 627)
    ensures DimensionsFor("blog-header") == Dimensions(1200, 600)
    ensures imageSize !in ImageSizes ==> DimensionsFor(imageSize) == Dimensions(800, 450)
  {
  }

  /** The table knows exactly the eight named sizes. */
  lemma ImageSizeKeys()
    ensures ImageSizes.Keys == {"youtube-thumbnail", "instagram-post", "instagram-story",
      "facebook-post", "facebook-cover", "twitter-post", "linkedin-post", "blog-header"}
  {
  }

  // ---------------------------------------------------------------------------------------
  // Provider request settings

  /** The provider's aspect-ratio buckets. */
  datatype AspectRatio = Square1x1 | Landscape16x9 | Landscape4x3 | Portrait9x16 | Portrait3x4

  function AspectRatioLabel(a: AspectRatio): string {
    match a
    case Square1x1 => "square_1_1"
    case Landscape16x9 => "landscape_16_9"
    case Landscape4x3 => "landscape_4_3"
    case Portrait9x16 => "portrait_9_16"
    case Portrait3x4 => "portrait_3_4"
  }

  /** `Math.abs(ratio - target) < 0.1`, in exact arithmetic. */
  predicate Near(ratio: real, target: real) {
    -0.1 < ratio - target < 0.1
  }

  /** The ratio each bucket stands for. */
  function TargetRatio(a: AspectRatio): real {
    match a
    case Square1x1 => 1.0
    case Landscape16x9 => 16.0 / 9.0
    case Landscape4x3 => 4.0 / 3.0
    case Portrait9x16 => 9.0 / 16.0
    case Portrait3x4 => 3.0 / 4.0
  }

  /**
   * The tolerance checks in the source's order: the first that passes wins, 16:9 is the
   * fallback. The chosen bucket's window accepts the ratio unless no window does.
   */
  function AspectRatioOf(ratio: real): (a: AspectRatio)
    ensures Near(ratio, TargetRatio(a)) || forall b :: !Near(ratio, TargetRatio(b))
    ensures a != Landscape16x9 ==> Near(ratio, TargetRatio(a))
    ensures Near(ratio, 1.0) ==> a == Square1x1
  {
    if Near(ratio, 1.0) then Square1x1
    else if Near(ratio, 16.0 / 9.0) then Landscape16x9
    else if Near(ratio, 4.0 / 3.0) then Landscape4x3
    else if Near(ratio, 9.0 / 16.0) then Portrait9x16
    else if Near(ratio, 3.0 / 4.0) then Portrait3x4
    else Landscape16x9
  }

  /**
   * `getAspectRatio(width, height)`. A zero height makes `width / height` infinite or NaN,
   * which no tolerance check accepts, so the fallback applies; otherwise the bucket is the
   * interval whose window holds the ratio.
   */
  function AspectRatioFor(width: int, height: int): (a: AspectRatio)
    ensures height == 0 ==> a == Landscape16x9
    ensures height != 0 ==> a == AspectRatioByInterval(width as real / height as real)
  {
    if height == 0 then Landscape16x9
    else
      AspectRatioMatchesIntervals(width as real / height as real);
      AspectRatioOf(width as real / height as real)
  }

  /**
   * The bucket read off the ratio directly, as disjoint intervals. Only the 9:16 and 3:4
   * windows overlap, on (0.65, 0.6625), and there the earlier 9:16 check wins.
   */
  function AspectRatioByInterval(ratio: real): AspectRatio {
    if 0.9 < ratio < 1.1 then Square1x1
    else if 37.0 / 30.0 < ratio < 43.0 / 30.0 then Landscape4x3
    else if 37.0 / 80.0 < ratio < 53.0 / 80.0 then Portrait9x16
    else if 53.0 / 80.0 <= ratio < 0.85 then Portrait3x4
    else Landscape16x9
  }

  lemma AspectRatioMatchesIntervals(ratio: real)
    ensures AspectRatioOf(ratio) == AspectRatioByInterval(ratio)
  {
  }

  /** Where both portrait windows accept the ratio, the first check (9:16) decides. */
  lemma PortraitOverlapFirstWins(ratio: real)
    requires 0.65 < ratio < 53.0 / 80.0
    ensures Near(ratio, 9.0 / 16.0) && Near(ratio, 3.0 / 4.0)
    ensures AspectRatioOf(ratio) == Portrait9x16
  {
  }

  /** Equal sides are square, whatever their length. */
  lemma EqualSidesAreSquare(side: int)
    requires side != 0
    ensures AspectRatioFor(side, side) == Square1x1
  {
    assert side as real / side as real == 1.0;
  }

  datatype Resolution = OneK | TwoK

  function ResolutionLabel(r: Resolution): string {
    match r
    case OneK => "1k"
    case TwoK => "2k"
  }

  /** `Math.max(width, height) >= 1920 ? '2k' : '1k'`. */
  function ResolutionFor(d: Dimensions): (r: Resolution)
    ensures r == TwoK <==> d.width >= 1920 || d.height >= 1920
  {
    if (if d.width >= d.height then d.width else d.height) >= 1920 then TwoK else OneK
  }

  /** The JSON body sent to the image provider. */
  datatype ProviderRequest = ProviderRequest(
    prompt: string,
    aspectRatio: string,
    resolution: string,
    model: string,
    creativeDetailing: int,
    engine: string,
    fixedGeneration: bool,
    filterNsfw: bool,
    hdr: int)

  function ProviderRequestFor(prompt: string, d: Dimensions): (q: ProviderRequest)
    ensures q.prompt == prompt
    ensures q.aspectRatio in {"square_1_1", "landscape_16_9", "landscape_4_3", "portrait_9_16", "portrait_3_4"}
    ensures q.aspectRatio == AspectRatioLabel(AspectRatioFor(d.width, d.height))
    ensures q.resolution == (if d.width >= 1920 || d.height >= 1920 then "2k" else "1k")
    ensures q.model == "realism" && q.creativeDetailing == 33 && q.engine == "automatic"
    ensures !q.fixedGeneration && q.filterNsfw && q.hdr == 50
  {
    ProviderRequest(prompt, AspectRatioLabel(AspectRatioFor(d.width, d.height)),
      ResolutionLabel(ResolutionFor(d)), "realism", 33, "automatic", false, true, 50)
  }

  /**
   * What every named size asks the provider for. 1280×720 and the 800×450 default are exactly
   * 16:9; the five other wide sizes (ratios near 1.9 and 2.0) miss every window and land on
   * the 16:9 fallback; only the story format is 2k.
   */
  lemma ProviderSettingsPerSize()
    ensures AspectRatioFor(1280, 720) == Landscape16x9 && Near(1280.0 / 720.0, 16.0 / 9.0)
    ensures AspectRatioFor(1080, 1080) == Square1x1
    ensures AspectRatioFor(1080, 1920) == Portrait9x16
    ensures AspectRatioFor(1200, 630) == Landscape16x9 && !Near(1200.0 / 630.0, 16.0 / 9.0)
    ensures AspectRatioFor(1640, 859) == Landscape16x9 && !Near(1640.0 / 859.0, 16.0 / 9.0)
    ensures AspectRatioFor(1024, 512) == Landscape16x9 && !Near(2.0, 16.0 / 9.0)
    ensures AspectRatioFor(1200, 627) == Landscape16x9 && !Near(1200.0 / 627.0, 16.0 / 9.0)
    ensures AspectRatioFor(1200, 600) == Landscape16x9 && !Near(1200.0 / 600.0, 16.0 / 9.0)
    ensures AspectRatioFor(800, 450) == Landscape16x9 && Near(800.0 / 450.0, 16.0 / 9.0)
    ensures forall k :: k in ImageSizes ==> (ResolutionFor(ImageSizes[k]) == TwoK <==> k == "instagram-story")
  {
    assert 1280.0 / 720.0 == 16.0 / 9.0;
    assert 1080.0 / 1920.0 == 9.0 / 16.0;
    assert 1024.0 / 512.0 == 2.0;
    assert 1200.0 / 600.0 == 2.0;
    assert 800.0 / 450.0 == 16.0 / 9.0;
  }

  // ---------------------------------------------------------------------------------------
  // Reading the image URL out of the provider's response

  /** Why no URL could be read: none of the accepted shapes matched, or a property of `null`/`undefined` was read. */
  datatype ExtractError = NoImageUrl | NullishRead

  /** `v.k` on a value that is not `null` or `undefined`. */
  function Read(v: Value, k: string): Value {
    if v.Obj? then Prop(v.props, k) else Undefined
  }

  /**
   * `list.length > 0`. A `length` that is a number is compared as it is, and `true` converts
   * to 1 (`false`, `null` and `undefined` never exceed 0). A string, array or object `length`
   * is converted to a number by JavaScript; the model treats it as not above 0.
   */
  predicate HasItems(list: Value) {
    match list
    case Arr(items) => |items| > 0
    case Str(s) => |s| > 0
    case Obj(m) => LengthAboveZero(Prop(m, "length"))
    case _ => false
  }

  /** `length > 0` for a `length` property that is not a string, array or object. */
  predicate LengthAboveZero(len: Value) {
    match len
    case Num(x) => x > 0.0
    case Bool(b) => b
    case _ => false
  }

  /** `list[0]`. */
  function FirstItem(list: Value): Value
    requires HasItems(list)
  {
    match list
    case Arr(items) => items[0]
    case Str(s) => Str([s[0]])
    case Obj(m) => Prop(m, "0")
  }

  /**
   * The image URL in a provider response: `imageUrl`, else `image_url`, else `url`, else
   * `data[0].url || data[0].image_url` when `data` is a non-empty list.
   */
  function ExtractImageUrl(data: Value): (r: Result<Value, ExtractError>)
    ensures (data.Undefined? || data.Null?) ==> r == Failure(NullishRead)
    ensures r.Success? ==> data.Obj?
    ensures r.Success? && !Truthy(r.value) ==>
      !Truthy(Read(data, "imageUrl")) && !Truthy(Read(data, "image_url")) && !Truthy(Read(data, "url"))
  {
    if data.Undefined? || data.Null? then Failure(NullishRead)
    else if Truthy(Read(data, "imageUrl")) then Success(Read(data, "imageUrl"))
    else if Truthy(Read(data, "image_url")) then Success(Read(data, "image_url"))
    else if Truthy(Read(data, "url")) then Success(Read(data, "url"))
    else
      var list := Read(data, "data");
      if Truthy(list) && HasItems(list) then
        var first := FirstItem(list);
        if first.Undefined? || first.Null? then Failure(NullishRead)
        else if Truthy(Read(first, "url")) then Success(Read(first, "url"))
        else Success(Read(first, "image_url"))
      else Failure(NoImageUrl)
  }

  /** The four response shapes each yield their URL. */
  lemma ExtractFromEachShape(u: string, rest: map<string, Value>)
    requires u != ""
    ensures ExtractImageUrl(Obj(rest["imageUrl" := Str(u)])) == Success(Str(u))
    ensures "imageUrl" !in rest ==> ExtractImageUrl(Obj(rest["image_url" := Str(u)])) == Success(Str(u))
    ensures "imageUrl" !in rest && "image_url" !in rest ==> ExtractImageUrl(Obj(rest["url" := Str(u)])) == Success(Str(u))
    ensures ExtractImageUrl(Obj(map["data" := Arr([Obj(map["url" := Str(u)])])])) == Success(Str(u))
    ensures ExtractImageUrl(Obj(map["data" := Arr([Obj(map["image_url" := Str(u)])])])) == Success(Str(u))
  {
    var d1 := Obj(map["data" := Arr([Obj(map["url" := Str(u)])])]);
    assert Read(d1, "imageUrl") == Undefined;
    var d2 := Obj(map["data" := Arr([Obj(map["image_url" := Str(u)])])]);
    assert Read(d2, "imageUrl") == Undefined;
  }

  /**
   * For a response object, extraction reports that no URL was found exactly when none of the
   * three direct fields is truthy and `data` is falsy or has no items.
   */
  lemma ExtractFailsOnlyWithoutUrl(m: map<string, Value>)
    ensures ExtractImageUrl(Obj(m)) == Failure(NoImageUrl) <==>
      !Truthy(Prop(m, "imageUrl")) && !Truthy(Prop(m, "image_url")) && !Truthy(Prop(m, "url"))
      && !(Truthy(Prop(m, "data")) && HasItems(Prop(m, "data")))
  {
  }

  /**
   * The direct fields are tried in the order `imageUrl`, `image_url`, `url`: the first truthy
   * one is the result, whatever the later ones hold; a field that is present but falsy is
   * passed over like a missing one.
   */
  lemma ExtractPriority(m: map<string, Value>)
    ensures Truthy(Prop(m, "imageUrl")) ==> ExtractImageUrl(Obj(m)) == Success(Prop(m, "imageUrl"))
    ensures !Truthy(Prop(m, "imageUrl")) && Truthy(Prop(m, "image_url")) ==>
      ExtractImageUrl(Obj(m)) == Success(Prop(m, "image_url"))
    ensures !Truthy(Prop(m, "imageUrl")) && !Truthy(Prop(m, "image_url")) && Truthy(Prop(m, "url")) ==>
      ExtractImageUrl(Obj(m)) == Success(Prop(m, "url"))
  {
  }

  /**
   * When no direct field is truthy and `data` is a non-empty array whose first item is an
   * object, the result is that item's `url` when truthy and otherwise its `image_url`, which
   * may be anything, `undefined` included.
   */
  lemma ExtractFromFirstItem(m: map<string, Value>, items: seq<Value>)
    requires !Truthy(Prop(m, "imageUrl")) && !Truthy(Prop(m, "image_url")) && !Truthy(Prop(m, "url"))
    requires Prop(m, "data") == Arr(items) && |items| > 0 && items[0].Obj?
    ensures ExtractImageUrl(Obj(m)) ==
      if Truthy(Prop(items[0].props, "url")) then Success(Prop(items[0].props, "url"))
      else Success(Prop(items[0].props, "image_url"))
  {
  }

  /**
   * A property of `null` or `undefined` is read exactly when the response itself is one of
   * them, or when no direct field is truthy and `data` is a non-empty list whose first item
   * is one of them.
   */
  lemma ExtractNullishRead(data: Value)
    ensures ExtractImageUrl(data) == Failure(NullishRead) <==>
      data.Undefined? || data.Null?
      || (!Truthy(Read(data, "imageUrl")) && !Truthy(Read(data, "image_url")) && !Truthy(Read(data, "url"))
          && Truthy(Read(data, "data")) && HasItems(Read(data, "data"))
          && (FirstItem(Read(data, "data")).Undefined? || FirstItem(Read(data, "data")).Null?))
  {
  }

  // ---------------------------------------------------------------------------------------
  // Placeholder URL and download file name

  /** `title.toLowerCase().replace(/\s+/g, '-')`: free of white space and no longer than the title. */
  function PlaceholderSeed(title: string): (seed: string)
    ensures NoSpace(seed) && |seed| <= |title|
  {
    HyphenateRemovesSpace(Lower(title));
    Hyphenate(Lower(title))
  }

  /**
   * `title.replace(/\s+/g, '-').toLowerCase()`: hyphenating and lower-casing commute, so the
   * download slug is the placeholder seed.
   */
  function DownloadSlug(title: string): (slug: string)
    ensures slug == PlaceholderSeed(title)
  {
    LowerHyphenateCommute(title);
    Lower(Hyphenate(title))
  }

  const PicsumBase := "https://picsum.photos/"

  /** `?random=<seed>-<style>-<colorScheme>`. */
  function PlaceholderQuery(title: string, style: string, colorScheme: string): string {
    "?random=" + PlaceholderSeed(title) + "-" + style + "-" + colorScheme
  }

  /** A concatenation begins with its left part, and its last `n` elements are the right part's last `n`. */
  lemma ConcatEnds(a: string, b: string, n: nat)
    requires n <= |b|
    ensures (a + b)[..|a|] == a
    ensures (a + b)[|a + b| - n..] == b[|b| - n..]
  {
  }

  /**
   * The placeholder image for a title, style, colour scheme and size: `<base>W/H?random=...`,
   * beginning with the image host and ending with the query that carries the seed.
   */
  function MockImageUrl(title: string, style: string, colorScheme: string, d: Dimensions): (url: string)
    ensures StartsWith(url, PicsumBase)
    ensures var q := PlaceholderQuery(title, style, colorScheme);
      |q| < |url| && url[|url| - |q|..] == q
  {
    var w, h, q := IntToString(d.width), IntToString(d.height), PlaceholderQuery(title, style, colorScheme);
    var rest := w + ("/" + (h + q));
    ConcatEnds(PicsumBase, rest, 0);
    Regroup("/", h, q);
    Regroup(w, "/" + h, q);
    Regroup(PicsumBase, w + ("/" + h), q);
    ConcatEnds(PicsumBase + (w + ("/" + h)), q, |q|);
    PicsumBase + rest
  }

  /**
   * The seed is lower case and free of white space, so building it again from itself changes
   * nothing.
   */
  lemma {:induction false} SeedIsCanonical(title: string)
    ensures IsLower(PlaceholderSeed(title))
    ensures PlaceholderSeed(PlaceholderSeed(title)) == PlaceholderSeed(title)
  {
    var seed := PlaceholderSeed(title);
    LowerHyphenateCommute(title);
    forall i | 0 <= i < |seed| ensures LowerChar(seed[i]) == seed[i] {
      LowerCharKeepsSpace(Hyphenate(title)[i]);
    }
    var lowered := Lower(seed);
    assert lowered == seed;
    HyphenateNoSpace(seed);
  }

  lemma FirstNonDigit(x: string, r: string)
    requires AllDigits(x) && r != [] && !('0' <= r[0] <= '9')
    ensures (x + r)[|x|] == r[0]
    ensures forall i :: 0 <= i < |x| ==> '0' <= (x + r)[i] <= '9'
  {
  }

  /** A run of digits ends at the first non-digit, so digits followed by a separator split one way only. */
  lemma DigitsBeforeSeparator(x: string, y: string, r1: string, r2: string)
    requires AllDigits(x) && AllDigits(y)
    requires r1 != [] && r2 != [] && r1[0] == r2[0] && !('0' <= r1[0] <= '9')
    requires x + r1 == y + r2
    ensures x == y && r1 == r2
  {
    var s := x + r1;
    FirstNonDigit(x, r1);
    FirstNonDigit(y, r2);
    assert x == s[..|x|] == y;
    assert r1 == s[|x|..] == r2;
  }

  lemma ConcatCancel(p: string, a: string, b: string)
    requires p + a == p + b
    ensures a == b
  {
    assert a == (p + a)[|p|..];
  }

  /** The placeholder URL determines the image size: two requests of different sizes never share one. */
  lemma MockImageUrlDeterminesSize(t1: string, s1: string, c1: string, d1: Dimensions,
                                   t2: string, s2: string, c2: string, d2: Dimensions)
    requires d1.width >= 0 && d1.height >= 0 && d2.width >= 0 && d2.height >= 0
    requires MockImageUrl(t1, s1, c1, d1) == MockImageUrl(t2, s2, c2, d2)
    ensures d1 == d2
  {
    var q1, q2 := PlaceholderQuery(t1, s1, c1), PlaceholderQuery(t2, s2, c2);
    assert q1[0] == '?' == q2[0];
    var w1, h1 := NatToString(d1.width), NatToString(d1.height);
    var w2, h2 := NatToString(d2.width), NatToString(d2.height);
    ConcatCancel(PicsumBase, w1 + ("/" + (h1 + q1)), w2 + ("/" + (h2 + q2)));
    DigitsBeforeSeparator(w1, w2, "/" + (h1 + q1), "/" + (h2 + q2));
    ConcatCancel("/", h1 + q1, h2 + q2);
    DigitsBeforeSeparator(h1, h2, q1, q2);
    NatToStringInjective(d1.width, d2.width);
    NatToStringInjective(d1.height, d2.height);
  }

  // ---------------------------------------------------------------------------------------
  // Generation

  /** The fields of the form that a generation request carries. */
  datatype GenerationRequest = GenerationRequest(
    title: string,
    description: string,
    style: string,
    colorScheme: string,
    format: string,
    imageSize: string,
    textEffects: Value,
    textPosition: Value,
    liveMode: bool)

  /** Where the image comes from: its URL and whether the provider produced it. */
  datatype ImageChoice = ImageChoice(imageUrl: Value, isAIGenerated: bool)

  /** The extraction produced a non-empty string, the only kind of value that locates an image. */
  predicate IsUsableUrl(r: Result<Value, ExtractError>) {
    r.Success? && r.value.Str? && r.value.s != ""
  }

  /**
   * The choice as `generateThumbnail` writes it: the provider's answer whenever a key is
   * configured and extraction did not throw, even when what it extracted is `undefined`.
   * `providerBody` is the parsed JSON of a successful call, or `None` when the request, its
   * HTTP status or the JSON parsing failed.
   */
  function ChooseImageAsWritten(req: GenerationRequest, d: Dimensions, apiKeyConfigured: bool,
                                providerBody: Option<Value>): (c: ImageChoice)
    ensures c.isAIGenerated <==>
      apiKeyConfigured && providerBody.Some? && ExtractImageUrl(providerBody.value).Success?
    ensures c.isAIGenerated ==> c.imageUrl == ExtractImageUrl(providerBody.value).value
    ensures !c.isAIGenerated ==> c.imageUrl == Str(MockImageUrl(req.title, req.style, req.colorScheme, d))
  {
    if apiKeyConfigured && providerBody.Some? && ExtractImageUrl(providerBody.value).Success? then
      ImageChoice(ExtractImageUrl(providerBody.value).value, true)
    else
      ImageChoice(Str(MockImageUrl(req.title, req.style, req.colorScheme, d)), false)
  }

  /**
   * A response `{ data: [{}] }` makes the code as written store an `undefined` image URL and
   * flag it as AI-generated, where the placeholder was evidently meant.
   */
  lemma UndefinedImageIsAIGenerated(req: GenerationRequest, d: Dimensions)
    ensures var body := Obj(map["data" := Arr([Obj(map[])])]);
      ChooseImageAsWritten(req, d, true, Some(body)) == ImageChoice(Undefined, true)
      && ChooseImage(req, d, true, Some(body)) == ImageChoice(Str(MockImageUrl(req.title, req.style, req.colorScheme, d)), false)
  {
    var body := Obj(map["data" := Arr([Obj(map[])])]);
    assert Read(body, "imageUrl") == Undefined && Read(body, "data") == Arr([Obj(map[])]);
    assert ExtractImageUrl(body) == Success(Undefined);
  }

  /**
   * The provider's image when a key is configured and the call answered with a non-empty
   * string URL; otherwise the placeholder. The stored image URL is always a non-empty string.
   */
  function ChooseImage(req: GenerationRequest, d: Dimensions, apiKeyConfigured: bool,
                       providerBody: Option<Value>): (c: ImageChoice)
    ensures c.isAIGenerated <==>
      apiKeyConfigured && providerBody.Some? && IsUsableUrl(ExtractImageUrl(providerBody.value))
    ensures c.isAIGenerated ==> c.imageUrl == ExtractImageUrl(providerBody.value).value
    ensures !c.isAIGenerated ==> c.imageUrl == Str(MockImageUrl(req.title, req.style, req.colorScheme, d))
    ensures c.imageUrl.Str? && c.imageUrl.s != ""
  {
    if apiKeyConfigured && providerBody.Some? && IsUsableUrl(ExtractImageUrl(providerBody.value)) then
      ImageChoice(ExtractImageUrl(providerBody.value).value, true)
    else
      ImageChoice(Str(MockImageUrl(req.title, req.style, req.colorScheme, d)), false)
  }

  /** `{ width, height }` as a JavaScript object. */
  function DimensionsValue(d: Dimensions): Value {
    Obj(map["width" := Num(d.width as real), "height" := Num(d.height as real)])
  }

  const DefaultTextPosition := Obj(map["x" := Num(50.0), "y" := Num(50.0)])

  /** The property names of the three parts of a new thumbnail. */
  const DescriptionKeys: set<string> := {"title", "description", "style", "colorScheme", "imageSize", "createdAt"}
  const PlacementKeys: set<string> := {"textEffects", "textPosition"}
  const OutcomeKeys: set<string> := {"liveGenerated", "format", "isAIGenerated", "imageUrl", "dimensions"}

  /** None of the three parts names `Id`. */
  lemma NoIdKey()
    ensures "Id" !in DescriptionKeys && "Id" !in PlacementKeys && "Id" !in OutcomeKeys
  {
  }

  /** The three parts name different properties. */
  lemma KeyGroupsDisjoint()
    ensures DescriptionKeys !! PlacementKeys && DescriptionKeys !! OutcomeKeys && PlacementKeys !! OutcomeKeys
  {
  }

  /** What the request itself describes: its text fields and the creation time. */
  function DescriptionProps(req: GenerationRequest, createdAt: string): (m: map<string, Value>)
    ensures m.Keys == DescriptionKeys
    ensures Prop(m, "title") == Str(req.title) && Prop(m, "description") == Str(req.description)
    ensures Prop(m, "style") == Str(req.style) && Prop(m, "colorScheme") == Str(req.colorScheme)
    ensures Prop(m, "imageSize") == Str(req.imageSize) && Prop(m, "createdAt") == Str(createdAt)
  {
    map[
      "description" := Str(req.description),
      "colorScheme" := Str(req.colorScheme),
      "imageSize" := Str(req.imageSize),
      "createdAt" := Str(createdAt),
      "style" := Str(req.style),
      "title" := Str(req.title)
    ]
  }

  /** The text effects and position, with their defaults when the request leaves them falsy. */
  function PlacementProps(req: GenerationRequest): (m: map<string, Value>)
    ensures m.Keys == PlacementKeys
    ensures Truthy(Prop(m, "textEffects")) && Truthy(Prop(m, "textPosition"))
    ensures Prop(m, "textEffects") == if Truthy(req.textEffects) then req.textEffects else Obj(map[])
    ensures Prop(m, "textPosition") == if Truthy(req.textPosition) then req.textPosition else DefaultTextPosition
  {
    map[
      "textEffects" := if Truthy(req.textEffects) then req.textEffects else Obj(map[]),
      "textPosition" := if Truthy(req.textPosition) then req.textPosition else DefaultTextPosition
    ]
  }

  /** Where the image came from, its size, its format and the live-mode flag. */
  function OutcomeProps(req: GenerationRequest, d: Dimensions, c: ImageChoice): (m: map<string, Value>)
    ensures m.Keys == OutcomeKeys
    ensures Prop(m, "dimensions") == DimensionsValue(d)
    ensures Prop(m, "imageUrl") == c.imageUrl && Prop(m, "isAIGenerated") == Bool(c.isAIGenerated)
    ensures Prop(m, "format") == Str(if req.format == "" then "png" else req.format)
    ensures Prop(m, "liveGenerated") == Bool(req.liveMode)
  {
    map[
      "liveGenerated" := Bool(req.liveMode),
      "format" := Str(if req.format == "" then "png" else req.format),
      "isAIGenerated" := Bool(c.isAIGenerated),
      "imageUrl" := c.imageUrl,
      "dimensions" := DimensionsValue(d)
    ]
  }

  /**
   * The properties of a new thumbnail, given its size and where its image comes from: what
   * the request describes, then its placement, then the outcome.
   */
  function ThumbnailProps(req: GenerationRequest, d: Dimensions, c: ImageChoice, createdAt: string): (p: Props)
    ensures p.Keys == DescriptionKeys + PlacementKeys + OutcomeKeys
  {
    var description, placement, outcome := DescriptionProps(req, createdAt), PlacementProps(req), OutcomeProps(req, d, c);
    NoIdKey();
    var p := description + placement + outcome;
    assert p.Keys == DescriptionKeys + PlacementKeys + OutcomeKeys;
    assert "Id" !in p;
    p
  }

  /** The new thumbnail's size, image, format and live flag are those of the outcome. */
  lemma ThumbnailOutcome(req: GenerationRequest, d: Dimensions, c: ImageChoice, createdAt: string)
    ensures var p := ThumbnailProps(req, d, c, createdAt);
      && Prop(p, "dimensions") == DimensionsValue(d)
      && Prop(p, "imageUrl") == c.imageUrl && Prop(p, "isAIGenerated") == Bool(c.isAIGenerated)
      && Prop(p, "format") == Str(if req.format == "" then "png" else req.format)
      && Prop(p, "liveGenerated") == Bool(req.liveMode)
  {
    var o := OutcomeProps(req, d, c);
    assert forall k :: k in o ==> Prop(ThumbnailProps(req, d, c, createdAt), k) == o[k];
  }

  /** The new thumbnail's text effects and position are the request's, or their defaults when falsy. */
  lemma ThumbnailPlacement(req: GenerationRequest, d: Dimensions, c: ImageChoice, createdAt: string)
    ensures var p := ThumbnailProps(req, d, c, createdAt);
      && Prop(p, "textEffects") == (if Truthy(req.textEffects) then req.textEffects else Obj(map[]))
      && Prop(p, "textPosition") == (if Truthy(req.textPosition) then req.textPosition else DefaultTextPosition)
  {
    var o := OutcomeProps(req, d, c);
    assert "textEffects" !in o && "textPosition" !in o;
  }

  /** The new thumbnail's text fields and creation time are the request's. */
  lemma ThumbnailDescription(req: GenerationRequest, d: Dimensions, c: ImageChoice, createdAt: string)
    ensures var p := ThumbnailProps(req, d, c, createdAt);
      && Prop(p, "title") == Str(req.title) && Prop(p, "description") == Str(req.description)
      && Prop(p, "style") == Str(req.style) && Prop(p, "colorScheme") == Str(req.colorScheme)
      && Prop(p, "imageSize") == Str(req.imageSize) && Prop(p, "createdAt") == Str(createdAt)
  {
    KeyGroupsDisjoint();
  }

  /** The record `generateThumbnail` builds, before it is (maybe) stored. */
  function NewThumbnail(req: GenerationRequest, id: int, apiKeyConfigured: bool,
                        providerBody: Option<Value>, createdAt: string): (t: Record)
    ensures t.id == id
    ensures Prop(t.props, "title") == Str(req.title)
    ensures Prop(t.props, "dimensions") == DimensionsValue(DimensionsFor(req.imageSize))
    ensures Prop(t.props, "isAIGenerated") ==
      Bool(apiKeyConfigured && providerBody.Some? && IsUsableUrl(ExtractImageUrl(providerBody.value)))
    ensures Prop(t.props, "imageUrl").Str? && Prop(t.props, "imageUrl").s != ""
  {
    var d := DimensionsFor(req.imageSize);
    var c := ChooseImage(req, d, apiKeyConfigured, providerBody);
    ThumbnailOutcome(req, d, c, createdAt);
    ThumbnailDescription(req, d, c, createdAt);
    Record(id, ThumbnailProps(req, d, c, createdAt))
  }

  /**
   * Without a provider key, "Top 10 Tips" in the tech style and vibrant colours, at YouTube
   * size, gets the 1280x720 placeholder whose query is `?random=top-10-tips-tech-vibrant`.
   */
  lemma TopTenTipsScenario(req: GenerationRequest, id: int, providerBody: Option<Value>, createdAt: string)
    requires req.title == "Top 10 Tips" && req.style == "tech" && req.colorScheme == "vibrant"
    requires req.imageSize == "youtube-thumbnail"
    ensures var t := NewThumbnail(req, id, false, providerBody, createdAt);
      Prop(t.props, "dimensions") == DimensionsValue(Dimensions(1280, 720))
      && Prop(t.props, "isAIGenerated") == Bool(false)
      && Prop(t.props, "imageUrl") == Str(MockImageUrl(req.title, req.style, req.colorScheme, Dimensions(1280, 720)))
      && PlaceholderQuery(req.title, req.style, req.colorScheme) == "?random=top-10-tips-tech-vibrant"
  {
    DimensionTable(req.imageSize);
    var d := DimensionsFor(req.imageSize);
    ThumbnailOutcome(req, d, ChooseImage(req, d, false, providerBody), createdAt);
    TopTenTipsQuery(req.title, req.style, req.colorScheme);
  }

  lemma TopTenTipsQuery(title: string, style: string, colorScheme: string)
    requires title == "Top 10 Tips" && style == "tech" && colorScheme == "vibrant"
    ensures PlaceholderQuery(title, style, colorScheme) == "?random=top-10-tips-tech-vibrant"
  {
    TopTenTipsSeed(title);
  }

  lemma TopTenTipsSeed(title: string)
    requires title == "Top 10 Tips"
    ensures PlaceholderSeed(title) == "top-10-tips"
  {
    TopTenTipsLower(title, "top", "10", "tips");
    SeedOfThreeWords(title, "top", "10", "tips");
  }

  lemma TopTenTipsLower(title: string, top: string, ten: string, tips: string)
    requires title == "Top 10 Tips" && top == "top" && ten == "10" && tips == "tips"
    ensures Lower(title) == top + " " + (ten + " " + tips)
  {
  }

  /** Three space-free words separated by single spaces give a seed of the words joined by hyphens. */
  lemma SeedOfThreeWords(title: string, a: string, b: string, c: string)
    requires a != [] && b != [] && c != [] && NoSpace(a) && NoSpace(b) && NoSpace(c)
    requires Lower(title) == a + " " + (b + " " + c)
    ensures PlaceholderSeed(title) == a + "-" + (b + "-" + c)
  {
    HyphenateNoSpace(c);
    HyphenateWordSpace(b, c);
    HyphenateWordSpace(a, b + " " + c);
  }

  // ---------------------------------------------------------------------------------------
  // Download

  /** What `downloadThumbnail` hands back. */
  datatype DownloadInfo = DownloadInfo(downloadUrl: Value, filename: string, format: string, isBlob: bool)

  /** The errors the store's operations throw. */
  datatype StoreError =
    | NotFound(id: int)
    /**
     * The stored title is not a string, so `title.replace` throws a TypeError. The message
     * is the engine's own and differs between engines and between a missing and a non-string
     * title; the model fixes V8's text for a non-string title as an illustrative message.
     */
    | TitleNotString

  /** A "not found" message names the thumbnail service's entity and carries the Id that was asked for. */
  function ErrorMessage(e: StoreError): (msg: string)
    ensures e.NotFound? ==> StartsWith(msg, "Thumbnail with id ") && Contains(msg, IntToString(e.id))
    ensures e.TitleNotString? ==> msg == "thumbnail.title.replace is not a function"
  {
    match e
    case NotFound(n) =>
      var prefix, id := "Thumbnail with id ", IntToString(n);
      var msg := prefix + id + " not found";
      assert msg[|prefix|..|prefix| + |id|] == id;
      ContainsAt(msg, id, |prefix|);
      msg
    case TitleNotString => "thumbnail.title.replace is not a function"
  }

  /**
   * The download for a stored thumbnail. `blobUrl` is the object URL made from the fetched
   * image bytes, or `None` when fetching them failed. It fails exactly when the title is not
   * a string; otherwise the file is named after the placeholder seed of the title, and the
   * download is a blob exactly when the record is AI-generated with a URL and the fetch
   * succeeded, and the stored URL in every other case.
   */
  function PrepareDownload(t: Record, format: Option<string>, blobUrl: Option<string>): (r: Result<DownloadInfo, StoreError>)
    ensures r.Failure? <==> !Prop(t.props, "title").Str?
    ensures r.Failure? ==> r.error == TitleNotString
    ensures r.Success? ==> r.value.format == format.GetOr("png")
    ensures r.Success? ==> r.value.filename == PlaceholderSeed(Prop(t.props, "title").s) + "." + format.GetOr("png")
    ensures r.Success? ==> (r.value.isBlob <==>
      Truthy(Prop(t.props, "isAIGenerated")) && Truthy(Prop(t.props, "imageUrl")) && blobUrl.Some?)
    ensures r.Success? && r.value.isBlob ==> r.value.downloadUrl == Str(blobUrl.value)
    ensures r.Success? && !r.value.isBlob ==> r.value.downloadUrl == Prop(t.props, "imageUrl")
  {
    var title := Prop(t.props, "title");
    var fmt := format.GetOr("png");
    if !title.Str? then Failure(TitleNotString)
    else
      var filename := DownloadSlug(title.s) + "." + fmt;
      var imageUrl := Prop(t.props, "imageUrl");
      if Truthy(Prop(t.props, "isAIGenerated")) && Truthy(imageUrl) && blobUrl.Some? then
        Success(DownloadInfo(Str(blobUrl.value), filename, fmt, true))
      else
        Success(DownloadInfo(imageUrl, filename, fmt, false))
  }

  /**
   * A placeholder image is handed out as it is stored, never as a blob, under the placeholder
   * seed of its title plus the format's extension.
   */
  lemma PlaceholderDownload(t: Record, format: Option<string>, blobUrl: Option<string>, title: string)
    requires Prop(t.props, "title") == Str(title)
    requires !Truthy(Prop(t.props, "isAIGenerated"))
    ensures PrepareDownload(t, format, blobUrl) ==
      Success(DownloadInfo(Prop(t.props, "imageUrl"), PlaceholderSeed(title) + "." + format.GetOr("png"), format.GetOr("png"), false))
  {
  }

  // ---------------------------------------------------------------------------------------
  // The store

  /** The module-level `thumbnailData` array, newest first. */
  class ThumbnailStore {
    var records: seq<Record>

    /** The store as loaded from the fixture. */
    constructor (initial: seq<Record>)
      ensures records == initial
    {
      records := initial;
    }

    /** `getAll`: a copy of the whole store. */
    method GetAll() returns (all: seq<Record>)
      ensures all == records
    {
      all := records;
    }

    /** `getById`: the first record with that Id, or "not found". */
    method GetById(id: int) returns (r: Result<Record, StoreError>)
      ensures r.Success? <==> HasId(records, id)
      ensures r.Success? ==> r.value.id == id && r.value == records[IndexOfId(records, id)]
      ensures r.Failure? ==> r.error == NotFound(id)
    {
      var i := IndexOfId(records, id);
      if i < 0 {
        r := Failure(NotFound(id));
      } else {
        r := Success(records[i]);
      }
    }

    /**
     * `generateThumbnail`: builds the record with the next Id and, unless in live mode, puts it
     * at the front of the store.
     */
    method Generate(req: GenerationRequest, apiKeyConfigured: bool, providerBody: Option<Value>,
                    createdAt: string) returns (t: Record)
      modifies this
      ensures t == NewThumbnail(req, NextId(old(records)), apiKeyConfigured, providerBody, createdAt)
      ensures forall j :: 0 <= j < |old(records)| ==> old(records)[j].id < t.id
      ensures records == if req.liveMode then old(records) else [t] + old(records)
      ensures UniqueIds(old(records)) ==> UniqueIds(records)
    {
      var s := records;
      var id := NextId(s);
      assert forall j :: 0 <= j < |s| ==> s[j].id < id;
      t := NewThumbnail(req, id, apiKeyConfigured, providerBody, createdAt);
      assert t.id == id;
      if !req.liveMode {
        if UniqueIds(s) {
          PrependKeepsUnique(s, t);
        }
        records := [t] + s;
      }
    }

    /**
     * `updateThumbnail`: merges the changes into the first record with that Id, in place,
     * keeping its Id; "not found" leaves the store as it was.
     */
    method Update(id: int, changes: Props) returns (r: Result<Record, StoreError>)
      modifies this
      ensures var i := IndexOfId(old(records), id);
        if i < 0 then r == Failure(NotFound(id)) && records == old(records)
        else records == old(records)[i := Merge(old(records)[i], changes, id)] && r == Success(records[i])
      ensures records == UpdateStore(old(records), id, changes)
      ensures |records| == |old(records)|
      ensures forall j :: 0 <= j < |records| ==> records[j].id == old(records)[j].id
      ensures UniqueIds(old(records)) ==> UniqueIds(records)
    {
      var i := IndexOfId(records, id);
      if i < 0 {
        r := Failure(NotFound(id));
      } else {
        var updated := Merge(records[i], changes, id);
        if UniqueIds(records) {
          ReplaceKeepsUnique(records, i, updated);
        }
        records := records[i := updated];
        r := Success(updated);
      }
    }

    /**
     * `deleteThumbnail`: removes the first record with that Id and returns it; the others keep
     * their order. "Not found" leaves the store as it was.
     */
    method Delete(id: int) returns (r: Result<Record, StoreError>)
      modifies this
      ensures var i := IndexOfId(old(records), id);
        if i < 0 then r == Failure(NotFound(id)) && records == old(records)
        else r == Success(old(records)[i]) && records == RemoveAt(old(records), i)
      ensures r.Success? ==> |records| == |old(records)| - 1 && multiset(records) + multiset{r.value} == multiset(old(records))
      ensures UniqueIds(old(records)) ==> UniqueIds(records)
    {
      var s := records;
      var i := IndexOfId(s, id);
      if i < 0 {
        r := Failure(NotFound(id));
      } else {
        var rest := RemoveAt(s, i);
        if UniqueIds(s) {
          RemoveKeepsUnique(s, i);
        }
        r := Success(s[i]);
        records := rest;
      }
    }

    /** `downloadThumbnail`: "not found" for an absent Id, otherwise the record's download. */
    method Download(id: int, format: Option<string>, blobUrl: Option<string>) returns (r: Result<DownloadInfo, StoreError>)
      ensures !HasId(records, id) ==> r == Failure(NotFound(id))
      ensures HasId(records, id) ==> r == PrepareDownload(records[IndexOfId(records, id)], format, blobUrl)
      ensures r.Success? ==> HasId(records, id) && r.value.format == format.GetOr("png")
      ensures r.Success? ==> exists title :: Prop(records[IndexOfId(records, id)].props, "title") == Str(title)
                                 && r.value.filename == PlaceholderSeed(title) + "." + format.GetOr("png")
    {
      var i := IndexOfId(records, id);
      if i < 0 {
        r := Failure(NotFound(id));
      } else {
        r := PrepareDownload(records[i], format, blobUrl);
      }
    }
  }
}
