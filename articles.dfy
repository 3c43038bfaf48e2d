/**
 * The article model of the news fetcher and the normalisation of one raw feed
 * item into an article (`parseArticles`, `generateId`, `extractImage`,
 * `extractDomain`). A raw field that JavaScript would read as `undefined` is
 * `None`; JavaScript's `x || y` on strings treats both `None` and `""` as absent.
 */
module Articles {
  import opened Wrappers
  import opened Text
  import Base64
  import Keywords
  import ImageSearch

  datatype Enclosure = Enclosure(link: Option<string>)
  datatype MediaThumbnail = MediaThumbnail(url: Option<string>)

  /** One entry of the proxy's `items` array. */
  datatype RawItem = RawItem(
    title: Option<string>,
    description: Option<string>,
    content: Option<string>,
    link: Option<string>,
    pubDate: Option<string>,
    author: Option<string>,
    thumbnail: Option<string>,
    enclosure: Option<Enclosure>,
    mediaThumbnail: Option<MediaThumbnail>)

  /** The proxy's JSON envelope: `items`, and `feed.title` (None when `feed` or its title is missing). */
  datatype Envelope = Envelope(items: Option<seq<RawItem>>, feedTitle: Option<string>)

  /** A normalised article. `link` and `image` stay `None` where JavaScript leaves `undefined`. */
  datatype Article = Article(
    id: string,
    title: string,
    description: string,
    fullDescription: string,
    link: Option<string>,
    pubDate: string,
    category: string,
    image: Option<string>,
    author: string,
    source: string,
    keywords: seq<string>)

  /** The exception `btoa` throws for a character above U+00FF. */
  datatype Error = InvalidCharacter

  /**
   * The browser services the fetcher calls and the model does not interpret:
   * `sanitizeText` (markup to visible text), `new URL(u).hostname` (None when
   * the constructor throws), `new Date(s)` as milliseconds, and `encodeURIComponent`.
   */
  datatype Env = Env(
    sanitize: string -> string,
    hostname: string -> Option<string>,
    parseDate: string -> int,
    encodeUri: string -> string)

  const Placeholder: string := "https://via.placeholder.com/400x300/2563eb/ffffff?text=News"
  const DescriptionLength: nat := 200
  const IdLength: nat := 16

  /** JavaScript truthiness of a string field. */
  predicate Truthy(o: Option<string>) { o.Some? && o.value != "" }

  /** `o || d`. */
  function OrElse(o: Option<string>, d: string): (r: string)
    ensures Truthy(o) ==> r == o.value
    ensures !Truthy(o) ==> r == d
  {
    if Truthy(o) then o.value else d
  }

  /** `String(link)`: what `btoa` and `new URL` see; an absent link is the text "undefined". */
  function LinkText(link: Option<string>): string
  {
    if link.Some? then link.value else "undefined"
  }

  /** `btoa(url).substring(0, 16)` on the text of the link; `btoa` throws when a character is not Latin-1. */
  function GenerateId(url: string): (r: Result<string, Error>)
    ensures r.Success? <==> Base64.IsLatin1(url)
    ensures r.Success? ==> |r.value| == Min(IdLength, 4 * ((|url| + 2) / 3))
    ensures r.Success? ==> r.value <= Base64.Encode(url)
  {
    if Base64.IsLatin1(url) then
      Base64.EncodeLength(url);
      Success(Prefix(Base64.Encode(url), IdLength))
    else Failure(InvalidCharacter)
  }

  /** The id of a link of twelve or more characters is the encoding of its first twelve. */
  lemma IdIsEncodingOfFirst12(t: string)
    requires Base64.IsLatin1(t) && |t| >= 12
    ensures Base64.IsLatin1(t[..12])
    ensures GenerateId(t) == Success(Base64.Encode(t[..12]))
  {
    Base64.Latin1Split(t, 12);
    Base64.EncodePrefixBlocks(t, 4);
  }

  /** Two links with the same first twelve characters have the same id. */
  lemma IdDeterminedByFirst12(a: string, b: string)
    requires Base64.IsLatin1(a) && Base64.IsLatin1(b)
    requires |a| >= 12 && |b| >= 12 && a[..12] == b[..12]
    ensures GenerateId(a) == GenerateId(b)
  {
    IdIsEncodingOfFirst12(a);
    IdIsEncodingOfFirst12(b);
  }

  /** The id of a link shorter than twelve characters is its whole encoding. */
  lemma IdOfShortLink(t: string)
    requires Base64.IsLatin1(t) && |t| < 12
    ensures GenerateId(t) == Success(Base64.Encode(t))
  {
    var k := (|t| + 2) / 3;
    assert k <= 4;
    Base64.EncodeLength(t);
    assert |Base64.Encode(t)| == 4 * k <= IdLength;
  }

  /** Decoding an id gives back the first twelve characters of the link (all of it when shorter). */
  lemma IdDecodesToLinkPrefix(t: string)
    requires Base64.IsLatin1(t)
    ensures GenerateId(t).Success?
    ensures Base64.Decode(GenerateId(t).value) == Prefix(t, 12)
  {
    if |t| >= 12 {
      IdIsEncodingOfFirst12(t);
      Base64.DecodeEncode(t[..12]);
    } else {
      IdOfShortLink(t);
      Base64.DecodeEncode(t);
    }
  }

  /** `extractDomain(link)`: the hostname with its first "www." removed, or "News Source". */
  function ExtractDomain(link: Option<string>, env: Env): (r: string)
    ensures env.hostname(LinkText(link)).None? ==> r == "News Source"
    ensures env.hostname(LinkText(link)).Some? ==>
      var h := env.hostname(LinkText(link)).value;
      (forall i: nat :: OccursAt(h, "www.", i) && (forall j: nat :: j < i ==> !OccursAt(h, "www.", j)) ==>
         r == h[..i] + h[i + 4..])
      && (OccursAt(h, "www.", 0) ==> r == h[4..])
      && ((forall j: nat :: !OccursAt(h, "www.", j)) ==> r == h)
  {
    match env.hostname(LinkText(link))
    case None => "News Source"
    case Some(h) =>
      StripWww(h);
      ReplaceFirst(h, "www.", "")
  }

  /** What removing the first `www.` from a host name leaves. */
  lemma StripWww(h: string)
    ensures forall i: nat :: OccursAt(h, "www.", i) && (forall j: nat :: j < i ==> !OccursAt(h, "www.", j)) ==>
      ReplaceFirst(h, "www.", "") == h[..i] + h[i + 4..]
    ensures OccursAt(h, "www.", 0) ==> ReplaceFirst(h, "www.", "") == h[4..]
    ensures (forall j: nat :: !OccursAt(h, "www.", j)) ==> ReplaceFirst(h, "www.", "") == h
  {
    forall i: nat | OccursAt(h, "www.", i) && (forall j: nat :: j < i ==> !OccursAt(h, "www.", j))
      ensures ReplaceFirst(h, "www.", "") == h[..i] + h[i + 4..]
    {
      ReplaceFirstRemovesLeftmost(h, "www.", "", i);
      assert h[..i] + "" + h[i + 4..] == h[..i] + h[i + 4..];
    }
    if OccursAt(h, "www.", 0) { ReplaceFirstRemovesLeftmost(h, "www.", "", 0); }
    if forall j: nat :: !OccursAt(h, "www.", j) { ReplaceFirstAbsent(h, "www.", ""); }
  }

  predicate HasEnclosureLink(item: RawItem)
  {
    item.enclosure.Some? && Truthy(item.enclosure.value.link)
  }

  /** `item.content || item.description`, when one of them is truthy. */
  predicate HasMarkup(item: RawItem) { Truthy(item.content) || Truthy(item.description) }

  function Markup(item: RawItem): string
    requires HasMarkup(item)
  {
    if Truthy(item.content) then item.content.value else item.description.value
  }

  /**
   * `extractImage(item)`. The result is None exactly when a `media:thumbnail`
   * object without `url` is reached: JavaScript then returns `undefined`.
   */
  function ExtractImage(item: RawItem): (r: Option<string>)
    ensures Truthy(item.thumbnail) ==> r == item.thumbnail
    ensures !Truthy(item.thumbnail) && HasEnclosureLink(item) ==> r == item.enclosure.value.link
    ensures !Truthy(item.thumbnail) && !HasEnclosureLink(item) && item.mediaThumbnail.Some? ==>
      r == item.mediaThumbnail.value.url
    ensures !Truthy(item.thumbnail) && !HasEnclosureLink(item) && item.mediaThumbnail.None? ==>
      r.Some? && r.value != "" &&
      (r.value == Placeholder || (HasMarkup(item) && ImageSearch.FirstImgSrc(Markup(item)) == r))
    ensures !Truthy(item.thumbnail) && !HasEnclosureLink(item) && item.mediaThumbnail.None? ==>
      (r == Some(Placeholder) <==> !HasMarkup(item) || ImageSearch.FirstImgSrc(Markup(item)) in {None, Some(Placeholder)})
    ensures r.None? || r.value == "" ==> item.mediaThumbnail.Some?
  {
    if Truthy(item.thumbnail) then item.thumbnail
    else if HasEnclosureLink(item) then item.enclosure.value.link
    else if item.mediaThumbnail.Some? then item.mediaThumbnail.value.url
    else if HasMarkup(item) then
      match ImageSearch.FirstImgSrc(Markup(item))
      case Some(src) => Some(src)
      case None => Some(Placeholder)
    else Some(Placeholder)
  }

  /** What every normalised article satisfies. */
  predicate WellFormed(a: Article)
  {
    && |a.description| == Min(DescriptionLength, |a.fullDescription|)
    && a.description == a.fullDescription[..|a.description|]
    && a.author != ""
    && a.keywords == Keywords.ExtractKeywords(a.title + " " + a.fullDescription)
    && |a.keywords| <= Keywords.MaxKeywords
  }

  /** The body of the `items.map(item => ...)` callback in `parseArticles`. */
  function NormaliseItem(item: RawItem, category: string, feedTitle: Option<string>, env: Env, nowIso: string)
    : (r: Result<Article, Error>)
    ensures r.Success? <==> Base64.IsLatin1(LinkText(item.link))
    ensures r.Success? ==> WellFormed(r.value)
    ensures r.Success? ==>
      var a := r.value;
      && a.id == GenerateId(LinkText(item.link)).value
      && a.title == env.sanitize(OrElse(item.title, ""))
      && a.fullDescription == env.sanitize(if Truthy(item.description) then item.description.value else OrElse(item.content, ""))
      && a.link == item.link
      && a.pubDate == OrElse(item.pubDate, nowIso)
      && a.category == category
      && a.image == ExtractImage(item)
      && a.author == (if Truthy(item.author) then item.author.value else OrElse(feedTitle, "Unknown"))
      && a.source == (if Truthy(feedTitle) then feedTitle.value else ExtractDomain(item.link, env))
  {
    var title := env.sanitize(OrElse(item.title, ""));
    var description := env.sanitize(if Truthy(item.description) then item.description.value else OrElse(item.content, ""));
    match GenerateId(LinkText(item.link))
    case Failure(e) => Failure(e)
    case Success(id) =>
      Success(Article(
        id := id,
        title := title,
        description := Prefix(description, DescriptionLength),
        fullDescription := description,
        link := item.link,
        pubDate := OrElse(item.pubDate, nowIso),
        category := category,
        image := ExtractImage(item),
        author := OrElse(item.author, OrElse(feedTitle, "Unknown")),
        source := if Truthy(feedTitle) then feedTitle.value else ExtractDomain(item.link, env),
        keywords := Keywords.ExtractKeywords(title + " " + description)))
  }

  predicate LinksEncodable(items: seq<RawItem>)
  {
    forall i :: 0 <= i < |items| ==> Base64.IsLatin1(LinkText(items[i].link))
  }

  /**
   * `parseArticles(items, category, feedInfo)`: every item normalised, in order.
   * The map throws (at the first link `btoa` rejects) unless every link is Latin-1.
   */
  function ParseArticles(items: seq<RawItem>, category: string, feedTitle: Option<string>, env: Env, nowIso: string)
    : (r: Result<seq<Article>, Error>)
    ensures r.Success? <==> LinksEncodable(items)
    ensures r.Success? ==> |r.value| == |items|
    ensures r.Success? ==> forall i :: 0 <= i < |items| ==>
      r.value[i] == NormaliseItem(items[i], category, feedTitle, env, nowIso).value
  {
    if LinksEncodable(items) then
      Success(seq(|items|, i requires 0 <= i < |items| => NormaliseItem(items[i], category, feedTitle, env, nowIso).value))
    else Failure(InvalidCharacter)
  }

  /** Every article a successful parse produces is well formed and carries the requested category. */
  lemma ParsedArticlesWellFormed(items: seq<RawItem>, category: string, feedTitle: Option<string>, env: Env, nowIso: string)
    requires ParseArticles(items, category, feedTitle, env, nowIso).Success?
    ensures forall a :: a in ParseArticles(items, category, feedTitle, env, nowIso).value ==>
      WellFormed(a) && a.category == category
  {
    var r := ParseArticles(items, category, feedTitle, env, nowIso).value;
    forall a | a in r ensures WellFormed(a) && a.category == category {
      var i :| 0 <= i < |r| && r[i] == a;
      assert a == NormaliseItem(items[i], category, feedTitle, env, nowIso).value;
    }
  }
}
