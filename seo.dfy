/**
 * `SEOOptimizer`: what it writes into the document head. The head is a `Head`
 * object holding the document title, the meta tags keyed by their attribute
 * and name (`<meta name="…">` or `<meta property="…">`), the canonical link and
 * the JSON-LD script elements keyed by their id. A script holds the record it
 * serialises; the `@context` (`https://schema.org`) and `@type` of each record
 * are implied by its constructor.
 */
module Seo {
  import opened Wrappers
  import opened Text
  import opened Articles

  const SiteName: string := "Auto News Aggregator"
  const SiteUrl: string := "https://meelad5815.github.io/auto-news-aggregator/"
  const StructuredDataId: string := "structured-data"
  const BreadcrumbId: string := "breadcrumb-data"

  /** A meta tag is found by its attribute (`name` or `property`) and that attribute's value. */
  datatype MetaKey = MetaKey(attr: string, name: string)

  /** One `updateMeta(name, content, attr)` call. */
  datatype MetaUpdate = MetaUpdate(attr: string, name: string, content: Option<string>)

  /** A `NewsArticle` entry of the item list. */
  datatype NewsItem = NewsItem(
    headline: string,
    description: string,
    image: Option<string>,
    datePublished: string,
    authorName: string,
    publisherName: string,
    publisherUrl: string,
    pageId: Option<string>,
    keywords: string)

  datatype ListItem = ListItem(position: nat, item: NewsItem)
  datatype Crumb = Crumb(position: nat, name: string, item: string)

  /** The two JSON-LD records: an `ItemList` of news articles and a `BreadcrumbList`. */
  datatype JsonLd = ItemList(elements: seq<ListItem>) | BreadcrumbList(crumbs: seq<Crumb>)

  /** A sitemap entry; `lastmod` (the ISO form of the publication date) is not modelled. */
  datatype SitemapEntry = SitemapEntry(loc: Option<string>, changefreq: string, priority: string)

  class Head {
    var title: string
    var meta: map<MetaKey, string>
    var canonical: Option<string>
    var scripts: map<string, JsonLd>

    /** The head as the page ships it. */
    constructor (title: string, meta: map<MetaKey, string>, canonical: Option<string>, scripts: map<string, JsonLd>)
      ensures this.title == title && this.meta == meta && this.canonical == canonical && this.scripts == scripts
    {
      this.title := title;
      this.meta := meta;
      this.canonical := canonical;
      this.scripts := scripts;
    }
  }

  function KeyOf(u: MetaUpdate): MetaKey { MetaKey(u.attr, u.name) }

  /**
   * The effect of one `updateMeta` call on the tags: a falsy content (missing
   * or empty) changes nothing; otherwise the tag is created or overwritten.
   */
  function Upsert(meta: map<MetaKey, string>, u: MetaUpdate): map<MetaKey, string>
  {
    if Truthy(u.content) then meta[KeyOf(u) := u.content.value] else meta
  }

  /** An update touches its own tag and no other. */
  lemma UpsertEffect(meta: map<MetaKey, string>, u: MetaUpdate)
    ensures !Truthy(u.content) ==> Upsert(meta, u) == meta
    ensures Truthy(u.content) ==> KeyOf(u) in Upsert(meta, u) && Upsert(meta, u)[KeyOf(u)] == u.content.value
    ensures forall k :: k != KeyOf(u) ==> (k in Upsert(meta, u) <==> k in meta) && (k in Upsert(meta, u) ==> Upsert(meta, u)[k] == meta[k])
  {
  }

  /** The updates applied one after another, first to last. */
  function ApplyAll(meta: map<MetaKey, string>, us: seq<MetaUpdate>): map<MetaKey, string>
    decreases |us|
  {
    if us == [] then meta else ApplyAll(Upsert(meta, us[0]), us[1..])
  }

  /** The tags the updates write, on a head that had none. */
  function Written(us: seq<MetaUpdate>): map<MetaKey, string>
  {
    ApplyAll(map[], us)
  }

  /** Applying updates is overlaying what they write on the old tags. */
  lemma {:induction false} ApplyAllOverlays(meta: map<MetaKey, string>, us: seq<MetaUpdate>)
    ensures ApplyAll(meta, us) == meta + Written(us)
    decreases |us|
  {
    if us != [] {
      var u := us[0];
      ApplyAllOverlays(Upsert(meta, u), us[1..]);
      ApplyAllOverlays(Upsert(map[], u), us[1..]);
      assert Upsert(meta, u) + Written(us[1..]) == meta + (Upsert(map[], u) + Written(us[1..]));
    }
  }

  /** Running the same updates twice leaves the tags as one run does. */
  lemma ApplyAllIdempotent(meta: map<MetaKey, string>, us: seq<MetaUpdate>)
    ensures ApplyAll(ApplyAll(meta, us), us) == ApplyAll(meta, us)
  {
    ApplyAllOverlays(meta, us);
    ApplyAllOverlays(ApplyAll(meta, us), us);
    assert (meta + Written(us)) + Written(us) == meta + Written(us);
  }

  /** No update of the list targets the key with a truthy content. */
  predicate Untouched(us: seq<MetaUpdate>, k: MetaKey)
  {
    forall j :: 0 <= j < |us| ==> KeyOf(us[j]) != k || !Truthy(us[j].content)
  }

  /** A key no update writes keeps its old tag, or stays absent. */
  lemma {:induction false} ApplyAllUntouched(meta: map<MetaKey, string>, us: seq<MetaUpdate>, k: MetaKey)
    requires Untouched(us, k)
    ensures k in ApplyAll(meta, us) <==> k in meta
    ensures k in meta ==> ApplyAll(meta, us)[k] == meta[k]
    decreases |us|
  {
    if us != [] {
      assert Untouched(us[1..], k) by {
        forall j | 0 <= j < |us[1..]| ensures KeyOf(us[1..][j]) != k || !Truthy(us[1..][j].content) {
          assert us[1..][j] == us[j + 1];
        }
      }
      assert KeyOf(us[0]) != k || !Truthy(us[0].content);
      ApplyAllUntouched(Upsert(meta, us[0]), us[1..], k);
    }
  }

  /** No two updates of the list target the same tag. */
  predicate DistinctKeys(us: seq<MetaUpdate>)
  {
    forall i, j :: 0 <= i < j < |us| ==> KeyOf(us[i]) != KeyOf(us[j])
  }

  /**
   * With distinct targets, the tag of the i-th update holds its content when
   * that is truthy and is left as it was otherwise.
   */
  lemma {:induction false} ApplyAllAt(meta: map<MetaKey, string>, us: seq<MetaUpdate>, i: nat)
    requires DistinctKeys(us) && i < |us|
    ensures Truthy(us[i].content) ==> KeyOf(us[i]) in ApplyAll(meta, us) && ApplyAll(meta, us)[KeyOf(us[i])] == us[i].content.value
    ensures !Truthy(us[i].content) ==> (KeyOf(us[i]) in ApplyAll(meta, us) <==> KeyOf(us[i]) in meta)
    ensures !Truthy(us[i].content) && KeyOf(us[i]) in meta ==> ApplyAll(meta, us)[KeyOf(us[i])] == meta[KeyOf(us[i])]
    decreases |us|
  {
    var k := KeyOf(us[i]);
    if i == 0 {
      assert Untouched(us[1..], k) by {
        forall j | 0 <= j < |us[1..]| ensures KeyOf(us[1..][j]) != k || !Truthy(us[1..][j].content) {
          assert us[1..][j] == us[j + 1];
        }
      }
      ApplyAllUntouched(Upsert(meta, us[0]), us[1..], k);
    } else {
      assert DistinctKeys(us[1..]) by {
        forall a, b | 0 <= a < b < |us[1..]| ensures KeyOf(us[1..][a]) != KeyOf(us[1..][b]) {
          assert us[1..][a] == us[a + 1] && us[1..][b] == us[b + 1];
        }
      }
      assert us[1..][i - 1] == us[i];
      assert KeyOf(us[0]) != k;
      ApplyAllAt(Upsert(meta, us[0]), us[1..], i - 1);
    }
  }

  /** The description and keywords tags. */
  function DescriptionTags(a: Article): (us: seq<MetaUpdate>)
    ensures |us| == 2
  {
    [ MetaUpdate("name", "description", Some(a.description)),
      MetaUpdate("name", "keywords", Some(Join(a.keywords, ", "))) ]
  }

  /** The Open Graph tags. */
  function OpenGraphTags(a: Article): (us: seq<MetaUpdate>)
    ensures |us| == 5
  {
    [ MetaUpdate("property", "og:title", Some(a.title)),
      MetaUpdate("property", "og:description", Some(a.description)),
      MetaUpdate("property", "og:image", a.image),
      MetaUpdate("property", "og:url", a.link),
      MetaUpdate("property", "og:type", Some("article")) ]
  }

  /** The Twitter card tags. */
  function TwitterCardTags(a: Article): (us: seq<MetaUpdate>)
    ensures |us| == 4
  {
    [ MetaUpdate("name", "twitter:title", Some(a.title)),
      MetaUpdate("name", "twitter:description", Some(a.description)),
      MetaUpdate("name", "twitter:image", a.image),
      MetaUpdate("name", "twitter:card", Some("summary_large_image")) ]
  }

  /** The article-specific tags. */
  function ArticleTags(a: Article): (us: seq<MetaUpdate>)
    ensures |us| == 3
  {
    [ MetaUpdate("property", "article:published_time", Some(a.pubDate)),
      MetaUpdate("property", "article:author", Some(a.author)),
      MetaUpdate("property", "article:section", Some(a.category)) ]
  }

  /** The fourteen `updateMeta` calls of `updateMetaTags(article)`, in order. */
  function MetaUpdates(a: Article): (us: seq<MetaUpdate>)
    ensures |us| == 14
  {
    DescriptionTags(a) + OpenGraphTags(a) + TwitterCardTags(a) + ArticleTags(a)
  }

  /** The fourteen calls target fourteen different tags. */
  lemma MetaUpdatesDistinct(a: Article)
    ensures DistinctKeys(MetaUpdates(a))
  {
    var us := MetaUpdates(a);
    forall i, j | 0 <= i < j < |us| ensures KeyOf(us[i]) != KeyOf(us[j]) {
      assert KeyOf(us[i]).name[..3] != KeyOf(us[j]).name[..3] || KeyOf(us[i]).name != KeyOf(us[j]).name;
    }
  }

  /** The document title `updateMetaTags` sets. */
  function PageTitle(a: Article): (t: string)
    ensures |t| == |a.title| + 3 + |SiteName|
    ensures t[..|a.title|] == a.title && t[|a.title|..] == " | " + SiteName
  {
    a.title + " | " + SiteName
  }

  /**
   * After `updateMetaTags(a)`, whatever tags the page had before, the Open Graph
   * type is `article`, the Twitter card is `summary_large_image`, and the title
   * and section tags carry the article's title and category.
   */
  lemma MetaTagsOfArticle(meta: map<MetaKey, string>, a: Article)
    ensures MetaKey("property", "og:type") in ApplyAll(meta, MetaUpdates(a))
    ensures ApplyAll(meta, MetaUpdates(a))[MetaKey("property", "og:type")] == "article"
    ensures MetaKey("name", "twitter:card") in ApplyAll(meta, MetaUpdates(a))
    ensures ApplyAll(meta, MetaUpdates(a))[MetaKey("name", "twitter:card")] == "summary_large_image"
    ensures a.title != "" ==> (MetaKey("property", "og:title") in ApplyAll(meta, MetaUpdates(a))
      && ApplyAll(meta, MetaUpdates(a))[MetaKey("property", "og:title")] == a.title)
    ensures a.category != "" ==> (MetaKey("property", "article:section") in ApplyAll(meta, MetaUpdates(a))
      && ApplyAll(meta, MetaUpdates(a))[MetaKey("property", "article:section")] == a.category)
  {
    var us := MetaUpdates(a);
    MetaUpdatesDistinct(a);
    ApplyAllAt(meta, us, 6);
    ApplyAllAt(meta, us, 10);
    ApplyAllAt(meta, us, 2);
    ApplyAllAt(meta, us, 13);
  }

  /**
   * An article without keywords (or without an image) leaves the previous
   * article's keywords (image) tag in place: the empty join is falsy and
   * `updateMeta` skips it.
   */
  lemma StaleTagsSurvive(meta: map<MetaKey, string>, a: Article)
    ensures a.keywords == [] ==> (MetaKey("name", "keywords") in ApplyAll(meta, MetaUpdates(a)) <==> MetaKey("name", "keywords") in meta)
    ensures a.keywords == [] && MetaKey("name", "keywords") in meta ==>
      ApplyAll(meta, MetaUpdates(a))[MetaKey("name", "keywords")] == meta[MetaKey("name", "keywords")]
    ensures a.image == None && MetaKey("property", "og:image") in meta ==>
      (MetaKey("property", "og:image") in ApplyAll(meta, MetaUpdates(a))
      && ApplyAll(meta, MetaUpdates(a))[MetaKey("property", "og:image")] == meta[MetaKey("property", "og:image")])
  {
    var us := MetaUpdates(a);
    MetaUpdatesDistinct(a);
    ApplyAllAt(meta, us, 1);
    ApplyAllAt(meta, us, 4);
  }

  /** `updateMeta(name, content, attr)`. */
  method UpdateMeta(head: Head, name: string, content: Option<string>, attr: string)
    modifies head`meta
    ensures head.meta == Upsert(old(head.meta), MetaUpdate(attr, name, content))
  {
    if Truthy(content) {
      head.meta := head.meta[MetaKey(attr, name) := content.value];
    }
  }

  /** One step of the fold: the updates from k on, run on some tags. */
  lemma ApplyAllStep(meta: map<MetaKey, string>, us: seq<MetaUpdate>, k: nat)
    requires k < |us|
    ensures ApplyAll(meta, us[k..]) == ApplyAll(Upsert(meta, us[k]), us[k + 1..])
  {
    assert us[k..][1..] == us[k + 1..];
  }

  /** The updates of two lists one after the other. */
  lemma {:induction false} ApplyAllAppend(meta: map<MetaKey, string>, p: seq<MetaUpdate>, q: seq<MetaUpdate>)
    ensures ApplyAll(meta, p + q) == ApplyAll(ApplyAll(meta, p), q)
    decreases |p|
  {
    if p == [] {
      assert [] + q == q;
    } else {
      assert (p + q)[1..] == p[1..] + q;
      ApplyAllAppend(Upsert(meta, p[0]), p[1..], q);
    }
  }

  lemma DescriptionTagsUnrolled(meta: map<MetaKey, string>, a: Article)
    ensures ApplyAll(meta, DescriptionTags(a)) ==
      var m1 := Upsert(meta, MetaUpdate("name", "description", Some(a.description)));
      var m2 := Upsert(m1, MetaUpdate("name", "keywords", Some(Join(a.keywords, ", "))));
      m2
  {
    var us := DescriptionTags(a);
    var x0 := meta;
    assert us[0..] == us;
    ApplyAllStep(x0, us, 0);
    var x1 := Upsert(x0, us[0]);
    ApplyAllStep(x1, us, 1);
    assert us[2..] == [];
  }

  lemma OpenGraphTagsUnrolled(meta: map<MetaKey, string>, a: Article)
    ensures ApplyAll(meta, OpenGraphTags(a)) ==
      var m1 := Upsert(meta, MetaUpdate("property", "og:title", Some(a.title)));
      var m2 := Upsert(m1, MetaUpdate("property", "og:description", Some(a.description)));
      var m3 := Upsert(m2, MetaUpdate("property", "og:image", a.image));
      var m4 := Upsert(m3, MetaUpdate("property", "og:url", a.link));
      var m5 := Upsert(m4, MetaUpdate("property", "og:type", Some("article")));
      m5
  {
    var us := OpenGraphTags(a);
    var x0 := meta;
    assert us[0..] == us;
    ApplyAllStep(x0, us, 0);
    var x1 := Upsert(x0, us[0]);
    ApplyAllStep(x1, us, 1);
    var x2 := Upsert(x1, us[1]);
    ApplyAllStep(x2, us, 2);
    var x3 := Upsert(x2, us[2]);
    ApplyAllStep(x3, us, 3);
    var x4 := Upsert(x3, us[3]);
    ApplyAllStep(x4, us, 4);
    assert us[5..] == [];
  }

  lemma TwitterCardTagsUnrolled(meta: map<MetaKey, string>, a: Article)
    ensures ApplyAll(meta, TwitterCardTags(a)) ==
      var m1 := Upsert(meta, MetaUpdate("name", "twitter:title", Some(a.title)));
      var m2 := Upsert(m1, MetaUpdate("name", "twitter:description", Some(a.description)));
      var m3 := Upsert(m2, MetaUpdate("name", "twitter:image", a.image));
      var m4 := Upsert(m3, MetaUpdate("name", "twitter:card", Some("summary_large_image")));
      m4
  {
    var us := TwitterCardTags(a);
    var x0 := meta;
    assert us[0..] == us;
    ApplyAllStep(x0, us, 0);
    var x1 := Upsert(x0, us[0]);
    ApplyAllStep(x1, us, 1);
    var x2 := Upsert(x1, us[1]);
    ApplyAllStep(x2, us, 2);
    var x3 := Upsert(x2, us[2]);
    ApplyAllStep(x3, us, 3);
    assert us[4..] == [];
  }

  lemma ArticleTagsUnrolled(meta: map<MetaKey, string>, a: Article)
    ensures ApplyAll(meta, ArticleTags(a)) ==
      var m1 := Upsert(meta, MetaUpdate("property", "article:published_time", Some(a.pubDate)));
      var m2 := Upsert(m1, MetaUpdate("property", "article:author", Some(a.author)));
      var m3 := Upsert(m2, MetaUpdate("property", "article:section", Some(a.category)));
      m3
  {
    var us := ArticleTags(a);
    var x0 := meta;
    assert us[0..] == us;
    ApplyAllStep(x0, us, 0);
    var x1 := Upsert(x0, us[0]);
    ApplyAllStep(x1, us, 1);
    var x2 := Upsert(x1, us[1]);
    ApplyAllStep(x2, us, 2);
    assert us[3..] == [];
  }

  /** The fold over the fourteen updates, written out one call at a time. */
  lemma MetaUpdatesUnrolled(meta: map<MetaKey, string>, a: Article)
    ensures ApplyAll(meta, MetaUpdates(a)) ==
      var m1 := Upsert(meta, MetaUpdate("name", "description", Some(a.description)));
      var m2 := Upsert(m1, MetaUpdate("name", "keywords", Some(Join(a.keywords, ", "))));
      var m3 := Upsert(m2, MetaUpdate("property", "og:title", Some(a.title)));
      var m4 := Upsert(m3, MetaUpdate("property", "og:description", Some(a.description)));
      var m5 := Upsert(m4, MetaUpdate("property", "og:image", a.image));
      var m6 := Upsert(m5, MetaUpdate("property", "og:url", a.link));
      var m7 := Upsert(m6, MetaUpdate("property", "og:type", Some("article")));
      var m8 := Upsert(m7, MetaUpdate("name", "twitter:title", Some(a.title)));
      var m9 := Upsert(m8, MetaUpdate("name", "twitter:description", Some(a.description)));
      var m10 := Upsert(m9, MetaUpdate("name", "twitter:image", a.image));
      var m11 := Upsert(m10, MetaUpdate("name", "twitter:card", Some("summary_large_image")));
      var m12 := Upsert(m11, MetaUpdate("property", "article:published_time", Some(a.pubDate)));
      var m13 := Upsert(m12, MetaUpdate("property", "article:author", Some(a.author)));
      var m14 := Upsert(m13, MetaUpdate("property", "article:section", Some(a.category)));
      m14
  {
    var d, o, t, r := DescriptionTags(a), OpenGraphTags(a), TwitterCardTags(a), ArticleTags(a);
    ApplyAllAppend(meta, d + o + t, r);
    ApplyAllAppend(meta, d + o, t);
    ApplyAllAppend(meta, d, o);
    DescriptionTagsUnrolled(meta, a);
    OpenGraphTagsUnrolled(ApplyAll(meta, d), a);
    TwitterCardTagsUnrolled(ApplyAll(meta, d + o), a);
    ArticleTagsUnrolled(ApplyAll(meta, d + o + t), a);
  }

  /**
   * `updateMetaTags(article)`: the document title becomes the article's title
   * followed by the site name, and the tags are those of the fourteen updates
   * run in order on the old tags.
   */
  method UpdateMetaTags(head: Head, article: Article)
    modifies head`meta, head`title
    ensures head.title == PageTitle(article)
    ensures head.meta == ApplyAll(old(head.meta), MetaUpdates(article))
  {
    MetaUpdatesUnrolled(head.meta, article);
    head.title := PageTitle(article);
    UpdateMeta(head, "description", Some(article.description), "name");
    UpdateMeta(head, "keywords", Some(Join(article.keywords, ", ")), "name");
    UpdateMeta(head, "og:title", Some(article.title), "property");
    UpdateMeta(head, "og:description", Some(article.description), "property");
    UpdateMeta(head, "og:image", article.image, "property");
    UpdateMeta(head, "og:url", article.link, "property");
    UpdateMeta(head, "og:type", Some("article"), "property");
    UpdateMeta(head, "twitter:title", Some(article.title), "name");
    UpdateMeta(head, "twitter:description", Some(article.description), "name");
    UpdateMeta(head, "twitter:image", article.image, "name");
    UpdateMeta(head, "twitter:card", Some("summary_large_image"), "name");
    UpdateMeta(head, "article:published_time", Some(article.pubDate), "property");
    UpdateMeta(head, "article:author", Some(article.author), "property");
    UpdateMeta(head, "article:section", Some(article.category), "property");
  }

  /** `url || this.siteUrl`: the canonical target is never empty. */
  function CanonicalHref(url: Option<string>): (h: string)
    ensures h != ""
    ensures Truthy(url) ==> h == url.value
    ensures !Truthy(url) ==> h == SiteUrl
  {
    OrElse(url, SiteUrl)
  }

  /** `updateCanonical(url)`: the single canonical link points at the URL, or at the site. */
  method UpdateCanonical(head: Head, url: Option<string>)
    modifies head`canonical
    ensures head.canonical == Some(CanonicalHref(url))
  {
    head.canonical := Some(CanonicalHref(url));
  }

  /** The `NewsArticle` record of one article. */
  function NewsItemOf(a: Article): (n: NewsItem)
    ensures n.headline == a.title && n.authorName == a.author && n.pageId == a.link && n.image == a.image
    ensures n.description == a.description && n.datePublished == a.pubDate && n.keywords == Join(a.keywords, ", ")
    ensures n.publisherName == SiteName && n.publisherUrl == SiteUrl
  {
    NewsItem(a.title, a.description, a.image, a.pubDate, a.author, SiteName, SiteUrl, a.link, Join(a.keywords, ", "))
  }

  /** The `ItemList` of `addStructuredData(articles)`: one entry per article, numbered from 1. */
  function StructuredData(articles: seq<Article>): (r: JsonLd)
    ensures r.ItemList? && |r.elements| == |articles|
    ensures forall i :: 0 <= i < |articles| ==> r.elements[i].position == i + 1
    ensures forall i :: 0 <= i < |articles| ==> r.elements[i].item == NewsItemOf(articles[i])
  {
    ItemList(seq(|articles|, i requires 0 <= i < |articles| => ListItem(i + 1, NewsItemOf(articles[i]))))
  }

  /** The list for the first k articles is the first k entries of the list for all of them. */
  lemma StructuredDataPrefix(articles: seq<Article>, k: nat)
    requires k <= |articles|
    ensures StructuredData(articles[..k]).elements == StructuredData(articles).elements[..k]
  {
  }

  /** The entry positions are exactly 1..n, so no two entries share a position. */
  lemma StructuredDataPositionsDistinct(articles: seq<Article>, i: nat, j: nat)
    requires i < j < |articles|
    ensures StructuredData(articles).elements[i].position < StructuredData(articles).elements[j].position
  {
  }

  /** `addStructuredData(articles)`: the `structured-data` script is replaced, other scripts stay. */
  method AddStructuredData(head: Head, articles: seq<Article>)
    modifies head`scripts
    ensures head.scripts == old(head.scripts)[StructuredDataId := StructuredData(articles)]
  {
    head.scripts := head.scripts[StructuredDataId := StructuredData(articles)];
  }

  /** The `BreadcrumbList` of `addBreadcrumb(category)`: Home, then the category. */
  function Breadcrumb(category: string): (r: JsonLd)
    ensures r.BreadcrumbList? && |r.crumbs| == 2
    ensures r.crumbs[0] == Crumb(1, "Home", SiteUrl)
    ensures r.crumbs[1].position == 2 && r.crumbs[1].name == Capitalize(category)
    ensures |SiteUrl| + 1 <= |r.crumbs[1].item| && r.crumbs[1].item[..|SiteUrl| + 1] == SiteUrl + "#"
  {
    BreadcrumbList([Crumb(1, "Home", SiteUrl), Crumb(2, Capitalize(category), SiteUrl + "#" + category)])
  }

  /** The category is recovered from the second crumb's URL, so different categories give different trails. */
  lemma BreadcrumbCategory(category: string)
    ensures Breadcrumb(category).crumbs[1].item[|SiteUrl| + 1..] == category
  {
    assert (SiteUrl + "#" + category)[|SiteUrl| + 1..] == category;
  }

  /** `addBreadcrumb(category)`: the `breadcrumb-data` script is replaced, other scripts stay. */
  method AddBreadcrumb(head: Head, category: string)
    modifies head`scripts
    ensures head.scripts == old(head.scripts)[BreadcrumbId := Breadcrumb(category)]
  {
    head.scripts := head.scripts[BreadcrumbId := Breadcrumb(category)];
  }

  /** Adding both records keeps both: their script ids differ. */
  lemma BothScriptsKept(scripts: map<string, JsonLd>, articles: seq<Article>, category: string)
    ensures var s := scripts[StructuredDataId := StructuredData(articles)][BreadcrumbId := Breadcrumb(category)];
      s[StructuredDataId] == StructuredData(articles) && s[BreadcrumbId] == Breadcrumb(category)
  {
    assert StructuredDataId[0] != BreadcrumbId[0];
  }

  /** `generateSitemapData(articles)`: one daily entry of priority 0.8 per article, at its link. */
  function SitemapData(articles: seq<Article>): (r: seq<SitemapEntry>)
    ensures |r| == |articles|
    ensures forall i :: 0 <= i < |r| ==> r[i].loc == articles[i].link
    ensures forall i :: 0 <= i < |r| ==> r[i].changefreq == "daily" && r[i].priority == "0.8"
  {
    seq(|articles|, i requires 0 <= i < |articles| => SitemapEntry(articles[i].link, "daily", "0.8"))
  }

  /** The sitemap of two lists one after the other is the two sitemaps one after the other. */
  lemma SitemapAppend(a: seq<Article>, b: seq<Article>)
    ensures SitemapData(a + b) == SitemapData(a) + SitemapData(b)
  {
  }
}
