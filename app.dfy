/**
 * `NewsApp`: the page state the application keeps (category, page number, the
 * fetched articles, the view mode) and the parts of the page it draws into,
 * plus its string helpers `escapeHtml`, `updateCategoryTitle` and the
 * relative-time buckets of `formatDate`.
 */
module App {
  import opened Wrappers
  import opened Text
  import opened Articles
  import opened Paging
  import opened Fetcher
  import DateSort
  import Seo

  // ---------------------------------------------------------------------------
  // escapeHtml

  /** The five characters `escapeHtml` replaces by character references. */
  predicate Special(c: char)
  {
    c == '&' || c == '<' || c == '>' || c == '"' || c == '\''
  }

  /** The four characters that may not appear raw in escaped text (`&` may, as the start of a reference). */
  predicate Markup(c: char)
  {
    c == '<' || c == '>' || c == '"' || c == '\''
  }

  predicate NoMarkup(s: string)
  {
    forall i :: 0 <= i < |s| ==> !Markup(s[i])
  }

  /** The replacement of one character. */
  function EscapeChar(c: char): (r: string)
    ensures !Special(c) ==> r == [c]
    ensures |r| >= 1 && NoMarkup(r)
  {
    if c == '&' then "&amp;"
    else if c == '<' then "&lt;"
    else if c == '>' then "&gt;"
    else if c == '"' then "&quot;"
    else if c == '\'' then "&#039;"
    else [c]
  }

  /**
   * `escapeHtml(text)` on a string: every special character replaced, every
   * other character copied. The result contains no raw markup character, and
   * text without special characters comes back as it was.
   */
  function EscapeHtml(s: string): (r: string)
    ensures NoMarkup(r)
    ensures (forall i :: 0 <= i < |s| ==> !Special(s[i])) ==> r == s
    ensures |r| >= |s|
    decreases |s|
  {
    if s == [] then ""
    else
      var rest := EscapeHtml(s[1..]);
      assert forall i :: 0 <= i < |rest| ==> !Markup(rest[i]);
      EscapeChar(s[0]) + rest
  }

  /** Decoding the five references back to their characters; anything else is copied. */
  function Unescape(t: string): string
    decreases |t|
  {
    if t == [] then ""
    else if t[0] != '&' then [t[0]] + Unescape(t[1..])
    else if |t| >= 5 && t[..5] == "&amp;" then "&" + Unescape(t[5..])
    else if |t| >= 4 && t[..4] == "&lt;" then "<" + Unescape(t[4..])
    else if |t| >= 4 && t[..4] == "&gt;" then ">" + Unescape(t[4..])
    else if |t| >= 6 && t[..6] == "&quot;" then "\"" + Unescape(t[6..])
    else if |t| >= 6 && t[..6] == "&#039;" then "'" + Unescape(t[6..])
    else "&" + Unescape(t[1..])
  }

  /** Unescaping a replacement followed by more escaped text. */
  lemma UnescapeHead(c: char, rest: string)
    ensures Unescape(EscapeChar(c) + rest) == [c] + Unescape(rest)
  {
    var e := EscapeChar(c);
    var t := e + rest;
    assert t[..|e|] == e && t[|e|..] == rest;
    if !Special(c) {
      assert t[0] == c && t[1..] == rest;
    } else if c != '&' {
      // the second character of the reference tells it from the ones tried before it
      assert t[0] == '&' && t[1] == e[1];
      assert |t| >= 5 ==> t[..5][1] == t[1];
      assert |t| >= 4 ==> t[..4][1] == t[1];
      assert c == '"' || c == '\'' ==> t[..4][1] == t[1] && t[..6][1] == t[1] && t[..6] == e;
    }
  }

  /** Escaping loses nothing: decoding the references gives back the input. */
  lemma {:induction false} UnescapeEscape(s: string)
    ensures Unescape(EscapeHtml(s)) == s
    decreases |s|
  {
    if s != [] {
      UnescapeHead(s[0], EscapeHtml(s[1..]));
      UnescapeEscape(s[1..]);
      assert [s[0]] + s[1..] == s;
    }
  }

  /** Escaping is not idempotent: a second pass escapes the ampersand of the first. */
  lemma EscapeTwice()
    ensures EscapeHtml("&") == "&amp;"
    ensures EscapeHtml(EscapeHtml("&")) == "&amp;amp;"
    ensures EscapeHtml(EscapeHtml("&")) != EscapeHtml("&")
  {
    assert EscapeHtml("&") == EscapeChar('&') + EscapeHtml("");
    var t := "&amp;";
    assert forall i :: 1 <= i < |t| ==> !Special(t[i]);
    assert t[1..] == "amp;";
    assert EscapeHtml(t) == EscapeChar('&') + EscapeHtml("amp;");
  }

  // ---------------------------------------------------------------------------
  // updateCategoryTitle

  /** The heading text `updateCategoryTitle(category)` writes. */
  function CategoryTitle(category: string): (t: string)
    ensures category == "all" ==> t == "All News"
    ensures category != "all" ==> |t| == |category| + 5 && t[|category|..] == " News"
    ensures category != "all" && category != "" ==> t[0] == ToUpper(category[0]) && t[1..|category|] == category[1..]
  {
    if category == "all" then "All News" else Capitalize(category) + " News"
  }

  /** The heading names a category as the breadcrumb trail does, followed by ` News`. */
  lemma CategoryTitleMatchesBreadcrumb(category: string)
    requires category != "all"
    ensures CategoryTitle(category) == Seo.Breadcrumb(category).crumbs[1].name + " News"
  {
  }

  // ---------------------------------------------------------------------------
  // formatDate

  const Minute: nat := 60000
  const Hour: nat := 3600000
  const Day: nat := 86400000

  /** The relative-time buckets of `formatDate`. */
  datatype Age = MinutesAgo(minutes: nat) | HoursAgo(hours: nat) | Yesterday | DaysAgo(days: nat) | OverAWeek

  function Abs(x: int): nat { if x < 0 then -x else x }

  /** The bucket for a distance of `diff` milliseconds, each count floored. */
  function AgeOf(diff: nat): (a: Age)
    ensures a.MinutesAgo? <==> diff < Hour
    ensures a.MinutesAgo? ==> a.minutes < 60 && a.minutes * Minute <= diff < (a.minutes + 1) * Minute
    ensures a.HoursAgo? <==> Hour <= diff < Day
    ensures a.HoursAgo? ==> 1 <= a.hours < 24 && a.hours * Hour <= diff < (a.hours + 1) * Hour
    ensures a.Yesterday? <==> Day <= diff < 2 * Day
    ensures a.DaysAgo? <==> 2 * Day <= diff < 7 * Day
    ensures a.DaysAgo? ==> 2 <= a.days < 7 && a.days * Day <= diff < (a.days + 1) * Day
    ensures a.OverAWeek? <==> 7 * Day <= diff
  {
    var days := diff / Day;
    if days == 0 then
      var hours := diff / Hour;
      if hours == 0 then MinutesAgo(diff / Minute) else HoursAgo(hours)
    else if days == 1 then Yesterday
    else if days < 7 then DaysAgo(days)
    else OverAWeek
  }

  /** The text of a bucket; `localeDate` is the `toLocaleDateString` text, used past a week. */
  function Render(a: Age, localeDate: string): string
  {
    match a
    case MinutesAgo(m) => NatToString(m) + " minutes ago"
    case HoursAgo(h) => NatToString(h) + " hours ago"
    case Yesterday => "Yesterday"
    case DaysAgo(d) => NatToString(d) + " days ago"
    case OverAWeek => localeDate
  }

  /** The number of leading decimal digits. */
  function DigitRun(t: string): (k: nat)
    ensures k <= |t|
    ensures forall i :: 0 <= i < k ==> IsDigit(t[i])
    ensures k < |t| ==> !IsDigit(t[k])
    decreases |t|
  {
    if t == [] || !IsDigit(t[0]) then 0 else 1 + DigitRun(t[1..])
  }

  /** Reading a relative time back: the count in front and the unit after it. */
  function ReadAge(t: string): Option<Age>
  {
    if t == "Yesterday" then Some(Yesterday)
    else
      var k := DigitRun(t);
      if k == 0 || (k > 1 && t[0] == '0') then None
      else
        var n := DecimalValue(t[..k]);
        if t[k..] == " minutes ago" then Some(MinutesAgo(n))
        else if t[k..] == " hours ago" then Some(HoursAgo(n))
        else if t[k..] == " days ago" then Some(DaysAgo(n))
        else None
  }

  /** Every digit run of a number's text followed by a space ends where the number does. */
  lemma {:induction false} DigitRunOfNumber(digits: string, rest: string)
    requires forall i :: 0 <= i < |digits| ==> IsDigit(digits[i])
    requires rest != [] && rest[0] == ' '
    ensures DigitRun(digits + rest) == |digits|
    decreases |digits|
  {
    if digits == [] {
      assert digits + rest == rest;
    } else {
      assert (digits + rest)[1..] == digits[1..] + rest;
      DigitRunOfNumber(digits[1..], rest);
    }
  }

  /** A count followed by its unit reads back as that count and unit. */
  lemma ReadCount(n: nat, unit: string)
    requires unit != [] && unit[0] == ' '
    ensures var t := NatToString(n) + unit;
      DigitRun(t) == |NatToString(n)| && t[..DigitRun(t)] == NatToString(n) && t[DigitRun(t)..] == unit
      && DecimalValue(t[..DigitRun(t)]) == n && t != "Yesterday"
  {
    var d := NatToString(n);
    DigitRunOfNumber(d, unit);
    NatToStringRoundTrip(n);
    var t := d + unit;
    assert t[..|d|] == d && t[|d|..] == unit;
    assert IsDigit(t[0]);
    assert |d| > 1 ==> t[0] != '0';
  }

  /**
   * A text that reads back as a bucket is that bucket's text: the count is
   * written in plain decimal, with no leading zero.
   */
  lemma ReadAgeExact(t: string, localeDate: string)
    requires ReadAge(t).Some?
    ensures !ReadAge(t).value.OverAWeek? && t == Render(ReadAge(t).value, localeDate)
  {
    if t != "Yesterday" {
      var k := DigitRun(t);
      var d := t[..k];
      assert d[0] == t[0];
      NatToStringOfDecimal(d);
      assert t == d + t[k..];
    }
  }

  /** Every bucket below a week reads back from its text. */
  lemma ReadAgeRender(a: Age, localeDate: string)
    requires !a.OverAWeek?
    ensures ReadAge(Render(a, localeDate)) == Some(a)
  {
    match a
    case MinutesAgo(m) => ReadCount(m, " minutes ago");
    case HoursAgo(h) => ReadCount(h, " hours ago");
    case Yesterday =>
    case DaysAgo(d) => ReadCount(d, " days ago");
  }

  /**
   * `formatDate(dateString)` for a date and a present instant in milliseconds:
   * under a week the text reads back as the bucket of the distance between
   * them (future and past alike), beyond that it is the locale date.
   */
  function FormatDate(date: int, now: int, localeDate: string): (r: string)
    ensures !AgeOf(Abs(now - date)).OverAWeek? ==> ReadAge(r) == Some(AgeOf(Abs(now - date)))
    ensures AgeOf(Abs(now - date)).OverAWeek? ==> r == localeDate
  {
    var a := AgeOf(Abs(now - date));
    if a.OverAWeek? then localeDate
    else
      ReadAgeRender(a, localeDate);
      Render(a, localeDate)
  }

  // ---------------------------------------------------------------------------
  // The page the application draws into

  /** The notices the news container can show in place of cards. */
  datatype Notice = Loading | NoNews | LoadFailed

  /** A child of the news container: an article card, or a notice. */
  datatype Node = Card(article: Article) | Message(notice: Notice)

  datatype Button = Button(disabled: bool, text: string)

  /** The parts of the page the application writes. */
  datatype Dom = Dom(containerClass: string, container: seq<Node>, loadMore: Button, categoryTitle: string)

  const LoadMoreText: string := "Load More News"
  const NoMoreText: string := "No More News"

  /** One card per article, in order. */
  function Cards(s: seq<Article>): (r: seq<Node>)
    ensures |r| == |s| && forall i :: 0 <= i < |s| ==> r[i] == Card(s[i])
  {
    seq(|s|, i requires 0 <= i < |s| => Card(s[i]))
  }

  lemma CardsAppend(a: seq<Article>, b: seq<Article>)
    ensures Cards(a + b) == Cards(a) + Cards(b)
  {
    assert Cards(a + b) == Cards(a) + Cards(b);
  }

  /** The load-more button after a page is displayed. */
  function ButtonFor(page: nat, n: nat): Button
  {
    if page >= GetTotalPages(n) then Button(true, NoMoreText) else Button(false, LoadMoreText)
  }

  /** The button is disabled exactly when every article is already on screen. */
  lemma ButtonDisabledIffAllShown(page: nat, n: nat)
    ensures ButtonFor(page, n).disabled <==> ShownCount(n, page) == n
    ensures ButtonFor(page, n).disabled ==> ButtonFor(page, n).text == NoMoreText
    ensures !ButtonFor(page, n).disabled ==> ButtonFor(page, n).text == LoadMoreText
  {
    var t := GetTotalPages(n);
    if page >= t {
      assert page * ArticlesPerPage >= t * ArticlesPerPage;
    } else {
      assert page * ArticlesPerPage <= (t - 1) * ArticlesPerPage;
    }
  }

  /** `'grid'` selects the grid layout, every other mode the list. */
  function ContainerClassFor(viewMode: string): (c: string)
    ensures c == "news-grid" <==> viewMode == "grid"
    ensures c == "news-grid" || c == "news-list"
  {
    if viewMode == "grid" then "news-grid" else "news-list"
  }

  class NewsApp {
    const fetcher: NewsFetcher
    /** The document head the SEO helpers write into. */
    const head: Seo.Head
    var currentCategory: string
    var currentPage: nat
    var articles: seq<Article>
    var viewMode: string
    var dom: Dom

    predicate Valid()
      reads this, fetcher
    {
      fetcher.Valid() && currentPage >= 1
    }

    /**
     * The container holds exactly the cards of pages 1..currentPage, and the
     * button reflects whether more pages remain.
     */
    predicate Showing()
      reads this
    {
      dom.container == Cards(articles[..ShownCount(|articles|, currentPage)])
      && dom.loadMore == ButtonFor(currentPage, |articles|)
    }

    /**
     * `new NewsApp()` up to its call of `init()`: a fresh fetcher, category
     * `all`, page 1, no articles, grid view. `dom` is the page as it was loaded.
     */
    constructor (env: Env, head: Seo.Head, dom: Dom)
      ensures Valid() && fresh(fetcher)
      ensures fetcher.env == env && fetcher.cache == map[] && fetcher.currentProxyIndex == 0
      ensures this.head == head && this.dom == dom
      ensures currentCategory == "all" && currentPage == 1 && articles == [] && viewMode == "grid"
    {
      fetcher := new NewsFetcher(env);
      this.head := head;
      currentCategory := "all";
      currentPage := 1;
      articles := [];
      viewMode := "grid";
      this.dom := dom;
    }

    /**
     * `displayArticles()`: on page 1 the container is cleared; the cards of the
     * current page are appended one by one; the button is updated.
     */
    method DisplayArticles()
      requires currentPage >= 1
      modifies this`dom
      ensures dom == old(dom).(
        container := (if currentPage == 1 then [] else old(dom.container)) + Cards(GetPaginatedArticles(articles, currentPage)),
        loadMore := ButtonFor(currentPage, |articles|))
    {
      var page := GetPaginatedArticles(articles, currentPage);
      if currentPage == 1 {
        dom := dom.(container := []);
      }
      AppendCards(page);
      var totalPages := GetTotalPages(|articles|);
      if currentPage >= totalPages {
        dom := dom.(loadMore := Button(true, NoMoreText));
      } else {
        dom := dom.(loadMore := Button(false, LoadMoreText));
      }
    }

    /** The `forEach` of `displayArticles`: one card appended per article, in order. */
    method AppendCards(page: seq<Article>)
      modifies this`dom
      ensures dom == old(dom).(container := old(dom.container) + Cards(page))
    {
      var k := 0;
      while k < |page|
        invariant 0 <= k <= |page|
        invariant dom == old(dom).(container := old(dom.container) + Cards(page[..k]))
      {
        assert page[..k + 1] == page[..k] + [page[k]];
        CardsAppend(page[..k], [page[k]]);
        dom := dom.(container := dom.container + [Card(page[k])]);
        k := k + 1;
      }
      assert page[..k] == page;
    }

    /**
     * `loadMoreArticles()`: the next page's cards are appended. When all pages
     * were on screen they stay so, and past the last page nothing is appended.
     */
    method LoadMoreArticles()
      requires currentPage >= 1
      modifies this`currentPage, this`dom
      ensures currentPage == old(currentPage) + 1
      ensures dom == old(dom).(
        container := old(dom.container) + Cards(GetPaginatedArticles(articles, currentPage)),
        loadMore := ButtonFor(currentPage, |articles|))
      ensures old(Showing()) ==> Showing()
      ensures old(currentPage) >= GetTotalPages(|articles|) ==> dom.container == old(dom.container)
    {
      currentPage := currentPage + 1;
      DisplayArticles();
      PagesConcat(articles, currentPage - 1);
      CardsAppend(articles[..ShownCount(|articles|, currentPage - 1)], GetPaginatedArticles(articles, currentPage));
      PageNonEmptyIff(articles, currentPage);
    }

    /** `updateViewMode()`. */
    method UpdateViewMode()
      modifies this`dom
      ensures dom == old(dom).(containerClass := ContainerClassFor(viewMode))
    {
      if viewMode == "grid" {
        dom := dom.(containerClass := "news-grid");
      } else {
        dom := dom.(containerClass := "news-list");
      }
    }

    /** The view toggle's click handler: the chosen mode, then `updateViewMode()`. */
    method SelectView(view: string)
      modifies this`viewMode, this`dom
      ensures viewMode == view
      ensures dom == old(dom).(containerClass := ContainerClassFor(view))
    {
      viewMode := view;
      UpdateViewMode();
    }

    /** `updateCategoryTitle(category)`. */
    method UpdateCategoryTitle(category: string)
      modifies this`dom
      ensures dom == old(dom).(categoryTitle := CategoryTitle(category))
    {
      dom := dom.(categoryTitle := CategoryTitle(category));
    }

    /**
     * `loadNews(category)` with the fetch resolving to `CategoryResult` of the
     * cache as it stood. A rejected fetch keeps the old articles and shows the
     * error notice; an empty list shows the no-news notice; otherwise page 1 is
     * displayed, the first ten articles go into the structured data, the
     * breadcrumb names the category and so does the heading. Either way the
     * category is current and paging restarts at page 1.
     */
    method LoadNews(category: string, now: int, storedAt: int, nowIso: string, net: seq<Response>, from: nat)
      requires Valid()
      modifies this, fetcher, head
      ensures Valid()
      ensures currentCategory == category && currentPage == 1 && viewMode == old(viewMode)
      ensures unchanged(head`meta, head`title, head`canonical)
      ensures var r := CategoryResult(old(fetcher.cache), fetcher.newsFeeds, fetcher.env, category, now, nowIso, net, from);
        && (r.Failure? ==> articles == old(articles) && dom == old(dom).(container := [Message(LoadFailed)]) && head.scripts == old(head.scripts))
        && (r == Success([]) ==> articles == [] && dom == old(dom).(container := [Message(NoNews)]) && head.scripts == old(head.scripts))
        && (r.Success? ==> DateSort.SortedDesc(articles, DateKey(fetcher.env)) && forall a :: a in articles ==> a.category == category)
        && fetcher.cache == (if r.Success? && Lookup(old(fetcher.cache), CacheKey(category), now).None?
                             then old(fetcher.cache)[CacheKey(category) := CacheEntry(r.value, storedAt)] else old(fetcher.cache))
        && (r.Success? && now <= storedAt ==> Lookup(fetcher.cache, CacheKey(category), now) == Some(r.value))
        && fetcher.currentProxyIndex ==
             (if Lookup(old(fetcher.cache), CacheKey(category), now).Some? then old(fetcher.currentProxyIndex)
              else (old(fetcher.currentProxyIndex) + FetchAll(net, from, FeedsFor(fetcher.newsFeeds, category), DefaultRetries).used
                    - |FeedsFor(fetcher.newsFeeds, category)|) % 2)
        && (r.Success? && r.value != [] ==>
          && articles == r.value && Showing()
          && |dom.container| == Min(|articles|, ArticlesPerPage)
          && dom.containerClass == old(dom.containerClass)
          && dom.categoryTitle == CategoryTitle(category)
          && head.scripts == old(head.scripts)
               [Seo.StructuredDataId := Seo.StructuredData(articles[..Min(10, |articles|)])]
               [Seo.BreadcrumbId := Seo.Breadcrumb(category)])
    {
      ghost var r0 := CategoryResult(fetcher.cache, fetcher.newsFeeds, fetcher.env, category, now, nowIso, net, from);
      CategoryResultOk(fetcher.cache, fetcher.newsFeeds, fetcher.env, category, now, nowIso, net, from);
      currentCategory := category;
      currentPage := 1;
      dom := dom.(container := [Message(Loading)]);
      var r, used := fetcher.FetchCategory(category, now, storedAt, nowIso, net, from);
      assert r == r0;
      if r.Failure? {
        dom := dom.(container := [Message(LoadFailed)]);
        return;
      }
      articles := r.value;
      if |articles| == 0 {
        dom := dom.(container := [Message(NoNews)]);
        return;
      }
      DisplayArticles();
      assert articles[..ShownCount(|articles|, 1)] == GetPaginatedArticles(articles, 1);
      Seo.AddStructuredData(head, articles[..Min(10, |articles|)]);
      Seo.AddBreadcrumb(head, category);
      UpdateCategoryTitle(category);
    }

    /** `init()` after its event wiring: the load of category `all`. */
    method Init(now: int, storedAt: int, nowIso: string, net: seq<Response>, from: nat)
      requires Valid()
      modifies this, fetcher, head
      ensures Valid()
      ensures currentCategory == "all" && currentPage == 1 && viewMode == old(viewMode)
      ensures unchanged(head`meta, head`title, head`canonical)
      ensures var r := CategoryResult(old(fetcher.cache), fetcher.newsFeeds, fetcher.env, "all", now, nowIso, net, from);
        && (r.Failure? ==> articles == old(articles) && dom == old(dom).(container := [Message(LoadFailed)]) && head.scripts == old(head.scripts))
        && (r == Success([]) ==> articles == [] && dom == old(dom).(container := [Message(NoNews)]) && head.scripts == old(head.scripts))
        && (r.Success? ==> DateSort.SortedDesc(articles, DateKey(fetcher.env)) && forall a :: a in articles ==> a.category == "all")
        && fetcher.cache == (if r.Success? && Lookup(old(fetcher.cache), CacheKey("all"), now).None?
                             then old(fetcher.cache)[CacheKey("all") := CacheEntry(r.value, storedAt)] else old(fetcher.cache))
        && (r.Success? && now <= storedAt ==> Lookup(fetcher.cache, CacheKey("all"), now) == Some(r.value))
        && fetcher.currentProxyIndex ==
             (if Lookup(old(fetcher.cache), CacheKey("all"), now).Some? then old(fetcher.currentProxyIndex)
              else (old(fetcher.currentProxyIndex) + FetchAll(net, from, FeedsFor(fetcher.newsFeeds, "all"), DefaultRetries).used
                    - |FeedsFor(fetcher.newsFeeds, "all")|) % 2)
        && (r.Success? && r.value != [] ==>
          && articles == r.value && Showing()
          && |dom.container| == Min(|articles|, ArticlesPerPage)
          && dom.containerClass == old(dom.containerClass)
          && dom.categoryTitle == "All News"
          && head.scripts == old(head.scripts)
               [Seo.StructuredDataId := Seo.StructuredData(articles[..Min(10, |articles|)])]
               [Seo.BreadcrumbId := Seo.Breadcrumb("all")])
    {
      LoadNews("all", now, storedAt, nowIso, net, from);
    }

    /**
     * `refreshNews()`: the whole cache is dropped, so the current category is
     * always fetched again, never served from the cache.
     */
    method RefreshNews(now: int, storedAt: int, nowIso: string, net: seq<Response>, from: nat)
      requires Valid()
      modifies this, fetcher, head
      ensures Valid()
      ensures currentCategory == old(currentCategory) && currentPage == 1 && viewMode == old(viewMode)
      ensures unchanged(head`meta, head`title, head`canonical)
      ensures var r := SortMerged(Merge(FetchAll(net, from, FeedsFor(fetcher.newsFeeds, currentCategory), DefaultRetries).results,
                                        currentCategory, fetcher.env, nowIso), fetcher.env);
        && (r.Failure? ==> articles == old(articles) && dom == old(dom).(container := [Message(LoadFailed)])
                           && fetcher.cache == map[] && head.scripts == old(head.scripts))
        && (r == Success([]) ==> articles == [] && dom == old(dom).(container := [Message(NoNews)]) && head.scripts == old(head.scripts))
        && (r.Success? ==> fetcher.cache == map[CacheKey(currentCategory) := CacheEntry(r.value, storedAt)])
        && fetcher.currentProxyIndex == (old(fetcher.currentProxyIndex)
             + FetchAll(net, from, FeedsFor(fetcher.newsFeeds, currentCategory), DefaultRetries).used
             - |FeedsFor(fetcher.newsFeeds, currentCategory)|) % 2
        && (r.Success? && r.value != [] ==>
          && articles == r.value && Showing()
          && |dom.container| == Min(|articles|, ArticlesPerPage)
          && dom.containerClass == old(dom.containerClass)
          && dom.categoryTitle == CategoryTitle(currentCategory)
          && head.scripts == old(head.scripts)
               [Seo.StructuredDataId := Seo.StructuredData(articles[..Min(10, |articles|)])]
               [Seo.BreadcrumbId := Seo.Breadcrumb(currentCategory)])
    {
      ghost var fetched := SortMerged(Merge(FetchAll(net, from, FeedsFor(fetcher.newsFeeds, currentCategory), DefaultRetries).results,
                                            currentCategory, fetcher.env, nowIso), fetcher.env);
      fetcher.cache := map[];
      assert Lookup(fetcher.cache, CacheKey(currentCategory), now).None?;
      assert CategoryResult(fetcher.cache, fetcher.newsFeeds, fetcher.env, currentCategory, now, nowIso, net, from) == fetched;
      LoadNews(currentCategory, now, storedAt, nowIso, net, from);
    }
  }
}
