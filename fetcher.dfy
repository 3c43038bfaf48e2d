/**
 * `NewsFetcher`: proxy rotation with retries, the per-category cache, and the
 * merge-and-sort of the feeds of a category. Every network attempt's outcome
 * is read from an oracle sequence `net` starting at a position; an attempt
 * past its end fails. `Promise.all` over the feeds of a category is modelled
 * as the same fetches one after another, results kept in feed order.
 */
module Fetcher {
  import opened Wrappers
  import opened Articles
  import DateSort

  const CorsProxies: seq<string> := [
    "https://api.rss2json.com/v1/api.json?rss_url=",
    "https://api.allorigins.win/raw?url="
  ]

  const NewsFeeds: map<string, seq<string>> := map[
    "technology" := ["https://techcrunch.com/feed/", "https://www.theverge.com/rss/index.xml", "https://www.wired.com/feed/rss"],
    "business" := ["https://feeds.bloomberg.com/markets/news.rss", "https://www.cnbc.com/id/100003114/device/rss/rss.html"],
    "entertainment" := ["https://variety.com/feed/", "https://www.hollywoodreporter.com/feed/"],
    "sports" := ["https://www.espn.com/espn/rss/news", "http://rss.cnn.com/rss/edition_sport.rss"],
    "health" := ["https://www.medicalnewstoday.com/rss", "https://rss.sciencedaily.com/health.xml"],
    "science" := ["https://www.sciencedaily.com/rss/all.xml", "https://www.scientificamerican.com/feed/"],
    "world" := ["http://feeds.bbci.co.uk/news/world/rss.xml", "http://rss.cnn.com/rss/edition_world.rss"],
    "all" := ["http://rss.cnn.com/rss/edition.rss", "http://feeds.bbci.co.uk/news/rss.xml", "https://rss.nytimes.com/services/xml/rss/nyt/HomePage.xml"]
  ]

  /** Thirty minutes, in milliseconds. */
  const CacheTimeout: int := 1800000

  /** The default `retries = 2` of `fetchFeed`. */
  const DefaultRetries: nat := 2

  const CachePrefix: string := "category_"

  /** `category_${category}`. */
  function CacheKey(category: string): (k: string)
    ensures |k| == |CachePrefix| + |category|
    ensures k[..|CachePrefix|] == CachePrefix && k[|CachePrefix|..] == category
  {
    CachePrefix + category
  }

  /** Distinct categories never share a cache entry. */
  lemma CacheKeyInjective(a: string, b: string)
    requires CacheKey(a) == CacheKey(b)
    ensures a == b
  {
    assert a == CacheKey(a)[|CachePrefix|..];
  }

  /**
   * `this.newsFeeds[category] || this.newsFeeds.all`: an array is truthy even
   * when empty, so the fallback is taken exactly when the category is absent.
   */
  function FeedsFor(feeds: map<string, seq<string>>, category: string): (r: seq<string>)
    requires "all" in feeds
    ensures category in feeds ==> r == feeds[category]
    ensures category !in feeds ==> r == feeds["all"]
  {
    if category in feeds then feeds[category] else feeds["all"]
  }

  /** Every category of the table has two or three feeds; an unknown one gets the three general feeds. */
  lemma TableFeeds(category: string)
    ensures "all" in NewsFeeds
    ensures 2 <= |FeedsFor(NewsFeeds, category)| <= 3
    ensures category !in NewsFeeds ==> |FeedsFor(NewsFeeds, category)| == 3
  {
  }

  /**
   * How one HTTP attempt ends: `Failed` when `fetch` rejects, the status is not
   * ok, or the body is not JSON; otherwise the parsed body, None for JSON `null`.
   */
  datatype Response = Failed | Delivered(body: Option<Envelope>)

  /** The outcome of the attempt at position k of the oracle. */
  function Attempt(net: seq<Response>, k: nat): Response
  {
    if k < |net| then net[k] else Failed
  }

  datatype FeedRun = FeedRun(result: Option<Envelope>, attempts: nat)

  /**
   * What `fetchFeed(url, retries)` returns and how many attempts it makes:
   * it stops at the first delivered attempt, and after retries + 1 failures
   * it gives up with `null`.
   */
  function RunFeed(net: seq<Response>, from: nat, retries: nat): (r: FeedRun)
    ensures 1 <= r.attempts <= retries + 1
    decreases retries
  {
    match Attempt(net, from)
    case Delivered(body) => FeedRun(body, 1)
    case Failed =>
      if retries == 0 then FeedRun(None, 1)
      else
        var rest := RunFeed(net, from + 1, retries - 1);
        FeedRun(rest.result, rest.attempts + 1)
  }

  /**
   * Every attempt before the last one failed; a delivered last attempt gives
   * its body; a failed last attempt means the budget is spent and the result
   * is `null`.
   */
  lemma {:induction false} RunFeedEffect(net: seq<Response>, from: nat, retries: nat)
    ensures var r := RunFeed(net, from, retries);
      && (forall k :: from <= k < from + r.attempts - 1 ==> Attempt(net, k).Failed?)
      && (Attempt(net, from + r.attempts - 1).Delivered? ==> r.result == Attempt(net, from + r.attempts - 1).body)
      && (Attempt(net, from + r.attempts - 1).Failed? ==> r.attempts == retries + 1 && r.result == None)
    decreases retries
  {
    if Attempt(net, from).Failed? && retries > 0 {
      RunFeedEffect(net, from + 1, retries - 1);
    }
  }

  /** `null` comes back only after every allowed attempt failed, or when the body itself was `null`. */
  lemma {:induction false} RunFeedNull(net: seq<Response>, from: nat, retries: nat)
    requires RunFeed(net, from, retries).result.None?
    ensures (forall k :: from <= k <= from + retries ==> Attempt(net, k).Failed?)
         || Attempt(net, from + RunFeed(net, from, retries).attempts - 1) == Delivered(None)
  {
    var r := RunFeed(net, from, retries);
    RunFeedEffect(net, from, retries);
    if Attempt(net, from + r.attempts - 1).Failed? {
      assert r.attempts == retries + 1;
      forall k | from <= k <= from + retries ensures Attempt(net, k).Failed? {
        if k < from + retries { assert k < from + r.attempts - 1; }
      }
    }
  }

  datatype Batch = Batch(results: seq<Option<Envelope>>, used: nat)

  /** The feeds of a category fetched one after another: one result per feed, in feed order. */
  function FetchAll(net: seq<Response>, from: nat, feeds: seq<string>, retries: nat): (b: Batch)
    ensures |b.results| == |feeds|
    ensures |feeds| <= b.used
    decreases |feeds|
  {
    if feeds == [] then Batch([], 0)
    else
      var run := RunFeed(net, from, retries);
      var rest := FetchAll(net, from + run.attempts, feeds[1..], retries);
      Batch([run.result] + rest.results, run.attempts + rest.used)
  }

  /** Each feed makes between one and retries + 1 attempts. */
  lemma {:induction false} FetchAllUsedBound(net: seq<Response>, from: nat, feeds: seq<string>, retries: nat)
    ensures FetchAll(net, from, feeds, retries).used <= |feeds| * (retries + 1)
    decreases |feeds|
  {
    if feeds != [] {
      var run := RunFeed(net, from, retries);
      var rest := FetchAll(net, from + run.attempts, feeds[1..], retries);
      FetchAllUsedBound(net, from + run.attempts, feeds[1..], retries);
      MulSucc(|feeds[1..]|, retries + 1);
      assert FetchAll(net, from, feeds, retries).used == run.attempts + rest.used;
    }
  }


  lemma FetchAllUnfold(net: seq<Response>, from: nat, feeds: seq<string>, retries: nat)
    requires feeds != []
    ensures var run := RunFeed(net, from, retries);
      var rest := FetchAll(net, from + run.attempts, feeds[1..], retries);
      FetchAll(net, from, feeds, retries).results == [run.result] + rest.results
      && FetchAll(net, from, feeds, retries).used == run.attempts + rest.used
  {
  }

  /**
   * Fetching the feeds `a + b` fetches `a`, then `b` from the attempt after
   * the last one `a` used: results and attempt counts add up.
   */
  lemma {:induction false} FetchAllAppend(net: seq<Response>, from: nat, a: seq<string>, b: seq<string>, retries: nat)
    ensures var fa := FetchAll(net, from, a, retries);
      var fb := FetchAll(net, from + fa.used, b, retries);
      FetchAll(net, from, a + b, retries).results == fa.results + fb.results
      && FetchAll(net, from, a + b, retries).used == fa.used + fb.used
    decreases |a|
  {
    if a == [] {
      assert a + b == b;
    } else {
      var ab := a + b;
      assert ab[1..] == a[1..] + b;
      var run := RunFeed(net, from, retries);
      FetchAllUnfold(net, from, ab, retries);
      FetchAllUnfold(net, from, a, retries);
      FetchAllAppend(net, from + run.attempts, a[1..], b, retries);
      var k := run.attempts;
      var p := FetchAll(net, from + k, a[1..], retries);
      var q := FetchAll(net, from + k + p.used, b, retries);
      var rest := FetchAll(net, from + k, ab[1..], retries);
      assert rest == FetchAll(net, from + k, a[1..] + b, retries);
      assert rest.results == p.results + q.results && rest.used == p.used + q.used;
      var fa := FetchAll(net, from, a, retries);
      assert fa.results == [run.result] + p.results && fa.used == k + p.used;
      assert FetchAll(net, from + fa.used, b, retries) == q;
      ConsConcat(run.result, p.results, q.results);
    }
  }

  lemma ConsConcat<T>(x: T, p: seq<T>, q: seq<T>)
    ensures [x] + (p + q) == [x] + p + q
  {
  }

  /**
   * One result per feed, in feed order: the result for feed i is that feed's
   * own run, started at the attempt after those of feeds 0..i-1.
   */
  lemma {:induction false} FetchAllAt(net: seq<Response>, from: nat, feeds: seq<string>, retries: nat, i: nat)
    requires i < |feeds|
    ensures FetchAll(net, from, feeds, retries).results[i]
         == RunFeed(net, from + FetchAll(net, from, feeds[..i], retries).used, retries).result
    decreases i
  {
    FetchAllUnfold(net, from, feeds, retries);
    if i == 0 {
      var none: seq<string> := [];
      assert feeds[..0] == none;
      assert FetchAll(net, from, none, retries).used == 0;
    } else {
      var k := RunFeed(net, from, retries).attempts;
      var rest := FetchAll(net, from + k, feeds[1..], retries);
      assert FetchAll(net, from, feeds, retries).results[i] == rest.results[i - 1];
      FetchAllAt(net, from + k, feeds[1..], retries, i - 1);
      var t := feeds[1..][..i - 1];
      assert feeds[..i][1..] == t;
      FetchAllUnfold(net, from, feeds[..i], retries);
      assert FetchAll(net, from, feeds[..i], retries).used == k + FetchAll(net, from + k, t, retries).used;
      var start := from + k + FetchAll(net, from + k, t, retries).used;
      assert start == from + FetchAll(net, from, feeds[..i], retries).used;
      assert rest.results[i - 1] == RunFeed(net, start, retries).result;
    }
  }

  lemma MulSucc(n: nat, m: nat)
    ensures (n + 1) * m == n * m + m
  {
  }

  /** `if (result.items)`: a non-null result whose `items` is present. */
  predicate Contributes(res: Option<Envelope>)
  {
    res.Some? && res.value.items.Some?
  }

  /** Every contributing result parses without `btoa` throwing. */
  predicate MergeEncodable(results: seq<Option<Envelope>>)
  {
    forall i :: 0 <= i < |results| && Contributes(results[i]) ==> LinksEncodable(results[i].value.items.value)
  }

  /** `parseArticles(result.items, category, result.feed)` when `result && result.items`; nothing otherwise. */
  function Contribution(res: Option<Envelope>, category: string, env: Env, nowIso: string): Result<seq<Article>, Error>
  {
    if Contributes(res) then ParseArticles(res.value.items.value, category, res.value.feedTitle, env, nowIso)
    else Success([])
  }

  /** Concatenation of two merge outcomes; either failure wins. */
  function Combine(x: Result<seq<Article>, Error>, y: Result<seq<Article>, Error>): (r: Result<seq<Article>, Error>)
    ensures r.Success? <==> x.Success? && y.Success?
    ensures r.Success? ==> r.value == x.value + y.value
  {
    match x
    case Failure(e) => Failure(e)
    case Success(p) =>
      match y
      case Failure(e) => Failure(e)
      case Success(q) => Success(p + q)
  }

  /**
   * `validResults.forEach(result => allArticles = allArticles.concat(parseArticles(...)))`:
   * the parses of the contributing results, concatenated in order; a throwing
   * parse makes the whole fetch reject. MergeOutcome states what it yields.
   */
  function Merge(results: seq<Option<Envelope>>, category: string, env: Env, nowIso: string)
    : Result<seq<Article>, Error>
    decreases |results|
  {
    if results == [] then Success([])
    else Combine(Merge(results[..|results| - 1], category, env, nowIso), Contribution(results[|results| - 1], category, env, nowIso))
  }

  /**
   * The merge fails exactly when some contributing feed has a link `btoa`
   * rejects; otherwise every article is well formed and carries the requested
   * category, whichever feed list was used.
   */
  lemma {:induction false} MergeOutcome(results: seq<Option<Envelope>>, category: string, env: Env, nowIso: string)
    ensures Merge(results, category, env, nowIso).Success? <==> MergeEncodable(results)
    ensures Merge(results, category, env, nowIso).Success? ==>
      forall a :: a in Merge(results, category, env, nowIso).value ==> WellFormed(a) && a.category == category
    decreases |results|
  {
    if results != [] {
      var init, last := results[..|results| - 1], results[|results| - 1];
      assert forall i :: 0 <= i < |init| ==> init[i] == results[i];
      MergeOutcome(init, category, env, nowIso);
      if Contributes(last) {
        var p := ParseArticles(last.value.items.value, category, last.value.feedTitle, env, nowIso);
        if p.Success? {
          ParsedArticlesWellFormed(last.value.items.value, category, last.value.feedTitle, env, nowIso);
        }
      }
    }
  }

  lemma CombineAssoc(x: Result<seq<Article>, Error>, y: Result<seq<Article>, Error>, z: Result<seq<Article>, Error>)
    ensures Combine(Combine(x, y), z) == Combine(x, Combine(y, z))
  {
    if x.Success? && y.Success? && z.Success? {
      assert x.value + y.value + z.value == x.value + (y.value + z.value);
    }
  }

  /** A single result contributes its own parse, or nothing. */
  lemma MergeSingle(res: Option<Envelope>, category: string, env: Env, nowIso: string)
    ensures Merge([res], category, env, nowIso) == Contribution(res, category, env, nowIso)
  {
    assert [res][..0] == [];
    var p := Contribution(res, category, env, nowIso);
    assert p.Success? ==> [] + p.value == p.value;
  }

  /** The merge works result by result, in order: the articles of earlier feeds come first. */
  lemma {:induction false} MergeAppend(a: seq<Option<Envelope>>, b: seq<Option<Envelope>>, category: string, env: Env, nowIso: string)
    ensures Merge(a + b, category, env, nowIso) == Combine(Merge(a, category, env, nowIso), Merge(b, category, env, nowIso))
    decreases |b|
  {
    var ma := Merge(a, category, env, nowIso);
    if b == [] {
      assert a + b == a;
      assert ma.Success? ==> ma.value + [] == ma.value;
    } else {
      var b', last := b[..|b| - 1], b[|b| - 1];
      assert (a + b)[..|a + b| - 1] == a + b';
      assert (a + b)[|a + b| - 1] == last;
      MergeAppend(a, b', category, env, nowIso);
      CombineAssoc(ma, Merge(b', category, env, nowIso), Contribution(last, category, env, nowIso));
    }
  }

  /** `null` results and results without `items` contribute nothing. */
  lemma MergeSkipsEmpty(results: seq<Option<Envelope>>, res: Option<Envelope>, category: string, env: Env, nowIso: string)
    requires !Contributes(res)
    ensures Merge(results + [res], category, env, nowIso) == Merge(results, category, env, nowIso)
  {
    assert (results + [res])[..|results|] == results;
    var m := Merge(results, category, env, nowIso);
    assert m.Success? ==> m.value + [] == m.value;
  }

  /** The `forEach`/`concat` loop of `fetchCategory`; it stops at the first parse that throws. */
  method MergeResults(results: seq<Option<Envelope>>, category: string, env: Env, nowIso: string)
    returns (r: Result<seq<Article>, Error>)
    ensures r == Merge(results, category, env, nowIso)
  {
    var merged: seq<Article> := [];
    var j := 0;
    while j < |results|
      invariant 0 <= j <= |results|
      invariant Merge(results[..j], category, env, nowIso) == Success(merged)
    {
      assert results[..j + 1][..j] == results[..j];
      var res := results[j];
      if Contributes(res) {
        var parsed := ParseArticles(res.value.items.value, category, res.value.feedTitle, env, nowIso);
        if parsed.Failure? {
          MergeAppend(results[..j + 1], results[j + 1..], category, env, nowIso);
          assert results[..j + 1] + results[j + 1..] == results;
          return Failure(InvalidCharacter);
        }
        merged := merged + parsed.value;
      } else {
        assert merged + [] == merged;
      }
      j := j + 1;
    }
    assert results[..j] == results;
    r := Success(merged);
  }

  /** The sort key: `new Date(a.pubDate)` in milliseconds. */
  function DateKey(env: Env): Article -> int
  {
    (a: Article) => env.parseDate(a.pubDate)
  }

  datatype CacheEntry = CacheEntry(data: seq<Article>, timestamp: int)

  /** `cache.has(key) && Date.now() - cached.timestamp < cacheTimeout`, giving `cached.data`. */
  function Lookup(cache: map<string, CacheEntry>, key: string, now: int): (r: Option<seq<Article>>)
    ensures r.Some? <==> key in cache && now - cache[key].timestamp < CacheTimeout
    ensures r.Some? ==> r.value == cache[key].data
  {
    if key in cache && now - cache[key].timestamp < CacheTimeout then Some(cache[key].data) else None
  }

  /** An entry stored at time t is served until thirty minutes have passed, and not after. */
  lemma LookupAfterStore(cache: map<string, CacheEntry>, key: string, data: seq<Article>, t: int, now: int)
    ensures now < t + CacheTimeout ==> Lookup(cache[key := CacheEntry(data, t)], key, now) == Some(data)
    ensures now >= t + CacheTimeout ==> Lookup(cache[key := CacheEntry(data, t)], key, now) == None
  {
  }

  /** Storing one entry leaves every other key's lookup as it was. */
  lemma StoreKeepsOthers(cache: map<string, CacheEntry>, key: string, other: string, e: CacheEntry, now: int)
    requires other != key
    ensures Lookup(cache[key := e], other, now) == Lookup(cache, other, now)
  {
  }

  /** What the cache holds under `key`: sorted, well-formed articles of the category the key names. */
  predicate EntryOk(key: string, e: CacheEntry, env: Env)
  {
    |key| >= |CachePrefix| && key[..|CachePrefix|] == CachePrefix
    && DateSort.SortedDesc(e.data, DateKey(env))
    && forall a :: a in e.data ==> WellFormed(a) && a.category == key[|CachePrefix|..]
  }

  predicate CacheConsistent(cache: map<string, CacheEntry>, env: Env)
  {
    forall k :: k in cache ==> EntryOk(k, cache[k], env)
  }

  /** `allArticles.sort(...)` after a merge that did not throw. */
  function SortMerged(m: Result<seq<Article>, Error>, env: Env): (r: Result<seq<Article>, Error>)
    ensures r.Success? <==> m.Success?
    ensures r.Success? ==> DateSort.SortedDesc(r.value, DateKey(env)) && multiset(r.value) == multiset(m.value)
  {
    match m
    case Failure(e) => Failure(e)
    case Success(all) => Success(DateSort.SortDesc(all, DateKey(env)))
  }

  /** A successful fetch of a category gives an entry the cache invariant accepts for its key. */
  lemma {:induction false} FetchedEntryOk(results: seq<Option<Envelope>>, category: string, env: Env, nowIso: string, now: int)
    requires SortMerged(Merge(results, category, env, nowIso), env).Success?
    ensures EntryOk(CacheKey(category), CacheEntry(SortMerged(Merge(results, category, env, nowIso), env).value, now), env)
  {
    MergeOutcome(results, category, env, nowIso);
    var m := Merge(results, category, env, nowIso);
    var sorted := SortMerged(m, env).value;
    forall a | a in sorted ensures WellFormed(a) && a.category == category {
      assert a in multiset(sorted);
      assert a in multiset(m.value);
    }
    assert CacheKey(category)[|CachePrefix|..] == category;
  }

  lemma StoreConsistent(cache: map<string, CacheEntry>, key: string, e: CacheEntry, env: Env)
    requires CacheConsistent(cache, env) && EntryOk(key, e, env)
    ensures CacheConsistent(cache[key := e], env)
  {
  }

  lemma ModTwoShift(x: nat, a: nat)
    ensures ((x % 2) + a) % 2 == (x + a) % 2
  {
  }

  /** The URLs of the attempts, when the first uses proxy i0 and the rest start from the next proxy. */
  predicate RoundRobin(requests: seq<string>, i0: nat, suffix: string)
  {
    forall k :: 0 <= k < |requests| ==> requests[k] == CorsProxies[(i0 + k) % 2] + suffix
  }

  lemma RoundRobinCons(i0: nat, suffix: string, rest: seq<string>)
    requires i0 < 2
    requires RoundRobin(rest, (i0 + 1) % 2, suffix)
    ensures RoundRobin([CorsProxies[i0] + suffix] + rest, i0, suffix)
  {
    var requests := [CorsProxies[i0] + suffix] + rest;
    forall k | 1 <= k < |requests| ensures requests[k] == CorsProxies[(i0 + k) % 2] + suffix {
      assert requests[k] == rest[k - 1];
      ModTwoShift(i0 + 1, k - 1);
    }
  }

  /**
   * What `fetchCategory(category)` resolves to, given the cache it starts from:
   * the fresh entry, or else the sorted merge of the category's feeds fetched
   * from attempt `from` on.
   */
  function CategoryResult(cache: map<string, CacheEntry>, feeds: map<string, seq<string>>, env: Env,
                          category: string, now: int, nowIso: string, net: seq<Response>, from: nat): Result<seq<Article>, Error>
    requires "all" in feeds
  {
    match Lookup(cache, CacheKey(category), now)
    case Some(data) => Success(data)
    case None => SortMerged(Merge(FetchAll(net, from, FeedsFor(feeds, category), DefaultRetries).results, category, env, nowIso), env)
  }

  /**
   * Whether served from the cache or fetched, a category's articles come newest
   * first, are well-formed, and all belong to the category asked for.
   */
  lemma CategoryResultOk(cache: map<string, CacheEntry>, feeds: map<string, seq<string>>, env: Env,
                         category: string, now: int, nowIso: string, net: seq<Response>, from: nat)
    requires "all" in feeds && CacheConsistent(cache, env)
    ensures var r := CategoryResult(cache, feeds, env, category, now, nowIso, net, from);
      r.Success? ==> DateSort.SortedDesc(r.value, DateKey(env)) && forall a :: a in r.value ==> WellFormed(a) && a.category == category
  {
    var key := CacheKey(category);
    assert key[|CachePrefix|..] == category;
    if Lookup(cache, key, now).None? {
      var results := FetchAll(net, from, FeedsFor(feeds, category), DefaultRetries).results;
      if SortMerged(Merge(results, category, env, nowIso), env).Success? {
        FetchedEntryOk(results, category, env, nowIso, now);
      }
    }
  }

  class NewsFetcher {
    /** The browser services calls are made through. */
    const env: Env
    /** The feed table, category to feed URLs. */
    const newsFeeds: map<string, seq<string>>
    var currentProxyIndex: nat
    var cache: map<string, CacheEntry>

    /** The proxy index names a proxy. */
    predicate ProxyValid()
      reads this
    {
      currentProxyIndex < |CorsProxies|
    }

    /** ProxyValid, and every cache entry satisfies the cache invariant. */
    predicate Valid()
      reads this
    {
      ProxyValid() && "all" in newsFeeds && CacheConsistent(cache, env)
    }

    constructor (env: Env)
      ensures Valid()
      ensures this.env == env && newsFeeds == NewsFeeds && currentProxyIndex == 0 && cache == map[]
    {
      this.env := env;
      newsFeeds := NewsFeeds;
      currentProxyIndex := 0;
      cache := map[];
    }

    /** `getCorsProxy()`. */
    function GetCorsProxy(): (p: string)
      reads this
      requires ProxyValid()
      ensures p in CorsProxies && p == CorsProxies[currentProxyIndex]
    {
      CorsProxies[currentProxyIndex]
    }

    /** `switchProxy()`: the next proxy, round-robin. */
    method SwitchProxy()
      requires ProxyValid()
      modifies this`currentProxyIndex
      ensures ProxyValid()
      ensures currentProxyIndex == (old(currentProxyIndex) + 1) % |CorsProxies|
      ensures currentProxyIndex != old(currentProxyIndex)
    {
      currentProxyIndex := (currentProxyIndex + 1) % |CorsProxies|;
    }

    /**
     * `fetchFeed(feedUrl, retries)`. `requests` lists the URLs of the attempts
     * in order; every failure with budget left switches the proxy once.
     */
    method FetchFeed(feedUrl: string, retries: nat, net: seq<Response>, from: nat)
      returns (result: Option<Envelope>, requests: seq<string>)
      requires ProxyValid()
      modifies this`currentProxyIndex
      ensures ProxyValid()
      ensures result == RunFeed(net, from, retries).result
      ensures |requests| == RunFeed(net, from, retries).attempts
      ensures RoundRobin(requests, old(currentProxyIndex), env.encodeUri(feedUrl))
      ensures currentProxyIndex == (old(currentProxyIndex) + |requests| - 1) % 2
      decreases retries
    {
      var request := GetCorsProxy() + env.encodeUri(feedUrl);
      ghost var i0 := currentProxyIndex;
      match Attempt(net, from)
      case Delivered(body) =>
        result, requests := body, [request];
      case Failed =>
        if retries > 0 {
          SwitchProxy();
          var rest;
          result, rest := FetchFeed(feedUrl, retries - 1, net, from + 1);
          requests := [request] + rest;
          RoundRobinCons(i0, env.encodeUri(feedUrl), rest);
          ModTwoShift(i0 + 1, |rest| - 1);
        } else {
          result, requests := None, [request];
        }
    }

    /**
     * `fetchCategory(category)`. A fresh cache entry is returned as stored and
     * nothing is fetched (`used` is the number of network attempts). Otherwise
     * the feeds of the category (or of `all`) are fetched, merged, sorted by
     * date, newest first, and stored under the category's key. The clock is read
     * twice: `now` for the freshness test, `storedAt` for the stored timestamp,
     * read after the fetches complete.
     */
    method FetchCategory(category: string, now: int, storedAt: int, nowIso: string, net: seq<Response>, from: nat)
      returns (r: Result<seq<Article>, Error>, used: nat)
      requires Valid()
      modifies this
      ensures Valid()
      ensures Lookup(old(cache), CacheKey(category), now).Some? ==>
        && r == Success(Lookup(old(cache), CacheKey(category), now).value)
        && used == 0 && cache == old(cache) && currentProxyIndex == old(currentProxyIndex)
      ensures Lookup(old(cache), CacheKey(category), now).None? ==>
        && used == FetchAll(net, from, FeedsFor(newsFeeds, category), DefaultRetries).used
        && currentProxyIndex == (old(currentProxyIndex) + used - |FeedsFor(newsFeeds, category)|) % 2
        && r == SortMerged(Merge(FetchAll(net, from, FeedsFor(newsFeeds, category), DefaultRetries).results, category, env, nowIso), env)
        && cache == if r.Success? then old(cache)[CacheKey(category) := CacheEntry(r.value, storedAt)] else old(cache)
    {
      var hit := Lookup(cache, CacheKey(category), now);
      if hit.Some? {
        return Success(hit.value), 0;
      }
      r, used := Refresh(category, FeedsFor(newsFeeds, category), storedAt, nowIso, net, from);
    }

    /** The cache-miss path of `fetchCategory`: fetch the feeds, merge, sort, store. */
    method Refresh(category: string, feeds: seq<string>, storedAt: int, nowIso: string, net: seq<Response>, from: nat)
      returns (r: Result<seq<Article>, Error>, used: nat)
      requires Valid()
      modifies this
      ensures Valid()
      ensures used == FetchAll(net, from, feeds, DefaultRetries).used
      ensures currentProxyIndex == (old(currentProxyIndex) + used - |feeds|) % 2
      ensures r == SortMerged(Merge(FetchAll(net, from, feeds, DefaultRetries).results, category, env, nowIso), env)
      ensures cache == if r.Success? then old(cache)[CacheKey(category) := CacheEntry(r.value, storedAt)] else old(cache)
    {
      var results;
      results, used := FetchFeeds(feeds, net, from);
      var merged := MergeResults(results, category, env, nowIso);
      r := SortMerged(merged, env);
      if r.Success? {
        FetchedEntryOk(results, category, env, nowIso, storedAt);
        Store(CacheKey(category), CacheEntry(r.value, storedAt));
      }
    }

    /** `this.cache.set(key, entry)`. */
    method Store(key: string, e: CacheEntry)
      requires Valid() && EntryOk(key, e, env)
      modifies this`cache
      ensures Valid()
      ensures cache == old(cache)[key := e]
    {
      StoreConsistent(cache, key, e, env);
      cache := cache[key := e];
    }

    /** `Promise.all(feeds.map(feed => this.fetchFeed(feed)))`, the feeds fetched one after another. */
    method FetchFeeds(feeds: seq<string>, net: seq<Response>, from: nat)
      returns (results: seq<Option<Envelope>>, used: nat)
      requires ProxyValid()
      modifies this`currentProxyIndex
      ensures ProxyValid()
      ensures results == FetchAll(net, from, feeds, DefaultRetries).results
      ensures used == FetchAll(net, from, feeds, DefaultRetries).used
      ensures currentProxyIndex == (old(currentProxyIndex) + used - |feeds|) % 2
      decreases |feeds|
    {
      if feeds == [] {
        return [], 0;
      }
      ghost var i0 := currentProxyIndex;
      var res, requests := FetchFeed(feeds[0], DefaultRetries, net, from);
      ghost var i1 := currentProxyIndex;
      var rest, restUsed := FetchFeeds(feeds[1..], net, from + |requests|);
      ModTwoShift(i0 + |requests| - 1, restUsed - |feeds[1..]|);
      results, used := [res] + rest, |requests| + restUsed;
    }
  }

  /** With two retries, three failures in a row bring the proxy index back to where it started. */
  lemma TotalFailureKeepsIndex(net: seq<Response>, from: nat, i0: nat)
    requires i0 < 2
    requires Attempt(net, from).Failed? && Attempt(net, from + 1).Failed? && Attempt(net, from + 2).Failed?
    ensures RunFeed(net, from, DefaultRetries) == FeedRun(None, 3)
    ensures (i0 + RunFeed(net, from, DefaultRetries).attempts - 1) % 2 == i0
  {
    assert RunFeed(net, from + 2, 0) == FeedRun(None, 1);
    assert RunFeed(net, from + 1, 1) == FeedRun(None, 2);
  }
}
