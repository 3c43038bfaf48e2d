# Auto News Aggregator: a Dafny model of its core

The project models the browser-side news aggregator, which has three parts.

- **`NewsFetcher`**:
  - fetches RSS feeds through two CORS proxies, switching proxy round-robin and retrying each feed twice;
  - caches each category's articles for thirty minutes, falling back to the `all` feed list for unknown categories;
  - merges the feeds in order and sorts the result newest first with a stable sort;
  - normalises each feed item into an article: field defaults, a 200-character description, a base64 id of the link and the image resolution rules;
  - extracts up to ten keywords;
  - slices the list into pages of twelve.
- **`NewsApp`** keeps the current category, page and articles. It draws cards into the news container page by page, drives the load-more button, and provides `escapeHtml`, the category heading and the relative-time text of `formatDate`.
- **`SEOOptimizer`** writes meta tags, the canonical link and two JSON-LD records into the document head.

One module per concern:

| module | content |
|---|---|
| `Wrappers` | `Option`, `Result` |
| `Text` | ASCII case, `Math.min`, join, prefix, first-occurrence replace, decimal text |
| `Base64` | the base64 encoding of section 4 of RFC 4648 with its decoder |
| `Keywords` | `extractKeywords` |
| `ImageSearch` | the `<img … src="…">` pattern |
| `Articles` | the article record, `parseArticles`, `generateId`, `extractImage`, `extractDomain` |
| `DateSort` | the stable date sort |
| `Paging` | page slicing and counting |
| `Fetcher` | the `NewsFetcher` class |
| `Seo` | the head as an object of maps |
| `App` | the `NewsApp` class and its helpers |

Inputs that the code reads but the model does not interpret are parameters:
- `net` is a sequence of attempt outcomes, read from position `from`; an attempt past its end fails.
- `now` and `nowIso` stand for `Date.now()` and `new Date().toISOString()`.
- `storedAt` is the second `Date.now()` of `fetchCategory`: it is read after the fetches complete and is the timestamp the cache entry gets.
- `Env` holds `sanitizeText`, the URL hostname, date parsing and `encodeURIComponent`.
- `localeDate` is the `toLocaleDateString` text.

Where the documented behaviour and the code disagree, the model follows the code:
- **Image.** An item with a `media:thumbnail` that has no `url` gets an undefined image (`None`), not a placeholder.
- **Title.** A missing title gives the empty string.
- **Failed fetches are cached.** When every feed fails, the empty result is cached like any other. `loadNews` then shows the no-news notice, and keeps showing it for thirty minutes without refetching.
- **No generation counter.** Nothing tags fetches, so a newer request does not discard an older one.

## Model

| member | source | states |
|---|---|---|
| Text.LowerString | js/news-fetcher.js:201 | same length, every character lower-cased (ASCII) |
| Text.LowerStringAppend | js/news-fetcher.js:201 | lower-casing works character by character over a concatenation |
| Text.Capitalize | js/app.js:195 | same length; the first character is its upper-case form (ASCII) and the rest is unchanged; a string not starting with a lower-case letter is unchanged |
| Text.Join | js/seo-optimizer.js:20 | an empty list joins to `""`, one part joins to itself, and the result starts with the first part |
| Text.JoinSnoc | js/seo-optimizer.js:20 | joining one more part appends the separator and that part, so every list is determined |
| Text.Prefix | js/news-fetcher.js:145 | `substring(0, n)`: a prefix of length `min(n, |s|)` |
| Text.ReplaceFirstRemovesLeftmost | js/news-fetcher.js:185 | `replace('www.', '')` removes exactly the leftmost occurrence, wherever it is |
| Text.ReplaceFirstAbsent | js/news-fetcher.js:185 | with no occurrence the host is returned unchanged |
| Text.NatToStringRoundTrip | js/app.js:230 | the decimal text of a count reads back as the count |
| Text.NatToStringOfDecimal | js/app.js:230-236 | decimal text without a leading zero is the template-literal text of its own value |
| Base64.SymbolValueOfSymbol | js/news-fetcher.js:160 | the 64-symbol alphabet is read back symbol by symbol |
| Base64.EncodeLength | js/news-fetcher.js:160 | `btoa` of n characters has 4·⌈n/3⌉ characters |
| Base64.DecodeEncode | js/news-fetcher.js:160 | decoding the encoding of a Latin-1 string gives the string back |
| Base64.EncodeAppend | js/news-fetcher.js:160 | a prefix whose length is a multiple of three encodes independently of what follows |
| Base64.EncodePrefixBlocks | js/news-fetcher.js:160 | the first 4k symbols of an encoding are the encoding of the first 3k characters |
| Keywords.StripPunctuation | js/news-fetcher.js:202 | every kept character is a word or space character of the text; every such character of the text is kept |
| Keywords.StripPunctuationChar | js/news-fetcher.js:202 | one character is kept exactly when it is a word or space character |
| Keywords.StripPunctuationAppend | js/news-fetcher.js:202 | the strip of a concatenation is the concatenation of the strips, so order and multiplicity are kept |
| Keywords.Words | js/news-fetcher.js:203 | `split(/\s+/)` without empty pieces: every word is non-empty and has no space |
| Keywords.WordsOfWord | js/news-fetcher.js:203 | a non-empty run of non-space characters is one word |
| Keywords.WordsSplit | js/news-fetcher.js:203 | a white-space character splits the text: the words before it, then the words after it |
| Keywords.WordsCharsIn | js/news-fetcher.js:203 | every word is made of characters of the text |
| Keywords.FilterWords | js/news-fetcher.js:204 | every kept word is longer than three characters, not a stop word, and from the input; every such input word is kept |
| Keywords.FilterWordsSingle | js/news-fetcher.js:204 | one word is kept exactly when it passes the filter |
| Keywords.FilterWordsAppend | js/news-fetcher.js:204 | the filter of a concatenation is the concatenation of the filters, so the kept words stay in order |
| Keywords.Dedup | js/news-fetcher.js:207 | `[...new Set(words)]`: pairwise distinct, same members |
| Keywords.DedupFirstOccurrenceOrder | js/news-fetcher.js:207 | the distinct words come in order of first occurrence |
| Keywords.TokensShape | js/news-fetcher.js:201-204 | every token is a kept, lower-case word of word characters |
| Keywords.TokensSplit | js/news-fetcher.js:201-204 | the tokens of a text with a white-space character in it are the tokens before it, then the tokens after it |
| Keywords.TokensOfWord | js/news-fetcher.js:201-204 | a lower-case word that passes the filter is the one token of its text |
| Keywords.ExtractKeywords | js/news-fetcher.js:199-208 | at most ten, pairwise distinct, a prefix of the distinct tokens, of length `min(10, distinct count)` |
| Keywords.KeywordsShape | js/news-fetcher.js:200-204 | every keyword is longer than three characters, not a stop word, lower-case word characters, and a token of the text |
| Keywords.KeywordsOrderAndCompleteness | js/news-fetcher.js:206-207 | keywords come in first-occurrence order; with fewer than ten, every token is a keyword |
| ImageSearch.FirstImgSrc | js/news-fetcher.js:173 | `None` exactly when the pattern matches nowhere; otherwise a non-empty capture of some match |
| ImageSearch.FirstImgSrcIsLeftmostGreedy | js/news-fetcher.js:173 | the capture is that of the leftmost `<img` that matches, at its last `src="` |
| Articles.OrElse | js/news-fetcher.js:139-152 | `o || d`: the value when it is a non-empty string, else the default |
| Articles.GenerateId | js/news-fetcher.js:159-161 | succeeds exactly for Latin-1 links; a prefix of the link's base64 of length `min(16, 4·⌈n/3⌉)` |
| Articles.IdIsEncodingOfFirst12 | js/news-fetcher.js:160 | for links of twelve or more characters the id is the encoding of the first twelve |
| Articles.IdDeterminedByFirst12 | js/news-fetcher.js:160 | two links that agree on their first twelve characters get the same id |
| Articles.IdOfShortLink | js/news-fetcher.js:160 | a link of fewer than twelve characters gets its whole encoding as id |
| Articles.IdDecodesToLinkPrefix | js/news-fetcher.js:160 | decoding an id gives back the first twelve characters of the link |
| Articles.ExtractDomain | js/news-fetcher.js:182-189 | `News Source` when the URL does not parse; otherwise the host with its leftmost `www.` removed, wherever it is, and the host itself when it has none |
| Articles.StripWww | js/news-fetcher.js:184 | removing the first `www.` deletes exactly the leftmost occurrence and leaves a host without one unchanged |
| Articles.ExtractImage | js/news-fetcher.js:164-179 | thumbnail, then enclosure link, then the media thumbnail's url (even if undefined), then the first image of the markup, then the placeholder |
| Articles.NormaliseItem | js/news-fetcher.js:138-155 | every field of the article from its item with the `||` defaults; fails exactly when `btoa` of the link throws |
| Articles.ParseArticles | js/news-fetcher.js:137-156 | one article per item, in order; fails exactly when some link is not Latin-1 |
| Articles.ParsedArticlesWellFormed | js/news-fetcher.js:137-156 | parsed articles are well-formed (200-character prefix description, non-empty author, keywords of title and full description) and carry the category |
| DateSort.InsertSorted | js/news-fetcher.js:125 | inserting into a newest-first list keeps it newest first |
| DateSort.SortDesc | js/news-fetcher.js:125 | newest first, same length, a permutation of the input |
| DateSort.SortDescStable | js/news-fetcher.js:125 | articles with equal dates keep their input order |
| DateSort.SortDescOfSorted | js/news-fetcher.js:125 | an already sorted list is left as it is |
| Paging.GetPaginatedArticles | js/news-fetcher.js:211-215 | at most twelve, element i is article `(page-1)·12 + i`, empty past the end, clamped at the end |
| Paging.GetTotalPages | js/news-fetcher.js:218-220 | `⌈n/12⌉`: the least page count covering n articles |
| Paging.TotalPagesExamples | js/news-fetcher.js:218-220 | 0 articles make 0 pages, 24 make 2, 25 make 3 |
| Paging.PageNonEmptyIff | js/news-fetcher.js:211-220 | a page is non-empty exactly when its number is at most the page count |
| Paging.PagesConcat | js/news-fetcher.js:211-215 | pages 1..p followed by page p+1 are the first `min(n, 12(p+1))` articles |
| Fetcher.CacheKey | js/news-fetcher.js:99 | `category_` followed by the category |
| Fetcher.CacheKeyInjective | js/news-fetcher.js:99 | different categories have different cache keys |
| Fetcher.FeedsFor | js/news-fetcher.js:110 | the category's own list when it has one (even an empty one), else the `all` list |
| Fetcher.TableFeeds | js/news-fetcher.js:17-52 | the table has `all`; every category has two or three feeds, an unknown one three |
| Fetcher.RunFeed | js/news-fetcher.js:72-95 | between 1 and retries+1 attempts |
| Fetcher.RunFeedEffect | js/news-fetcher.js:72-95 | every attempt before the last failed; the last one's body if it delivered; `null` after retries+1 failures |
| Fetcher.RunFeedNull | js/news-fetcher.js:72-95 | a `null` result means every attempt failed or the proxy delivered `null` |
| Fetcher.TotalFailureKeepsIndex | js/news-fetcher.js:72-95 | three failures with the default budget give `null` after three attempts and leave the proxy index where it started |
| Fetcher.FetchAll | js/news-fetcher.js:111-112 | one result per feed, at least one attempt per feed |
| Fetcher.FetchAllAt | js/news-fetcher.js:111-112 | result i is feed i's own run, started at the attempt after those of feeds 0..i-1 |
| Fetcher.FetchAllAppend | js/news-fetcher.js:111-112 | fetching `a + b` fetches `a`, then `b` from the next attempt: results and attempt counts add up |
| Fetcher.FetchAllUsedBound | js/news-fetcher.js:111-112 | at most retries+1 attempts per feed |
| Fetcher.Combine | js/news-fetcher.js:120 | `concat`: succeeds when both parts do, joining them in order |
| Fetcher.CombineAssoc | js/news-fetcher.js:120 | concatenating in steps does not depend on grouping |
| Fetcher.MergeOutcome | js/news-fetcher.js:114-122 | the merge fails exactly when a contributing feed has a non-Latin-1 link; merged articles are well-formed and of the category |
| Fetcher.MergeSingle | js/news-fetcher.js:117-121 | one result contributes its parsed items |
| Fetcher.MergeAppend | js/news-fetcher.js:116-122 | the merge of two result lists is the concatenation of their merges |
| Fetcher.MergeSkipsEmpty | js/news-fetcher.js:114-118 | a `null` result or one without `items` contributes nothing |
| Fetcher.MergeResults | js/news-fetcher.js:114-122 | the `filter`/`forEach`/`concat` loop computes the merge |
| Fetcher.Lookup | js/news-fetcher.js:102-107 | a hit exactly when the key is present and younger than thirty minutes, giving the stored data |
| Fetcher.LookupAfterStore | js/news-fetcher.js:104 | an entry stored at t is served before t + 30 min and not from then on |
| Fetcher.StoreKeepsOthers | js/news-fetcher.js:128-131 | storing one key leaves every other key's lookup unchanged |
| Fetcher.SortMerged | js/news-fetcher.js:125 | sorting keeps success or failure; the sorted list is newest first and a permutation |
| Fetcher.FetchedEntryOk | js/news-fetcher.js:110-131 | a fetched entry is sorted, well-formed and of the category its key names |
| Fetcher.StoreConsistent | js/news-fetcher.js:128-131 | storing such an entry keeps the cache invariant |
| Fetcher.CategoryResultOk | js/news-fetcher.js:98-134 | from the cache or fetched, a category's articles are newest first, well-formed and of that category |
| Fetcher.NewsFetcher.constructor | js/news-fetcher.js:7-59 | proxy index 0, empty cache, the feed table |
| Fetcher.NewsFetcher.GetCorsProxy | js/news-fetcher.js:62-64 | the proxy the index names |
| Fetcher.NewsFetcher.SwitchProxy | js/news-fetcher.js:67-69 | the index moves to the next proxy mod 2 and stays in range |
| Fetcher.NewsFetcher.FetchFeed | js/news-fetcher.js:72-95 | the result of `RunFeed`; the requests go round-robin over the proxies from the current one; the index ends `attempts − 1` steps on |
| Fetcher.NewsFetcher.FetchFeeds | js/news-fetcher.js:111-112 | the results and attempts of `FetchAll`; the index advances once per retry |
| Fetcher.NewsFetcher.FetchCategory | js/news-fetcher.js:98-134 | a hit returns the stored data with no attempt and no state change; a miss fetches the category's (or `all`'s) feeds, returns their sorted merge and stores it under the key with the timestamp read after the fetches |
| Fetcher.NewsFetcher.Refresh | js/news-fetcher.js:110-133 | the miss path in terms of the feed list; a rejected merge leaves the cache untouched |
| Fetcher.NewsFetcher.Store | js/news-fetcher.js:128-131 | `cache.set` replaces that one key and keeps the cache invariant |
| Seo.UpsertEffect | js/seo-optimizer.js:42-52 | falsy content changes nothing; otherwise the `(attr, name)` tag holds the content and no other tag changes |
| Seo.UpdateMeta | js/seo-optimizer.js:42-52 | the head's tags become the upsert of the old ones |
| Seo.ApplyAllOverlays | js/seo-optimizer.js:14-39 | running a list of updates lays the tags they write over the old tags |
| Seo.ApplyAllIdempotent | js/seo-optimizer.js:14-39 | running the same updates twice gives the tags of one run |
| Seo.ApplyAllAt | js/seo-optimizer.js:42-52 | with distinct targets each update's tag ends with its content, or as it was when the content is falsy |
| Seo.MetaUpdates | js/seo-optimizer.js:19-38 | fourteen updates in source order |
| Seo.MetaUpdatesDistinct | js/seo-optimizer.js:19-38 | the fourteen updates target fourteen different tags |
| Seo.PageTitle | js/seo-optimizer.js:16 | the article title, then a space, a vertical bar and a space, then the site name `Auto News Aggregator` |
| Seo.MetaTagsOfArticle | js/seo-optimizer.js:23-38 | afterwards `og:type` is `article` and `twitter:card` is `summary_large_image`, whatever was there; non-empty title and section are written |
| Seo.StaleTagsSurvive | js/seo-optimizer.js:20-25 | an article without keywords, or without an image, leaves the previous keywords, or image, tag in place |
| Seo.UpdateMetaTags | js/seo-optimizer.js:14-39 | the title is set and the tags are the fourteen updates run in order on the old tags |
| Seo.CanonicalHref | js/seo-optimizer.js:114 | `url || siteUrl`: never empty |
| Seo.UpdateCanonical | js/seo-optimizer.js:107-115 | the single canonical link points at that target |
| Seo.NewsItemOf | js/seo-optimizer.js:62-82 | headline, description, image, date, author, `@id` and joined keywords from the article; the site as publisher |
| Seo.StructuredData | js/seo-optimizer.js:56-84 | one entry per article; entry i has position i+1 and the record of article i |
| Seo.StructuredDataPrefix | js/app.js:80 | the list for the first ten articles is the first ten entries of the full list |
| Seo.StructuredDataPositionsDistinct | js/seo-optimizer.js:61 | positions strictly increase, so no two entries share one |
| Seo.AddStructuredData | js/seo-optimizer.js:55-94 | the `structured-data` slot holds the new list and every other script is kept |
| Seo.Breadcrumb | js/seo-optimizer.js:119-136 | two crumbs: Home at the site, then the capitalised category at `siteUrl#category` |
| Seo.BreadcrumbCategory | js/seo-optimizer.js:133 | the category is recovered from the second crumb's URL |
| Seo.AddBreadcrumb | js/seo-optimizer.js:118-146 | the `breadcrumb-data` slot holds the new trail and every other script is kept |
| Seo.BothScriptsKept | js/seo-optimizer.js:86-93 | the two slots have different ids, so writing both keeps both |
| Seo.SitemapData | js/seo-optimizer.js:97-104 | one entry per article at its link, daily, priority 0.8 |
| Seo.SitemapAppend | js/seo-optimizer.js:97-104 | the sitemap of two lists is the two sitemaps one after the other |
| App.EscapeChar | js/app.js:247-253 | characters other than the five are copied; the replacement is never empty and has no raw markup (with UnescapeEscape, each of the five is replaced by a reference that reads back as it) |
| App.EscapeHtml | js/app.js:246-255 | no raw `<`, `>`, `"` or `'` in the result; text without special characters is unchanged |
| App.UnescapeEscape | js/app.js:246-254 | decoding the five references gives back the input |
| App.EscapeTwice | js/app.js:247-254 | escaping twice turns `&` into `&amp;amp;`, unlike once |
| App.CategoryTitle | js/app.js:191-197 | `all` gives `All News`; any other category gives itself with its first character upper-cased, followed by ` News` |
| App.CategoryTitleMatchesBreadcrumb | js/app.js:194-195 | the heading names a category as the breadcrumb does |
| App.AgeOf | js/app.js:223-237 | minutes under an hour, hours under a day, `Yesterday` for one day, days from two to six, otherwise past a week; each count floored and in its bucket's range |
| App.ReadAgeRender | js/app.js:226-237 | each text under a week reads back as its bucket and count |
| App.ReadAgeExact | js/app.js:230-236 | a text that reads back as a bucket is exactly that bucket's text, its count in plain decimal with no leading zero |
| App.FormatDate | js/app.js:220-244 | under a week the text reads back as the bucket of the distance, future or past alike, so by ReadAgeExact it is `<count> minutes ago`, `<count> hours ago`, `Yesterday` or `<count> days ago` with the count in plain decimal; beyond a week it is the locale date |
| App.ButtonDisabledIffAllShown | js/app.js:104-114 | the button is disabled, reading `No More News`, exactly when every article is on screen |
| App.ContainerClassFor | js/app.js:182-189 | `grid` gives `news-grid`, everything else `news-list` |
| App.NewsApp.constructor | js/app.js:7-16 | a fresh fetcher, category `all`, page 1, no articles, grid view |
| App.NewsApp.AppendCards | js/app.js:98-101 | one card appended per article of the page, in order |
| App.NewsApp.DisplayArticles | js/app.js:90-114 | clears on page 1, then appends the current page's cards and sets the button from the page count |
| App.NewsApp.LoadMoreArticles | js/app.js:168-170 | the page grows by one and that page's cards are appended; a screen showing pages 1..p then shows 1..p+1; past the last page nothing is appended |
| App.NewsApp.UpdateViewMode | js/app.js:182-189 | the container's class follows the view mode |
| App.NewsApp.SelectView | js/app.js:46-49 | the chosen mode, then the container's class |
| App.NewsApp.UpdateCategoryTitle | js/app.js:191-197 | the heading becomes the category's title |
| App.NewsApp.LoadNews | js/app.js:64-88 | page 1 of the category; failure keeps the articles and shows the error; an empty list shows no-news without SEO; otherwise the first `min(n, 12)` cards exactly, the first ten articles as structured data, the breadcrumb and the heading; the cache gains the fetched entry on a miss, and the proxy index stays on a hit and moves with the extra attempts on a miss |
| App.NewsApp.Init | js/app.js:18-27 | the load of category `all`: screen, head, cache and proxy index as for LoadNews, with heading `All News` |
| App.NewsApp.RefreshNews | js/app.js:213-218 | the cache is emptied, so the current category is always fetched again; afterwards the cache holds that category alone and the proxy index moves with the extra attempts; the head, view mode and screen change as for LoadNews |

## Left out

- Network: `fetch`, `response.ok` and `response.json()` are an oracle of attempt outcomes. The `timeout` option is not a real `fetch` option and is not modelled.
- Concurrency: `Promise.all` runs the feeds one after another in feed order. The feeds of one category actually share the proxy index while in flight; the model threads it through them in order. Overlapping `loadNews` calls are not modelled.
- `sanitizeText`, `new URL(…).hostname`, `new Date(…)` and `encodeURIComponent` are uninterpreted functions of `Env`. `Date.now()`, `toISOString`, and locale date and time formatting are parameters. Unparseable dates (a `NaN` comparator in the sort) are not modelled.
- Base64.Encode: the value for a string with characters above U+00FF is not meaningful; `generateId` fails before using it, as `btoa` throws.
- `toUpperCase`, `toLowerCase` and `\w` are ASCII only here; Unicode case mapping and UTF-16 code units are not modelled.
- `getPaginatedArticles` requires `page >= 1`; the negative-index `slice` behaviour for smaller pages is not modelled.
- Feed table lookups by inherited object keys (such as `constructor`) are not modelled; `FeedsFor` uses the table's own keys.
- `createArticleCard` and its HTML template (including `escapeHtml` applied to `String(undefined)`) are not modelled; a card is the article it shows.
- Event wiring (`setupEventListeners`), `setInterval`, the `setTimeout` scroll and `lazyLoadImages`, `updateLastUpdateTime`, `console` logging and the `window` exports are not modelled.
- `JSON.stringify` is not modelled: a script slot holds its record. The `type` attribute of the script elements and the unused `defaultImage` are left out.
- The `lastmod` field of `generateSitemapData` is not modelled; it depends on date formatting.
- Missing DOM elements (`loadMoreBtn`, the title element) are not modelled; the model assumes they exist.
