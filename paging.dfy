/**
 * The paging arithmetic of `NewsFetcher`: twelve articles per page, pages
 * numbered from 1.
 */
module Paging {
  import opened Text

  const ArticlesPerPage: nat := 12

  /** The number of articles shown once pages 1..page are on screen. */
  function ShownCount(n: nat, page: nat): (k: nat)
    ensures k <= n && k <= page * ArticlesPerPage
    ensures k == n || k == page * ArticlesPerPage
  {
    Min(n, page * ArticlesPerPage)
  }

  /**
   * `getPaginatedArticles(articles, page)`: `articles.slice(start, start + 12)`
   * with `start = (page - 1) * 12`; `slice` clamps both ends to the length.
   */
  function GetPaginatedArticles<T>(articles: seq<T>, page: nat): (r: seq<T>)
    requires page >= 1
    ensures |r| <= ArticlesPerPage
    ensures (page - 1) * ArticlesPerPage >= |articles| ==> r == []
    ensures (page - 1) * ArticlesPerPage < |articles| ==>
      |r| == ShownCount(|articles|, page) - (page - 1) * ArticlesPerPage
    ensures forall i :: 0 <= i < |r| ==> r[i] == articles[(page - 1) * ArticlesPerPage + i]
  {
    var start := (page - 1) * ArticlesPerPage;
    var end := start + ArticlesPerPage;
    if start >= |articles| then []
    else if end >= |articles| then articles[start..]
    else articles[start..end]
  }

  /** `getTotalPages(articles)`: `Math.ceil(n / 12)`. */
  function GetTotalPages(n: nat): (r: nat)
    ensures n <= r * ArticlesPerPage
    ensures r == 0 || (r - 1) * ArticlesPerPage < n
  {
    (n + ArticlesPerPage - 1) / ArticlesPerPage
  }

  /** No articles make no pages; twenty-five make three. */
  lemma TotalPagesExamples()
    ensures GetTotalPages(0) == 0
    ensures GetTotalPages(24) == 2 && GetTotalPages(25) == 3
  {
  }

  /** A page is non-empty exactly when its number is at most the page count. */
  lemma {:induction false} PageNonEmptyIff<T>(articles: seq<T>, page: nat)
    requires page >= 1
    ensures |GetPaginatedArticles(articles, page)| > 0 <==> page <= GetTotalPages(|articles|)
  {
    var n, t := |articles|, GetTotalPages(|articles|);
    if page <= t {
      assert (page - 1) * ArticlesPerPage <= (t - 1) * ArticlesPerPage;
    } else {
      assert t * ArticlesPerPage <= (page - 1) * ArticlesPerPage;
    }
  }

  /** The pages 1..page, shown one after another, are a prefix of the list. */
  lemma {:induction false} PagesConcat<T>(articles: seq<T>, page: nat)
    ensures articles[..ShownCount(|articles|, page)] + GetPaginatedArticles(articles, page + 1)
         == articles[..ShownCount(|articles|, page + 1)]
  {
    var n := |articles|;
    var a, b := ShownCount(n, page), ShownCount(n, page + 1);
    var p := GetPaginatedArticles(articles, page + 1);
    assert page * ArticlesPerPage + ArticlesPerPage == (page + 1) * ArticlesPerPage;
    if page * ArticlesPerPage >= n {
      assert a == n && b == n && p == [];
    } else {
      assert a == page * ArticlesPerPage;
      assert |p| == b - a;
      assert articles[..b] == articles[..a] + articles[a..b];
      assert p == articles[a..b];
    }
  }
}
