/**
 * The pattern `/<img[^>]+src="([^"]+)"/i` that `extractImage` runs over an
 * item's markup, with the leftmost-start, greedy semantics of JavaScript's
 * `String.prototype.match`: the first position where a match starts wins, and
 * there the greedy `[^>]+` makes the last `src="` of the tag win.
 */
module ImageSearch {
  import opened Wrappers
  import opened Text

  /** `<img`, letters compared without case, at position p. */
  predicate OpensImg(s: string, p: nat)
  {
    p + 4 <= |s| && s[p] == '<' && ToLower(s[p + 1]) == 'i' && ToLower(s[p + 2]) == 'm' && ToLower(s[p + 3]) == 'g'
  }

  /** `src="`, letters compared without case, at position q. */
  predicate SrcAt(s: string, q: nat)
  {
    q + 5 <= |s| && ToLower(s[q]) == 's' && ToLower(s[q + 1]) == 'r' && ToLower(s[q + 2]) == 'c'
    && s[q + 3] == '=' && s[q + 4] == '"'
  }

  /** The first index at or after `from` that holds `c`, or |s| when there is none. */
  function NextIndexOf(s: string, c: char, from: nat): (e: nat)
    requires from <= |s|
    ensures from <= e <= |s|
    ensures e < |s| ==> s[e] == c
    ensures forall k :: from <= k < e ==> s[k] != c
    decreases |s| - from
  {
    if from == |s| || s[from] == c then from else NextIndexOf(s, c, from + 1)
  }

  /** `src="` at q, then `([^"]+)"`: at least one non-quote character and a closing quote. */
  predicate QuotedValueAt(s: string, q: nat)
  {
    SrcAt(s, q) && q + 5 < NextIndexOf(s, '"', q + 5) < |s|
  }

  /** The whole pattern matches with `<img` at p and `src="` at q. */
  predicate MatchAt(s: string, p: nat, q: nat)
  {
    OpensImg(s, p) && p + 5 <= q <= |s|
    && (forall k :: p + 4 <= k < q ==> s[k] != '>')
    && QuotedValueAt(s, q)
  }

  /** Capture group 1 of a match whose `src="` is at q. */
  function Capture(s: string, q: nat): (v: string)
    requires QuotedValueAt(s, q)
    ensures |v| > 0 && '"' !in v
  {
    s[q + 5..NextIndexOf(s, '"', q + 5)]
  }

  /** The largest q' <= q at which the pattern matches from p. */
  function LastSrcFrom(s: string, p: nat, q: nat): (r: Option<nat>)
    requires OpensImg(s, p) && p + 4 <= q <= NextIndexOf(s, '>', p + 4)
    ensures r.Some? ==> r.value <= q && MatchAt(s, p, r.value)
    ensures r.Some? ==> forall q': nat :: q' <= q && MatchAt(s, p, q') ==> q' <= r.value
    ensures r.None? ==> forall q': nat :: q' <= q ==> !MatchAt(s, p, q')
    decreases q
  {
    if q < p + 5 then None
    else if QuotedValueAt(s, q) then Some(q)
    else LastSrcFrom(s, p, q - 1)
  }

  /** The greedy match starting at p, if the pattern matches there at all. */
  function LongestAt(s: string, p: nat): (r: Option<nat>)
    ensures r.Some? ==> MatchAt(s, p, r.value) && forall q: nat :: MatchAt(s, p, q) ==> q <= r.value
    ensures r.None? ==> forall q: nat :: !MatchAt(s, p, q)
  {
    if !OpensImg(s, p) then None
    else
      var g := NextIndexOf(s, '>', p + 4);
      LastSrcFrom(s, p, g)
  }

  /** The leftmost match starting at or after p, as (start, position of `src="`). */
  function FindFrom(s: string, p: nat): (r: Option<(nat, nat)>)
    ensures r.Some? ==> p <= r.value.0 && MatchAt(s, r.value.0, r.value.1)
    ensures r.Some? ==> forall q: nat :: MatchAt(s, r.value.0, q) ==> q <= r.value.1
    ensures r.Some? ==> forall p': nat, q: nat :: p <= p' < r.value.0 ==> !MatchAt(s, p', q)
    ensures r.None? ==> forall p': nat, q: nat :: p <= p' ==> !MatchAt(s, p', q)
    decreases |s| - p
  {
    if p >= |s| then None
    else match LongestAt(s, p)
      case Some(q) => Some((p, q))
      case None => FindFrom(s, p + 1)
  }

  /**
   * `content.match(/<img[^>]+src="([^"]+)"/i)?.[1]`: the value of the first
   * match, or None when the pattern does not match anywhere.
   */
  function FirstImgSrc(s: string): (r: Option<string>)
    ensures r.None? <==> forall p: nat, q: nat :: !MatchAt(s, p, q)
    ensures r.Some? ==> exists p: nat, q: nat :: MatchAt(s, p, q) && r.value == Capture(s, q)
    ensures r.Some? ==> |r.value| > 0
  {
    match FindFrom(s, 0)
    case None => None
    case Some((p, q)) => Some(Capture(s, q))
  }

  /** The value comes from the earliest `<img` that matches, and from its last `src="`. */
  lemma FirstImgSrcIsLeftmostGreedy(s: string, p: nat, q: nat)
    requires MatchAt(s, p, q)
    requires forall p': nat, q': nat :: p' < p ==> !MatchAt(s, p', q')
    requires forall q': nat :: MatchAt(s, p, q') ==> q' <= q
    ensures FirstImgSrc(s) == Some(Capture(s, q))
  {
    var r := FindFrom(s, 0);
    assert r.Some?;
    assert r.value.0 == p;
  }
}
