/**
 * `NewsFetcher.extractKeywords`: lower-case the text, drop every character that
 * is neither a word character nor white space, split on white space, keep the
 * tokens longer than three characters that are not stop words, remove
 * duplicates keeping the first occurrence, and keep at most ten.
 */
module Keywords {
  import opened Text

  const StopWords: seq<string> := ["the", "is", "at", "which", "on", "a", "an", "and", "or", "but", "in", "with", "to"]
  const MaxKeywords: nat := 10

  predicate NoSpace(w: string) { forall j :: 0 <= j < |w| ==> !IsSpace(w[j]) }

  predicate Distinct(ws: seq<string>)
  {
    forall i, j :: 0 <= i < j < |ws| ==> ws[i] != ws[j]
  }

  /** `.replace(/[^\w\s]/g, '')`: the characters kept, in order. */
  function StripPunctuation(s: string): (r: string)
    ensures |r| <= |s|
    ensures forall i :: 0 <= i < |r| ==> (IsWordChar(r[i]) || IsSpace(r[i])) && r[i] in s
    ensures forall i :: 0 <= i < |s| && (IsWordChar(s[i]) || IsSpace(s[i])) ==> s[i] in r
  {
    if s == [] then []
    else
      var rest := StripPunctuation(s[1..]);
      assert forall i :: 0 <= i < |s[1..]| ==> s[1..][i] == s[i + 1];
      if IsWordChar(s[0]) || IsSpace(s[0]) then [s[0]] + rest else rest
  }

  /** A single character is kept exactly when it is a word or space character. */
  lemma StripPunctuationChar(c: char)
    ensures StripPunctuation([c]) == if IsWordChar(c) || IsSpace(c) then [c] else []
  {
    assert [c][1..] == [];
  }

  /**
   * Stripping works character by character: the text is stripped piecewise.
   * With `StripPunctuationChar` this fixes the result, order and multiplicity included.
   */
  lemma {:induction false} StripPunctuationAppend(a: string, b: string)
    ensures StripPunctuation(a + b) == StripPunctuation(a) + StripPunctuation(b)
  {
    if a == [] {
      assert a + b == b;
    } else {
      assert (a + b)[0] == a[0] && (a + b)[1..] == a[1..] + b;
      StripPunctuationAppend(a[1..], b);
    }
  }

  /** The leading run of white space removed. */
  function SkipSpaces(s: string): (r: string)
    ensures |r| <= |s| && r == s[|s| - |r|..]
    ensures r == [] || !IsSpace(r[0])
  {
    if s != [] && IsSpace(s[0]) then SkipSpaces(s[1..]) else s
  }

  /** The leading run of non-space characters. */
  function TakeWord(s: string): (w: string)
    ensures |w| <= |s| && w == s[..|w|] && NoSpace(w)
    ensures |w| < |s| ==> IsSpace(s[|w|])
    ensures s != [] && !IsSpace(s[0]) ==> |w| > 0
  {
    if s == [] || IsSpace(s[0]) then [] else [s[0]] + TakeWord(s[1..])
  }

  /** `.split(/\s+/)` with the empty tokens left out (the length filter removes them anyway). */
  function Words(s: string): (ws: seq<string>)
    ensures forall w :: w in ws ==> |w| > 0 && NoSpace(w)
    decreases |s|
  {
    var t := SkipSpaces(s);
    if t == [] then []
    else
      var w := TakeWord(t);
      [w] + Words(t[|w|..])
  }

  /** A run of non-space characters reaching to a space or to the end is taken whole. */
  lemma {:induction false} TakeWordAppend(a: string, x: string)
    requires |TakeWord(a)| < |a| || x == [] || IsSpace(x[0])
    ensures TakeWord(a + x) == TakeWord(a)
  {
    if a == [] {
      assert a + x == x;
    } else if !IsSpace(a[0]) {
      assert (a + x)[0] == a[0] && (a + x)[1..] == a[1..] + x;
      TakeWordAppend(a[1..], x);
    } else {
      assert (a + x)[0] == a[0];
    }
  }

  /** A leading space is skipped. */
  lemma WordsSpaceCons(c: char, x: string)
    requires IsSpace(c)
    ensures Words([c] + x) == Words(x)
  {
    assert ([c] + x)[1..] == x;
    assert SkipSpaces([c] + x) == SkipSpaces(x);
  }

  /** A string without white space is its own leading word. */
  lemma {:induction false} TakeWordAll(w: string)
    requires NoSpace(w)
    ensures TakeWord(w) == w
  {
    if w != [] {
      assert NoSpace(w[1..]) by {
        forall j | 0 <= j < |w[1..]| ensures !IsSpace(w[1..][j]) { assert w[1..][j] == w[j + 1]; }
      }
      TakeWordAll(w[1..]);
    }
  }

  /** Words of a text that starts with a non-space character: its leading word, then the rest. */
  lemma WordsUnfold(s: string)
    requires s != [] && !IsSpace(s[0])
    ensures Words(s) == [TakeWord(s)] + Words(s[|TakeWord(s)|..])
  {
    assert SkipSpaces(s) == s;
  }

  /** A non-empty run of non-space characters is one word. */
  lemma WordsOfWord(w: string)
    requires |w| > 0 && NoSpace(w)
    ensures Words(w) == [w]
  {
    TakeWordAll(w);
    WordsUnfold(w);
    assert w[|w|..] == [];
  }

  /**
   * Splitting at a white-space character: the words of `a`, then those of `b`.
   * With `WordsOfWord` and `Words("") == []` this fixes the result, order and
   * multiplicity included.
   */
  lemma {:induction false} WordsSplit(a: string, c: char, b: string)
    requires IsSpace(c)
    ensures Words(a + [c] + b) == Words(a) + Words(b)
    decreases |a|, 2
  {
    if a == [] {
      assert a + [c] + b == [c] + b;
      WordsSpaceCons(c, b);
    } else if IsSpace(a[0]) {
      assert a + [c] + b == [a[0]] + (a[1..] + [c] + b);
      assert a == [a[0]] + a[1..];
      WordsSpaceCons(a[0], a[1..] + [c] + b);
      WordsSpaceCons(a[0], a[1..]);
      WordsSplit(a[1..], c, b);
    } else {
      WordsSplitAtWord(a, c, b);
    }
  }

  lemma DropConcat(a: string, x: string, k: nat)
    requires k <= |a|
    ensures (a + x)[k..] == a[k..] + x
  {
  }

  lemma ConsAssoc(a: string, c: char, b: string)
    ensures a + ([c] + b) == a + [c] + b
  {
  }

  lemma ConsConcatAssoc(w: string, x: seq<string>, y: seq<string>)
    ensures [w] + (x + y) == [w] + x + y
  {
  }

  /** The case of `WordsSplit` where `a` starts with a word. */
  lemma {:induction false} WordsSplitAtWord(a: string, c: char, b: string)
    requires IsSpace(c) && a != [] && !IsSpace(a[0])
    ensures Words(a + [c] + b) == Words(a) + Words(b)
    decreases |a|, 1
  {
    var cb := [c] + b;
    var s := a + cb;
    ConsAssoc(a, c, b);
    var w := TakeWord(a);
    TakeWordAppend(a, cb);
    assert s[0] == a[0];
    WordsUnfold(s);
    WordsUnfold(a);
    var u := a[|w|..];
    DropConcat(a, cb, |w|);
    WordsRest(u, c, b);
    ConsConcatAssoc(w, Words(u), Words(b));
  }

  /** What remains after the leading word: `Words(u + [c] + b) == Words(u) + Words(b)`. */
  lemma {:induction false} WordsRest(u: string, c: char, b: string)
    requires IsSpace(c)
    ensures Words(u + ([c] + b)) == Words(u) + Words(b)
    decreases |u|, 3
  {
    ConsAssoc(u, c, b);
    if u == [] {
      assert u + ([c] + b) == [c] + b;
      WordsSpaceCons(c, b);
    } else {
      WordsSplit(u, c, b);
    }
  }

  /** Every word is made of characters of the text it was split from. */
  lemma {:induction false} WordsCharsIn(s: string)
    ensures forall w :: w in Words(s) ==> CharsIn(w, s)
    decreases |s|
  {
    var t := SkipSpaces(s);
    if t != [] {
      var w := TakeWord(t);
      var u := t[|w|..];
      WordsCharsIn(u);
      var a, b := |s| - |t|, |s| - |t| + |w|;
      SliceCharsIn(s, a, b);
      SliceCharsIn(s, b, |s|);
      assert s[b..] == u;
      assert s[a..b] == w;
      forall v | v in Words(u) ensures CharsIn(v, s) {
        CharsInTrans(v, u, s);
      }
      assert Words(s) == [w] + Words(u);
    }
  }

  predicate CharsIn(w: string, s: string) { forall c :: c in w ==> c in s }

  lemma SliceCharsIn(s: string, a: nat, b: nat)
    requires a <= b <= |s|
    ensures CharsIn(s[a..b], s)
  {
    forall c | c in s[a..b] ensures c in s {
      var k :| 0 <= k < b - a && s[a..b][k] == c;
      assert s[a + k] == c;
    }
  }

  lemma CharsInTrans(v: string, u: string, s: string)
    requires CharsIn(v, u) && CharsIn(u, s)
    ensures CharsIn(v, s)
  {
  }

  predicate Keep(w: string) { |w| > 3 && w !in StopWords }

  /** `.filter(word => word.length > 3 && !stopWords.includes(word))`. */
  function FilterWords(ws: seq<string>): (r: seq<string>)
    ensures forall i :: 0 <= i < |r| ==> Keep(r[i]) && r[i] in ws
    ensures forall w :: w in ws && Keep(w) ==> w in r
  {
    if ws == [] then []
    else
      var rest := FilterWords(ws[1..]);
      if Keep(ws[0]) then [ws[0]] + rest else rest
  }

  /** A single word is kept exactly when it passes the filter. */
  lemma FilterWordsSingle(w: string)
    ensures FilterWords([w]) == if Keep(w) then [w] else []
  {
    assert [w][1..] == [];
  }

  /**
   * The filter works word by word: it keeps the passing words in their order.
   * With `FilterWordsSingle` this fixes the result, order and multiplicity included.
   */
  lemma {:induction false} FilterWordsAppend(a: seq<string>, b: seq<string>)
    ensures FilterWords(a + b) == FilterWords(a) + FilterWords(b)
  {
    if a == [] {
      assert a + b == b;
    } else {
      assert (a + b)[0] == a[0] && (a + b)[1..] == a[1..] + b;
      FilterWordsAppend(a[1..], b);
    }
  }

  /** The position of the first occurrence of `w`. */
  function FirstIndex(ws: seq<string>, w: string): (k: nat)
    requires w in ws
    ensures k < |ws| && ws[k] == w
    ensures forall j :: 0 <= j < k ==> ws[j] != w
  {
    if ws[0] == w then 0 else 1 + FirstIndex(ws[1..], w)
  }

  /** `[...new Set(ws)]`: the distinct elements in the order of their first occurrence. */
  function Dedup(ws: seq<string>): (r: seq<string>)
    ensures Distinct(r)
    ensures forall w :: w in r <==> w in ws
    decreases |ws|
  {
    if ws == [] then []
    else
      var d := Dedup(ws[..|ws| - 1]);
      var x := ws[|ws| - 1];
      assert ws == ws[..|ws| - 1] + [x];
      if x in d then d else d + [x]
  }

  lemma FirstIndexExtend(p: seq<string>, x: string, y: string)
    requires y in p
    ensures FirstIndex(p + [x], y) == FirstIndex(p, y)
  {
    var k, k' := FirstIndex(p, y), FirstIndex(p + [x], y);
    assert (p + [x])[k] == p[k];
    assert k' < |p| ==> (p + [x])[k'] == p[k'];
  }

  /** Dedup lists the distinct elements in the order in which they first occur. */
  lemma {:induction false} DedupFirstOccurrenceOrder(ws: seq<string>)
    ensures forall i, j :: 0 <= i < j < |Dedup(ws)| ==>
      FirstIndex(ws, Dedup(ws)[i]) < FirstIndex(ws, Dedup(ws)[j])
    decreases |ws|
  {
    if ws != [] {
      var p, x := ws[..|ws| - 1], ws[|ws| - 1];
      assert ws == p + [x];
      DedupFirstOccurrenceOrder(p);
      var d, r := Dedup(p), Dedup(ws);
      forall y | y in p ensures FirstIndex(ws, y) == FirstIndex(p, y) {
        FirstIndexExtend(p, x, y);
      }
      if x !in d {
        assert r == d + [x];
        assert FirstIndex(ws, x) == |p|;
        forall i, j | 0 <= i < j < |r|
          ensures FirstIndex(ws, r[i]) < FirstIndex(ws, r[j])
        {
          assert r[i] == d[i] && r[i] in p;
          if j < |d| { assert r[j] == d[j]; }
        }
      }
    }
  }

  /** The token stream the keywords are drawn from. */
  function Tokens(text: string): seq<string>
  {
    FilterWords(Words(StripPunctuation(LowerString(text))))
  }

  predicate IsLowerWord(w: string)
  {
    forall j :: 0 <= j < |w| ==> IsWordChar(w[j]) && !IsAsciiUpper(w[j])
  }

  /** Text made only of word and space characters is left as it is by the strip. */
  lemma {:induction false} StripPunctuationKeeps(s: string)
    requires forall j :: 0 <= j < |s| ==> IsWordChar(s[j]) || IsSpace(s[j])
    ensures StripPunctuation(s) == s
  {
    if s != [] {
      assert forall j :: 0 <= j < |s[1..]| ==> s[1..][j] == s[j + 1];
      StripPunctuationKeeps(s[1..]);
    }
  }

  /** A white-space character separates the token stream: the tokens of `a`, then those of `b`. */
  lemma TokensSplit(a: string, c: char, b: string)
    requires IsSpace(c)
    ensures Tokens(a + [c] + b) == Tokens(a) + Tokens(b)
  {
    var la, lb := LowerString(a), LowerString(b);
    LowerStringAppend(a + [c], b);
    LowerStringAppend(a, [c]);
    assert LowerString([c]) == [c];
    var sa, sb := StripPunctuation(la), StripPunctuation(lb);
    StripPunctuationAppend(la + [c], lb);
    StripPunctuationAppend(la, [c]);
    StripPunctuationChar(c);
    WordsSplit(sa, c, sb);
    FilterWordsAppend(Words(sa), Words(sb));
  }

  /** A lower-case word that passes the filter is the one token of its text. */
  lemma TokensOfWord(w: string)
    requires |w| > 0 && IsLowerWord(w) && Keep(w)
    ensures Tokens(w) == [w]
  {
    assert LowerString(w) == w;
    StripPunctuationKeeps(w);
    assert NoSpace(w) by {
      forall j | 0 <= j < |w| ensures !IsSpace(w[j]) { assert IsWordChar(w[j]); }
    }
    WordsOfWord(w);
    FilterWordsSingle(w);
  }

  /** Every token is a lower-case run of word characters that passes the filter. */
  lemma TokensShape(text: string)
    ensures forall w :: w in Tokens(text) ==> Keep(w) && IsLowerWord(w)
  {
    var low := LowerString(text);
    var st := StripPunctuation(low);
    var ws := Words(st);
    assert forall c :: c in low ==> !IsAsciiUpper(c);
    assert forall c :: c in st ==> IsWordChar(c) || IsSpace(c);
    WordsCharsIn(st);
    forall w | w in Tokens(text) ensures IsLowerWord(w) {
      assert w in ws;
      assert CharsIn(w, st);
      forall j | 0 <= j < |w| ensures IsWordChar(w[j]) && !IsAsciiUpper(w[j]) {
        assert w[j] in w;
      }
    }
  }

  lemma DistinctPrefix(d: seq<string>, r: seq<string>)
    requires Distinct(d) && r <= d
    ensures Distinct(r)
  {
    assert forall i :: 0 <= i < |r| ==> r[i] == d[i];
  }

  /** `extractKeywords(text)`: the first ten distinct tokens. */
  function ExtractKeywords(text: string): (r: seq<string>)
    ensures |r| <= MaxKeywords
    ensures Distinct(r)
    ensures r <= Dedup(Tokens(text))
    ensures |r| == if |Dedup(Tokens(text))| < MaxKeywords then |Dedup(Tokens(text))| else MaxKeywords
  {
    var d := Dedup(Tokens(text));
    var r := if |d| <= MaxKeywords then d else d[..MaxKeywords];
    DistinctPrefix(d, r);
    r
  }

  /** Every keyword is a lower-case token that passes the filter. */
  lemma KeywordsShape(text: string)
    ensures forall w :: w in ExtractKeywords(text) ==> Keep(w) && IsLowerWord(w) && w in Tokens(text)
  {
    TokensShape(text);
    var d, r := Dedup(Tokens(text)), ExtractKeywords(text);
    forall w | w in r ensures w in d {
      var i :| 0 <= i < |r| && r[i] == w;
      assert d[i] == w;
    }
  }

  /**
   * The keywords appear in the order in which they first occur in the token
   * stream, and when there are fewer than ten of them, every token is among them.
   */
  lemma {:induction false} KeywordsOrderAndCompleteness(text: string)
    ensures forall i, j :: 0 <= i < j < |ExtractKeywords(text)| ==>
      FirstIndex(Tokens(text), ExtractKeywords(text)[i]) < FirstIndex(Tokens(text), ExtractKeywords(text)[j])
    ensures |ExtractKeywords(text)| < MaxKeywords ==> forall w :: w in Tokens(text) ==> w in ExtractKeywords(text)
  {
    var ts := Tokens(text);
    var d, r := Dedup(ts), ExtractKeywords(text);
    DedupFirstOccurrenceOrder(ts);
    forall i, j | 0 <= i < j < |r| ensures FirstIndex(ts, r[i]) < FirstIndex(ts, r[j]) {
      assert r[i] == d[i] && r[j] == d[j];
    }
    if |r| < MaxKeywords {
      assert r == d;
    }
  }
}
