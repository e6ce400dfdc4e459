/**
 * `recommendContent` of src/utils/ml-utils.ts: each catalogue item is scored
 * against the user's preferences, the scored items are sorted by score,
 * highest first, with a stable sort (ties keep catalogue order), the first
 * `maxResults` are kept, and the score is dropped again. Numbers are exact
 * reals.
 */
module ContentRanking {

  /** A user's interest in one category, nominally on a 0-100 scale. */
  datatype UserPreference = UserPreference(category: string, interest: real)

  /** A catalogue item; `popularity` is nominally on a 0-100 scale. */
  datatype ContentItem = ContentItem(id: string, title: string, category: string, tags: seq<string>, popularity: real)

  /** An item with the transient score used only for ranking. */
  datatype ScoredContent = ScoredContent(content: ContentItem, score: real)

  /** `maxResults` when the caller passes none. */
  const DefaultMaxResults: int := 5

  // ---------------------------------------------------------------------------
  // Scoring

  /** The summed interest of the preferences naming `category`. */
  function CategoryInterest(prefs: seq<UserPreference>, category: string): (r: real)
    ensures (forall i :: 0 <= i < |prefs| ==> prefs[i].category != category) ==> r == 0.0
    ensures (forall i :: 0 <= i < |prefs| ==> prefs[i].interest >= 0.0) ==> r >= 0.0
  {
    if prefs == [] then 0.0
    else (if prefs[0].category == category then prefs[0].interest else 0.0) + CategoryInterest(prefs[1..], category)
  }

  /** The summed interest of the preferences whose category is one of `tags`. */
  function TagInterest(prefs: seq<UserPreference>, tags: seq<string>): (r: real)
    ensures (forall i :: 0 <= i < |prefs| ==> prefs[i].category !in tags) ==> r == 0.0
    ensures (forall i :: 0 <= i < |prefs| ==> prefs[i].interest >= 0.0) ==> r >= 0.0
  {
    if prefs == [] then 0.0
    else (if prefs[0].category in tags then prefs[0].interest else 0.0) + TagInterest(prefs[1..], tags)
  }

  /**
   * The score of an item: 30% of its popularity, plus half the interest of
   * every preference for its category, plus a fifth of the interest of every
   * preference for one of its tags.
   */
  function Score(prefs: seq<UserPreference>, content: ContentItem): (r: real)
    ensures (forall i :: 0 <= i < |prefs| ==> prefs[i].interest >= 0.0) ==> r >= 0.3 * content.popularity
  {
    0.3 * content.popularity + 0.5 * CategoryInterest(prefs, content.category) + 0.2 * TagInterest(prefs, content.tags)
  }

  lemma {:induction false} InterestAppend(prefs: seq<UserPreference>, p: UserPreference, content: ContentItem)
    ensures CategoryInterest(prefs + [p], content.category)
         == CategoryInterest(prefs, content.category) + (if p.category == content.category then p.interest else 0.0)
    ensures TagInterest(prefs + [p], content.tags)
         == TagInterest(prefs, content.tags) + (if p.category in content.tags then p.interest else 0.0)
  {
    if prefs == [] {
      assert [p][1..] == [];
    } else {
      assert (prefs + [p])[1..] == prefs[1..] + [p];
      InterestAppend(prefs[1..], p, content);
    }
  }

  /**
   * `scoreContent`: starts from 30% of the popularity and walks the
   * preferences once, adding the category and tag boosts of each.
   */
  method ScoreContent(prefs: seq<UserPreference>, content: ContentItem) returns (score: real)
    ensures score == Score(prefs, content)
  {
    score := content.popularity * 0.3;
    var i := 0;
    while i < |prefs|
      invariant 0 <= i <= |prefs|
      invariant score == Score(prefs[..i], content)
    {
      var pref := prefs[i];
      if content.category == pref.category {
        score := score + pref.interest * 0.5;
      }
      if pref.category in content.tags {
        score := score + pref.interest * 0.2;
      }
      assert prefs[..i + 1] == prefs[..i] + [pref];
      InterestAppend(prefs[..i], pref, content);
      i := i + 1;
    }
    assert prefs[..i] == prefs;
  }

  /** With no preferences, the score is 30% of the popularity. */
  lemma ScoreWithoutPreferences(content: ContentItem)
    ensures Score([], content) == 0.3 * content.popularity
  {
  }

  // ---------------------------------------------------------------------------
  // Stable sort by descending score

  /** `map(content => ({...content, score}))`. */
  function ScoreAll(prefs: seq<UserPreference>, items: seq<ContentItem>): (r: seq<ScoredContent>)
    ensures |r| == |items|
    ensures forall i :: 0 <= i < |r| ==> r[i] == ScoredContent(items[i], Score(prefs, items[i]))
  {
    seq(|items|, i requires 0 <= i < |items| => ScoredContent(items[i], Score(prefs, items[i])))
  }

  /** Inserts `x` before the first element that does not score strictly higher. */
  function Insert(x: ScoredContent, s: seq<ScoredContent>): seq<ScoredContent>
  {
    if s == [] then [x]
    else if x.score >= s[0].score then [x] + s
    else [s[0]] + Insert(x, s[1..])
  }

  /** `sort((a, b) => b.score - a.score)`: a stable insertion sort, highest score first. */
  function SortByScore(s: seq<ScoredContent>): seq<ScoredContent>
  {
    if s == [] then [] else Insert(s[0], SortByScore(s[1..]))
  }

  ghost predicate Descending(s: seq<ScoredContent>)
  {
    forall i, j :: 0 <= i < j < |s| ==> s[i].score >= s[j].score
  }

  /** The elements scoring exactly `v`, in order. */
  function WithScore(s: seq<ScoredContent>, v: real): seq<ScoredContent>
  {
    if s == [] then []
    else if s[0].score == v then [s[0]] + WithScore(s[1..], v)
    else WithScore(s[1..], v)
  }

  lemma {:induction false} InsertPermutes(x: ScoredContent, s: seq<ScoredContent>)
    ensures multiset(Insert(x, s)) == multiset(s) + multiset{x}
  {
    if s != [] && x.score < s[0].score {
      InsertPermutes(x, s[1..]);
      assert s == [s[0]] + s[1..];
    }
  }

  lemma {:induction false} SortPermutes(s: seq<ScoredContent>)
    ensures multiset(SortByScore(s)) == multiset(s)
  {
    if s != [] {
      SortPermutes(s[1..]);
      InsertPermutes(s[0], SortByScore(s[1..]));
      assert s == [s[0]] + s[1..];
    }
  }

  /** Inserting an element under a bound keeps every score under it. */
  lemma {:induction false} InsertBounded(x: ScoredContent, s: seq<ScoredContent>, b: real)
    requires x.score <= b && forall k :: 0 <= k < |s| ==> s[k].score <= b
    ensures |Insert(x, s)| == |s| + 1
    ensures forall k :: 0 <= k < |Insert(x, s)| ==> Insert(x, s)[k].score <= b
  {
    if s != [] && x.score < s[0].score {
      InsertBounded(x, s[1..], b);
    }
  }

  /** A descending list stays descending with a head no lower than its elements. */
  lemma ConsDescending(y: ScoredContent, s: seq<ScoredContent>)
    requires Descending(s) && forall k :: 0 <= k < |s| ==> s[k].score <= y.score
    ensures Descending([y] + s)
  {
    var r := [y] + s;
    forall i, j | 0 <= i < j < |r|
      ensures r[i].score >= r[j].score
    {
      assert r[j] == s[j - 1];
      if i > 0 {
        assert r[i] == s[i - 1];
      }
    }
  }

  lemma {:induction false} InsertDescending(x: ScoredContent, s: seq<ScoredContent>)
    requires Descending(s)
    ensures Descending(Insert(x, s))
    ensures |Insert(x, s)| == |s| + 1
  {
    if s == [] {
    } else if x.score >= s[0].score {
      ConsDescending(x, s);
    } else {
      InsertDescending(x, s[1..]);
      InsertBounded(x, s[1..], s[0].score);
      ConsDescending(s[0], Insert(x, s[1..]));
    }
  }

  /** The sort yields scores in non-increasing order. */
  lemma {:induction false} SortDescending(s: seq<ScoredContent>)
    ensures Descending(SortByScore(s))
    ensures |SortByScore(s)| == |s|
  {
    if s != [] {
      SortDescending(s[1..]);
      InsertDescending(s[0], SortByScore(s[1..]));
    }
  }

  lemma {:induction false} InsertWithScore(x: ScoredContent, s: seq<ScoredContent>, v: real)
    ensures WithScore(Insert(x, s), v) == (if x.score == v then [x] else []) + WithScore(s, v)
  {
    if s == [] {
    } else if x.score >= s[0].score {
      assert ([x] + s)[1..] == s;
    } else {
      InsertWithScore(x, s[1..], v);
      assert ([s[0]] + Insert(x, s[1..]))[1..] == Insert(x, s[1..]);
    }
  }

  /** The sort is stable: the elements of any one score keep their input order. */
  lemma {:induction false} SortStable(s: seq<ScoredContent>, v: real)
    ensures WithScore(SortByScore(s), v) == WithScore(s, v)
  {
    if s != [] {
      SortStable(s[1..], v);
      InsertWithScore(s[0], SortByScore(s[1..]), v);
    }
  }

  // ---------------------------------------------------------------------------
  // The pipeline

  /** Where JavaScript's `slice(0, end)` stops on a list of length `n`. */
  function SliceEnd(n: nat, end: int): (e: nat)
    ensures e <= n
    ensures end >= 0 ==> e == if end <= n then end else n
  {
    if end < 0 then (if n + end < 0 then 0 else n + end)
    else if end > n then n else end
  }

  /** `map(({ score, ...content }) => content)`. */
  function Strip(s: seq<ScoredContent>): (r: seq<ContentItem>)
    ensures |r| == |s|
    ensures forall i :: 0 <= i < |r| ==> r[i] == s[i].content
  {
    seq(|s|, i requires 0 <= i < |s| => s[i].content)
  }

  /** `recommendContent(userPreferences, availableContent, maxResults)`. */
  function RecommendContent(prefs: seq<UserPreference>, items: seq<ContentItem>, maxResults: int): (r: seq<ContentItem>)
    ensures |r| <= |items|
  {
    var ranked := SortByScore(ScoreAll(prefs, items));
    SortDescending(ScoreAll(prefs, items));
    Strip(ranked[..SliceEnd(|ranked|, maxResults)])
  }

  /** `recommendContent(userPreferences, availableContent)`: `maxResults` defaults to 5. */
  function RecommendContentDefault(prefs: seq<UserPreference>, items: seq<ContentItem>): (r: seq<ContentItem>)
    ensures |r| == if |items| <= 5 then |items| else 5
  {
    RecommendLength(prefs, items, DefaultMaxResults);
    RecommendContent(prefs, items, DefaultMaxResults)
  }

  /** The catalogue items scoring exactly `v`, in catalogue order. */
  function ItemsScoring(prefs: seq<UserPreference>, items: seq<ContentItem>, v: real): seq<ContentItem>
  {
    if items == [] then []
    else if Score(prefs, items[0]) == v then [items[0]] + ItemsScoring(prefs, items[1..], v)
    else ItemsScoring(prefs, items[1..], v)
  }

  /** Every element carries the score its item gets from `prefs`. */
  ghost predicate ScoredBy(prefs: seq<UserPreference>, s: seq<ScoredContent>)
  {
    forall i :: 0 <= i < |s| ==> s[i].score == Score(prefs, s[i].content)
  }

  /** The ranked list, before it is cut and stripped. */
  function Ranked(prefs: seq<UserPreference>, items: seq<ContentItem>): seq<ScoredContent>
  {
    SortByScore(ScoreAll(prefs, items))
  }

  lemma StripCons(y: ScoredContent, s: seq<ScoredContent>)
    ensures Strip([y] + s) == [y.content] + Strip(s)
  {
  }

  lemma {:induction false} InsertStripPermutes(x: ScoredContent, s: seq<ScoredContent>)
    ensures multiset(Strip(Insert(x, s))) == multiset(Strip(s)) + multiset{x.content}
  {
    if s == [] {
      StripCons(x, []);
    } else if x.score >= s[0].score {
      StripCons(x, s);
    } else {
      InsertStripPermutes(x, s[1..]);
      StripCons(s[0], Insert(x, s[1..]));
      StripCons(s[0], s[1..]);
      assert s == [s[0]] + s[1..];
    }
  }

  lemma {:induction false} SortStripPermutes(s: seq<ScoredContent>)
    ensures multiset(Strip(SortByScore(s))) == multiset(Strip(s))
  {
    if s != [] {
      SortStripPermutes(s[1..]);
      InsertStripPermutes(s[0], SortByScore(s[1..]));
      StripCons(s[0], s[1..]);
      assert s == [s[0]] + s[1..];
    }
  }

  /** Ranking keeps every element with the score its item gets. */
  lemma RankedScoredBy(prefs: seq<UserPreference>, items: seq<ContentItem>)
    ensures ScoredBy(prefs, Ranked(prefs, items))
    ensures Descending(Ranked(prefs, items))
    ensures |Ranked(prefs, items)| == |items|
    ensures multiset(Strip(Ranked(prefs, items))) == multiset(items)
  {
    var scored := ScoreAll(prefs, items);
    var ranked := SortByScore(scored);
    SortPermutes(scored);
    SortDescending(scored);
    SortStripPermutes(scored);
    assert Strip(scored) == items;
    forall i | 0 <= i < |ranked|
      ensures ranked[i].score == Score(prefs, ranked[i].content)
    {
      assert ranked[i] in multiset(scored);
    }
  }

  /**
   * `recommendContent` returns `min(maxResults, n)` items of an n-item
   * catalogue for a non-negative `maxResults` (for a negative one, the
   * `slice` rule: all but the last `-maxResults`), and nothing from an empty
   * catalogue.
   */
  lemma RecommendLength(prefs: seq<UserPreference>, items: seq<ContentItem>, maxResults: int)
    ensures |RecommendContent(prefs, items, maxResults)| == SliceEnd(|items|, maxResults)
    ensures maxResults >= 0 ==> |RecommendContent(prefs, items, maxResults)|
                                == if maxResults <= |items| then maxResults else |items|
    ensures maxResults < 0 ==> |RecommendContent(prefs, items, maxResults)|
                               == if |items| + maxResults < 0 then 0 else |items| + maxResults
    ensures items == [] ==> RecommendContent(prefs, items, maxResults) == []
  {
    RankedScoredBy(prefs, items);
  }

  /** Every recommended item is a catalogue item, and none more often than in the catalogue. */
  lemma RecommendFromCatalogue(prefs: seq<UserPreference>, items: seq<ContentItem>, maxResults: int)
    ensures multiset(RecommendContent(prefs, items, maxResults)) <= multiset(items)
  {
    var ranked := Ranked(prefs, items);
    RankedScoredBy(prefs, items);
    var e := SliceEnd(|ranked|, maxResults);
    assert Strip(ranked) == Strip(ranked[..e]) + Strip(ranked)[e..];
  }

  /** Recommended items come in non-increasing order of score. */
  lemma RecommendOrdered(prefs: seq<UserPreference>, items: seq<ContentItem>, maxResults: int)
    ensures var r := RecommendContent(prefs, items, maxResults);
            forall i, j :: 0 <= i < j < |r| ==> Score(prefs, r[i]) >= Score(prefs, r[j])
  {
    RankedScoredBy(prefs, items);
  }

  /** Without preferences the ranking is by popularity alone. */
  lemma RecommendByPopularity(items: seq<ContentItem>, maxResults: int)
    ensures var r := RecommendContent([], items, maxResults);
            forall i, j :: 0 <= i < j < |r| ==> r[i].popularity >= r[j].popularity
  {
    var r := RecommendContent([], items, maxResults);
    RecommendOrdered([], items, maxResults);
    forall i, j | 0 <= i < j < |r|
      ensures r[i].popularity >= r[j].popularity
    {
      assert Score([], r[i]) >= Score([], r[j]);
    }
  }

  lemma {:induction false} WithScoreStrip(prefs: seq<UserPreference>, s: seq<ScoredContent>, v: real)
    requires ScoredBy(prefs, s)
    ensures ItemsScoring(prefs, Strip(s), v) == Strip(WithScore(s, v))
  {
    if s != [] {
      assert Strip(s)[1..] == Strip(s[1..]);
      WithScoreStrip(prefs, s[1..], v);
      if s[0].score == v {
        assert Strip([s[0]] + WithScore(s[1..], v)) == [s[0].content] + Strip(WithScore(s[1..], v));
      }
    }
  }

  lemma {:induction false} WithScorePrefix(s: seq<ScoredContent>, e: nat, v: real)
    requires e <= |s|
    ensures WithScore(s[..e], v) <= WithScore(s, v)
  {
    if e > 0 {
      assert s[..e][1..] == s[1..][..e - 1];
      WithScorePrefix(s[1..], e - 1, v);
    }
  }

  /**
   * Ties keep catalogue order: the recommended items of any one score are the
   * first of the catalogue's items of that score, in catalogue order.
   */
  lemma RecommendStable(prefs: seq<UserPreference>, items: seq<ContentItem>, maxResults: int, v: real)
    ensures ItemsScoring(prefs, RecommendContent(prefs, items, maxResults), v) <= ItemsScoring(prefs, items, v)
  {
    var scored := ScoreAll(prefs, items);
    var ranked := Ranked(prefs, items);
    RankedScoredBy(prefs, items);
    var e := SliceEnd(|ranked|, maxResults);
    var cut := ranked[..e];
    assert ScoredBy(prefs, cut);
    WithScoreStrip(prefs, cut, v);
    WithScorePrefix(ranked, e, v);
    SortStable(scored, v);
    assert ScoredBy(prefs, scored);
    WithScoreStrip(prefs, scored, v);
    assert Strip(scored) == items;
    var a, b := WithScore(cut, v), WithScore(scored, v);
    assert Strip(a) == Strip(b)[..|a|];
  }

  /**
   * The cut keeps the best: a catalogue item that scores strictly higher than
   * some recommended item is recommended as many times as it occurs.
   */
  lemma RecommendTopScores(prefs: seq<UserPreference>, items: seq<ContentItem>, maxResults: int, x: ContentItem, i: nat)
    requires i < |RecommendContent(prefs, items, maxResults)|
    requires Score(prefs, RecommendContent(prefs, items, maxResults)[i]) < Score(prefs, x)
    ensures multiset(RecommendContent(prefs, items, maxResults))[x] == multiset(items)[x]
  {
    var ranked := Ranked(prefs, items);
    RankedScoredBy(prefs, items);
    var e := SliceEnd(|ranked|, maxResults);
    var rest := Strip(ranked)[e..];
    forall k | 0 <= k < |rest|
      ensures rest[k] != x
    {
      assert ranked[i].score >= ranked[e + k].score;
    }
    assert Strip(ranked) == Strip(ranked[..e]) + rest;
    assert x !in rest;
  }
}
