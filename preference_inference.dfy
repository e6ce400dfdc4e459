/**
 * `inferUserPreferences` of src/utils/ml-utils.ts: a per-category tally of
 * click counts and summed view durations is built in a dictionary, both
 * sides are normalised against their largest value (each entry's zero read
 * as 1), and blended into a rounded interest score. A JavaScript object keeps
 * its keys in insertion order, so the dictionary is modelled as a map plus
 * the order in which its keys were added.
 */
module PreferenceInference {
  import opened ContentRanking

  datatype Click = Click(contentId: string, category: string, time: real)

  datatype View = View(contentId: string, category: string, duration: real)

  /** One dictionary entry: `{ clicks, viewTime }`. */
  datatype Tally = Tally(clicks: nat, viewTime: real)

  /** `categoryScores`: its keys in insertion order, and its entries. */
  datatype CategoryScores = CategoryScores(order: seq<string>, scores: map<string, Tally>)
  {
    ghost predicate Valid()
    {
      (forall c :: c in scores <==> c in order) && NoDuplicates(order)
    }
  }

  ghost predicate NoDuplicates(s: seq<string>)
  {
    forall i, j :: 0 <= i < j < |s| ==> s[i] != s[j]
  }

  // ---------------------------------------------------------------------------
  // What the dictionary should hold

  /** The distinct elements of `s`, in order of first appearance. */
  function Distinct(s: seq<string>): (r: seq<string>)
    ensures |r| <= |s|
  {
    if s == [] then []
    else if s[|s| - 1] in Distinct(s[..|s| - 1]) then Distinct(s[..|s| - 1])
    else Distinct(s[..|s| - 1]) + [s[|s| - 1]]
  }

  lemma {:induction false} DistinctProperties(s: seq<string>)
    ensures forall x :: x in Distinct(s) <==> x in s
    ensures NoDuplicates(Distinct(s))
  {
    if s != [] {
      DistinctProperties(s[..|s| - 1]);
      assert s == s[..|s| - 1] + [s[|s| - 1]];
    }
  }

  lemma {:induction false} DistinctHas(s: seq<string>, x: string)
    ensures x in Distinct(s) <==> x in s
  {
    if s != [] {
      DistinctHas(s[..|s| - 1], x);
      assert s == s[..|s| - 1] + [s[|s| - 1]];
    }
  }

  lemma DistinctSnoc(s: seq<string>, x: string)
    ensures Distinct(s + [x]) == if x in Distinct(s) then Distinct(s) else Distinct(s) + [x]
  {
    assert (s + [x])[..|s|] == s;
  }

  function ClickCategories(clicks: seq<Click>): (r: seq<string>)
    ensures |r| == |clicks| && forall i :: 0 <= i < |r| ==> r[i] == clicks[i].category
  {
    seq(|clicks|, i requires 0 <= i < |clicks| => clicks[i].category)
  }

  function ViewCategories(views: seq<View>): (r: seq<string>)
    ensures |r| == |views| && forall i :: 0 <= i < |r| ==> r[i] == views[i].category
  {
    seq(|views|, i requires 0 <= i < |views| => views[i].category)
  }

  /** The categories seen, clicks first, each once, in order of first appearance. */
  function Categories(clicks: seq<Click>, views: seq<View>): seq<string>
  {
    Distinct(ClickCategories(clicks) + ViewCategories(views))
  }

  /** The number of clicks on `category`. */
  function ClickCount(clicks: seq<Click>, category: string): (r: nat)
    ensures r <= |clicks|
  {
    if clicks == [] then 0
    else ClickCount(clicks[..|clicks| - 1], category) + (if clicks[|clicks| - 1].category == category then 1 else 0)
  }

  /** The summed view duration of `category`. */
  function ViewTime(views: seq<View>, category: string): real
  {
    if views == [] then 0.0
    else ViewTime(views[..|views| - 1], category) + (if views[|views| - 1].category == category then views[|views| - 1].duration else 0.0)
  }

  /** Counting one more click. */
  lemma ClickCountStep(clicks: seq<Click>, i: nat, category: string)
    requires i < |clicks|
    ensures ClickCount(clicks[..i + 1], category)
         == ClickCount(clicks[..i], category) + (if clicks[i].category == category then 1 else 0)
  {
    assert clicks[..i + 1][..i] == clicks[..i];
  }

  /** Adding one more view. */
  lemma ViewTimeStep(views: seq<View>, j: nat, category: string)
    requires j < |views|
    ensures ViewTime(views[..j + 1], category)
         == ViewTime(views[..j], category) + (if views[j].category == category then views[j].duration else 0.0)
  {
    assert views[..j + 1][..j] == views[..j];
  }

  lemma {:induction false} ClickCountUnseen(clicks: seq<Click>, category: string)
    requires category !in ClickCategories(clicks)
    ensures ClickCount(clicks, category) == 0
  {
    if clicks != [] {
      assert ClickCategories(clicks[..|clicks| - 1]) == ClickCategories(clicks)[..|clicks| - 1];
      ClickCountUnseen(clicks[..|clicks| - 1], category);
    }
  }

  lemma {:induction false} ViewTimeUnseen(views: seq<View>, category: string)
    requires category !in ViewCategories(views)
    ensures ViewTime(views, category) == 0.0
  {
    if views != [] {
      assert ViewCategories(views[..|views| - 1]) == ViewCategories(views)[..|views| - 1];
      ViewTimeUnseen(views[..|views| - 1], category);
    }
  }

  lemma {:induction false} ViewTimeNonNegative(views: seq<View>, category: string)
    requires forall i :: 0 <= i < |views| ==> views[i].duration >= 0.0
    ensures ViewTime(views, category) >= 0.0
  {
    if views != [] {
      ViewTimeNonNegative(views[..|views| - 1], category);
    }
  }

  /** The dictionary the two loops should leave: one entry per category seen, with its tallies. */
  function Tallied(clicks: seq<Click>, views: seq<View>): CategoryScores
  {
    var order := Categories(clicks, views);
    CategoryScores(order, map c | c in order :: Tally(ClickCount(clicks, c), ViewTime(views, c)))
  }

  // ---------------------------------------------------------------------------
  // Building the dictionary

  /** The dictionary holds exactly the categories of `cats`, each with the given tallies. */
  ghost predicate Holds(order: seq<string>, scores: map<string, Tally>, cats: seq<string>,
                        clicks: seq<Click>, views: seq<View>)
  {
    order == Distinct(cats)
    && (forall c :: c in scores <==> c in order)
    && (forall c :: c in scores ==> scores[c] == Tally(ClickCount(clicks, c), ViewTime(views, c)))
  }

  /**
   * The two `forEach` loops of `inferUserPreferences`: each click adds an
   * entry for its category if there is none and counts one click; each view
   * does the same and adds its duration.
   */
  method TallyInteractions(clicks: seq<Click>, views: seq<View>) returns (categoryScores: CategoryScores)
    ensures categoryScores == Tallied(clicks, views)
    ensures categoryScores.Valid()
  {
    var order, scores := CountClicks(clicks);
    order, scores := AddViewTimes(order, scores, clicks, views);
    categoryScores := CategoryScores(order, scores);
    DistinctProperties(ClickCategories(clicks) + ViewCategories(views));
  }

  /** The click loop, starting from the empty dictionary. */
  method CountClicks(clicks: seq<Click>) returns (order: seq<string>, scores: map<string, Tally>)
    ensures Holds(order, scores, ClickCategories(clicks), clicks, [])
  {
    order, scores := [], map[];
    var i := 0;
    while i < |clicks|
      invariant 0 <= i <= |clicks|
      invariant Holds(order, scores, ClickCategories(clicks[..i]), clicks[..i], [])
    {
      ghost var order0, scores0 := order, scores;
      var category := clicks[i].category;
      if category !in scores {
        scores := scores[category := Tally(0, 0.0)];
        order := order + [category];
      }
      scores := scores[category := Tally(scores[category].clicks + 1, scores[category].viewTime)];
      ClickStep(order0, scores0, order, scores, clicks, i);
      i := i + 1;
    }
    assert clicks[..i] == clicks;
  }

  /** One pass of the click loop keeps the dictionary in step with the clicks seen. */
  lemma ClickStep(order: seq<string>, scores: map<string, Tally>, order1: seq<string>, scores2: map<string, Tally>,
                  clicks: seq<Click>, i: nat)
    requires i < |clicks|
    requires Holds(order, scores, ClickCategories(clicks[..i]), clicks[..i], [])
    requires var category := clicks[i].category;
             var scores1 := if category in scores then scores else scores[category := Tally(0, 0.0)];
             order1 == (if category in scores then order else order + [category])
             && scores2 == scores1[category := Tally(scores1[category].clicks + 1, scores1[category].viewTime)]
    ensures Holds(order1, scores2, ClickCategories(clicks[..i + 1]), clicks[..i + 1], [])
  {
    var category := clicks[i].category;
    var seen := ClickCategories(clicks[..i]);
    assert ClickCategories(clicks[..i + 1]) == seen + [category];
    assert order1 == Distinct(seen + [category]) by {
      DistinctSnoc(seen, category);
    }
    assert forall c :: c in scores2 <==> c in order1;
    assert forall c :: c in scores2 ==> scores2[c] == Tally(ClickCount(clicks[..i + 1], c), 0.0) by {
      if category !in scores {
        DistinctHas(seen, category);
        ClickCountUnseen(clicks[..i], category);
      }
      ClickTallyStep(scores, scores2, clicks, i);
    }
  }

  /** The tally part of `ClickStep`: every entry holds the clicks up to click `i`. */
  lemma ClickTallyStep(scores: map<string, Tally>, scores2: map<string, Tally>, clicks: seq<Click>, i: nat)
    requires i < |clicks|
    requires forall c :: c in scores ==> scores[c] == Tally(ClickCount(clicks[..i], c), 0.0)
    requires var category := clicks[i].category;
             category !in scores ==> ClickCount(clicks[..i], category) == 0
    requires var category := clicks[i].category;
             var scores1 := if category in scores then scores else scores[category := Tally(0, 0.0)];
             scores2 == scores1[category := Tally(scores1[category].clicks + 1, scores1[category].viewTime)]
    ensures forall c :: c in scores2 ==> scores2[c] == Tally(ClickCount(clicks[..i + 1], c), 0.0)
  {
    forall c | c in scores2
      ensures scores2[c] == Tally(ClickCount(clicks[..i + 1], c), 0.0)
    {
      ClickCountStep(clicks, i, c);
    }
  }

  /** The view loop, continuing from the dictionary the click loop left. */
  method AddViewTimes(order0: seq<string>, scores0: map<string, Tally>, clicks: seq<Click>, views: seq<View>)
    returns (order: seq<string>, scores: map<string, Tally>)
    requires Holds(order0, scores0, ClickCategories(clicks), clicks, [])
    ensures Holds(order, scores, ClickCategories(clicks) + ViewCategories(views), clicks, views)
  {
    order, scores := order0, scores0;
    var j := 0;
    assert ClickCategories(clicks) + ViewCategories(views[..0]) == ClickCategories(clicks);
    while j < |views|
      invariant 0 <= j <= |views|
      invariant Holds(order, scores, ClickCategories(clicks) + ViewCategories(views[..j]), clicks, views[..j])
    {
      ghost var order1, scores1 := order, scores;
      var category := views[j].category;
      if category !in scores {
        scores := scores[category := Tally(0, 0.0)];
        order := order + [category];
      }
      scores := scores[category := Tally(scores[category].clicks, scores[category].viewTime + views[j].duration)];
      ViewStep(order1, scores1, order, scores, clicks, views, j);
      j := j + 1;
    }
    assert views[..j] == views;
  }

  /** One pass of the view loop keeps the dictionary in step with the clicks and the views seen. */
  lemma ViewStep(order: seq<string>, scores: map<string, Tally>, order1: seq<string>, scores2: map<string, Tally>,
                 clicks: seq<Click>, views: seq<View>, j: nat)
    requires j < |views|
    requires Holds(order, scores, ClickCategories(clicks) + ViewCategories(views[..j]), clicks, views[..j])
    requires var category := views[j].category;
             var scores1 := if category in scores then scores else scores[category := Tally(0, 0.0)];
             order1 == (if category in scores then order else order + [category])
             && scores2 == scores1[category := Tally(scores1[category].clicks, scores1[category].viewTime + views[j].duration)]
    ensures Holds(order1, scores2, ClickCategories(clicks) + ViewCategories(views[..j + 1]), clicks, views[..j + 1])
  {
    var category := views[j].category;
    var seen := ClickCategories(clicks) + ViewCategories(views[..j]);
    assert ClickCategories(clicks) + ViewCategories(views[..j + 1]) == seen + [category];
    assert order1 == Distinct(seen + [category]) by {
      DistinctSnoc(seen, category);
    }
    assert forall c :: c in scores2 <==> c in order1;
    assert forall c :: c in scores2 ==> scores2[c] == Tally(ClickCount(clicks, c), ViewTime(views[..j + 1], c)) by {
      if category !in scores {
        DistinctHas(seen, category);
        ClickCountUnseen(clicks, category);
        ViewTimeUnseen(views[..j], category);
      }
      ViewTallyStep(scores, scores2, clicks, views, j);
    }
  }

  /** The tally part of `ViewStep`: every entry holds its clicks and the view time up to view `j`. */
  lemma ViewTallyStep(scores: map<string, Tally>, scores2: map<string, Tally>, clicks: seq<Click>, views: seq<View>, j: nat)
    requires j < |views|
    requires forall c :: c in scores ==> scores[c] == Tally(ClickCount(clicks, c), ViewTime(views[..j], c))
    requires var category := views[j].category;
             category !in scores ==> ClickCount(clicks, category) == 0 && ViewTime(views[..j], category) == 0.0
    requires var category := views[j].category;
             var scores1 := if category in scores then scores else scores[category := Tally(0, 0.0)];
             scores2 == scores1[category := Tally(scores1[category].clicks, scores1[category].viewTime + views[j].duration)]
    ensures forall c :: c in scores2 ==> scores2[c] == Tally(ClickCount(clicks, c), ViewTime(views[..j + 1], c))
  {
    forall c | c in scores2
      ensures scores2[c] == Tally(ClickCount(clicks, c), ViewTime(views[..j + 1], c))
    {
      ViewTimeStep(views, j, c);
    }
  }

  // ---------------------------------------------------------------------------
  // Normalising and blending

  /** `x || 1` on a number: zero reads as 1. */
  function OrOne(x: real): real
  {
    if x == 0.0 then 1.0 else x
  }

  /** `Math.max(...xs)` on a non-empty list. */
  function MaxOf(xs: seq<real>): (m: real)
    requires |xs| > 0
    ensures forall i :: 0 <= i < |xs| ==> xs[i] <= m
    ensures m in xs
  {
    if |xs| == 1 then xs[0]
    else
      var rest := MaxOf(xs[1..]);
      if xs[0] >= rest then xs[0] else rest
  }

  /** `Object.values(categoryScores).map(s => s.clicks || 1)`. */
  function ClickValues(cs: CategoryScores): (r: seq<real>)
    requires cs.Valid()
    ensures |r| == |cs.order|
  {
    seq(|cs.order|, i requires 0 <= i < |cs.order| => OrOne(cs.scores[cs.order[i]].clicks as real))
  }

  /** `Object.values(categoryScores).map(s => s.viewTime || 1)`. */
  function ViewValues(cs: CategoryScores): (r: seq<real>)
    requires cs.Valid()
    ensures |r| == |cs.order|
  {
    seq(|cs.order|, i requires 0 <= i < |cs.order| => OrOne(cs.scores[cs.order[i]].viewTime))
  }

  /** `Math.round`: the nearest whole number, halves rounding up. */
  function Round(x: real): (r: real)
    ensures r == r.Floor as real
    ensures x - 0.5 < r <= x + 0.5
  {
    (x + 0.5).Floor as real
  }

  /** `Math.round(normalizedClicks * 0.4 + normalizedViewTime * 0.6)`. */
  function Interest(t: Tally, maxClicks: real, maxViewTime: real): (r: real)
    requires maxClicks != 0.0 && maxViewTime != 0.0
    ensures r == r.Floor as real
    ensures var blend := (t.clicks as real / maxClicks * 100.0) * 0.4 + (t.viewTime / maxViewTime * 100.0) * 0.6;
            blend - 0.5 < r <= blend + 0.5
  {
    Round((t.clicks as real / maxClicks * 100.0) * 0.4 + (t.viewTime / maxViewTime * 100.0) * 0.6)
  }

  /** The map over `Object.entries(categoryScores)` that builds the preferences. */
  function Normalise(cs: CategoryScores): (r: seq<UserPreference>)
    requires cs.Valid()
    ensures |r| == |cs.order|
    ensures forall i :: 0 <= i < |r| ==> r[i].category == cs.order[i]
  {
    if cs.order == [] then []
    else
      var maxClicks := MaxOf(ClickValues(cs));
      var maxViewTime := MaxOf(ViewValues(cs));
      assert maxClicks != 0.0 && maxViewTime != 0.0;
      seq(|cs.order|, i requires 0 <= i < |cs.order| =>
            UserPreference(cs.order[i], Interest(cs.scores[cs.order[i]], maxClicks, maxViewTime)))
  }

  lemma TalliedValid(clicks: seq<Click>, views: seq<View>)
    ensures Tallied(clicks, views).Valid()
  {
    DistinctProperties(ClickCategories(clicks) + ViewCategories(views));
  }

  /** `inferUserPreferences(clickData, viewData)`, as a specification. */
  function Inferred(clicks: seq<Click>, views: seq<View>): (r: seq<UserPreference>)
    ensures |r| == |Categories(clicks, views)|
    ensures forall i :: 0 <= i < |r| ==> r[i].category == Categories(clicks, views)[i]
  {
    TalliedValid(clicks, views);
    Normalise(Tallied(clicks, views))
  }

  /** `inferUserPreferences`: tally the interactions, then normalise and blend. */
  method InferUserPreferences(clicks: seq<Click>, views: seq<View>) returns (prefs: seq<UserPreference>)
    ensures prefs == Inferred(clicks, views)
  {
    var categoryScores := TallyInteractions(clicks, views);
    prefs := Normalise(categoryScores);
  }

  /** The categories of the clicks, as a set. */
  lemma ClickCategorySet(clicks: seq<Click>)
    ensures (set c | c in ClickCategories(clicks)) == (set k | k in clicks :: k.category)
  {
    forall c | c in (set k | k in clicks :: k.category)
      ensures c in ClickCategories(clicks)
    {
      var k :| k in clicks && k.category == c;
      var i :| 0 <= i < |clicks| && clicks[i] == k;
      assert ClickCategories(clicks)[i] == c;
    }
  }

  /** The categories of the views, as a set. */
  lemma ViewCategorySet(views: seq<View>)
    ensures (set c | c in ViewCategories(views)) == (set v | v in views :: v.category)
  {
    forall c | c in (set v | v in views :: v.category)
      ensures c in ViewCategories(views)
    {
      var v :| v in views && v.category == c;
      var i :| 0 <= i < |views| && views[i] == v;
      assert ViewCategories(views)[i] == c;
    }
  }

  /** Preferences that follow a list of categories name exactly those categories. */
  lemma PreferenceCategorySet(r: seq<UserPreference>, cats: seq<string>)
    requires |r| == |cats| && forall i :: 0 <= i < |r| ==> r[i].category == cats[i]
    ensures (set p | p in r :: p.category) == (set c | c in cats)
  {
    forall c | c in cats
      ensures c in (set p | p in r :: p.category)
    {
      var i :| 0 <= i < |cats| && cats[i] == c;
      assert r[i] in r;
    }
  }

  /**
   * One preference per distinct category seen in the clicks or the views,
   * and none for empty inputs.
   */
  lemma InferredCategories(clicks: seq<Click>, views: seq<View>)
    ensures var r := Inferred(clicks, views);
            (forall i, j :: 0 <= i < j < |r| ==> r[i].category != r[j].category)
            && (set p | p in r :: p.category)
               == (set k | k in clicks :: k.category) + (set v | v in views :: v.category)
  {
    var r := Inferred(clicks, views);
    var cc, vc := ClickCategories(clicks), ViewCategories(views);
    assert forall i, j :: 0 <= i < j < |r| ==> r[i].category != r[j].category by {
      DistinctProperties(cc + vc);
    }
    assert (set c | c in Distinct(cc + vc)) == (set c | c in cc) + (set c | c in vc) by {
      DistinctProperties(cc + vc);
    }
    PreferenceCategorySet(r, Categories(clicks, views));
    ClickCategorySet(clicks);
    ViewCategorySet(views);
  }

  /**
   * The two denominators: the click one is at least 1, the view one is never
   * zero (and positive when no view time is negative), and each bounds every
   * entry's own value.
   */
  lemma Denominators(cs: CategoryScores)
    requires cs.Valid() && cs.order != []
    ensures MaxOf(ClickValues(cs)) >= 1.0
    ensures MaxOf(ViewValues(cs)) != 0.0
    ensures (forall c :: c in cs.scores ==> cs.scores[c].viewTime >= 0.0) ==> MaxOf(ViewValues(cs)) > 0.0
    ensures forall i :: 0 <= i < |cs.order| ==> cs.scores[cs.order[i]].clicks as real <= MaxOf(ClickValues(cs))
    ensures forall i :: 0 <= i < |cs.order| ==> cs.scores[cs.order[i]].viewTime <= MaxOf(ViewValues(cs))
  {
    ClickDenominator(cs);
    ViewDenominator(cs);
  }

  /** The click side of `Denominators`. */
  lemma ClickDenominator(cs: CategoryScores)
    requires cs.Valid() && cs.order != []
    ensures MaxOf(ClickValues(cs)) >= 1.0
    ensures forall i :: 0 <= i < |cs.order| ==> cs.scores[cs.order[i]].clicks as real <= MaxOf(ClickValues(cs))
  {
    var cv := ClickValues(cs);
    var m := MaxOf(cv);
    forall i | 0 <= i < |cs.order|
      ensures 1.0 <= m && cs.scores[cs.order[i]].clicks as real <= m
    {
      assert cv[i] == OrOne(cs.scores[cs.order[i]].clicks as real);
      assert cv[i] <= m;
    }
  }

  /** The view side of `Denominators`. */
  lemma ViewDenominator(cs: CategoryScores)
    requires cs.Valid() && cs.order != []
    ensures MaxOf(ViewValues(cs)) != 0.0
    ensures (forall c :: c in cs.scores ==> cs.scores[c].viewTime >= 0.0) ==> MaxOf(ViewValues(cs)) > 0.0
    ensures forall i :: 0 <= i < |cs.order| ==> cs.scores[cs.order[i]].viewTime <= MaxOf(ViewValues(cs))
  {
    var vv := ViewValues(cs);
    var m := MaxOf(vv);
    forall i | 0 <= i < |cs.order|
      ensures cs.scores[cs.order[i]].viewTime <= m
    {
      assert vv[i] == OrOne(cs.scores[cs.order[i]].viewTime);
      assert vv[i] <= m;
    }
    var k :| 0 <= k < |vv| && vv[k] == m;
    assert vv[k] == OrOne(cs.scores[cs.order[k]].viewTime);
  }

  /** Entry `i` of the normalised list, spelled out. */
  lemma NormaliseAt(cs: CategoryScores, i: nat)
    requires cs.Valid() && i < |cs.order|
    ensures MaxOf(ClickValues(cs)) != 0.0 && MaxOf(ViewValues(cs)) != 0.0
    ensures Normalise(cs)[i].interest
         == Interest(cs.scores[cs.order[i]], MaxOf(ClickValues(cs)), MaxOf(ViewValues(cs)))
  {
    Denominators(cs);
  }

  /** A blend of two shares in [0, 1] rounds to a whole number in [0, 100]. */
  lemma InterestBounds(t: Tally, maxClicks: real, maxViewTime: real)
    requires 0.0 < maxClicks && 0.0 < maxViewTime
    requires t.clicks as real <= maxClicks && 0.0 <= t.viewTime <= maxViewTime
    ensures 0.0 <= Interest(t, maxClicks, maxViewTime) <= 100.0
    ensures Interest(t, maxClicks, maxViewTime) == Interest(t, maxClicks, maxViewTime).Floor as real
  {
    var c, v := t.clicks as real / maxClicks, t.viewTime / maxViewTime;
    assert 0.0 <= c <= 1.0 by {
      assert c * maxClicks == t.clicks as real;
    }
    assert 0.0 <= v <= 1.0 by {
      assert v * maxViewTime == t.viewTime;
    }
  }

  /**
   * With no negative view time every interest is a whole number between 0
   * and 100.
   */
  lemma NormaliseBounds(cs: CategoryScores)
    requires cs.Valid()
    requires forall c :: c in cs.scores ==> cs.scores[c].viewTime >= 0.0
    ensures forall i :: 0 <= i < |Normalise(cs)| ==>
              0.0 <= Normalise(cs)[i].interest <= 100.0
              && Normalise(cs)[i].interest == Normalise(cs)[i].interest.Floor as real
  {
    if cs.order != [] {
      Denominators(cs);
      forall i | 0 <= i < |cs.order|
        ensures 0.0 <= Normalise(cs)[i].interest <= 100.0
        ensures Normalise(cs)[i].interest == Normalise(cs)[i].interest.Floor as real
      {
        NormaliseAt(cs, i);
        InterestBounds(cs.scores[cs.order[i]], MaxOf(ClickValues(cs)), MaxOf(ViewValues(cs)));
      }
    }
  }

  /** With no negative duration every inferred interest is a whole number between 0 and 100. */
  lemma InferredBounds(clicks: seq<Click>, views: seq<View>)
    requires forall i :: 0 <= i < |views| ==> views[i].duration >= 0.0
    ensures forall i :: 0 <= i < |Inferred(clicks, views)| ==>
              0.0 <= Inferred(clicks, views)[i].interest <= 100.0
              && Inferred(clicks, views)[i].interest == Inferred(clicks, views)[i].interest.Floor as real
  {
    var cs := Tallied(clicks, views);
    TalliedValid(clicks, views);
    forall c | c in cs.scores
      ensures cs.scores[c].viewTime >= 0.0
    {
      ViewTimeNonNegative(views, c);
    }
    NormaliseBounds(cs);
  }

  /**
   * A category with at least one click and at least one unit of view time
   * that leads both tallies gets an interest of exactly 100.
   */
  lemma NormaliseLeader(cs: CategoryScores, i: nat)
    requires cs.Valid() && i < |cs.order|
    requires cs.scores[cs.order[i]].clicks >= 1 && cs.scores[cs.order[i]].viewTime >= 1.0
    requires forall c :: c in cs.scores ==>
               cs.scores[c].clicks <= cs.scores[cs.order[i]].clicks
               && cs.scores[c].viewTime <= cs.scores[cs.order[i]].viewTime
    ensures Normalise(cs)[i].interest == 100.0
  {
    var t := cs.scores[cs.order[i]];
    LeaderClickMax(cs, i);
    LeaderViewMax(cs, i);
    assert Normalise(cs)[i].interest == Interest(t, t.clicks as real, t.viewTime) by {
      NormaliseAt(cs, i);
    }
    InterestOfLeader(t);
  }

  /** The click count of an entry that no other entry exceeds, at least 1, is the click denominator. */
  lemma LeaderClickMax(cs: CategoryScores, i: nat)
    requires cs.Valid() && i < |cs.order|
    requires cs.scores[cs.order[i]].clicks >= 1
    requires forall c :: c in cs.scores ==> cs.scores[c].clicks <= cs.scores[cs.order[i]].clicks
    ensures MaxOf(ClickValues(cs)) == cs.scores[cs.order[i]].clicks as real
  {
    var cv := ClickValues(cs);
    assert cv[i] == cs.scores[cs.order[i]].clicks as real;
    MaxOfReached(cv, cv[i]);
  }

  /** The view time of an entry that no other entry exceeds, at least 1, is the view denominator. */
  lemma LeaderViewMax(cs: CategoryScores, i: nat)
    requires cs.Valid() && i < |cs.order|
    requires cs.scores[cs.order[i]].viewTime >= 1.0
    requires forall c :: c in cs.scores ==> cs.scores[c].viewTime <= cs.scores[cs.order[i]].viewTime
    ensures MaxOf(ViewValues(cs)) == cs.scores[cs.order[i]].viewTime
  {
    var vv := ViewValues(cs);
    assert vv[i] == cs.scores[cs.order[i]].viewTime;
    MaxOfReached(vv, vv[i]);
  }

  /** A value that bounds the list and occurs in it is its maximum. */
  lemma MaxOfReached(xs: seq<real>, m: real)
    requires m in xs && forall k :: 0 <= k < |xs| ==> xs[k] <= m
    ensures MaxOf(xs) == m
  {
  }

  /** Measured against itself on both sides, an entry scores 100. */
  lemma InterestOfLeader(t: Tally)
    requires t.clicks >= 1 && t.viewTime > 0.0
    ensures Interest(t, t.clicks as real, t.viewTime) == 100.0
  {
    assert t.clicks as real / t.clicks as real == 1.0;
    assert t.viewTime / t.viewTime == 1.0;
  }

  /**
   * In terms of the interactions: the category with the most clicks and the
   * most view time (at least one of each unit) is scored 100.
   */
  lemma InferredLeader(clicks: seq<Click>, views: seq<View>, i: nat)
    requires i < |Categories(clicks, views)|
    requires var c := Categories(clicks, views)[i];
             ClickCount(clicks, c) >= 1 && ViewTime(views, c) >= 1.0
             && forall d :: ClickCount(clicks, d) <= ClickCount(clicks, c) && ViewTime(views, d) <= ViewTime(views, c)
    ensures Inferred(clicks, views)[i].interest == 100.0
  {
    TalliedValid(clicks, views);
    NormaliseLeader(Tallied(clicks, views), i);
  }
}
