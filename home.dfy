/**
 * The dashboard of `index.js`: the counts it shows, the five newest shops and
 * flavors, the six best-rated flavors, whether there is anything to show, and
 * the star and address strings of its items.
 */
module Home {
  import opened Records
  import opened Seqs
  import opened Storage

  function ShopCreated(s: Shop): int { s.createdAt }
  function FlavorCreated(f: Flavor): int { f.createdAt }
  function FlavorScore(f: Flavor): int { f.score }

  /** A flavor scored 4 or more. */
  predicate IsHighRated(f: Flavor) { f.score >= 4 }

  /** `flavors.filter(f => f.score >= 4)`: the high-rated flavors, in order and as often as they occur. */
  function HighRated(flavors: seq<Flavor>): (r: seq<Flavor>)
    ensures forall f :: f in r <==> f in flavors && f.score >= 4
    ensures forall f :: multiset(r)[f] == if f.score >= 4 then multiset(flavors)[f] else 0
    ensures IsSubsequence(r, flavors)
  {
    FilterCounts(flavors, IsHighRated);
    Filter(flavors, IsHighRated)
  }

  /**
   * `flavors.filter(f => f.score >= 4).length`: at most the number of flavors,
   * and all of them exactly when every flavor is high-rated.
   */
  function HighRatedCount(flavors: seq<Flavor>): (n: nat)
    ensures n <= |flavors|
    ensures n == |flavors| <==> forall i :: 0 <= i < |flavors| ==> flavors[i].score >= 4
  {
    FilterLength(flavors, IsHighRated);
    AllHighRated(flavors);
    |HighRated(flavors)|
  }

  lemma AllHighRated(flavors: seq<Flavor>)
    ensures (forall i :: 0 <= i < |flavors| ==> flavors[i].score >= 4) ==> HighRated(flavors) == flavors
  {
    if forall i :: 0 <= i < |flavors| ==> flavors[i].score >= 4 {
      FilterKeepsAll(flavors, IsHighRated);
    }
  }

  /** Adding a flavor raises the count by one exactly when it is high-rated. */
  lemma HighRatedCountSnoc(flavors: seq<Flavor>, f: Flavor)
    ensures HighRatedCount(flavors + [f]) == HighRatedCount(flavors) + if f.score >= 4 then 1 else 0
  {
    FilterSnoc(flavors, f, IsHighRated);
  }

  /** The count does not depend on the order of the flavors, so the page's sorts leave it alone. */
  lemma HighRatedCountOrderFree(a: seq<Flavor>, b: seq<Flavor>)
    requires multiset(a) == multiset(b)
    ensures HighRatedCount(a) == HighRatedCount(b)
  {
    FilterCounts(a, IsHighRated);
    FilterCounts(b, IsHighRated);
    assert multiset(HighRated(a)) == multiset(HighRated(b));
    assert |HighRated(a)| == |multiset(HighRated(a))|;
    assert |HighRated(b)| == |multiset(HighRated(b))|;
  }

  /** `renderHighRatedFlavors`: the high-rated flavors, best first, at most six. */
  function TopRated(flavors: seq<Flavor>): seq<Flavor> {
    TopByKey(HighRated(flavors), FlavorScore, 6)
  }

  /**
   * At most six flavors, with scores not increasing, and fewer than six only
   * when there are no more high-rated ones.
   */
  lemma TopRatedSelects(flavors: seq<Flavor>)
    ensures |TopRated(flavors)| == if HighRatedCount(flavors) <= 6 then HighRatedCount(flavors) else 6
    ensures forall i, j :: 0 <= i < j < |TopRated(flavors)| ==> TopRated(flavors)[i].score >= TopRated(flavors)[j].score
  {
    var r := TopRated(flavors);
    TopByKeySize(HighRated(flavors), FlavorScore, 6);
    TopByKeyOrdered(HighRated(flavors), FlavorScore, 6);
    forall i, j | 0 <= i < j < |r| ensures r[i].score >= r[j].score {
      assert FlavorScore(r[i]) >= FlavorScore(r[j]);
    }
  }

  /** No high-rated flavor left out scores above one selected. */
  lemma TopRatedBest(flavors: seq<Flavor>)
    ensures forall f: Flavor, i :: f in multiset(HighRated(flavors)) - multiset(TopRated(flavors)) && 0 <= i < |TopRated(flavors)| ==>
      f.score <= TopRated(flavors)[i].score
  {
    var high := HighRated(flavors);
    var r := TopRated(flavors);
    TopByKeyBest(high, FlavorScore, 6);
    forall f: Flavor, i | f in multiset(high) - multiset(r) && 0 <= i < |r| ensures f.score <= r[i].score {
      assert FlavorScore(f) <= FlavorScore(r[i]);
    }
  }

  /** Every selected flavor is high-rated and comes from the list, no more often than there. */
  lemma TopRatedFromList(flavors: seq<Flavor>)
    ensures forall f :: f in TopRated(flavors) ==> f in flavors && f.score >= 4
    ensures multiset(TopRated(flavors)) <= multiset(flavors)
  {
    var high := HighRated(flavors);
    var r := TopRated(flavors);
    TopByKeySize(high, FlavorScore, 6);
    FilterCounts(flavors, IsHighRated);
    assert multiset(high) <= multiset(flavors);
    assert multiset(r) <= multiset(flavors);
    forall f | f in r ensures f in flavors && f.score >= 4 {
      assert f in multiset(r);
      assert f in multiset(high);
    }
  }

  /**
   * `list.sort((a, b) => new Date(b.createdAt) - new Date(a.createdAt)).slice(0, 5)`
   * selects at most five, newest first, and none left out is newer than one selected.
   */
  lemma RecentSelects<T(!new)>(list: seq<T>, created: T -> int)
    ensures |TopByKey(list, created, 5)| == if |list| <= 5 then |list| else 5
    ensures multiset(TopByKey(list, created, 5)) <= multiset(list)
    ensures forall i, j :: 0 <= i < j < |TopByKey(list, created, 5)| ==>
      created(TopByKey(list, created, 5)[i]) >= created(TopByKey(list, created, 5)[j])
    ensures forall x, i :: x in multiset(list) - multiset(TopByKey(list, created, 5)) && 0 <= i < |TopByKey(list, created, 5)| ==>
      created(x) <= created(TopByKey(list, created, 5)[i])
  {
    TopByKeySelects(list, created, 5);
  }

  /** `s.repeat(n)` for one character. */
  function Repeat(c: char, n: nat): (r: string)
    ensures |r| == n && forall i :: 0 <= i < n ==> r[i] == c
  {
    seq(n, i => c)
  }

  /**
   * `'★'.repeat(score) + '☆'.repeat(5 - score)`; `repeat` with a negative
   * count throws a `RangeError`, here `None`.
   */
  function Stars(score: int): (r: Option<string>)
    ensures r.Some? <==> 0 <= score <= 5
  {
    if score < 0 || 5 - score < 0 then None
    else Some(Repeat('★', score) + Repeat('☆', 5 - score))
  }

  /** A score from 0 to 5 gives five stars: `score` full ones, then empty ones. */
  lemma StarsShape(score: int)
    requires 0 <= score <= 5
    ensures |Stars(score).value| == 5
    ensures forall i :: 0 <= i < 5 ==> Stars(score).value[i] == if i < score then '★' else '☆'
  {
  }

  /** How many full stars a string has. */
  function FullStars(s: string): nat {
    if s == [] then 0 else (if s[0] == '★' then 1 else 0) + FullStars(s[1..])
  }

  lemma {:induction false} FullStarsConcat(a: string, b: string)
    ensures FullStars(a + b) == FullStars(a) + FullStars(b)
    decreases |a|
  {
    if a == [] {
      assert a + b == b;
    } else {
      assert (a + b)[1..] == a[1..] + b;
      FullStarsConcat(a[1..], b);
    }
  }

  lemma {:induction false} FullStarsRepeat(c: char, n: nat)
    ensures FullStars(Repeat(c, n)) == if c == '★' then n else 0
  {
    if n > 0 {
      assert Repeat(c, n)[1..] == Repeat(c, n - 1);
      FullStarsRepeat(c, n - 1);
    }
  }

  /** The score can be read back from its stars. */
  lemma StarsRoundTrip(score: int)
    requires 0 <= score <= 5
    ensures FullStars(Stars(score).value) == score
  {
    FullStarsConcat(Repeat('★', score), Repeat('☆', 5 - score));
    FullStarsRepeat('★', score);
    FullStarsRepeat('☆', 5 - score);
  }

  /** `address.slice(0, 20)`, then `...` when the address is longer than 20 characters. */
  function AddressPreview(address: string): (r: string)
    ensures |address| <= 20 ==> r == address
    ensures |address| > 20 ==> |r| == 23 && r[..20] == address[..20] && r[20..] == "..."
  {
    if |address| > 20 then address[..20] + "..." else address
  }

  /** Previewing a preview changes nothing. */
  lemma AddressPreviewIdempotent(address: string)
    ensures AddressPreview(AddressPreview(address)) == AddressPreview(address)
  {
    var p := AddressPreview(address);
    if |address| > 20 {
      assert p[..20] + "..." == p[..20] + p[20..] == p;
    }
  }

  datatype Stats = Stats(totalShops: nat, totalFlavors: nat, highRatedCount: nat)

  /** What `loadData` puts on the page. */
  datatype Dashboard = Dashboard(
    stats: Stats,
    recentShops: seq<Shop>,
    recentFlavors: seq<Flavor>,
    topRated: seq<Flavor>,
    hasData: bool)

  class HomeController {
    var shops: seq<Shop>
    var flavors: seq<Flavor>

    constructor ()
      ensures shops == [] && flavors == []
    {
      shops, flavors := [], [];
    }

    /** `updateStatistics`, without the average rating. */
    function Statistics(): (s: Stats)
      reads this
      ensures s.totalShops == |shops| && s.totalFlavors == |flavors|
      ensures s.highRatedCount == HighRatedCount(flavors)
    {
      Stats(|shops|, |flavors|, HighRatedCount(flavors))
    }

    /** `checkEmptyState`: something to show when there is a shop or a flavor. */
    function HasData(): (b: bool)
      reads this
      ensures b <==> |shops| + |flavors| > 0
    {
      |shops| > 0 || |flavors| > 0
    }

    /** `renderRecentShops`: sorts `this.shops` in place, newest first, and shows the first five. */
    method RenderRecentShops() returns (recent: seq<Shop>)
      modifies this
      ensures shops == SortBy(old(shops), ByKeyDescending(ShopCreated))
      ensures multiset(shops) == multiset(old(shops))
      ensures recent == TopByKey(old(shops), ShopCreated, 5) && recent == shops[..|recent|]
      ensures flavors == old(flavors)
    {
      shops := SortBy(shops, ByKeyDescending(ShopCreated));
      recent := Take(shops, 5);
    }

    /** `renderRecentFlavors`: the same on `this.flavors`. */
    method RenderRecentFlavors() returns (recent: seq<Flavor>)
      modifies this
      ensures flavors == SortBy(old(flavors), ByKeyDescending(FlavorCreated))
      ensures multiset(flavors) == multiset(old(flavors))
      ensures recent == TopByKey(old(flavors), FlavorCreated, 5) && recent == flavors[..|recent|]
      ensures shops == old(shops)
    {
      flavors := SortBy(flavors, ByKeyDescending(FlavorCreated));
      recent := Take(flavors, 5);
    }

    /**
     * `loadData`: reads both lists, shows the counts, the recent items (whose
     * sorts reorder the lists), the best-rated flavors of the reordered list,
     * and whether there is anything at all.
     */
    method LoadData(store: Store, now: int) returns (d: Dashboard)
      modifies this
      ensures var s, f := store.Shops(now), store.Flavors(now);
        && shops == SortBy(s, ByKeyDescending(ShopCreated))
        && flavors == SortBy(f, ByKeyDescending(FlavorCreated))
        && multiset(shops) == multiset(s) && multiset(flavors) == multiset(f)
        && d.stats == Stats(|s|, |f|, HighRatedCount(f))
        && d.recentShops == TopByKey(s, ShopCreated, 5)
        && d.recentFlavors == TopByKey(f, FlavorCreated, 5)
        && d.topRated == TopRated(SortBy(f, ByKeyDescending(FlavorCreated)))
        && (d.hasData <==> s != [] || f != [])
      ensures Statistics() == d.stats
    {
      shops := store.Shops(now);
      flavors := store.Flavors(now);
      var stats := Statistics();
      var recentShops := RenderRecentShops();
      var recentFlavors := RenderRecentFlavors();
      var topRated := TopRated(flavors);
      var hasData := HasData();
      HighRatedCountOrderFree(flavors, store.Flavors(now));
      d := Dashboard(stats, recentShops, recentFlavors, topRated, hasData);
    }
  }
}
