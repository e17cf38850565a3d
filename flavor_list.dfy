/**
 * The flavor list page of `flavor-list.js`: a search query, a minimum-score
 * filter, a shop filter and a sort choice, which `applyFiltersAndSort`
 * turns into the list shown, and the counter above it.
 */
module FlavorList {
  import opened Records
  import opened Text
  import opened Seqs
  import opened Storage

  /** The value of `c` as a digit in base `radix` (10 or 16), or -1 when it is not one. */
  function DigitValue(c: char, radix: int): int {
    if '0' <= c <= '9' then c as int - '0' as int
    else if radix == 16 && 'a' <= c <= 'f' then c as int - 'a' as int + 10
    else if radix == 16 && 'A' <= c <= 'F' then c as int - 'A' as int + 10
    else -1
  }

  /** How many digits `s` starts with. */
  function DigitRun(s: string, radix: int): (n: nat)
    ensures n <= |s|
    ensures forall i :: 0 <= i < n ==> DigitValue(s[i], radix) >= 0
    ensures n < |s| ==> DigitValue(s[n], radix) < 0
  {
    if s == [] || DigitValue(s[0], radix) < 0 then 0 else 1 + DigitRun(s[1..], radix)
  }

  /** The number that digits spell, the most significant first. */
  function DigitsValue(s: string, radix: int): int
    requires forall i :: 0 <= i < |s| ==> DigitValue(s[i], radix) >= 0
  {
    if s == [] then 0
    else DigitsValue(s[..|s| - 1], radix) * radix + DigitValue(s[|s| - 1], radix)
  }

  /**
   * `parseInt(s)` with no radix: leading white space is skipped, then a sign,
   * then `0x` or `0X` switches to base 16; the longest run of digits that
   * follows is the value, and without one the result is `NaN` (`None`).
   */
  function ParseInt(s: string): (r: Option<int>)
  {
    var t := TrimStart(s);
    if t != [] && t[0] == '-' then Negate(Unsigned(t[1..]))
    else if t != [] && t[0] == '+' then Unsigned(t[1..])
    else Unsigned(t)
  }

  function Negate(o: Option<int>): Option<int> {
    if o.Some? then Some(-o.value) else None
  }

  /** The digits after the sign: base 16 after `0x` or `0X`, base 10 otherwise. */
  function Unsigned(u: string): Option<int> {
    var hex := |u| >= 2 && u[0] == '0' && (u[1] == 'x' || u[1] == 'X');
    var radix := if hex then 16 else 10;
    var v := if hex then u[2..] else u;
    var n := DigitRun(v, radix);
    if n == 0 then None else Some(DigitsValue(v[..n], radix))
  }

  predicate IsDecimalNumeral(s: string) {
    s != [] && forall i :: 0 <= i < |s| ==> '0' <= s[i] <= '9'
  }

  /** A decimal numeral parses to the number it spells. */
  lemma ParseIntDecimal(s: string)
    requires IsDecimalNumeral(s)
    ensures ParseInt(s) == Some(DigitsValue(s, 10))
  {
    NoLeadingSpace(s);
    UnsignedDecimal(s);
  }

  lemma NoLeadingSpace(s: string)
    requires s != [] && !IsWhiteSpace(s[0])
    ensures TrimStart(s) == s
  {
  }

  /** Decimal digits, not followed by more, are their own value. */
  lemma UnsignedDecimal(s: string)
    requires IsDecimalNumeral(s)
    ensures Unsigned(s) == Some(DigitsValue(s, 10))
  {
    DigitRunOfPrefix(s, |s|, 10);
    assert s[..|s|] == s;
  }

  /** Whatever follows the digits is ignored, unless it turns a lone `0` into a `0x` prefix. */
  lemma ParseIntIgnoresRest(s: string, rest: string)
    requires IsDecimalNumeral(s)
    requires rest == [] || DigitValue(rest[0], 10) < 0
    requires !(s == "0" && rest != [] && (rest[0] == 'x' || rest[0] == 'X'))
    ensures ParseInt(s + rest) == ParseInt(s)
  {
    var w := s + rest;
    assert w[0] == s[0];
    NoLeadingSpace(w);
    NoLeadingSpace(s);
    UnsignedIgnoresRest(s, rest);
  }

  lemma UnsignedIgnoresRest(s: string, rest: string)
    requires IsDecimalNumeral(s)
    requires rest == [] || DigitValue(rest[0], 10) < 0
    requires !(s == "0" && rest != [] && (rest[0] == 'x' || rest[0] == 'X'))
    ensures Unsigned(s + rest) == Unsigned(s)
  {
    var w := s + rest;
    UnsignedDecimal(s);
    assert !(|w| >= 2 && w[0] == '0' && (w[1] == 'x' || w[1] == 'X')) by {
      if |s| >= 2 { assert w[1] == s[1]; } else if rest != [] { assert w[1] == rest[0]; }
    }
    forall i | 0 <= i < |s| ensures DigitValue(w[i], 10) >= 0 { assert w[i] == s[i]; }
    assert |s| < |w| ==> w[|s|] == rest[0];
    DigitRunOfPrefix(w, |s|, 10);
    assert w[..|s|] == s;
  }

  lemma DigitRunOfPrefix(s: string, n: nat, radix: int)
    requires n <= |s|
    requires forall i :: 0 <= i < n ==> DigitValue(s[i], radix) >= 0
    requires n < |s| ==> DigitValue(s[n], radix) < 0
    ensures DigitRun(s, radix) == n
  {
    var m := DigitRun(s, radix);
    assert m < |s| ==> DigitValue(s[m], radix) < 0;
    assert n < |s| ==> DigitValue(s[n], radix) < 0;
  }

  /** Text that starts with neither a digit nor a sign is `NaN`. */
  lemma ParseIntNotANumber(s: string)
    requires s == [] || (DigitValue(s[0], 10) < 0 && !IsWhiteSpace(s[0]) && s[0] != '-' && s[0] != '+')
    ensures ParseInt(s) == None
  {
  }

  /** Leading white space does not change the result. */
  lemma ParseIntSkipsWhiteSpace(c: char, s: string)
    requires IsWhiteSpace(c)
    ensures ParseInt([c] + s) == ParseInt(s)
  {
    var w := [c] + s;
    assert w[1..] == s;
    assert Leading(w) == 1 + Leading(s);
    assert TrimStart(w) == TrimStart(s);
  }

  /** A `-` negates what follows it, and a `+` leaves it as it is. */
  lemma ParseIntSign(u: string)
    ensures ParseInt("-" + u) == Negate(Unsigned(u))
    ensures ParseInt("+" + u) == Unsigned(u)
  {
    var m, p := "-" + u, "+" + u;
    NoLeadingSpace(m);
    NoLeadingSpace(p);
    assert m[1..] == u && p[1..] == u;
  }

  predicate IsHexNumeral(s: string) {
    s != [] && forall i :: 0 <= i < |s| ==> DigitValue(s[i], 16) >= 0
  }

  /** After `0x` or `0X` the digits are read in base 16. */
  lemma ParseIntHex(h: string)
    requires IsHexNumeral(h)
    ensures ParseInt("0x" + h) == Some(DigitsValue(h, 16))
    ensures ParseInt("0X" + h) == Some(DigitsValue(h, 16))
  {
    UnsignedHex("0x" + h, h);
    UnsignedHex("0X" + h, h);
  }

  lemma UnsignedHex(w: string, h: string)
    requires IsHexNumeral(h)
    requires |w| == |h| + 2 && w[0] == '0' && (w[1] == 'x' || w[1] == 'X') && w[2..] == h
    ensures ParseInt(w) == Some(DigitsValue(h, 16))
  {
    NoLeadingSpace(w);
    DigitRunOfPrefix(h, |h|, 16);
    assert h[..|h|] == h;
  }

  /** `score >= minScore` for each flavor; `NaN` keeps none. */
  function AtLeast(flavors: seq<Flavor>, minScore: Option<int>): (r: seq<Flavor>)
    ensures forall f :: f in r <==> f in flavors && minScore.Some? && f.score >= minScore.value
    ensures forall f :: multiset(r)[f] == if minScore.Some? && f.score >= minScore.value then multiset(flavors)[f] else 0
    ensures IsSubsequence(r, flavors)
  {
    var passes := (f: Flavor) => minScore.Some? && f.score >= minScore.value;
    FilterCounts(flavors, passes);
    Filter(flavors, passes)
  }

  /**
   * `const [sortBy, sortOrder] = currentSort.split(':')`: the key named before
   * the first `:`, and descending order exactly when the piece after it is `desc`.
   */
  function SortSetting(currentSort: string): (FlavorKey, SortOrder) {
    var i := IndexOf(currentSort, ':', Self);
    if i < 0 then (KeyNamed(currentSort), Asc)
    else
      var rest := currentSort[i + 1..];
      var j := IndexOf(rest, ':', Self);
      var second := if j < 0 then rest else rest[..j];
      (KeyNamed(currentSort[..i]), if second == "desc" then Desc else Asc)
  }

  /** `"<name>:<order>"` names the key `name` and descending order exactly for `desc`. */
  lemma SortSettingOf(name: string, order: string)
    requires ':' !in name && ':' !in order
    ensures SortSetting(name + ":" + order) == (KeyNamed(name), if order == "desc" then Desc else Asc)
  {
    var s := name + ":" + order;
    assert IsFirst(s, |name|, ':', Self) by {
      forall j | 0 <= j < |name| ensures Self(s[j]) != ':' { assert s[j] == name[j]; }
    }
    assert s[..|name|] == name;
    assert s[|name| + 1..] == order;
  }

  /** The sort the page starts with and returns to: newest first. */
  const DefaultSort: string := "createdAt" + ":" + "desc"

  lemma DefaultSortSetting()
    ensures SortSetting(DefaultSort) == (CreatedAtKey, Desc)
  {
    SortSettingOf("createdAt", "desc");
  }

  /**
   * The list `applyFiltersAndSort` shows: the loaded flavors, or the store's
   * search result when there is a query; then those scored at least the
   * score filter and those of the filtered shop, when these are set; sorted
   * as the sort choice names.
   */
  function Listed(loaded: seq<Flavor>, stored: seq<Flavor>, query: string, scoreFilter: string,
                  shopFilter: string, currentSort: string): seq<Flavor>
  {
    var shopped := ShopStage(ScoreStage(SearchStage(loaded, stored, query), scoreFilter), shopFilter);
    SortFlavors(shopped, SortSetting(currentSort).0, SortSetting(currentSort).1)
  }

  /** The loaded flavors, or the store's search result when there is a query. */
  function SearchStage(loaded: seq<Flavor>, stored: seq<Flavor>, query: string): seq<Flavor> {
    if query != [] then SearchFlavors(stored, query) else loaded
  }

  /** Those scored at least the score filter, when it is set. */
  function ScoreStage(list: seq<Flavor>, scoreFilter: string): seq<Flavor> {
    if scoreFilter != [] then AtLeast(list, ParseInt(scoreFilter)) else list
  }

  /** Those of the filtered shop, when it is set. */
  function ShopStage(list: seq<Flavor>, shopFilter: string): seq<Flavor> {
    if shopFilter != [] then FilterFlavorsByShop(list, shopFilter) else list
  }

  /** Whether a flavor passes the score and shop filters. */
  predicate PassesFilters(f: Flavor, scoreFilter: string, shopFilter: string) {
    && (scoreFilter != [] ==> ParseInt(scoreFilter).Some? && f.score >= ParseInt(scoreFilter).value)
    && (shopFilter != [] ==> f.shopId == Some(shopFilter))
  }

  /**
   * A flavor is listed exactly when it is one of the loaded flavors (with no
   * query), or a stored flavor matching the query (with a query that is not
   * blank), or any stored flavor (with a blank one), and it passes both filters.
   */
  lemma ListedMembers(loaded: seq<Flavor>, stored: seq<Flavor>, query: string, scoreFilter: string,
                      shopFilter: string, currentSort: string, f: Flavor)
    ensures f in Listed(loaded, stored, query, scoreFilter, shopFilter, currentSort) <==>
      && (query == [] ==> f in loaded)
      && (query != [] ==> f in stored && (IsBlank(query) || FlavorMatches(f, Lower(query))))
      && PassesFilters(f, scoreFilter, shopFilter)
  {
    var searched := if query != [] then SearchFlavors(stored, query) else loaded;
    var scored := if scoreFilter != [] then AtLeast(searched, ParseInt(scoreFilter)) else searched;
    var shopped := if shopFilter != [] then FilterFlavorsByShop(scored, shopFilter) else scored;
    var r := Listed(loaded, stored, query, scoreFilter, shopFilter, currentSort);
    assert multiset(r) == multiset(shopped);
    assert f in r <==> f in multiset(shopped);
  }

  /** The list is in the order of the chosen key and direction. */
  lemma ListedSorted(loaded: seq<Flavor>, stored: seq<Flavor>, query: string, scoreFilter: string,
                     shopFilter: string, currentSort: string)
    ensures SortedBy(Listed(loaded, stored, query, scoreFilter, shopFilter, currentSort),
      FlavorOrder(SortSetting(currentSort).0, SortSetting(currentSort).1))
  {
  }

  /** With no query and no filter the list holds the loaded flavors, each as often, only reordered. */
  lemma ListedUnfiltered(loaded: seq<Flavor>, stored: seq<Flavor>, currentSort: string)
    ensures multiset(Listed(loaded, stored, [], [], [], currentSort)) == multiset(loaded)
    ensures |Listed(loaded, stored, [], [], [], currentSort)| == |loaded|
  {
    var r := Listed(loaded, stored, [], [], [], currentSort);
    assert |r| == |multiset(r)| == |multiset(loaded)| == |loaded|;
  }

  /** With nothing chosen, the list is the loaded flavors, newest first. */
  lemma ClearedList(loaded: seq<Flavor>, stored: seq<Flavor>)
    ensures multiset(Listed(loaded, stored, [], [], [], DefaultSort)) == multiset(loaded)
    ensures SortedBy(Listed(loaded, stored, [], [], [], DefaultSort), FlavorOrder(CreatedAtKey, Desc))
  {
    ListedUnfiltered(loaded, stored, DefaultSort);
    ListedSorted(loaded, stored, [], [], [], DefaultSort);
    DefaultSortSetting();
  }

  /** A score filter that is not a number leaves nothing to show. */
  lemma ListedNotANumber(loaded: seq<Flavor>, stored: seq<Flavor>, query: string, scoreFilter: string,
                         shopFilter: string, currentSort: string)
    requires scoreFilter != [] && ParseInt(scoreFilter).None?
    ensures Listed(loaded, stored, query, scoreFilter, shopFilter, currentSort) == []
  {
    var r := Listed(loaded, stored, query, scoreFilter, shopFilter, currentSort);
    if r != [] {
      ListedMembers(loaded, stored, query, scoreFilter, shopFilter, currentSort, r[0]);
      assert false;
    }
  }

  /**
   * The body of `applyFiltersAndSort`: starts from the loaded flavors and
   * replaces the list by each step that applies.
   */
  method Rebuild(loaded: seq<Flavor>, stored: seq<Flavor>, query: string, scoreFilter: string,
                 shopFilter: string, currentSort: string) returns (filtered: seq<Flavor>)
    ensures filtered == Listed(loaded, stored, query, scoreFilter, shopFilter, currentSort)
    ensures query == [] && scoreFilter == [] && shopFilter == [] ==> |filtered| == |loaded|
  {
    filtered := loaded;
    if query != [] {
      filtered := SearchFlavors(stored, query);
    }
    assert filtered == SearchStage(loaded, stored, query);
    if scoreFilter != [] {
      var minScore := ParseInt(scoreFilter);
      filtered := AtLeast(filtered, minScore);
    }
    assert filtered == ScoreStage(SearchStage(loaded, stored, query), scoreFilter);
    if shopFilter != [] {
      filtered := FilterFlavorsByShop(filtered, shopFilter);
    }
    assert filtered == ShopStage(ScoreStage(SearchStage(loaded, stored, query), scoreFilter), shopFilter);
    var setting := SortSetting(currentSort);
    filtered := SortFlavors(filtered, setting.0, setting.1);
  }

  class FlavorListController {
    var flavors: seq<Flavor>
    var shops: seq<Shop>
    var filteredFlavors: seq<Flavor>
    var searchQuery: string
    var scoreFilter: string
    var shopFilter: string
    var currentSort: string

    /** The list shown for the current choices, with `stored` what the store holds now. */
    function Shown(stored: seq<Flavor>): seq<Flavor>
      reads this
    {
      Listed(flavors, stored, searchQuery, scoreFilter, shopFilter, currentSort)
    }

    /** The choices the page holds. */
    ghost function Choices(): (string, string, string, string)
      reads this
    {
      (searchQuery, scoreFilter, shopFilter, currentSort)
    }

    /** The state before `loadData`: nothing loaded, no query or filter, newest first. */
    constructor ()
      ensures flavors == [] && shops == [] && filteredFlavors == []
      ensures Choices() == ([], [], [], DefaultSort)
    {
      flavors, shops, filteredFlavors := [], [], [];
      searchQuery, scoreFilter, shopFilter := [], [], [];
      currentSort := DefaultSort;
    }

    /**
     * `updateFlavorCount`: the number of listed flavors while a query or a
     * filter is set, and otherwise the number loaded.
     */
    function FlavorCount(): (n: nat)
      reads this
      ensures searchQuery != [] || scoreFilter != [] || shopFilter != [] ==> n == |filteredFlavors|
      ensures searchQuery == [] && scoreFilter == [] && shopFilter == [] ==> n == |flavors|
    {
      if searchQuery != [] || scoreFilter != [] || shopFilter != [] then |filteredFlavors| else |flavors|
    }

    /**
     * `applyFiltersAndSort`: the list is rebuilt one step at a time. Afterwards
     * the counter shows the length of the list.
     */
    method ApplyFiltersAndSort(store: Store, now: int)
      modifies this
      ensures filteredFlavors == Shown(store.Flavors(now))
      ensures flavors == old(flavors) && shops == old(shops) && Choices() == old(Choices())
      ensures FlavorCount() == |filteredFlavors|
    {
      Refilter(store.Flavors(now));
    }

    /** The rebuild of `applyFiltersAndSort`, with `stored` the flavors `searchFlavors` reads from the store. */
    method Refilter(stored: seq<Flavor>)
      modifies this
      ensures filteredFlavors == Shown(stored)
      ensures flavors == old(flavors) && shops == old(shops) && Choices() == old(Choices())
      ensures FlavorCount() == |filteredFlavors|
    {
      var filtered := Rebuild(flavors, stored, searchQuery, scoreFilter, shopFilter, currentSort);
      filteredFlavors := filtered;
    }

    /** `loadData`: reads the shops and flavors, then builds the list. */
    method LoadData(store: Store, now: int)
      modifies this
      ensures shops == store.Shops(now) && flavors == store.Flavors(now)
      ensures filteredFlavors == Shown(store.Flavors(now))
      ensures Choices() == old(Choices())
    {
      shops := store.Shops(now);
      flavors := store.Flavors(now);
      ApplyFiltersAndSort(store, now);
    }

    /** `handleSearch`: the query is kept trimmed. */
    method HandleSearch(store: Store, query: string, now: int)
      modifies this
      ensures searchQuery == Trim(query)
      ensures (scoreFilter, shopFilter, currentSort) == (old(scoreFilter), old(shopFilter), old(currentSort))
      ensures flavors == old(flavors) && shops == old(shops)
      ensures filteredFlavors == Shown(store.Flavors(now))
    {
      searchQuery := Trim(query);
      ApplyFiltersAndSort(store, now);
    }

    /** `clearFilters`: no query, no filter, and newest first again. */
    method ClearFilters(store: Store, now: int)
      modifies this
      ensures Choices() == ([], [], [], DefaultSort)
      ensures flavors == old(flavors) && shops == old(shops)
      ensures filteredFlavors == Shown(store.Flavors(now))
      ensures multiset(filteredFlavors) == multiset(flavors)
      ensures SortedBy(filteredFlavors, FlavorOrder(CreatedAtKey, Desc))
    {
      searchQuery := [];
      scoreFilter := [];
      shopFilter := [];
      currentSort := DefaultSort;
      ApplyFiltersAndSort(store, now);
      ClearedList(flavors, store.Flavors(now));
    }

    /** The score filter's `change` handler. */
    method SelectScoreFilter(store: Store, value: string, now: int)
      modifies this
      ensures Choices() == (old(searchQuery), value, old(shopFilter), old(currentSort))
      ensures flavors == old(flavors) && shops == old(shops)
      ensures filteredFlavors == Shown(store.Flavors(now))
    {
      scoreFilter := value;
      ApplyFiltersAndSort(store, now);
    }

    /** The shop filter's `change` handler. */
    method SelectShopFilter(store: Store, value: string, now: int)
      modifies this
      ensures Choices() == (old(searchQuery), old(scoreFilter), value, old(currentSort))
      ensures flavors == old(flavors) && shops == old(shops)
      ensures filteredFlavors == Shown(store.Flavors(now))
    {
      shopFilter := value;
      ApplyFiltersAndSort(store, now);
    }

    /** The sort choice's `change` handler. */
    method SelectSort(store: Store, value: string, now: int)
      modifies this
      ensures Choices() == (old(searchQuery), old(scoreFilter), old(shopFilter), value)
      ensures flavors == old(flavors) && shops == old(shops)
      ensures filteredFlavors == Shown(store.Flavors(now))
    {
      currentSort := value;
      ApplyFiltersAndSort(store, now);
    }
  }
}
