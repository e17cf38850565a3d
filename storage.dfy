/**
 * The record store of `storage.ts` (and its twin `storage.js`): two collections,
 * shops and flavors, and a settings object, each kept as one JSON blob under its
 * own storage key.
 *
 * Every read parses a blob, falling back to a default when the key is absent or
 * the text does not parse. Reading also turns the stored date texts back into
 * times, using the current time for a date that does not parse. Every mutation
 * reads the whole collection, changes the array and writes all of it back.
 */
module Storage {
  import opened Records
  import opened Text
  import opened Seqs

  /** What one storage key holds: nothing, text that does not parse, or a parsed value. */
  datatype Blob<T> = Absent | Corrupt | Stored(value: T)

  /** `parseStoredData(key, defaultValue)`: the parsed value, or the default when there is none. */
  function Load<T>(b: Blob<T>, default: T): (r: T)
    ensures b.Stored? ==> r == b.value
    ensures !b.Stored? ==> r == default
  {
    match b
    case Stored(v) => v
    case _ => default
  }

  /** `parseDate(text)`: the time the text names, or the current time when it names none. */
  function ParseDate(s: Stamp, now: int): (t: int)
    ensures s.At? ==> t == s.millis
    ensures s.Unparsable? ==> t == now
  {
    match s
    case At(ms) => ms
    case Unparsable => now
  }

  /** A date written by `JSON.stringify`: its ISO text, which reads back as the same time. */
  function StoreDate(t: int): (s: Stamp)
    ensures ParseDate(s, 0) == t
  {
    At(t)
  }

  /** One element of `getShops`' `map`: both dates parsed, every other key kept. */
  function NormalizeShop(s: StoredShop, now: int): Shop {
    ShopOf(s.id, s.name, s.address, s.phone, s.openingHours, s.website, s.memo,
      ParseDate(s.createdAt, now), ParseDate(s.updatedAt, now))
  }

  /** One element of `getFlavors`' `map`: `smokedAt` is parsed only when it is set. */
  function NormalizeFlavor(f: StoredFlavor, now: int): Flavor {
    FlavorOf(f.id, f.name, f.flavors, f.shopId, f.score, f.memo, f.tags,
      if f.smokedAt.Some? then Some(ParseDate(f.smokedAt.value, now)) else None,
      ParseDate(f.createdAt, now), ParseDate(f.updatedAt, now))
  }

  /** `getShops` on the parsed array: every record mapped, in order. */
  function GetShops(stored: seq<StoredShop>, now: int): (r: seq<Shop>)
    ensures |r| == |stored|
    ensures forall i :: 0 <= i < |stored| ==> r[i] == NormalizeShop(stored[i], now)
  {
    seq(|stored|, i requires 0 <= i < |stored| => NormalizeShop(stored[i], now))
  }

  function GetFlavors(stored: seq<StoredFlavor>, now: int): (r: seq<Flavor>)
    ensures |r| == |stored|
    ensures forall i :: 0 <= i < |stored| ==> r[i] == NormalizeFlavor(stored[i], now)
  {
    seq(|stored|, i requires 0 <= i < |stored| => NormalizeFlavor(stored[i], now))
  }

  function StoreShop(s: Shop): StoredShop {
    ShopOf(s.id, s.name, s.address, s.phone, s.openingHours, s.website, s.memo,
      StoreDate(s.createdAt), StoreDate(s.updatedAt))
  }

  function StoreFlavor(f: Flavor): StoredFlavor {
    FlavorOf(f.id, f.name, f.flavors, f.shopId, f.score, f.memo, f.tags,
      if f.smokedAt.Some? then Some(StoreDate(f.smokedAt.value)) else None,
      StoreDate(f.createdAt), StoreDate(f.updatedAt))
  }

  /** `saveToStorage(key, list)`: what the blob holds after the list is written. */
  function StoreShops(list: seq<Shop>): (r: seq<StoredShop>)
    ensures |r| == |list|
    ensures forall i :: 0 <= i < |list| ==> r[i] == StoreShop(list[i])
  {
    seq(|list|, i requires 0 <= i < |list| => StoreShop(list[i]))
  }

  function StoreFlavors(list: seq<Flavor>): (r: seq<StoredFlavor>)
    ensures |r| == |list|
    ensures forall i :: 0 <= i < |list| ==> r[i] == StoreFlavor(list[i])
  {
    seq(|list|, i requires 0 <= i < |list| => StoreFlavor(list[i]))
  }

  /** A written shop list reads back as itself, at any time. */
  lemma ShopsRoundTrip(list: seq<Shop>, now: int)
    ensures GetShops(StoreShops(list), now) == list
  {
    var r := GetShops(StoreShops(list), now);
    forall i | 0 <= i < |list| ensures r[i] == list[i] {
      assert r[i] == NormalizeShop(StoreShop(list[i]), now);
    }
  }

  lemma FlavorsRoundTrip(list: seq<Flavor>, now: int)
    ensures GetFlavors(StoreFlavors(list), now) == list
  {
    var r := GetFlavors(StoreFlavors(list), now);
    forall i | 0 <= i < |list| ensures r[i] == list[i] {
      assert r[i] == NormalizeFlavor(StoreFlavor(list[i]), now);
    }
  }

  /**
   * Reading is stable once a list has been written: a second read, at another
   * time, gives what the first read gave, however the stored dates looked.
   */
  lemma ReadWriteRead(stored: seq<StoredFlavor>, now: int, later: int)
    ensures GetFlavors(StoreFlavors(GetFlavors(stored, now)), later) == GetFlavors(stored, now)
  {
    FlavorsRoundTrip(GetFlavors(stored, now), later);
  }

  /** A stored date that does not parse reads as the time of the read; one that parses reads as itself. */
  lemma NormalizeFlavorDates(f: StoredFlavor, now: int)
    ensures f.createdAt.Unparsable? ==> NormalizeFlavor(f, now).createdAt == now
    ensures f.createdAt.At? ==> NormalizeFlavor(f, now).createdAt == f.createdAt.millis
    ensures f.smokedAt.None? <==> NormalizeFlavor(f, now).smokedAt.None?
    ensures f.smokedAt.Some? && f.smokedAt.value.Unparsable? ==> NormalizeFlavor(f, now).smokedAt == Some(now)
  {
  }

  /** `list.find(x => x.id === id) || null`: the first record with the id, if any. */
  function Find<T>(list: seq<T>, id: string, idOf: T -> string): (r: Option<T>)
    ensures r.None? <==> forall j :: 0 <= j < |list| ==> idOf(list[j]) != id
    ensures r.Some? ==> exists i :: IsFirst(list, i, id, idOf) && r.value == list[i]
  {
    var i := IndexOf(list, id, idOf);
    if i == -1 then None else Some(list[i])
  }

  /** A record appended with a fresh id is what a lookup of that id then finds. */
  lemma FindAppended<T>(list: seq<T>, x: T, idOf: T -> string)
    requires FreshId(list, idOf(x), idOf)
    ensures Find(list + [x], idOf(x), idOf) == Some(x)
  {
    var r := list + [x];
    assert IsFirst(r, |list|, idOf(x), idOf) by {
      forall j | 0 <= j < |list| ensures idOf(r[j]) != idOf(x) { assert r[j] == list[j]; }
    }
    var i := IndexOf(r, idOf(x), idOf);
    FirstIsUnique(r, i, |list|, idOf(x), idOf);
  }

  /** No id names two records of the list. */
  ghost predicate UniqueIds<T>(list: seq<T>, idOf: T -> string) {
    UniqueKeys(list, idOf)
  }

  /** `id` names no record of the list: what a fresh `crypto.randomUUID()` is taken to be. */
  ghost predicate FreshId<T>(list: seq<T>, id: string, idOf: T -> string) {
    forall j :: 0 <= j < |list| ==> idOf(list[j]) != id
  }

  /** `after` is `before` without the first record whose id is `id`, and there was one. */
  ghost predicate Removed<T>(before: seq<T>, after: seq<T>, id: string, idOf: T -> string) {
    exists i :: IsFirst(before, i, id, idOf) && after == RemoveAt(before, i)
  }

  /**
   * Removing the record `findIndex` found: the id was not fresh, and unique
   * ids stay unique with none left for `id`.
   */
  lemma RemoveFound<T>(before: seq<T>, index: int, id: string, idOf: T -> string)
    requires index == IndexOf(before, id, idOf) && index != -1
    ensures Removed(before, RemoveAt(before, index), id, idOf) && !FreshId(before, id, idOf)
    ensures UniqueIds(before, idOf) ==>
      UniqueIds(RemoveAt(before, index), idOf) && FreshId(RemoveAt(before, index), id, idOf)
  {
    assert IsFirst(before, index, id, idOf);
    if UniqueIds(before, idOf) {
      RemoveAtKeepsUnique(before, index, idOf);
    }
  }

  /** The three storage keys and the operations of the store on them. */
  class Store {
    var shops: Blob<seq<StoredShop>>
    var flavors: Blob<seq<StoredFlavor>>
    var settings: Blob<Settings>

    /** A browser with nothing stored yet. */
    constructor ()
      ensures shops == Absent && flavors == Absent && settings == Absent
    {
      shops := Absent;
      flavors := Absent;
      settings := Absent;
    }

    /** `getShops()` at time `now`. */
    function Shops(now: int): seq<Shop>
      reads this
    {
      GetShops(Load(shops, []), now)
    }

    /** `getFlavors()` at time `now`. */
    function Flavors(now: int): seq<Flavor>
      reads this
    {
      GetFlavors(Load(flavors, []), now)
    }

    /** `getSettings()`: the stored settings, or the defaults. */
    function CurrentSettings(): (r: Settings)
      reads this
      ensures !settings.Stored? ==> r == DefaultSettings
    {
      Load(settings, DefaultSettings)
    }

    /** `getShop(id)`. */
    function GetShop(id: string, now: int): (r: Option<Shop>)
      reads this
      ensures r.None? <==> FreshId(Shops(now), id, ShopId)
      ensures r.Some? ==> exists i :: IsFirst(Shops(now), i, id, ShopId) && r.value == Shops(now)[i]
    {
      Find(Shops(now), id, ShopId)
    }

    /** `getFlavor(id)`. */
    function GetFlavor(id: string, now: int): (r: Option<Flavor>)
      reads this
      ensures r.None? <==> FreshId(Flavors(now), id, FlavorId)
      ensures r.Some? ==> exists i :: IsFirst(Flavors(now), i, id, FlavorId) && r.value == Flavors(now)[i]
    {
      Find(Flavors(now), id, FlavorId)
    }

    /** `saveToStorage(SHOPS, list)`: the list is written, and reads back as itself at any time. */
    method SaveShops(list: seq<Shop>)
      modifies this
      ensures shops == Stored(StoreShops(list))
      ensures forall t :: Shops(t) == list
      ensures flavors == old(flavors) && settings == old(settings)
    {
      shops := Stored(StoreShops(list));
      forall t ensures Shops(t) == list {
        ShopsRoundTrip(list, t);
      }
    }

    /** `saveToStorage(FLAVORS, list)`, as `SaveShops`. */
    method SaveFlavors(list: seq<Flavor>)
      modifies this
      ensures flavors == Stored(StoreFlavors(list))
      ensures forall t :: Flavors(t) == list
      ensures shops == old(shops) && settings == old(settings)
    {
      flavors := Stored(StoreFlavors(list));
      forall t ensures Flavors(t) == list {
        FlavorsRoundTrip(list, t);
      }
    }

    /**
     * `addShop(data)` with `id` from `crypto.randomUUID()` and `now` from `new Date()`:
     * the new record goes at the end, with both dates `now`; the records before
     * it read as they did. A fresh id keeps the ids unique.
     */
    method AddShop(data: ShopData, id: string, now: int) returns (r: Shop)
      modifies this
      ensures r == ShopOf(id, data.name, data.address, data.phone, data.openingHours,
        data.website, data.memo, now, now)
      ensures Shops(now) == old(Shops(now)) + [r]
      ensures shops == Stored(StoreShops(old(Shops(now)) + [r]))
      ensures flavors == old(flavors) && settings == old(settings)
      ensures UniqueIds(old(Shops(now)), ShopId) && FreshId(old(Shops(now)), id, ShopId) ==>
        UniqueIds(Shops(now), ShopId)
    {
      r := ShopOf(id, data.name, data.address, data.phone, data.openingHours,
        data.website, data.memo, now, now);
      var list := Shops(now);
      list := list + [r];
      SaveShops(list);
      if UniqueIds(old(Shops(now)), ShopId) && FreshId(old(Shops(now)), id, ShopId) {
        AppendKeepsUnique(old(Shops(now)), r, ShopId);
      }
    }

    /**
     * `updateShop(id, updates)`: without a record with the id nothing is written
     * and the result is `null`. Otherwise the first such record becomes
     * `{...old, ...updates, updatedAt: now}` and no other record changes.
     */
    method UpdateShop(id: string, updates: ShopPatch, now: int) returns (r: Option<Shop>)
      modifies this
      ensures FreshId(old(Shops(now)), id, ShopId) ==> r.None? && shops == old(shops)
      ensures r.Some? ==> exists i :: (IsFirst(old(Shops(now)), i, id, ShopId)
        && r.value == MergeShop(old(Shops(now))[i], updates, now)
        && Shops(now) == old(Shops(now))[i := r.value]
        && shops == Stored(StoreShops(Shops(now))))
      ensures r.None? <==> FreshId(old(Shops(now)), id, ShopId)
      ensures flavors == old(flavors) && settings == old(settings)
      ensures UniqueIds(old(Shops(now)), ShopId) && updates.id.Keep? ==> UniqueIds(Shops(now), ShopId)
    {
      var list := Shops(now);
      var index := IndexOf(list, id, ShopId);
      if index == -1 {
        return None;
      }
      var updated := MergeShop(list[index], updates, now);
      list := list[index := updated];
      SaveShops(list);
      if UniqueIds(old(Shops(now)), ShopId) && updates.id.Keep? {
        ReplaceKeepsUnique(old(Shops(now)), index, updated, ShopId);
      }
      r := Some(updated);
    }

    /**
     * `deleteShop(id)`: without a record with the id nothing is written and the
     * result is false. Otherwise the first such record is removed, the others
     * keep their order, and the result is true.
     */
    method DeleteShop(id: string, now: int) returns (deleted: bool)
      modifies this
      ensures !deleted <==> FreshId(old(Shops(now)), id, ShopId)
      ensures !deleted ==> shops == old(shops)
      ensures deleted ==> Removed(old(Shops(now)), Shops(now), id, ShopId) && shops == Stored(StoreShops(Shops(now)))
      ensures flavors == old(flavors) && settings == old(settings)
      ensures UniqueIds(old(Shops(now)), ShopId) ==>
        UniqueIds(Shops(now), ShopId) && FreshId(Shops(now), id, ShopId)
    {
      var list := Shops(now);
      ghost var before := list;
      var index := IndexOf(list, id, ShopId);
      if index == -1 {
        return false;
      }
      list := RemoveAt(list, index);
      RemoveFound(before, index, id, ShopId);
      SaveShops(list);
      deleted := true;
    }

    /** `addFlavor(data)`, as `addShop`. */
    method AddFlavor(data: FlavorData, id: string, now: int) returns (r: Flavor)
      modifies this
      ensures r == FlavorOf(id, data.name, data.flavors, data.shopId, data.score, data.memo,
        data.tags, data.smokedAt, now, now)
      ensures Flavors(now) == old(Flavors(now)) + [r]
      ensures flavors == Stored(StoreFlavors(old(Flavors(now)) + [r]))
      ensures shops == old(shops) && settings == old(settings)
      ensures UniqueIds(old(Flavors(now)), FlavorId) && FreshId(old(Flavors(now)), id, FlavorId) ==>
        UniqueIds(Flavors(now), FlavorId)
    {
      r := FlavorOf(id, data.name, data.flavors, data.shopId, data.score, data.memo,
        data.tags, data.smokedAt, now, now);
      var list := Flavors(now);
      list := list + [r];
      SaveFlavors(list);
      if UniqueIds(old(Flavors(now)), FlavorId) && FreshId(old(Flavors(now)), id, FlavorId) {
        AppendKeepsUnique(old(Flavors(now)), r, FlavorId);
      }
    }

    /** `updateFlavor(id, updates)`, as `updateShop`. */
    method UpdateFlavor(id: string, updates: FlavorPatch, now: int) returns (r: Option<Flavor>)
      modifies this
      ensures FreshId(old(Flavors(now)), id, FlavorId) ==> r.None? && flavors == old(flavors)
      ensures r.Some? ==> exists i :: (IsFirst(old(Flavors(now)), i, id, FlavorId)
        && r.value == MergeFlavor(old(Flavors(now))[i], updates, now)
        && Flavors(now) == old(Flavors(now))[i := r.value]
        && flavors == Stored(StoreFlavors(Flavors(now))))
      ensures r.None? <==> FreshId(old(Flavors(now)), id, FlavorId)
      ensures shops == old(shops) && settings == old(settings)
      ensures UniqueIds(old(Flavors(now)), FlavorId) && updates.id.Keep? ==> UniqueIds(Flavors(now), FlavorId)
    {
      var list := Flavors(now);
      var index := IndexOf(list, id, FlavorId);
      if index == -1 {
        return None;
      }
      var updated := MergeFlavor(list[index], updates, now);
      list := list[index := updated];
      SaveFlavors(list);
      if UniqueIds(old(Flavors(now)), FlavorId) && updates.id.Keep? {
        ReplaceKeepsUnique(old(Flavors(now)), index, updated, FlavorId);
      }
      r := Some(updated);
    }

    /** `deleteFlavor(id)`, as `deleteShop`. */
    method DeleteFlavor(id: string, now: int) returns (deleted: bool)
      modifies this
      ensures !deleted <==> FreshId(old(Flavors(now)), id, FlavorId)
      ensures !deleted ==> flavors == old(flavors)
      ensures deleted ==> Removed(old(Flavors(now)), Flavors(now), id, FlavorId) && flavors == Stored(StoreFlavors(Flavors(now)))
      ensures shops == old(shops) && settings == old(settings)
      ensures UniqueIds(old(Flavors(now)), FlavorId) ==>
        UniqueIds(Flavors(now), FlavorId) && FreshId(Flavors(now), id, FlavorId)
    {
      var list := Flavors(now);
      ghost var before := list;
      var index := IndexOf(list, id, FlavorId);
      if index == -1 {
        return false;
      }
      list := RemoveAt(list, index);
      RemoveFound(before, index, id, FlavorId);
      SaveFlavors(list);
      deleted := true;
    }

    /** `updateSettings(updates)`: `{...current, ...updates}`, stored and returned. */
    method UpdateSettings(updates: SettingsPatch) returns (r: Settings)
      modifies this
      ensures r == MergeSettings(old(CurrentSettings()), updates)
      ensures settings == Stored(r) && CurrentSettings() == r
      ensures shops == old(shops) && flavors == old(flavors)
    {
      var current := CurrentSettings();
      r := MergeSettings(current, updates);
      settings := Stored(r);
    }

    /** `backupData()` at time `now`, before it is turned into text. */
    function Backup(now: int): (b: Snapshot)
      reads this
      ensures b.shops == Shops(now) && b.flavors == Flavors(now) && b.settings == CurrentSettings()
      ensures b.exportedAt == now && b.version == BackupVersion
    {
      Snapshot(Shops(now), Flavors(now), CurrentSettings(), now, BackupVersion)
    }

    /**
     * `restoreData(text)`: false when the text does not parse or parses to
     * `null`. Otherwise each of the three keys the document holds with a truthy
     * value overwrites its blob; the others are left alone.
     */
    method Restore(backup: BackupText) returns (ok: bool)
      modifies this
      ensures ok <==> backup.Parsed?
      ensures !ok ==> shops == old(shops) && flavors == old(flavors) && settings == old(settings)
      ensures ok ==> shops == (if backup.doc.shops.Some? then Stored(backup.doc.shops.value) else old(shops))
      ensures ok ==> flavors == (if backup.doc.flavors.Some? then Stored(backup.doc.flavors.value) else old(flavors))
      ensures ok ==> settings == (if backup.doc.settings.Some? then Stored(backup.doc.settings.value) else old(settings))
    {
      if !backup.Parsed? {
        return false;
      }
      var data := backup.doc;
      if data.shops.Some? {
        shops := Stored(data.shops.value);
      }
      if data.flavors.Some? {
        flavors := Stored(data.flavors.value);
      }
      if data.settings.Some? {
        settings := Stored(data.settings.value);
      }
      ok := true;
    }
  }

  const BackupVersion: string := "1.0.0"

  /** The object `backupData` serialises. */
  datatype Snapshot = Snapshot(
    shops: seq<Shop>,
    flavors: seq<Flavor>,
    settings: Settings,
    exportedAt: int,
    version: string)

  /**
   * What `JSON.parse` makes of a document, as far as `restoreData` looks at it:
   * each of its three keys is absent or falsy (`None`) or holds a value.
   */
  datatype Document = Document(
    shops: Option<seq<StoredShop>>,
    flavors: Option<seq<StoredFlavor>>,
    settings: Option<Settings>)

  /** The text given to `restoreData`: not JSON, the JSON `null`, or another JSON value. */
  datatype BackupText = Malformed | NullDocument | Parsed(doc: Document)

  /** The document a backup's text parses back to: dates as text, every key present. */
  function BackupDocument(b: Snapshot): (d: Document)
    ensures d.shops.Some? && d.flavors.Some? && d.settings.Some?
  {
    Document(Some(StoreShops(b.shops)), Some(StoreFlavors(b.flavors)), Some(b.settings))
  }

  /** Restoring a backup brings back the shops, flavors and settings it holds. */
  lemma BackupRoundTrip(b: Snapshot, later: int)
    ensures GetShops(Load(Stored(BackupDocument(b).shops.value), []), later) == b.shops
    ensures GetFlavors(Load(Stored(BackupDocument(b).flavors.value), []), later) == b.flavors
    ensures Load(Stored(BackupDocument(b).settings.value), DefaultSettings) == b.settings
  {
    ShopsRoundTrip(b.shops, later);
    FlavorsRoundTrip(b.flavors, later);
  }

  /** A record matches a lower-cased query when the lower-cased text of one of its fields contains it. */
  predicate ShopMatches(s: Shop, lowerQuery: string) {
    || Contains(Lower(s.name), lowerQuery)
    || (Truthy(s.address) && Contains(Lower(s.address.value), lowerQuery))
    || (Truthy(s.memo) && Contains(Lower(s.memo.value), lowerQuery))
  }

  predicate SomeContains(list: seq<string>, lowerQuery: string) {
    exists i | 0 <= i < |list| :: Contains(Lower(list[i]), lowerQuery)
  }

  predicate FlavorMatches(f: Flavor, lowerQuery: string) {
    || Contains(Lower(f.name), lowerQuery)
    || SomeContains(f.flavors, lowerQuery)
    || (Truthy(f.memo) && Contains(Lower(f.memo.value), lowerQuery))
    || (f.tags.Some? && SomeContains(f.tags.value, lowerQuery))
  }

  /**
   * `searchShops(query)` over the shops read: all of them when the query is
   * blank, and otherwise, in their order and as often as they occur, those matching the lower-cased
 * query,
   * which is not trimmed.
   */
  function SearchShops(shops: seq<Shop>, query: string): (r: seq<Shop>)
    ensures IsBlank(query) ==> r == shops
    ensures !IsBlank(query) ==> forall s :: s in r <==> s in shops && ShopMatches(s, Lower(query))
    ensures !IsBlank(query) ==> forall s :: multiset(r)[s] == if ShopMatches(s, Lower(query)) then multiset(shops)[s] else 0
    ensures IsSubsequence(r, shops)
  {
    if Trim(query) == [] then
      SubsequenceOfSelf(shops);
      shops
    else
      var matches := s => ShopMatches(s, Lower(query));
      FilterCounts(shops, matches);
      Filter(shops, matches)
  }

  /** `searchFlavors(query)`, as `searchShops` over a flavor's name, ingredients, memo and tags. */
  function SearchFlavors(flavors: seq<Flavor>, query: string): (r: seq<Flavor>)
    ensures IsBlank(query) ==> r == flavors
    ensures !IsBlank(query) ==> forall f :: f in r <==> f in flavors && FlavorMatches(f, Lower(query))
    ensures !IsBlank(query) ==> forall f :: multiset(r)[f] == if FlavorMatches(f, Lower(query)) then multiset(flavors)[f] else 0
    ensures IsSubsequence(r, flavors)
  {
    if Trim(query) == [] then
      SubsequenceOfSelf(flavors);
      flavors
    else
      var matches := f => FlavorMatches(f, Lower(query));
      FilterCounts(flavors, matches);
      Filter(flavors, matches)
  }

  /** `filterFlavorsByScore(minScore, maxScore = 5)`: in order and as often as they occur, the flavors scored within the bounds. */
  function FilterFlavorsByScore(flavors: seq<Flavor>, minScore: int, maxScore: int := 5): (r: seq<Flavor>)
    ensures forall f :: f in r <==> f in flavors && minScore <= f.score <= maxScore
    ensures forall f :: multiset(r)[f] == if minScore <= f.score <= maxScore then multiset(flavors)[f] else 0
    ensures IsSubsequence(r, flavors)
  {
    var within := (f: Flavor) => f.score >= minScore && f.score <= maxScore;
    FilterCounts(flavors, within);
    Filter(flavors, within)
  }

  /** `filterFlavorsByShop(shopId)`: in order and as often as they occur, the flavors linked to that shop. */
  function FilterFlavorsByShop(flavors: seq<Flavor>, shopId: string): (r: seq<Flavor>)
    ensures forall f :: f in r <==> f in flavors && f.shopId == Some(shopId)
    ensures forall f :: multiset(r)[f] == if f.shopId == Some(shopId) then multiset(flavors)[f] else 0
    ensures IsSubsequence(r, flavors)
  {
    var linked := (f: Flavor) => f.shopId == Some(shopId);
    FilterCounts(flavors, linked);
    Filter(flavors, linked)
  }

  /** A key of a flavor as `a[sortBy]` gives it: missing, a number (a date is its time) or text. */
  datatype KeyValue = Undefined | Number(n: int) | Text(s: string)

  /** The `sortBy` argument: one of `Flavor`'s keys, or a name that is none of them. */
  datatype FlavorKey =
    | IdKey | NameKey | FlavorsKey | ShopIdKey | ScoreKey | MemoKey | TagsKey
    | SmokedAtKey | CreatedAtKey | UpdatedAtKey | NoKey

  /** The key a property name selects. */
  function KeyNamed(name: string): (k: FlavorKey)
    ensures k == NoKey <==> name !in ["id", "name", "flavors", "shopId", "score", "memo", "tags", "smokedAt", "createdAt", "updatedAt"]
  {
    if name == "id" then IdKey
    else if name == "name" then NameKey
    else if name == "flavors" then FlavorsKey
    else if name == "shopId" then ShopIdKey
    else if name == "score" then ScoreKey
    else if name == "memo" then MemoKey
    else if name == "tags" then TagsKey
    else if name == "smokedAt" then SmokedAtKey
    else if name == "createdAt" then CreatedAtKey
    else if name == "updatedAt" then UpdatedAtKey
    else NoKey
  }

  function OptionalText(o: Option<string>): KeyValue {
    if o.Some? then Text(o.value) else Undefined
  }

  /** `f[k]`; an array compares with `<` as its elements joined by commas. */
  function KeyOf(f: Flavor, k: FlavorKey): KeyValue {
    match k
    case IdKey => Text(f.id)
    case NameKey => Text(f.name)
    case FlavorsKey => Text(Join(f.flavors, ","))
    case ShopIdKey => OptionalText(f.shopId)
    case ScoreKey => Number(f.score)
    case MemoKey => OptionalText(f.memo)
    case TagsKey => if f.tags.Some? then Text(Join(f.tags.value, ",")) else Undefined
    case SmokedAtKey => if f.smokedAt.Some? then Number(f.smokedAt.value) else Undefined
    case CreatedAtKey => Number(f.createdAt)
    case UpdatedAtKey => Number(f.updatedAt)
    case NoKey => Undefined
  }

  /** `a < b` on two defined keys of the same kind. */
  predicate Below(a: KeyValue, b: KeyValue) {
    || (a.Number? && b.Number? && a.n < b.n)
    || (a.Text? && b.Text? && LexLess(a.s, b.s))
  }

  /** `sortFlavors`' comparator on two key values. */
  function Compare(a: KeyValue, b: KeyValue, order: SortOrder): int {
    if a == b then 0
    else if a.Undefined? then 1
    else if b.Undefined? then -1
    else
      var comparison := if Below(b, a) then 1 else if Below(a, b) then -1 else 0;
      if order == Desc then -comparison else comparison
  }

  /** A missing key sorts after every defined one, in either order. */
  lemma UndefinedLast(a: KeyValue, b: KeyValue, order: SortOrder)
    requires a.Undefined? && !b.Undefined?
    ensures Compare(a, b, order) > 0 && Compare(b, a, order) < 0
  {
  }

  /** Between defined keys, descending order is ascending order turned round. */
  lemma DescReversesAsc(a: KeyValue, b: KeyValue)
    requires !a.Undefined? && !b.Undefined?
    ensures Compare(a, b, Desc) == -Compare(a, b, Asc)
  {
  }

  /** Swapping the arguments negates the comparison. */
  lemma CompareAntisymmetric(a: KeyValue, b: KeyValue, order: SortOrder)
    ensures Compare(b, a, order) == -Compare(a, b, order)
  {
    if a.Text? && b.Text? {
      LexLessTotal(a.s, b.s);
    }
  }

  /** The values of one key: all numbers or all text, besides `undefined`. */
  predicate OneKind(a: KeyValue, b: KeyValue) {
    a.Undefined? || b.Undefined? || (a.Number? && b.Number?) || (a.Text? && b.Text?)
  }

  lemma KeyKinds(f: Flavor, g: Flavor, k: FlavorKey)
    ensures OneKind(KeyOf(f, k), KeyOf(g, k))
  {
  }

  /** "May stay before" on texts: equal, or smaller. */
  lemma TextAtMost(a: string, b: string, c: string)
    requires a == b || LexLess(a, b)
    requires b == c || LexLess(b, c)
    ensures a == c || LexLess(a, c)
  {
    if a != b && b != c {
      LexLessTransitive(a, b, c);
    }
  }

  lemma {:induction false} CompareTransitive(a: KeyValue, b: KeyValue, c: KeyValue, order: SortOrder)
    requires OneKind(a, b) && OneKind(b, c) && OneKind(a, c)
    requires Compare(a, b, order) <= 0 && Compare(b, c, order) <= 0
    ensures Compare(a, c, order) <= 0
  {
    if !a.Undefined? && !b.Undefined? && !c.Undefined? && a.Text? {
      LexLessTotal(a.s, b.s);
      LexLessTotal(b.s, c.s);
      LexLessTotal(a.s, c.s);
      if order == Asc {
        TextAtMost(a.s, b.s, c.s);
      } else {
        TextAtMost(c.s, b.s, a.s);
      }
    }
  }

  /** `(a, b) => …` of `sortFlavors(list, sortBy, order)`. */
  function FlavorOrder(k: FlavorKey, order: SortOrder): (Flavor, Flavor) -> int {
    (a: Flavor, b: Flavor) => Compare(KeyOf(a, k), KeyOf(b, k), order)
  }

  lemma FlavorOrderIsTotalPreorder(k: FlavorKey, order: SortOrder)
    ensures IsTotalPreorder(FlavorOrder(k, order))
  {
    var cmp := FlavorOrder(k, order);
    forall a, b ensures cmp(a, b) <= 0 || cmp(b, a) <= 0 {
      CompareAntisymmetric(KeyOf(a, k), KeyOf(b, k), order);
    }
    forall a, b, c | cmp(a, b) <= 0 && cmp(b, c) <= 0 ensures cmp(a, c) <= 0 {
      KeyKinds(a, b, k);
      KeyKinds(b, c, k);
      KeyKinds(a, c, k);
      CompareTransitive(KeyOf(a, k), KeyOf(b, k), KeyOf(c, k), order);
    }
  }

  /**
   * `sortFlavors(list, sortBy, order)`: a sorted copy. The result holds the
   * same records, each pair in comparator order, and the sort is stable.
   */
  function SortFlavors(flavors: seq<Flavor>, k: FlavorKey, order: SortOrder): (r: seq<Flavor>)
    ensures multiset(r) == multiset(flavors)
    ensures SortedBy(r, FlavorOrder(k, order))
  {
    FlavorOrderIsTotalPreorder(k, order);
    SortBySorted(flavors, FlavorOrder(k, order));
    SortBy(flavors, FlavorOrder(k, order))
  }

  /**
   * In the sorted list, records without the key come after all records with it;
   * records with it come in ascending order for `asc` and descending for `desc`.
   */
  lemma SortFlavorsOrder(flavors: seq<Flavor>, k: FlavorKey, order: SortOrder, i: int, j: int)
    requires 0 <= i < j < |SortFlavors(flavors, k, order)|
    ensures var r := SortFlavors(flavors, k, order);
      KeyOf(r[i], k).Undefined? ==> KeyOf(r[j], k).Undefined?
    ensures var r := SortFlavors(flavors, k, order);
      !KeyOf(r[j], k).Undefined? && order == Asc ==> !Below(KeyOf(r[j], k), KeyOf(r[i], k))
    ensures var r := SortFlavors(flavors, k, order);
      !KeyOf(r[i], k).Undefined? && order == Desc ==> !Below(KeyOf(r[i], k), KeyOf(r[j], k))
  {
    var r := SortFlavors(flavors, k, order);
    var a, b := KeyOf(r[i], k), KeyOf(r[j], k);
    assert FlavorOrder(k, order)(r[i], r[j]) <= 0;
    assert Compare(a, b, order) <= 0;
    if a.Text? && b.Text? {
      LexLessTotal(a.s, b.s);
    }
  }
}
