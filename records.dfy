/**
 * The records the application keeps: shops, flavors (a shisha mix) and the
 * settings object, with the partial updates that `{...prev, ...updates}` applies.
 *
 * A record read from storage has its dates as text, which may not parse; a
 * record in memory has its dates as milliseconds. Both are one datatype over
 * the type `D` of a date: `Shop`/`Flavor` in memory, `StoredShop`/`StoredFlavor`
 * in storage.
 */
module Records {

  datatype Option<T> = None | Some(value: T)

  /** `undefined` and `''` are falsy; any other string is truthy. */
  predicate Truthy(o: Option<string>) {
    o.Some? && o.value != []
  }

  /** A stored date: text that `new Date(text)` reads as a time, or text it cannot read. */
  datatype Stamp = At(millis: int) | Unparsable

  datatype ShopOf<D> = ShopOf(
    id: string,
    name: string,
    address: Option<string>,
    phone: Option<string>,
    openingHours: Option<string>,
    website: Option<string>,
    memo: Option<string>,
    createdAt: D,
    updatedAt: D)

  type Shop = ShopOf<int>
  type StoredShop = ShopOf<Stamp>

  datatype FlavorOf<D> = FlavorOf(
    id: string,
    name: string,
    flavors: seq<string>,
    shopId: Option<string>,
    score: int,
    memo: Option<string>,
    tags: Option<seq<string>>,
    smokedAt: Option<D>,
    createdAt: D,
    updatedAt: D)

  type Flavor = FlavorOf<int>
  type StoredFlavor = FlavorOf<Stamp>

  /** `Omit<Shop, 'id' | 'createdAt' | 'updatedAt'>`: what a caller gives to `addShop`. */
  datatype ShopData = ShopData(
    name: string,
    address: Option<string>,
    phone: Option<string>,
    openingHours: Option<string>,
    website: Option<string>,
    memo: Option<string>)

  datatype FlavorData = FlavorData(
    name: string,
    flavors: seq<string>,
    shopId: Option<string>,
    score: int,
    memo: Option<string>,
    tags: Option<seq<string>>,
    smokedAt: Option<int>)

  /**
   * One key of a `Partial<T>`: absent (`Keep`), or present (`Set`). A key that is
   * present with the value `undefined` is `Set(None)`: the spread copies it and
   * so clears the field.
   */
  datatype Field<T> = Keep | Set(value: T)

  function Apply<T>(f: Field<T>, prev: T): (r: T)
    ensures f.Keep? ==> r == prev
    ensures f.Set? ==> r == f.value
  {
    match f
    case Keep => prev
    case Set(v) => v
  }

  /** Applying the same key twice is applying it once. */
  lemma ApplyTwice<T>(f: Field<T>, x: T)
    ensures Apply(f, Apply(f, x)) == Apply(f, x)
  {
  }

  /**
   * `Partial<Shop>` as a caller passes it to `updateShop`. Every key may be
   * present, `id` and `createdAt` included; an `updatedAt` key is left out
   * because the update overwrites it in any case.
   */
  datatype ShopPatch = ShopPatch(
    id: Field<string>,
    name: Field<string>,
    address: Field<Option<string>>,
    phone: Field<Option<string>>,
    openingHours: Field<Option<string>>,
    website: Field<Option<string>>,
    memo: Field<Option<string>>,
    createdAt: Field<int>)

  datatype FlavorPatch = FlavorPatch(
    id: Field<string>,
    name: Field<string>,
    flavors: Field<seq<string>>,
    shopId: Field<Option<string>>,
    score: Field<int>,
    memo: Field<Option<string>>,
    tags: Field<Option<seq<string>>>,
    smokedAt: Field<Option<int>>,
    createdAt: Field<int>)

  const NoShopChanges := ShopPatch(Keep, Keep, Keep, Keep, Keep, Keep, Keep, Keep)

  const NoFlavorChanges := FlavorPatch(Keep, Keep, Keep, Keep, Keep, Keep, Keep, Keep, Keep)

  /** `{...prev, ...updates, updatedAt: now}`. */
  function MergeShop(prev: Shop, u: ShopPatch, now: int): (r: Shop)
    ensures r.updatedAt == now
    ensures u.id.Keep? ==> r.id == prev.id
    ensures u.createdAt.Keep? ==> r.createdAt == prev.createdAt
  {
    ShopOf(Apply(u.id, prev.id), Apply(u.name, prev.name), Apply(u.address, prev.address),
      Apply(u.phone, prev.phone), Apply(u.openingHours, prev.openingHours),
      Apply(u.website, prev.website), Apply(u.memo, prev.memo),
      Apply(u.createdAt, prev.createdAt), now)
  }

  function MergeFlavor(prev: Flavor, u: FlavorPatch, now: int): (r: Flavor)
    ensures r.updatedAt == now
    ensures u.id.Keep? ==> r.id == prev.id
    ensures u.createdAt.Keep? ==> r.createdAt == prev.createdAt
  {
    FlavorOf(Apply(u.id, prev.id), Apply(u.name, prev.name), Apply(u.flavors, prev.flavors),
      Apply(u.shopId, prev.shopId), Apply(u.score, prev.score), Apply(u.memo, prev.memo),
      Apply(u.tags, prev.tags), Apply(u.smokedAt, prev.smokedAt),
      Apply(u.createdAt, prev.createdAt), now)
  }

  /** An update with no keys only moves `updatedAt`. */
  lemma MergeNothingShop(prev: Shop, now: int)
    ensures MergeShop(prev, NoShopChanges, now) == prev.(updatedAt := now)
  {
  }

  lemma MergeNothingFlavor(prev: Flavor, now: int)
    ensures MergeFlavor(prev, NoFlavorChanges, now) == prev.(updatedAt := now)
  {
  }

  /** Applying the same update twice gives the record the first application gave. */
  lemma MergeShopIdempotent(prev: Shop, u: ShopPatch, now: int)
    ensures MergeShop(MergeShop(prev, u, now), u, now) == MergeShop(prev, u, now)
  {
  }

  lemma MergeFlavorIdempotent(prev: Flavor, u: FlavorPatch, now: int)
    ensures MergeFlavor(MergeFlavor(prev, u, now), u, now) == MergeFlavor(prev, u, now)
  {
  }

  datatype Theme = Light | Dark
  datatype SettingsSort = ByCreatedAt | ByUpdatedAt | ByScore | ByName
  datatype SortOrder = Asc | Desc

  datatype Settings = Settings(
    theme: Theme,
    sortBy: SettingsSort,
    sortOrder: SortOrder,
    itemsPerPage: int,
    lastBackup: Option<Stamp>)

  /** What `getSettings` returns when nothing readable is stored. */
  const DefaultSettings := Settings(Light, ByCreatedAt, Desc, 10, None)

  datatype SettingsPatch = SettingsPatch(
    theme: Field<Theme>,
    sortBy: Field<SettingsSort>,
    sortOrder: Field<SortOrder>,
    itemsPerPage: Field<int>,
    lastBackup: Field<Option<Stamp>>)

  /** `{...current, ...updates}`: each key the update carries replaces the current one, each other key is kept. */
  function MergeSettings(prev: Settings, u: SettingsPatch): (r: Settings)
    ensures r.theme == if u.theme.Set? then u.theme.value else prev.theme
    ensures r.sortBy == if u.sortBy.Set? then u.sortBy.value else prev.sortBy
    ensures r.sortOrder == if u.sortOrder.Set? then u.sortOrder.value else prev.sortOrder
    ensures r.itemsPerPage == if u.itemsPerPage.Set? then u.itemsPerPage.value else prev.itemsPerPage
    ensures r.lastBackup == if u.lastBackup.Set? then u.lastBackup.value else prev.lastBackup
  {
    Settings(Apply(u.theme, prev.theme), Apply(u.sortBy, prev.sortBy),
      Apply(u.sortOrder, prev.sortOrder), Apply(u.itemsPerPage, prev.itemsPerPage),
      Apply(u.lastBackup, prev.lastBackup))
  }

  lemma MergeSettingsIdempotent(prev: Settings, u: SettingsPatch)
    ensures MergeSettings(MergeSettings(prev, u), u) == MergeSettings(prev, u)
  {
  }

  function ShopId(s: Shop): string { s.id }
  function FlavorId(f: Flavor): string { f.id }
  function StoredShopId(s: StoredShop): string { s.id }
  function StoredFlavorId(f: StoredFlavor): string { f.id }
}
