# Shisha log: the record store and the pages on top of it

A Dafny model of the record-keeping core of a browser app that logs shisha
(hookah) shops and flavor mixes.

The core is the record store of `src/scripts/storage.ts` and its twin
`src/scripts/storage.js`. It keeps three JSON blobs under their own storage
keys: shops, flavors and the settings object. It offers the following:

- lookups;
- add, update and delete, each a whole-collection read-modify-write;
- search, filter and a comparator sort;
- the two validators;
- backup and restore.

On top of the store the model covers the logic of three pages:

- **The flavor form** (`flavor-edit.js`): the ingredient and tag lists the
  user builds, the star rating, the form's own checks, and the object it
  submits to `addFlavor` or `updateFlavor`.
- **The flavor list** (`flavor-list.js`): the query, the minimum-score
  filter, the shop filter and the sort choice, which `applyFiltersAndSort`
  turns into the list shown, and the counter above it.
- **The dashboard** (`index.js`): the counts, the five newest shops and
  flavors, the six best-rated flavors, the empty state, the star strings
  and the address preview.

## Modules

- `Records` (records.dfy) holds the datatypes of `src/types/index.ts`.
  - `ShopOf<D>` and `FlavorOf<D>` are generic over the date type: `int`
    milliseconds in memory, and a `Stamp` (a date text that parses, or one
    that does not) in storage.
  - A `Partial<T>` update is one `Field` per key: `Keep` when the key is
    absent, `Set(v)` when it is present. A key that is present with the
    value `undefined` is `Set(None)`, because the spread copies it.
- `Text` (text.dfy) gives the JavaScript meaning of `trim`, `\s`, an ASCII
  `toLowerCase`, `includes` and string `<`.
- `Seqs` (seqs.dfy) models the Array operations the scripts use: `filter`,
  `findIndex`/`indexOf`, `splice(i, 1)`, `slice(0, n)`, and `sort` (stable,
  as ECMAScript requires) as a comparator-driven insertion sort.
- `Validation` (validation.dfy) holds `validateShopData` and
  `validateFlavorData`.
  - Each error has its own rule predicate.
  - Each validator is a method that pushes errors one check at a time.
  - It is proved to report exactly the errors whose rules hold, each once,
    in check order, and to be valid exactly when there are none.
- `Storage` (storage.dfy) holds the class `Store`, whose three fields are
  the blobs. Reads are functions of the blobs and the time. Mutations are
  methods proved against those functions. Search, filter and sort are
  functions.
- `FlavorEdit` (flavor_edit.dfy) holds the class `FlavorForm`. Its fields
  are the closure variables and the input values the page reads.
- `FlavorList` (flavor_list.dfy) holds the class `FlavorListController`,
  the `parseInt` the score filter uses, and the `split(':')` of the sort
  choice.
- `Home` (home.dfy) holds the class `HomeController` and the dashboard's
  selections and strings.

Calls into the environment become parameters:

- `now: int` is the time `new Date()` reads;
- `id` / `newId` is the value `crypto.randomUUID()` returns;
- `picked` is the time `new Date(value)` makes of the date input.

A date text that does not parse is `Unparsable`.

Where the code and the design notes of the repository disagree, the model
follows the code:

- An update is `{...old, ...updates, updatedAt: now}`. A patch that carries
  `id` or `createdAt` overwrites them, although the design calls both
  immutable. The contracts state when they are kept: the patch leaves them
  out, as the flavor form's patch does (`FlavorEdit.PatchOf`).
- `applyFiltersAndSort` with a query does not search the list it loaded. It
  calls `searchFlavors`, which reads the store again. `Listed` takes both
  lists.
- `searchShops`/`searchFlavors` test whether the query is blank after
  trimming, but match the lower-cased query untrimmed.
- The flavor form limits the trimmed name to 100 characters, while
  `validateFlavorData` limits the untrimmed name.
  `FlavorEdit.NameChecksDifferUntrimmed` exhibits a name that passes the
  first and fails the second.

## Model

| member | source | states |
|---|---|---|
| Records.MergeShop | src/scripts/storage.ts:76-80 | the merged shop has `updatedAt = now`, and keeps its id and createdAt unless the patch sets them |
| Records.MergeFlavor | src/scripts/storage.ts:134-138 | the same for flavors |
| Records.MergeNothingShop | src/scripts/storage.ts:76-80 | an update with no keys changes only `updatedAt` |
| Records.MergeNothingFlavor | src/scripts/storage.ts:134-138 | the same for flavors |
| Records.MergeShopIdempotent | src/scripts/storage.ts:76-80 | applying the same update twice gives what one application gives |
| Records.MergeFlavorIdempotent | src/scripts/storage.ts:134-138 | the same for flavors |
| Records.MergeSettings | src/scripts/storage.ts:165-170 | each of the five keys the update carries replaces the current value, and each key it leaves out is kept |
| Records.MergeSettingsIdempotent | src/scripts/storage.ts:165-170 | merging the same settings update twice is merging it once |
| Text.Trim | src/scripts/flavor-edit.js:189 | `trim` returns the slice between the leading and trailing white space; it is empty exactly for a blank string, and otherwise starts and ends with a non-space |
| Text.TrimIdempotent | src/scripts/flavor-list.js:122 | trimming a trimmed string changes nothing |
| Text.TrimOfTrimmed | src/scripts/flavor-edit.js:189 | a string with no white space at either end is its own trim |
| Text.Lower | src/scripts/storage.ts:176 | lower-casing keeps the length and maps each character (ASCII letters down) |
| Text.LexLessIrreflexive | src/scripts/storage.ts:220 | no string is `<` itself |
| Text.LexLessTransitive | src/scripts/storage.ts:220-221 | string `<` is transitive |
| Text.LexLessTotal | src/scripts/storage.ts:220-221 | two different strings are ordered one way, and never both ways |
| Seqs.Filter | src/scripts/storage.ts:201 | `filter` keeps exactly the elements that pass, in their original order |
| Seqs.FilterCounts | src/scripts/index.js:68 | each passing element is kept as often as it occurs, and the others never |
| Seqs.FilterLength | src/scripts/index.js:68 | a filter is never longer than its input, and is as long only when every element passes |
| Seqs.FilterSnoc | src/scripts/index.js:68 | filtering a list with one more element adds that element exactly when it passes |
| Seqs.IndexOf | src/scripts/storage.ts:72 | `findIndex` gives the first position with the key, or -1 exactly when no element has it |
| Seqs.FirstIsUnique | src/scripts/storage.ts:72 | the first position with a key is unique |
| Seqs.SortBy | src/scripts/storage.ts:210 | the sorted copy is a permutation of its input |
| Seqs.SortBySorted | src/scripts/storage.ts:210-224 | with a total, transitive comparator, every pair of the result is in comparator order |
| Seqs.SortByStable | src/scripts/index.js:79 | the sort is stable: the elements that tie with any given element come out in the order they went in |
| Seqs.ByKeyDescending | src/scripts/index.js:79 | `(a, b) => key(b) - key(a)` lets `a` stay before `b` exactly when `a`'s key is at least `b`'s |
| Seqs.Take | src/scripts/index.js:80 | `slice(0, n)` is the prefix of length `min(n, length)` |
| Seqs.RemoveAt | src/scripts/storage.ts:93 | `splice(i, 1)` keeps the elements before `i`, shifts those after it down, and drops exactly one occurrence of `s[i]` |
| Seqs.DeleteFirst | src/scripts/flavor-edit.js:199-206 | without a match the list is unchanged; otherwise exactly the first match is removed |
| Seqs.AppendKeepsUnique | src/scripts/storage.ts:65 | appending an element with a new key keeps keys unique |
| Seqs.ReplaceKeepsUnique | src/scripts/storage.ts:82 | replacing an element by one with the same key keeps keys unique |
| Seqs.DeleteKeepsUnique | src/scripts/storage.ts:93 | removing the first match keeps keys unique and leaves none with that key |
| Seqs.TopByKeySelects | src/scripts/index.js:77-80 | sort-then-slice selects `min(n, length)` elements of the list, keys not increasing, no element left out with a larger key than one chosen |
| Validation.ValidateShopData | src/scripts/storage.ts:227-256 | the method's errors are `ShopErrors(d)`, and `isValid` holds exactly when there are none |
| Validation.ShopErrorsMeaning | src/scripts/storage.ts:227-256 | a shop error is reported exactly when its rule holds, at most once, in check order |
| Validation.ShopChecksOnePerError | src/scripts/storage.ts:230-250 | the checks test each error once, at its position, by its rule |
| Validation.ShopConditions | src/scripts/storage.ts:230-250 | each condition the code tests (`!name \|\| !name.trim()`, the phone and URL patterns, the lengths) is its error's rule |
| Validation.ShopNameErrorsExclusive | src/scripts/storage.ts:230-234 | a shop name is never both missing and too long |
| Validation.ReportsExactly | src/scripts/storage.ts:228-255 | checks laid out one per error push exactly the errors whose check fails, in check order |
| Validation.PushesMembers | src/scripts/storage.ts:228-250 | an error is pushed exactly when a check reporting it fails |
| Validation.PushesAscending | src/scripts/storage.ts:228-250 | checks ranked by position push their errors in rank order |
| Validation.ValidateFlavorData | src/scripts/storage.js:264-308 | the method's errors are `FlavorErrors(d)`, and `isValid` holds exactly when there are none |
| Validation.FlavorErrorsMeaning | src/scripts/storage.js:264-308 | a flavor error is reported exactly when its rule holds, at most once, in check order |
| Validation.FlavorChecksOnePerError | src/scripts/storage.js:267-302 | the checks test each error once, at its position, by its rule |
| Validation.FlavorConditions | src/scripts/storage.js:267-302 | each condition the code tests is its error's rule (the score passes only for 1 to 5, a falsy score fails) |
| Validation.FlavorNameErrorsExclusive | src/scripts/storage.js:267-271 | a flavor name is never both missing and too long |
| Validation.IngredientErrorsExclusive | src/scripts/storage.js:273-277 | the ingredient list is never both missing and holding a blank entry |
| Validation.ScoreRule | src/scripts/storage.js:279-281 | the score passes exactly for 1, 2, 3, 4 and 5; a missing score and 0 fail |
| Storage.Load | src/scripts/storage.ts:18-27 | a parsed blob gives its value; an absent or unparsable one gives the default |
| Storage.ParseDate | src/scripts/storage.ts:13-16 | a date that parses gives its time, and one that does not gives `now` |
| Storage.StoreDate | src/scripts/storage.ts:31 | a written date reads back as the same time |
| Storage.GetShops | src/scripts/storage.ts:41-48 | reading maps every stored shop, in order, parsing both dates |
| Storage.GetFlavors | src/scripts/storage.js:104-112 | reading maps every stored flavor, in order, parsing its dates |
| Storage.StoreShops | src/scripts/storage.ts:29-39 | writing maps every shop, in order |
| Storage.StoreFlavors | src/scripts/storage.ts:29-39 | writing maps every flavor, in order |
| Storage.ShopsRoundTrip | src/scripts/storage.ts:41-48 | a written shop list reads back as itself at any time |
| Storage.FlavorsRoundTrip | src/scripts/storage.ts:98-106 | a written flavor list reads back as itself at any time |
| Storage.ReadWriteRead | src/scripts/storage.js:104-112 | once a read list is written back, later reads give the same list, whatever the stored dates looked like |
| Storage.NormalizeFlavorDates | src/scripts/storage.js:104-112 | an unparsable createdAt reads as now; `smokedAt` stays absent when unset, and an unparsable one reads as now |
| Storage.Find | src/scripts/storage.ts:50-53 | `find(...) \|\| null` gives the first record with the id, or none exactly when no record has it |
| Storage.FindAppended | src/scripts/storage.ts:55-68 | a record appended with a fresh id is the one a lookup of that id then finds |
| Storage.RemoveFound | src/scripts/storage.ts:89-93 | splicing out what `findIndex` found removes the first match, and leaves none with that id when ids were unique |
| Storage.Store.CurrentSettings | src/scripts/storage.ts:156-163 | without readable settings, the defaults (light, createdAt, desc, 10) |
| Storage.Store.GetShop | src/scripts/storage.ts:50-53 | the first shop read with the id, or none exactly when no shop has it |
| Storage.Store.GetFlavor | src/scripts/storage.ts:108-111 | the first flavor read with the id, or none exactly when no flavor has it |
| Storage.Store.SaveShops | src/scripts/storage.ts:29-39 | the shops blob holds the list, which then reads back as itself; the other blobs are untouched |
| Storage.Store.SaveFlavors | src/scripts/storage.ts:29-39 | the same for flavors |
| Storage.Store.AddShop | src/scripts/storage.ts:55-68 | the new shop has the given fields, the id and both dates `now`; it is appended after the unchanged earlier shops; a fresh id keeps ids unique |
| Storage.Store.UpdateShop | src/scripts/storage.ts:70-85 | an absent id gives null and writes nothing; otherwise only the first match changes, to the merge, and unique ids stay unique when the patch keeps the id |
| Storage.Store.DeleteShop | src/scripts/storage.ts:87-96 | false exactly for an absent id, with nothing written; otherwise exactly the first match is removed and, with unique ids, none is left with the id |
| Storage.Store.AddFlavor | src/scripts/storage.ts:113-126 | as `AddShop`, for flavors |
| Storage.Store.UpdateFlavor | src/scripts/storage.ts:128-143 | as `UpdateShop`, for flavors |
| Storage.Store.DeleteFlavor | src/scripts/storage.ts:145-154 | as `DeleteShop`, for flavors |
| Storage.Store.UpdateSettings | src/scripts/storage.ts:165-170 | the current settings merged with the update are stored, returned and read back; shops and flavors are untouched |
| Storage.Store.Backup | src/scripts/storage.ts:258-268 | the backup holds the shops, flavors and settings read now, `exportedAt = now` and version `1.0.0` |
| Storage.Store.Restore | src/scripts/storage.ts:270-283 | false exactly when the text is not JSON or is `null` (where reading a key throws), with nothing written; otherwise each of the three keys that is present and truthy overwrites its blob, and the others stay |
| Storage.BackupDocument | src/scripts/storage.ts:258-268 | a backup's document has all three keys |
| Storage.BackupRoundTrip | src/scripts/storage.ts:258-283 | restoring a backup brings back its shops, flavors (order included) and settings |
| Storage.SearchShops | src/scripts/storage.ts:172-183 | a blank query gives all shops; otherwise exactly the shops whose lower-cased name, address or memo contains the lower-cased untrimmed query, in their order and as often as they occur |
| Storage.SearchFlavors | src/scripts/storage.ts:185-197 | the same over name, any ingredient, memo and any tag, again in order and as often as they occur |
| Storage.FilterFlavorsByScore | src/scripts/storage.ts:199-202 | exactly the flavors with `minScore <= score <= maxScore`, in order and as often as they occur, with `maxScore` defaulting to 5 |
| Storage.FilterFlavorsByShop | src/scripts/storage.ts:204-207 | exactly the flavors linked to the shop, in order and as often as they occur |
| Storage.KeyNamed | src/scripts/storage.ts:211 | a name that is none of `Flavor`'s keys selects no key (every value `undefined`) |
| Storage.UndefinedLast | src/scripts/storage.ts:214-217 | a missing key compares after a defined one in either order |
| Storage.DescReversesAsc | src/scripts/storage.ts:219-223 | between defined keys, `desc` negates the `asc` comparison |
| Storage.CompareAntisymmetric | src/scripts/storage.ts:209-225 | swapping the two records negates the comparison |
| Storage.CompareTransitive | src/scripts/storage.ts:209-225 | the comparator's "may stay before" is transitive on the values of one key |
| Storage.FlavorOrderIsTotalPreorder | src/scripts/storage.ts:210-224 | the comparator of `sortFlavors` is total and transitive, so the sort is well defined |
| Storage.SortFlavors | src/scripts/storage.ts:209-225 | the result is a permutation of the input, with every pair in comparator order |
| Storage.SortFlavorsOrder | src/scripts/storage.ts:209-225 | in the result, records without the key come last; the others come ascending for `asc` and descending for `desc` |
| FlavorEdit.AddEntryMeaning | src/scripts/flavor-edit.js:188-197 | a blank input or one already present changes nothing; otherwise the trimmed input is appended and nothing before it moves |
| FlavorEdit.RemoveEntryMeaning | src/scripts/flavor-edit.js:199-206 | an entry not present changes nothing; otherwise its first occurrence is cut out |
| FlavorEdit.AddEntryKeepsClean | src/scripts/flavor-edit.js:188-197 | a list with no duplicate and no blank entry keeps both properties under adding |
| FlavorEdit.RemoveEntryKeepsClean | src/scripts/flavor-edit.js:199-206 | the same under removal, and the removed entry is then gone |
| FlavorEdit.RemoveUndoesAdd | src/scripts/flavor-edit.js:188-206 | removing an entry right after adding it restores the list |
| FlavorEdit.ValidateName | src/scripts/flavor-edit.js:354-366 | passes exactly when the trimmed name is non-empty and at most 100 characters long, with the required and too-long messages otherwise |
| FlavorEdit.ValidateMemo | src/scripts/flavor-edit.js:368-376 | passes exactly when the trimmed memo has at most 1000 characters |
| FlavorEdit.FormErrorsMeaning | src/scripts/flavor-edit.js:378-420 | a form error is listed exactly when its rule holds (bad name, no ingredient, score exactly 0, bad memo), at most once, in check order |
| FlavorEdit.FormChecksOnePerError | src/scripts/flavor-edit.js:382-410 | the form's checks test each error once, at its position, by its rule |
| FlavorEdit.FormPassed | src/scripts/flavor-edit.js:378-420 | a form with no error has a valid name and memo, an ingredient and a non-zero score |
| FlavorEdit.FormNameMatchesStore | src/scripts/flavor-edit.js:354-366 | the form's name check passes exactly when the store's two name rules pass on the trimmed name |
| FlavorEdit.NameChecksDifferUntrimmed | src/scripts/flavor-edit.js:354-366 | a space then 100 letters passes the form's name check and fails the store's length rule |
| FlavorEdit.FormData | src/scripts/flavor-edit.js:489-497 | the submitted object has the trimmed name, a copy of the ingredients, and the score; an unselected shop, a blank memo, no tags and an empty date become `undefined` |
| FlavorEdit.PatchOf | src/scripts/flavor-edit.js:508 | the submitted object as an update never sets `id` or `createdAt` |
| FlavorEdit.SubmittedDataErrors | src/scripts/flavor-edit.js:480-504 | once the form's checks pass on clean lists, the store can object only to a score outside 1 to 5 and to a tag over 50 characters |
| FlavorEdit.Report | src/scripts/flavor-edit.js:383-386 | one failed check lowers `isValid` and appends its error; a passed one changes neither |
| FlavorEdit.FlavorForm.AddIngredient | src/scripts/flavor-edit.js:188-197 | the ingredients become `AddEntry` of the old list and input; the input is cleared exactly when something was added; clean lists stay clean |
| FlavorEdit.FlavorForm.RemoveIngredient | src/scripts/flavor-edit.js:199-206 | the ingredients lose the first occurrence of the entry; clean lists stay clean and lose the entry |
| FlavorEdit.FlavorForm.AddTag | src/scripts/flavor-edit.js:216-225 | as `AddIngredient`, on the tags |
| FlavorEdit.FlavorForm.RemoveTag | src/scripts/flavor-edit.js:227-234 | as `RemoveIngredient`, on the tags |
| FlavorEdit.FlavorForm.SetRating | src/scripts/flavor-edit.js:256-262 | the score becomes the star's value, and nothing else changes |
| FlavorEdit.FlavorForm.ValidateForm | src/scripts/flavor-edit.js:378-420 | the method lists `FormErrors` of the form; it is valid exactly when the list is empty, and an error is listed exactly when its rule holds |
| FlavorEdit.EditTarget | src/scripts/flavor-edit.js:3-5 | the page edits a flavor exactly when its `id` parameter is present and not empty, and then it edits the flavor with that id |
| FlavorEdit.FlavorForm.Save | src/scripts/flavor-edit.js:506-515 | an edit of an absent id fails and writes nothing; an edit merges the patch into the first flavor with that id; a new flavor is appended with the new id and `now` |
| FlavorEdit.FlavorForm.HandleSubmit | src/scripts/flavor-edit.js:476-531 | form errors and then store errors reject the submission without writing; otherwise the submitted object is saved as `Save` states, as an edit exactly when `EditTarget` of the `id` parameter names a flavor; shops and settings are never touched |
| FlavorList.ParseIntDecimal | src/scripts/flavor-list.js:150 | a decimal numeral parses to the number it spells |
| FlavorList.ParseIntIgnoresRest | src/scripts/flavor-list.js:150 | text after the digits is ignored, unless it turns a lone `0` into `0x` |
| FlavorList.ParseIntNotANumber | src/scripts/flavor-list.js:150 | text starting with no digit, sign or space is `NaN` |
| FlavorList.ParseIntSkipsWhiteSpace | src/scripts/flavor-list.js:150 | a leading white-space character does not change the result |
| FlavorList.ParseIntSign | src/scripts/flavor-list.js:150 | a leading `-` negates the value of the digits after it (`NaN` stays `NaN`), and a leading `+` leaves it as it is |
| FlavorList.ParseIntHex | src/scripts/flavor-list.js:150 | after `0x` or `0X`, a run of hexadecimal digits is read in base 16 |
| FlavorList.AtLeast | src/scripts/flavor-list.js:151 | exactly the flavors scored at least the minimum, in order and as often as they occur; a `NaN` minimum keeps none |
| FlavorList.SortSettingOf | src/scripts/flavor-list.js:160 | `"<key>:<order>"` selects that key, and descending order exactly for `desc` |
| FlavorList.DefaultSortSetting | src/scripts/flavor-list.js:9 | the starting choice `createdAt:desc` sorts newest first |
| FlavorList.ListedMembers | src/scripts/flavor-list.js:140-157 | a flavor is listed exactly when it is loaded (no query) or a stored flavor matching the query, and it passes the score and shop filters that are set |
| FlavorList.ListedSorted | src/scripts/flavor-list.js:159-161 | the list is in the order of the key and direction the sort choice names |
| FlavorList.ListedUnfiltered | src/scripts/flavor-list.js:140-163 | with no query and no filter, the list is the loaded flavors, reordered |
| FlavorList.ClearedList | src/scripts/flavor-list.js:126-138 | after clearing, the list is the loaded flavors, newest first |
| FlavorList.ListedNotANumber | src/scripts/flavor-list.js:148-152 | a score filter that is not a number leaves nothing |
| FlavorList.Rebuild | src/scripts/flavor-list.js:140-161 | the step-by-step rebuild gives `Listed` of the choices, and with no query or filter it has as many flavors as were loaded |
| FlavorList.FlavorListController.constructor | src/scripts/flavor-list.js:2-9 | nothing loaded, no query or filter, sort `createdAt:desc` |
| FlavorList.FlavorListController.FlavorCount | src/scripts/flavor-list.js:295-300 | the listed count while a query or a filter is set, the loaded count otherwise |
| FlavorList.FlavorListController.Refilter | src/scripts/flavor-list.js:140-166 | given the flavors the store holds, the shown list becomes `Listed` of the choices; the counter then shows its length; nothing else changes |
| FlavorList.FlavorListController.ApplyFiltersAndSort | src/scripts/flavor-list.js:140-166 | the shown list is `Listed` of the choices over the loaded and the stored flavors; the counter then shows its length; nothing else changes |
| FlavorList.FlavorListController.LoadData | src/scripts/flavor-list.js:90-107 | the shops and flavors are read, then the list is built |
| FlavorList.FlavorListController.HandleSearch | src/scripts/flavor-list.js:121-124 | the query is stored trimmed and the list rebuilt; the other choices stay |
| FlavorList.FlavorListController.ClearFilters | src/scripts/flavor-list.js:126-138 | query and filters are emptied, the sort is `createdAt:desc`, and the list is the loaded flavors, newest first |
| FlavorList.FlavorListController.SelectScoreFilter | src/scripts/flavor-list.js:52-55 | the score filter takes the value and the list is rebuilt |
| FlavorList.FlavorListController.SelectShopFilter | src/scripts/flavor-list.js:57-60 | the shop filter takes the value and the list is rebuilt |
| FlavorList.FlavorListController.SelectSort | src/scripts/flavor-list.js:62-65 | the sort choice takes the value and the list is rebuilt |
| Home.HighRated | src/scripts/index.js:117 | exactly the flavors scored 4 or more, in order and as often as they occur |
| Home.HighRatedCount | src/scripts/index.js:68 | the high-rated count is at most the number of flavors, and equal exactly when all are high-rated |
| Home.HighRatedCountSnoc | src/scripts/index.js:68 | one more flavor raises the count by one exactly when it is high-rated |
| Home.HighRatedCountOrderFree | src/scripts/index.js:68 | reordering the flavors does not change the count |
| Home.AllHighRated | src/scripts/index.js:68 | when every flavor is high-rated, the filter keeps them all |
| Home.TopRatedSelects | src/scripts/index.js:115-119 | at most six flavors, and fewer only when there are no more high-rated ones; scores do not increase |
| Home.TopRatedBest | src/scripts/index.js:115-119 | no high-rated flavor left out scores above one selected |
| Home.TopRatedFromList | src/scripts/index.js:115-119 | every selected flavor is high-rated and comes from the list, no more often than there |
| Home.RecentSelects | src/scripts/index.js:77-80 | at most five, newest first, from the list, and none left out is newer than one selected |
| Home.Repeat | src/scripts/index.js:160 | `c.repeat(n)` is `n` copies of `c` |
| Home.Stars | src/scripts/index.js:160 | the star string exists exactly for scores 0 to 5; other scores make `repeat` throw |
| Home.StarsShape | src/scripts/index.js:160 | for 0 to 5 the string has five characters: `score` full stars, then empty ones |
| Home.StarsRoundTrip | src/scripts/index.js:160 | the score can be read back by counting the full stars |
| Home.AddressPreview | src/scripts/index.js:147 | at most 20 characters are kept, and `...` is appended exactly when the address is longer |
| Home.AddressPreviewIdempotent | src/scripts/index.js:147 | previewing a preview changes nothing |
| Home.HomeController.Statistics | src/scripts/index.js:51-70 | the shop count, the flavor count and the high-rated count |
| Home.HomeController.HasData | src/scripts/index.js:201-202 | there is something to show exactly when a shop or a flavor exists |
| Home.HomeController.RenderRecentShops | src/scripts/index.js:77-80 | `this.shops` is sorted in place, newest first, and the first five are the selection |
| Home.HomeController.RenderRecentFlavors | src/scripts/index.js:96-99 | the same on `this.flavors` |
| Home.HomeController.LoadData | src/scripts/index.js:28-49 | the counts are those of the lists read; the recent selections are those of the lists read; both lists are left sorted newest first, as the in-place sorts of the recent selections leave them; the top-rated selection is taken from that newest-first list, so ties are broken by recency; there is data exactly when a list is non-empty |

## Left out

- localStorage and `JSON.parse`/`JSON.stringify`: a blob is absent, unparsable or a parsed value. `restoreData` writes whatever truthy value a backup file holds under `shops`, `flavors` or `settings`, unchecked: a non-array, or records with missing keys. The model's `Document` holds only lists of complete records and a settings object, so such values, and the errors they cause in later reads (`getShops` failing on `.map`), are not modelled.
- Write failures (`QuotaExceededError` and the errors `saveToStorage` throws): a write always succeeds.
- `crypto.randomUUID()`: the id is a parameter. Uniqueness is kept by the contracts under the assumption that it is fresh.
- `new Date()` and date parsing: the time is the parameter `now`. A stored date text parses or not. Each operation reads the clock once, where the code reads it once per `getShops`/`getFlavors` call and once per `parseDate` fallback.
- `backupData`'s text (pretty-printed JSON, `toISOString`): `Backup` returns the object it serialises.
- `validateFlavorData` on inputs the form cannot submit: a non-string name, a non-integer or non-numeric score (`Number(score)`), and the `Date` object versus date-string distinction beyond `DateInput`.
- `toLowerCase` beyond ASCII letters, and UTF-16 code units: strings are sequences of Unicode scalar values, which changes lengths and `<` only outside the Basic Multilingual Plane.
- `parseInt` on numerals too long for a double: the model keeps the exact integer.
- `averageRating` (floating-point division and `toFixed`).
- The `RangeError` of `'★'.repeat(score)` for a stored score outside 0 to 5: `Stars` gives `None`. The whole `loadData` abort that the error causes in the page is not modelled.
- `loadFlavor`, `updatePreview`, the character counters, the shop select options and every other piece of DOM rendering, `escapeHtml`, modals, `setTimeout` navigation and the loading delay of `flavor-list.js`.
- The constructors of the page controllers call `loadData` themselves; in the model it is a separate method call.
- `shop-edit.ts`, `shop-list.js` and `flavor-detail.js`: page controllers that only call the store.
- `SortFlavors` uses the comparator of `sortFlavors` over one key's values. An array key (ingredients, tags) compares as its elements joined by commas: this is modelled by `Join`. The element-to-string conversion of other value kinds is not modelled.
