/**
 * The store's two validators, `validateShopData` and `validateFlavorData`. Each
 * runs its checks in a fixed order and collects one error per failed check.
 *
 * Every error has its own rule (`ShopRule`, `FlavorRule`), stated on its own.
 * The validators are proved to report exactly the errors whose rules hold, in
 * check order, and to call the draft valid exactly when there are none.
 */
module Validation {
  import opened Records
  import opened Text
  import opened Seqs

  /** `{ isValid, errors }`. */
  datatype Verdict<E> = Verdict(isValid: bool, errors: seq<E>)

  /** What `/^[\d-+().\s]+$/` accepts: one character or more, each a digit, one of `-+().`, or white space. */
  predicate IsPhoneChar(c: char) {
    ('0' <= c <= '9') || c == '-' || c == '+' || c == '(' || c == ')' || c == '.' || IsWhiteSpace(c)
  }

  predicate IsPhoneNumber(p: string) {
    p != [] && forall i | 0 <= i < |p| :: IsPhoneChar(p[i])
  }

  /** What `/^https?:\/\/.+/` accepts: the scheme, then at least one character that is not a line terminator. */
  predicate IsWebUrl(w: string) {
    || (StartsWith(w, "http://") && |w| > 7 && !IsLineTerminator(w[7]))
    || (StartsWith(w, "https://") && |w| > 8 && !IsLineTerminator(w[8]))
  }

  /** The `Partial<Shop>` keys that `validateShopData` reads. */
  datatype ShopDraft = ShopDraft(
    name: Option<string>,
    phone: Option<string>,
    website: Option<string>,
    address: Option<string>,
    memo: Option<string>)

  datatype ShopError =
    | ShopNameRequired
    | ShopNameTooLong
    | BadPhone
    | BadWebsite
    | AddressTooLong
    | ShopMemoTooLong

  /** Position of the check in `validateShopData`. */
  function ShopRank(e: ShopError): int {
    match e
    case ShopNameRequired => 0
    case ShopNameTooLong => 1
    case BadPhone => 2
    case BadWebsite => 3
    case AddressTooLong => 4
    case ShopMemoTooLong => 5
  }

  function ShopMessage(e: ShopError): string {
    match e
    case ShopNameRequired => "店舗名は必須です"
    case ShopNameTooLong => "店舗名は100文字以内で入力してください"
    case BadPhone => "電話番号の形式が正しくありません"
    case BadWebsite => "ウェブサイトは有効なURLを入力してください"
    case AddressTooLong => "住所は500文字以内で入力してください"
    case ShopMemoTooLong => "メモは1000文字以内で入力してください"
  }

  /** When each error applies to a shop draft. */
  predicate ShopRule(d: ShopDraft, e: ShopError) {
    match e
    case ShopNameRequired => d.name.None? || IsBlank(d.name.value)
    case ShopNameTooLong => d.name.Some? && !IsBlank(d.name.value) && |d.name.value| > 100
    case BadPhone => Truthy(d.phone) && !IsPhoneNumber(d.phone.value)
    case BadWebsite => Truthy(d.website) && !IsWebUrl(d.website.value)
    case AddressTooLong => Truthy(d.address) && |d.address.value| > 500
    case ShopMemoTooLong => Truthy(d.memo) && |d.memo.value| > 1000
  }

  /** Reports `e` when `b` holds, and nothing otherwise: one `if (…) errors.push(e)`. */
  function When<E>(b: bool, e: E): (r: seq<E>)
    ensures b ==> r == [e]
    ensures !b ==> r == []
  {
    if b then [e] else []
  }

  /**
   * The errors a run of checks pushes. Each check is whether it fails and the
   * error it pushes then; the errors come in the order of the checks.
   */
  function Pushes<E>(checks: seq<(bool, E)>): seq<E>
    decreases |checks|
  {
    if checks == [] then []
    else
      var n := |checks| - 1;
      Pushes(checks[..n]) + When(checks[n].0, checks[n].1)
  }

  lemma PushesOne<E>(b: bool, e: E)
    ensures Pushes([(b, e)]) == When(b, e)
  {
    assert [(b, e)][..0] == [];
    assert [] + When(b, e) == When(b, e);
  }

  /** Running one more check appends its outcome. */
  lemma PushesSnoc<E>(checks: seq<(bool, E)>, b: bool, e: E)
    ensures Pushes(checks + [(b, e)]) == Pushes(checks) + When(b, e)
  {
    assert (checks + [(b, e)])[..|checks|] == checks;
  }

  /** An error is pushed exactly when some check that reports it fails. */
  lemma {:induction false} PushesMembers<E>(checks: seq<(bool, E)>, x: E)
    ensures x in Pushes(checks) <==> exists i | 0 <= i < |checks| :: checks[i] == (true, x)
    decreases |checks|
  {
    if checks != [] {
      var n := |checks| - 1;
      var front := checks[..n];
      PushesMembers(front, x);
      if x in Pushes(checks) {
        if x in Pushes(front) {
          var i :| 0 <= i < |front| && front[i] == (true, x);
          assert checks[i] == (true, x);
        } else {
          assert checks[n] == (true, x);
        }
      }
      if exists i | 0 <= i < |checks| :: checks[i] == (true, x) {
        var i :| 0 <= i < |checks| && checks[i] == (true, x);
        if i < n {
          assert front[i] == (true, x);
        }
      }
    }
  }

  /** The errors of `s` come in strictly increasing rank: check order, each at most once. */
  ghost predicate Ascending<E>(s: seq<E>, rank: E -> int) {
    forall i, j :: 0 <= i < j < |s| ==> rank(s[i]) < rank(s[j])
  }

  /**
   * Appending the outcome of a later check keeps the errors in check order, and
   * afterwards none ranks above that check.
   */
  lemma PushInOrder<E>(s: seq<E>, rank: E -> int, b: bool, e: E)
    requires Ascending(s, rank)
    requires forall x :: x in s ==> rank(x) < rank(e)
    ensures Ascending(s + When(b, e), rank)
    ensures forall x :: x in s + When(b, e) ==> rank(x) <= rank(e)
  {
    var r := s + When(b, e);
    forall i, j | 0 <= i < j < |r| ensures rank(r[i]) < rank(r[j]) {
      assert r[i] == s[i] && r[i] in s;
      if j >= |s| {
        assert r[j] == e;
      } else {
        assert r[j] == s[j];
      }
    }
  }

  /** When the check at position `i` reports an error of rank `i`, the errors come out in rank order. */
  lemma {:induction false} PushesAscending<E>(checks: seq<(bool, E)>, rank: E -> int)
    requires forall i | 0 <= i < |checks| :: rank(checks[i].1) == i
    ensures Ascending(Pushes(checks), rank)
    ensures forall x :: x in Pushes(checks) ==> rank(x) < |checks|
    decreases |checks|
  {
    if checks != [] {
      var n := |checks| - 1;
      var front := checks[..n];
      assert forall i | 0 <= i < |front| :: front[i] == checks[i];
      PushesAscending(front, rank);
      PushInOrder(Pushes(front), rank, checks[n].0, checks[n].1);
    }
  }

  /**
   * A validator's checks laid out one per error: error `e` is checked at
   * position `rank(e)`, and no other position checks it.
   */
  ghost predicate OnePerError<E(!new)>(checks: seq<(bool, E)>, rank: E -> int) {
    && (forall e :: 0 <= rank(e) < |checks| && checks[rank(e)].1 == e)
    && (forall i | 0 <= i < |checks| :: rank(checks[i].1) == i)
  }

  /** Such checks push exactly the errors whose check fails, each once, in check order. */
  lemma ReportsExactly<E(!new)>(checks: seq<(bool, E)>, rank: E -> int)
    requires OnePerError(checks, rank)
    ensures forall e :: e in Pushes(checks) <==> checks[rank(e)].0
    ensures Ascending(Pushes(checks), rank)
  {
    forall e ensures e in Pushes(checks) <==> checks[rank(e)].0 {
      PushesMembers(checks, e);
      if checks[rank(e)].0 {
        assert checks[rank(e)] == (true, e);
      }
    }
    PushesAscending(checks, rank);
  }

  /** `validateShopData`'s checks on `d`, in the order it runs them. */
  function ShopChecks(d: ShopDraft): seq<(bool, ShopError)> {
    [ (ShopRule(d, ShopNameRequired), ShopNameRequired),
      (ShopRule(d, ShopNameTooLong), ShopNameTooLong),
      (ShopRule(d, BadPhone), BadPhone),
      (ShopRule(d, BadWebsite), BadWebsite),
      (ShopRule(d, AddressTooLong), AddressTooLong),
      (ShopRule(d, ShopMemoTooLong), ShopMemoTooLong) ]
  }

  /** The errors `validateShopData` reports for `d`. */
  function ShopErrors(d: ShopDraft): seq<ShopError> {
    Pushes(ShopChecks(d))
  }

  /**
   * An error is reported exactly when its rule holds, each at most once and in
   * check order.
   */
  lemma ShopErrorsMeaning(d: ShopDraft)
    ensures forall e :: e in ShopErrors(d) <==> ShopRule(d, e)
    ensures Ascending(ShopErrors(d), ShopRank)
  {
    ShopChecksOnePerError(d);
    ReportsExactly(ShopChecks(d), ShopRank);
  }

  /** `validateShopData` checks each error once, at its rank, by its rule. */
  lemma ShopChecksOnePerError(d: ShopDraft)
    ensures OnePerError(ShopChecks(d), ShopRank)
    ensures forall e :: ShopChecks(d)[ShopRank(e)] == (ShopRule(d, e), e)
  {
    var checks := ShopChecks(d);
    forall e ensures 0 <= ShopRank(e) < |checks| && checks[ShopRank(e)] == (ShopRule(d, e), e) {
      match e
      case ShopNameRequired =>
      case ShopNameTooLong =>
      case BadPhone =>
      case BadWebsite =>
      case AddressTooLong =>
      case ShopMemoTooLong =>
    }
    forall i | 0 <= i < |checks| ensures ShopRank(checks[i].1) == i {
      assert i == 0 || i == 1 || i == 2 || i == 3 || i == 4 || i == 5;
    }
  }

  /** Six checks in `validateShopData`'s order push the error of each that fails, in that order. */
  lemma ShopPushes(c0: bool, c1: bool, c2: bool, c3: bool, c4: bool, c5: bool)
    ensures Pushes([(c0, ShopNameRequired), (c1, ShopNameTooLong), (c2, BadPhone), (c3, BadWebsite), (c4, AddressTooLong), (c5, ShopMemoTooLong)])
      == When(c0, ShopNameRequired) + When(c1, ShopNameTooLong) + When(c2, BadPhone)
      + When(c3, BadWebsite) + When(c4, AddressTooLong) + When(c5, ShopMemoTooLong)
  {
    var s := [(c0, ShopNameRequired)];
    PushesOne(c0, ShopNameRequired);
    PushesSnoc(s, c1, ShopNameTooLong);
    s := s + [(c1, ShopNameTooLong)];
    PushesSnoc(s, c2, BadPhone);
    s := s + [(c2, BadPhone)];
    PushesSnoc(s, c3, BadWebsite);
    s := s + [(c3, BadWebsite)];
    PushesSnoc(s, c4, AddressTooLong);
    s := s + [(c4, AddressTooLong)];
    PushesSnoc(s, c5, ShopMemoTooLong);
    s := s + [(c5, ShopMemoTooLong)];
    assert s == [(c0, ShopNameRequired), (c1, ShopNameTooLong), (c2, BadPhone), (c3, BadWebsite), (c4, AddressTooLong), (c5, ShopMemoTooLong)];
  }

  /** When `c<i>` holds exactly when the rule of check <i> holds, the six pushes are `ShopErrors(d)`. */
  lemma ShopErrorsAre(d: ShopDraft, c0: bool, c1: bool, c2: bool, c3: bool, c4: bool, c5: bool)
    requires c0 == ShopRule(d, ShopNameRequired) && c1 == ShopRule(d, ShopNameTooLong)
    requires c2 == ShopRule(d, BadPhone) && c3 == ShopRule(d, BadWebsite)
    requires c4 == ShopRule(d, AddressTooLong) && c5 == ShopRule(d, ShopMemoTooLong)
    ensures ShopErrors(d) == When(c0, ShopNameRequired) + When(c1, ShopNameTooLong) + When(c2, BadPhone)
      + When(c3, BadWebsite) + When(c4, AddressTooLong) + When(c5, ShopMemoTooLong)
  {
    ShopPushes(c0, c1, c2, c3, c4, c5);
  }

  /** The conditions `validateShopData` tests are the rules of its errors. */
  lemma ShopConditions(d: ShopDraft)
    ensures (d.name.None? || Trim(d.name.value) == []) == ShopRule(d, ShopNameRequired)
    ensures (!(d.name.None? || Trim(d.name.value) == []) && |d.name.value| > 100) == ShopRule(d, ShopNameTooLong)
    ensures (Truthy(d.phone) && !IsPhoneNumber(d.phone.value)) == ShopRule(d, BadPhone)
    ensures (Truthy(d.website) && !IsWebUrl(d.website.value)) == ShopRule(d, BadWebsite)
    ensures (Truthy(d.address) && |d.address.value| > 500) == ShopRule(d, AddressTooLong)
    ensures (Truthy(d.memo) && |d.memo.value| > 1000) == ShopRule(d, ShopMemoTooLong)
  {
  }

  /**
   * `validateShopData`: runs the six checks in order and pushes the error of
   * each that fails. It reports `ShopErrors(d)`, and the data is valid exactly
   * when there are none.
   */
  method ValidateShopData(d: ShopDraft) returns (v: Verdict<ShopError>)
    ensures v.isValid <==> v.errors == []
    ensures v.errors == ShopErrors(d)
  {
    ShopConditions(d);
    var nameMissing := d.name.None? || Trim(d.name.value) == [];
    var errors := When(nameMissing, ShopNameRequired);
    var nameTooLong := !nameMissing && |d.name.value| > 100;
    errors := errors + When(nameTooLong, ShopNameTooLong);
    var badPhone := Truthy(d.phone) && !IsPhoneNumber(d.phone.value);
    errors := errors + When(badPhone, BadPhone);
    var badWebsite := Truthy(d.website) && !IsWebUrl(d.website.value);
    errors := errors + When(badWebsite, BadWebsite);
    var longAddress := Truthy(d.address) && |d.address.value| > 500;
    errors := errors + When(longAddress, AddressTooLong);
    var longMemo := Truthy(d.memo) && |d.memo.value| > 1000;
    errors := errors + When(longMemo, ShopMemoTooLong);
    ShopErrorsAre(d, nameMissing, nameTooLong, badPhone, badWebsite, longAddress, longMemo);
    v := Verdict(|errors| == 0, errors);
  }

  /** A name is either missing or too long, never both. */
  lemma ShopNameErrorsExclusive(d: ShopDraft)
    ensures !(ShopRule(d, ShopNameRequired) && ShopRule(d, ShopNameTooLong))
  {
  }

  /** The value of `data.flavors` or `data.tags`: absent or falsy, present but not an array, or an array of strings. */
  datatype ListInput = Missing | NotAList | Items(items: seq<string>)

  /** The value of `data.shopId`: absent or falsy, a string, or a truthy value of another type. */
  datatype ShopRef = NoShopRef | ShopText(id: string) | NotText

  /**
   * The value of `data.smokedAt`: absent, a `Date` object, or text, with
   * whether `Date.parse` reads it as a time.
   */
  datatype DateInput = NoDate | DateValue | DateText(text: string, parses: bool)

  /** The `Partial<Flavor>` keys that `validateFlavorData` reads; a score is a number, absent or present. */
  datatype FlavorDraft = FlavorDraft(
    name: Option<string>,
    flavors: ListInput,
    score: Option<int>,
    shopId: ShopRef,
    memo: Option<string>,
    tags: ListInput,
    smokedAt: DateInput)

  datatype FlavorError =
    | FlavorNameRequired
    | FlavorNameTooLong
    | NoIngredients
    | BlankIngredient
    | BadScore
    | BadShopRef
    | FlavorMemoTooLong
    | BlankTag
    | TagTooLong
    | BadSmokedAt

  /** Position of the check in `validateFlavorData`. */
  function FlavorRank(e: FlavorError): int {
    match e
    case FlavorNameRequired => 0
    case FlavorNameTooLong => 1
    case NoIngredients => 2
    case BlankIngredient => 3
    case BadScore => 4
    case BadShopRef => 5
    case FlavorMemoTooLong => 6
    case BlankTag => 7
    case TagTooLong => 8
    case BadSmokedAt => 9
  }

  function FlavorMessage(e: FlavorError): string {
    match e
    case FlavorNameRequired => "フレーバー名は必須です"
    case FlavorNameTooLong => "フレーバー名は100文字以内で入力してください"
    case NoIngredients => "フレーバーの組み合わせは1つ以上入力してください"
    case BlankIngredient => "フレーバーの組み合わせに空の項目があります"
    case BadScore => "評価は1-5の値を選択してください"
    case BadShopRef => "関連店舗の形式が正しくありません"
    case FlavorMemoTooLong => "メモは1000文字以内で入力してください"
    case BlankTag => "タグに空の項目があります"
    case TagTooLong => "各タグは50文字以内で入力してください"
    case BadSmokedAt => "喫煙日時の形式が正しくありません"
  }

  /** `s.some(x => !x || x.trim().length === 0)`. */
  predicate SomeBlank(s: seq<string>) {
    exists i | 0 <= i < |s| :: IsBlank(s[i])
  }

  /** `s.some(x => x.length > n)`. */
  predicate SomeLongerThan(s: seq<string>, n: nat) {
    exists i | 0 <= i < |s| :: |s[i]| > n
  }

  /** When each error applies to a flavor draft. */
  predicate FlavorRule(d: FlavorDraft, e: FlavorError) {
    match e
    case FlavorNameRequired => d.name.None? || IsBlank(d.name.value)
    case FlavorNameTooLong => d.name.Some? && !IsBlank(d.name.value) && |d.name.value| > 100
    case NoIngredients => !d.flavors.Items? || d.flavors.items == []
    case BlankIngredient => d.flavors.Items? && d.flavors.items != [] && SomeBlank(d.flavors.items)
    case BadScore => !(d.score.Some? && 1 <= d.score.value <= 5)
    case BadShopRef => d.shopId.NotText?
    case FlavorMemoTooLong => Truthy(d.memo) && |d.memo.value| > 1000
    case BlankTag => d.tags.Items? && SomeBlank(d.tags.items)
    case TagTooLong => d.tags.Items? && SomeLongerThan(d.tags.items, 50)
    case BadSmokedAt => d.smokedAt.DateText? && d.smokedAt.text != [] && !d.smokedAt.parses
  }

  /** `validateFlavorData`'s checks on `d`, in the order it runs them. */
  function FlavorChecks(d: FlavorDraft): seq<(bool, FlavorError)> {
    [ (FlavorRule(d, FlavorNameRequired), FlavorNameRequired),
      (FlavorRule(d, FlavorNameTooLong), FlavorNameTooLong),
      (FlavorRule(d, NoIngredients), NoIngredients),
      (FlavorRule(d, BlankIngredient), BlankIngredient),
      (FlavorRule(d, BadScore), BadScore),
      (FlavorRule(d, BadShopRef), BadShopRef),
      (FlavorRule(d, FlavorMemoTooLong), FlavorMemoTooLong),
      (FlavorRule(d, BlankTag), BlankTag),
      (FlavorRule(d, TagTooLong), TagTooLong),
      (FlavorRule(d, BadSmokedAt), BadSmokedAt) ]
  }

  /** The errors `validateFlavorData` reports for `d`. */
  function FlavorErrors(d: FlavorDraft): seq<FlavorError> {
    Pushes(FlavorChecks(d))
  }

  /**
   * An error is reported exactly when its rule holds, each at most once and in
   * check order.
   */
  lemma FlavorErrorsMeaning(d: FlavorDraft)
    ensures forall e :: e in FlavorErrors(d) <==> FlavorRule(d, e)
    ensures Ascending(FlavorErrors(d), FlavorRank)
  {
    FlavorChecksOnePerError(d);
    ReportsExactly(FlavorChecks(d), FlavorRank);
  }

  /** `validateFlavorData` checks each error once, at its rank, by its rule. */
  lemma FlavorChecksOnePerError(d: FlavorDraft)
    ensures OnePerError(FlavorChecks(d), FlavorRank)
    ensures forall e :: FlavorChecks(d)[FlavorRank(e)] == (FlavorRule(d, e), e)
  {
    var checks := FlavorChecks(d);
    forall e ensures 0 <= FlavorRank(e) < |checks| && checks[FlavorRank(e)] == (FlavorRule(d, e), e) {
      match e
      case FlavorNameRequired =>
      case FlavorNameTooLong =>
      case NoIngredients =>
      case BlankIngredient =>
      case BadScore =>
      case BadShopRef =>
      case FlavorMemoTooLong =>
      case BlankTag =>
      case TagTooLong =>
      case BadSmokedAt =>
    }
    forall i | 0 <= i < |checks| ensures FlavorRank(checks[i].1) == i {
      assert i == 0 || i == 1 || i == 2 || i == 3 || i == 4 || i == 5 || i == 6 || i == 7 || i == 8 || i == 9;
    }
  }

  /** Ten checks in `validateFlavorData`'s order push the error of each that fails, in that order. */
  lemma FlavorPushes(c0: bool, c1: bool, c2: bool, c3: bool, c4: bool, c5: bool, c6: bool, c7: bool, c8: bool, c9: bool)
    ensures Pushes([(c0, FlavorNameRequired), (c1, FlavorNameTooLong), (c2, NoIngredients), (c3, BlankIngredient), (c4, BadScore), (c5, BadShopRef), (c6, FlavorMemoTooLong), (c7, BlankTag), (c8, TagTooLong), (c9, BadSmokedAt)])
      == When(c0, FlavorNameRequired)
      + When(c1, FlavorNameTooLong)
      + When(c2, NoIngredients)
      + When(c3, BlankIngredient)
      + When(c4, BadScore)
      + When(c5, BadShopRef)
      + When(c6, FlavorMemoTooLong)
      + When(c7, BlankTag)
      + When(c8, TagTooLong)
      + When(c9, BadSmokedAt)
  {
    var s := [(c0, FlavorNameRequired)];
    PushesOne(c0, FlavorNameRequired);
    PushesSnoc(s, c1, FlavorNameTooLong);
    s := s + [(c1, FlavorNameTooLong)];
    PushesSnoc(s, c2, NoIngredients);
    s := s + [(c2, NoIngredients)];
    PushesSnoc(s, c3, BlankIngredient);
    s := s + [(c3, BlankIngredient)];
    PushesSnoc(s, c4, BadScore);
    s := s + [(c4, BadScore)];
    PushesSnoc(s, c5, BadShopRef);
    s := s + [(c5, BadShopRef)];
    PushesSnoc(s, c6, FlavorMemoTooLong);
    s := s + [(c6, FlavorMemoTooLong)];
    PushesSnoc(s, c7, BlankTag);
    s := s + [(c7, BlankTag)];
    PushesSnoc(s, c8, TagTooLong);
    s := s + [(c8, TagTooLong)];
    PushesSnoc(s, c9, BadSmokedAt);
    s := s + [(c9, BadSmokedAt)];
    assert s == [(c0, FlavorNameRequired), (c1, FlavorNameTooLong), (c2, NoIngredients), (c3, BlankIngredient), (c4, BadScore), (c5, BadShopRef), (c6, FlavorMemoTooLong), (c7, BlankTag), (c8, TagTooLong), (c9, BadSmokedAt)];
  }

  /** When `c<i>` holds exactly when the rule of check <i> holds, the ten pushes are `FlavorErrors(d)`. */
  lemma FlavorErrorsAre(d: FlavorDraft, c0: bool, c1: bool, c2: bool, c3: bool, c4: bool, c5: bool, c6: bool, c7: bool, c8: bool, c9: bool)
    requires c0 == FlavorRule(d, FlavorNameRequired) && c1 == FlavorRule(d, FlavorNameTooLong)
    requires c2 == FlavorRule(d, NoIngredients) && c3 == FlavorRule(d, BlankIngredient)
    requires c4 == FlavorRule(d, BadScore) && c5 == FlavorRule(d, BadShopRef)
    requires c6 == FlavorRule(d, FlavorMemoTooLong) && c7 == FlavorRule(d, BlankTag)
    requires c8 == FlavorRule(d, TagTooLong) && c9 == FlavorRule(d, BadSmokedAt)
    ensures FlavorErrors(d)
      == When(c0, FlavorNameRequired)
      + When(c1, FlavorNameTooLong)
      + When(c2, NoIngredients)
      + When(c3, BlankIngredient)
      + When(c4, BadScore)
      + When(c5, BadShopRef)
      + When(c6, FlavorMemoTooLong)
      + When(c7, BlankTag)
      + When(c8, TagTooLong)
      + When(c9, BadSmokedAt)
  {
    FlavorPushes(c0, c1, c2, c3, c4, c5, c6, c7, c8, c9);
  }

  /** The conditions `validateFlavorData` tests are the rules of its errors. */
  lemma FlavorConditions(d: FlavorDraft)
    ensures (d.name.None? || Trim(d.name.value) == []) == FlavorRule(d, FlavorNameRequired)
    ensures (!(d.name.None? || Trim(d.name.value) == []) && |d.name.value| > 100) == FlavorRule(d, FlavorNameTooLong)
    ensures (!d.flavors.Items? || |d.flavors.items| == 0) == FlavorRule(d, NoIngredients)
    ensures (!(!d.flavors.Items? || |d.flavors.items| == 0) && SomeBlank(d.flavors.items)) == FlavorRule(d, BlankIngredient)
    ensures (d.score.None? || d.score.value == 0 || d.score.value !in [1, 2, 3, 4, 5]) == FlavorRule(d, BadScore)
    ensures (d.shopId.NotText?) == FlavorRule(d, BadShopRef)
    ensures (Truthy(d.memo) && |d.memo.value| > 1000) == FlavorRule(d, FlavorMemoTooLong)
    ensures (d.tags.Items? && SomeBlank(d.tags.items)) == FlavorRule(d, BlankTag)
    ensures (d.tags.Items? && SomeLongerThan(d.tags.items, 50)) == FlavorRule(d, TagTooLong)
    ensures (d.smokedAt.DateText? && d.smokedAt.text != [] && !d.smokedAt.parses) == FlavorRule(d, BadSmokedAt)
  {
  }

  /**
   * `validateFlavorData`: runs the ten checks in order and pushes the error of
   * each that fails. It reports `FlavorErrors(d)`, and the data is valid exactly
   * when there are none.
   */
  method ValidateFlavorData(d: FlavorDraft) returns (v: Verdict<FlavorError>)
    ensures v.isValid <==> v.errors == []
    ensures v.errors == FlavorErrors(d)
  {
    FlavorConditions(d);
    var nameMissing := d.name.None? || Trim(d.name.value) == [];
    var errors := When(nameMissing, FlavorNameRequired);
    var nameTooLong := !nameMissing && |d.name.value| > 100;
    errors := errors + When(nameTooLong, FlavorNameTooLong);
    var noIngredients := !d.flavors.Items? || |d.flavors.items| == 0;
    errors := errors + When(noIngredients, NoIngredients);
    var blankIngredient := !noIngredients && SomeBlank(d.flavors.items);
    errors := errors + When(blankIngredient, BlankIngredient);
    var badScore := d.score.None? || d.score.value == 0 || d.score.value !in [1, 2, 3, 4, 5];
    errors := errors + When(badScore, BadScore);
    var badShopRef := d.shopId.NotText?;
    errors := errors + When(badShopRef, BadShopRef);
    var longMemo := Truthy(d.memo) && |d.memo.value| > 1000;
    errors := errors + When(longMemo, FlavorMemoTooLong);
    var blankTag := d.tags.Items? && SomeBlank(d.tags.items);
    errors := errors + When(blankTag, BlankTag);
    var longTag := d.tags.Items? && SomeLongerThan(d.tags.items, 50);
    errors := errors + When(longTag, TagTooLong);
    var badDate := d.smokedAt.DateText? && d.smokedAt.text != [] && !d.smokedAt.parses;
    errors := errors + When(badDate, BadSmokedAt);
    FlavorErrorsAre(d, nameMissing, nameTooLong, noIngredients, blankIngredient, badScore,
      badShopRef, longMemo, blankTag, longTag, badDate);
    v := Verdict(|errors| == 0, errors);
  }

  /** A flavor name is either missing or too long, never both. */
  lemma FlavorNameErrorsExclusive(d: FlavorDraft)
    ensures !(FlavorRule(d, FlavorNameRequired) && FlavorRule(d, FlavorNameTooLong))
  {
  }

  /** An ingredient list is either missing or has a blank entry, never both. */
  lemma IngredientErrorsExclusive(d: FlavorDraft)
    ensures !(FlavorRule(d, NoIngredients) && FlavorRule(d, BlankIngredient))
  {
  }

  /** The score passes exactly for 1, 2, 3, 4 and 5: a missing score and 0 both fail. */
  lemma ScoreRule(d: FlavorDraft)
    ensures !FlavorRule(d, BadScore) <==> d.score in {Some(1), Some(2), Some(3), Some(4), Some(5)}
  {
  }
}
