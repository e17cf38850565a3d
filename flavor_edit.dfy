/**
 * The flavor form of `flavor-edit.js`: the ingredient and tag lists the user
 * builds entry by entry, the chosen score, the form's own checks, and the data
 * it submits to the store.
 *
 * The page keeps `flavorIngredients`, `flavorTags` and `currentScore` in
 * closure variables and reads every other value from an input element; here
 * they are all fields of one `FlavorForm`.
 */
module FlavorEdit {
  import opened Records
  import opened Text
  import opened Seqs
  import opened Validation
  import opened Storage

  /** A list the form builds: no entry twice and no blank entry. */
  ghost predicate Clean(list: seq<string>) {
    UniqueKeys(list, Self) && forall i :: 0 <= i < |list| ==> !IsBlank(list[i])
  }

  /**
   * `addIngredient`/`addTag`: the trimmed input is appended when it is not
   * empty and not yet in the list; otherwise the list stays as it is.
   */
  function AddEntry(list: seq<string>, input: string): seq<string> {
    var value := Trim(input);
    if value != [] && value !in list then list + [value] else list
  }

  /** `removeIngredient`/`removeTag`: `indexOf` and `splice(index, 1)`. */
  function RemoveEntry(list: seq<string>, entry: string): seq<string> {
    DeleteFirst(list, entry, Self)
  }

  /**
   * What adding does: a blank input or one already present changes nothing;
   * otherwise the trimmed input ends up last and nothing before it moves.
   */
  lemma AddEntryMeaning(list: seq<string>, input: string)
    ensures IsBlank(input) ==> AddEntry(list, input) == list
    ensures Trim(input) in list ==> AddEntry(list, input) == list
    ensures !IsBlank(input) ==> Trim(input) in AddEntry(list, input)
    ensures !IsBlank(input) && Trim(input) !in list ==>
      |AddEntry(list, input)| == |list| + 1 && AddEntry(list, input)[..|list|] == list
      && AddEntry(list, input)[|list|] == Trim(input)
  {
  }

  /** What removing does: the first occurrence goes, and an entry not present changes nothing. */
  lemma RemoveEntryMeaning(list: seq<string>, entry: string)
    ensures entry !in list ==> RemoveEntry(list, entry) == list
    ensures forall i :: IsFirst(list, i, entry, Self) ==>
      RemoveEntry(list, entry) == list[..i] + list[i + 1..]
  {
    forall i | IsFirst(list, i, entry, Self) ensures RemoveEntry(list, entry) == list[..i] + list[i + 1..] {
      var r := RemoveEntry(list, entry);
      assert r == r[..i] + r[i..];
    }
  }

  /** Adding keeps a list clean. */
  lemma AddEntryKeepsClean(list: seq<string>, input: string)
    requires Clean(list)
    ensures Clean(AddEntry(list, input))
  {
    var value := Trim(input);
    if value != [] && value !in list {
      AppendKeepsUnique(list, value, Self);
      var r := list + [value];
      forall i | 0 <= i < |r| ensures !IsBlank(r[i]) {
        if i < |list| { assert r[i] == list[i]; }
      }
    }
  }

  /** Removing keeps a list clean, and afterwards the removed entry is gone. */
  lemma RemoveEntryKeepsClean(list: seq<string>, entry: string)
    requires Clean(list)
    ensures Clean(RemoveEntry(list, entry))
    ensures entry !in RemoveEntry(list, entry)
  {
    DeleteKeepsUnique(list, entry, Self);
    var i := IndexOf(list, entry, Self);
    if i >= 0 {
      RemoveAtShifts(list, i);
      var r := RemoveAt(list, i);
      forall j | 0 <= j < |r| ensures !IsBlank(r[j]) {
        assert r[j] == list[if j < i then j else j + 1];
      }
    }
  }

  /** Removing a new entry right after adding it gives back the list. */
  lemma RemoveUndoesAdd(list: seq<string>, input: string)
    requires !IsBlank(input) && Trim(input) !in list
    ensures RemoveEntry(AddEntry(list, input), Trim(input)) == list
  {
    var value := Trim(input);
    var added := list + [value];
    assert IsFirst(added, |list|, value, Self) by {
      forall j | 0 <= j < |list| ensures Self(added[j]) != value {
        assert added[j] == list[j];
      }
    }
    assert added[..|list|] == list;
  }

  /** The outcome of `validateName` or `validateMemo`: passed, or the message shown under the field. */
  datatype FieldCheck = Passed | Failed(message: string)

  /** `validateName`: the trimmed name must not be empty and must have at most 100 characters. */
  function ValidateName(nameText: string): (r: FieldCheck)
    ensures r.Passed? <==> !IsBlank(nameText) && |Trim(nameText)| <= 100
    ensures IsBlank(nameText) ==> r == Failed("フレーバー名は必須です")
    ensures !IsBlank(nameText) && |Trim(nameText)| > 100 ==> r == Failed("フレーバー名は100文字以内で入力してください")
  {
    var name := Trim(nameText);
    if name == [] then Failed("フレーバー名は必須です")
    else if |name| > 100 then Failed("フレーバー名は100文字以内で入力してください")
    else Passed
  }

  /** `validateMemo`: the trimmed memo must have at most 1000 characters. */
  function ValidateMemo(memoText: string): (r: FieldCheck)
    ensures r.Passed? <==> |Trim(memoText)| <= 1000
    ensures r.Failed? ==> r.message == "メモは1000文字以内で入力してください"
  {
    if |Trim(memoText)| > 1000 then Failed("メモは1000文字以内で入力してください") else Passed
  }

  /** The form-level errors `validateForm` lists in its summary. */
  datatype FormError = NameInvalid | NoIngredientsAdded | ScoreNotChosen | MemoInvalid

  /** Position of the check in `validateForm`. */
  function FormRank(e: FormError): int {
    match e
    case NameInvalid => 0
    case NoIngredientsAdded => 1
    case ScoreNotChosen => 2
    case MemoInvalid => 3
  }

  function FormMessage(e: FormError): string {
    match e
    case NameInvalid => "フレーバー名を正しく入力してください"
    case NoIngredientsAdded => "フレーバーの組み合わせを1つ以上追加してください"
    case ScoreNotChosen => "評価を選択してください"
    case MemoInvalid => "メモを正しく入力してください"
  }

  /** When each form error applies. Only a score of exactly 0 counts as "not chosen". */
  predicate FormRule(nameText: string, ingredients: seq<string>, score: int, memoText: string, e: FormError) {
    match e
    case NameInvalid => ValidateName(nameText).Failed?
    case NoIngredientsAdded => ingredients == []
    case ScoreNotChosen => score == 0
    case MemoInvalid => ValidateMemo(memoText).Failed?
  }

  /** `validateForm`'s checks, in the order it runs them. */
  function FormChecks(nameText: string, ingredients: seq<string>, score: int, memoText: string): seq<(bool, FormError)> {
    [ (FormRule(nameText, ingredients, score, memoText, NameInvalid), NameInvalid),
      (FormRule(nameText, ingredients, score, memoText, NoIngredientsAdded), NoIngredientsAdded),
      (FormRule(nameText, ingredients, score, memoText, ScoreNotChosen), ScoreNotChosen),
      (FormRule(nameText, ingredients, score, memoText, MemoInvalid), MemoInvalid) ]
  }

  /** The errors `validateForm` collects. */
  function FormErrors(nameText: string, ingredients: seq<string>, score: int, memoText: string): seq<FormError> {
    Pushes(FormChecks(nameText, ingredients, score, memoText))
  }

  /** A form error is listed exactly when its rule holds, each at most once and in check order. */
  lemma FormErrorsMeaning(nameText: string, ingredients: seq<string>, score: int, memoText: string)
    ensures forall e :: e in FormErrors(nameText, ingredients, score, memoText) <==>
      FormRule(nameText, ingredients, score, memoText, e)
    ensures Ascending(FormErrors(nameText, ingredients, score, memoText), FormRank)
  {
    FormChecksOnePerError(nameText, ingredients, score, memoText);
    ReportsExactly(FormChecks(nameText, ingredients, score, memoText), FormRank);
  }

  /** `validateForm` checks each form error once, at its rank, by its rule. */
  lemma FormChecksOnePerError(nameText: string, ingredients: seq<string>, score: int, memoText: string)
    ensures OnePerError(FormChecks(nameText, ingredients, score, memoText), FormRank)
    ensures forall e ::
      FormChecks(nameText, ingredients, score, memoText)[FormRank(e)] == (FormRule(nameText, ingredients, score, memoText, e), e)
  {
    var checks := FormChecks(nameText, ingredients, score, memoText);
    forall e ensures 0 <= FormRank(e) < |checks| && checks[FormRank(e)] == (FormRule(nameText, ingredients, score, memoText, e), e) {
      match e
      case NameInvalid =>
      case NoIngredientsAdded =>
      case ScoreNotChosen =>
      case MemoInvalid =>
    }
    forall i | 0 <= i < |checks| ensures FormRank(checks[i].1) == i {
      assert i == 0 || i == 1 || i == 2 || i == 3;
    }
  }

  /** Four checks in `validateForm`'s order push the error of each that fails, in that order. */
  lemma FormPushes(c0: bool, c1: bool, c2: bool, c3: bool)
    ensures Pushes([(c0, NameInvalid), (c1, NoIngredientsAdded), (c2, ScoreNotChosen), (c3, MemoInvalid)])
      == When(c0, NameInvalid) + When(c1, NoIngredientsAdded) + When(c2, ScoreNotChosen) + When(c3, MemoInvalid)
  {
    var s := [(c0, NameInvalid)];
    PushesOne(c0, NameInvalid);
    PushesSnoc(s, c1, NoIngredientsAdded);
    s := s + [(c1, NoIngredientsAdded)];
    PushesSnoc(s, c2, ScoreNotChosen);
    s := s + [(c2, ScoreNotChosen)];
    PushesSnoc(s, c3, MemoInvalid);
    s := s + [(c3, MemoInvalid)];
    assert s == [(c0, NameInvalid), (c1, NoIngredientsAdded), (c2, ScoreNotChosen), (c3, MemoInvalid)];
  }

  /** When `c<i>` holds exactly when the rule of check <i> holds, the four pushes are the form's errors. */
  lemma FormErrorsAre(nameText: string, ingredients: seq<string>, score: int, memoText: string,
                      c0: bool, c1: bool, c2: bool, c3: bool)
    requires c0 == FormRule(nameText, ingredients, score, memoText, NameInvalid)
    requires c1 == FormRule(nameText, ingredients, score, memoText, NoIngredientsAdded)
    requires c2 == FormRule(nameText, ingredients, score, memoText, ScoreNotChosen)
    requires c3 == FormRule(nameText, ingredients, score, memoText, MemoInvalid)
    ensures FormErrors(nameText, ingredients, score, memoText)
      == When(c0, NameInvalid) + When(c1, NoIngredientsAdded) + When(c2, ScoreNotChosen) + When(c3, MemoInvalid)
  {
    FormPushes(c0, c1, c2, c3);
  }

  /** A name the form accepts after trimming is one the store accepts once it is given the trimmed name. */
  lemma FormNameMatchesStore(nameText: string, d: FlavorDraft)
    requires d.name == Some(Trim(nameText))
    ensures ValidateName(nameText).Passed? <==>
      !FlavorRule(d, FlavorNameRequired) && !FlavorRule(d, FlavorNameTooLong)
  {
    var name := Trim(nameText);
    if name != [] {
      assert !IsWhiteSpace(name[0]);
    }
  }

  /**
   * The form measures the trimmed name and the store the name as given: a
   * hundred letters after a space pass the form and fail the store.
   */
  lemma NameChecksDifferUntrimmed()
    ensures exists nameText: string, d: FlavorDraft ::
      d.name == Some(nameText) && ValidateName(nameText).Passed? && FlavorRule(d, FlavorNameTooLong)
  {
    var letters := seq(100, i => 'a');
    var nameText := [' '] + letters;
    assert nameText[1..] == letters;
    assert !IsWhiteSpace(nameText[1]);
    assert Leading(nameText) == 1;
    assert TrimEnd(letters) == letters;
    var d := FlavorDraft(Some(nameText), Missing, None, NoShopRef, None, Missing, NoDate);
    assert ValidateName(nameText).Passed? && FlavorRule(d, FlavorNameTooLong);
  }

  /**
   * The object `handleSubmit` builds: the trimmed name, a copy of the
   * ingredients, the score, and `undefined` for an unselected shop, a blank
   * memo, an empty tag list and an empty date input. `picked` is the time the
   * date input names, which `new Date(value)` reads.
   */
  function FormData(nameText: string, ingredients: seq<string>, score: int, shopChoice: string,
                    memoText: string, tags: seq<string>, smokedAtText: string, picked: int): (r: FlavorData)
    ensures r.name == Trim(nameText) && r.flavors == ingredients && r.score == score
    ensures r.shopId == (if shopChoice == [] then None else Some(shopChoice))
    ensures r.memo.None? <==> IsBlank(memoText)
    ensures r.memo.Some? ==> r.memo.value == Trim(memoText) && !IsBlank(r.memo.value)
    ensures r.tags == (if tags == [] then None else Some(tags))
    ensures r.smokedAt.None? <==> smokedAtText == []
  {
    var memo := Trim(memoText);
    assert memo != [] ==> !IsWhiteSpace(memo[0]);
    FlavorData(
      Trim(nameText),
      ingredients,
      if shopChoice == [] then None else Some(shopChoice),
      score,
      if memo == [] then None else Some(memo),
      if |tags| > 0 then Some(tags) else None,
      if smokedAtText == [] then None else Some(picked))
  }

  /** The submitted object as `validateFlavorData` sees it. */
  function DraftOf(data: FlavorData): FlavorDraft {
    FlavorDraft(
      Some(data.name),
      Items(data.flavors),
      Some(data.score),
      match data.shopId
      case None => NoShopRef
      case Some(s) => if s == [] then NoShopRef else ShopText(s),
      data.memo,
      match data.tags
      case None => Missing
      case Some(t) => Items(t),
      if data.smokedAt.None? then NoDate else DateValue)
  }

  /**
   * The submitted object as `updateFlavor` spreads it: every key it has is
   * present, the `undefined` ones included, so they clear the stored fields;
   * `id` and `createdAt` are not among them.
   */
  function PatchOf(data: FlavorData): (u: FlavorPatch)
    ensures u.id.Keep? && u.createdAt.Keep?
  {
    FlavorPatch(Keep, Set(data.name), Set(data.flavors), Set(data.shopId), Set(data.score),
      Set(data.memo), Set(data.tags), Set(data.smokedAt), Keep)
  }

  /**
   * What the store's check can still object to once the form's own checks
   * have passed on clean lists: only a score outside 1..5, which the stars
   * cannot pick, and a tag over 50 characters, which nothing on the form
   * prevents.
   */
  lemma SubmittedDataErrors(nameText: string, ingredients: seq<string>, score: int, shopChoice: string,
                            memoText: string, tags: seq<string>, smokedAtText: string, picked: int)
    requires FormErrors(nameText, ingredients, score, memoText) == []
    requires Clean(ingredients) && Clean(tags)
    ensures var d := DraftOf(FormData(nameText, ingredients, score, shopChoice, memoText, tags, smokedAtText, picked));
      forall e :: e in FlavorErrors(d) <==>
        (e == BadScore && !(1 <= score <= 5)) || (e == TagTooLong && SomeLongerThan(tags, 50))
  {
    var data := FormData(nameText, ingredients, score, shopChoice, memoText, tags, smokedAtText, picked);
    var d := DraftOf(data);
    FormPassed(nameText, ingredients, score, memoText);
    FormNameMatchesStore(nameText, d);
    FlavorErrorsMeaning(d);
    forall e ensures FlavorRule(d, e) <==>
      (e == BadScore && !(1 <= score <= 5)) || (e == TagTooLong && SomeLongerThan(tags, 50))
    {
      match e
      case FlavorNameRequired =>
      case FlavorNameTooLong =>
      case NoIngredients =>
      case BlankIngredient =>
        assert d.flavors == Items(ingredients);
      case BadScore =>
      case BadShopRef =>
      case FlavorMemoTooLong =>
      case BlankTag =>
        assert d.tags.Items? ==> d.tags.items == tags;
      case TagTooLong =>
        assert d.tags.Items? <==> tags != [];
      case BadSmokedAt =>
    }
  }

  /** A form that lists no error has a valid name and memo, an ingredient and a score. */
  lemma FormPassed(nameText: string, ingredients: seq<string>, score: int, memoText: string)
    requires FormErrors(nameText, ingredients, score, memoText) == []
    ensures ValidateName(nameText).Passed? && ingredients != [] && score != 0 && ValidateMemo(memoText).Passed?
  {
    FormErrorsMeaning(nameText, ingredients, score, memoText);
    assert !FormRule(nameText, ingredients, score, memoText, NameInvalid);
    assert !FormRule(nameText, ingredients, score, memoText, NoIngredientsAdded);
    assert !FormRule(nameText, ingredients, score, memoText, ScoreNotChosen);
    assert !FormRule(nameText, ingredients, score, memoText, MemoInvalid);
  }

  /** How a submission ends. */
  datatype Submission =
    | FormRejected(formErrors: seq<FormError>)
    | DataRejected(dataErrors: seq<FlavorError>)
    | UpdateFailed
    | Saved(flavor: Flavor)

  /** One check of `validateForm`: when it fails, `isValid` drops to false and its error is listed. */
  method Report(isValid: bool, errors: seq<FormError>, failed: bool, e: FormError)
    returns (isValid': bool, errors': seq<FormError>)
    ensures isValid' == (isValid && !failed)
    ensures errors' == errors + When(failed, e)
  {
    isValid', errors' := isValid, errors;
    if failed {
      isValid' := false;
      errors' := errors + [e];
    }
  }

  /**
   * `isEdit = !!flavorId`: the flavor being edited is the `id` parameter of the
   * page's address, and there is none when that parameter is missing or empty.
   */
  function EditTarget(flavorId: Option<string>): (r: Option<string>)
    ensures r.Some? <==> flavorId.Some? && flavorId.value != []
    ensures r.Some? ==> r == flavorId
  {
    if flavorId.Some? && flavorId.value != [] then flavorId else None
  }

  /**
   * How a submission that passed both checks ends, with `before` and `after`
   * the stored flavors around it: an edit of an id no flavor has fails and
   * changes nothing; an edit otherwise merges the patch into the first flavor
   * with that id; a new flavor is appended with `newId` and `now` as both times.
   */
  ghost predicate StoredAs(outcome: Submission, before: seq<Flavor>, after: seq<Flavor>, data: FlavorData,
                           editId: Option<string>, newId: string, now: int) {
    && (outcome.Saved? || outcome.UpdateFailed?)
    && (outcome.UpdateFailed? <==> editId.Some? && FreshId(before, editId.value, FlavorId))
    && (outcome.UpdateFailed? ==> after == before)
    && (outcome.Saved? && editId.None? ==>
      outcome.flavor == FlavorOf(newId, data.name, data.flavors, data.shopId, data.score, data.memo,
        data.tags, data.smokedAt, now, now)
      && after == before + [outcome.flavor])
    && (outcome.Saved? && editId.Some? ==> exists i :: (IsFirst(before, i, editId.value, FlavorId)
      && outcome.flavor == MergeFlavor(before[i], PatchOf(data), now)
      && after == before[i := outcome.flavor]))
  }

  class FlavorForm {
    /** `nameInput.value`, `ingredientsInput.value`, `tagsInput.value`. */
    var nameText: string
    var ingredientText: string
    var tagText: string
    /** `shopSelect.value`, `memoInput.value`, `smokedAtInput.value`. */
    var shopChoice: string
    var memoText: string
    var smokedAtText: string
    /** `flavorIngredients`, `flavorTags`, `currentScore`. */
    var ingredients: seq<string>
    var tags: seq<string>
    var score: int

    /** The text inputs other than the two entry inputs. */
    ghost function Inputs(): (string, string, string, string)
      reads this
    {
      (nameText, shopChoice, memoText, smokedAtText)
    }

    /** A new form: empty inputs, no ingredients, no tags, no score. */
    constructor ()
      ensures Inputs() == ([], [], [], []) && ingredientText == [] && tagText == []
      ensures ingredients == [] && tags == [] && score == 0
      ensures Clean(ingredients) && Clean(tags)
    {
      nameText, ingredientText, tagText := [], [], [];
      shopChoice, memoText, smokedAtText := [], [], [];
      ingredients, tags, score := [], [], 0;
    }

    /** `addIngredient`: the entry input is cleared exactly when its value was added. */
    method AddIngredient()
      modifies this
      ensures ingredients == AddEntry(old(ingredients), old(ingredientText))
      ensures ingredientText == if ingredients == old(ingredients) then old(ingredientText) else []
      ensures old(Clean(ingredients)) ==> Clean(ingredients)
      ensures tags == old(tags) && tagText == old(tagText) && score == old(score) && Inputs() == old(Inputs())
    {
      var value := Trim(ingredientText);
      if value != [] && value !in ingredients {
        ingredients := ingredients + [value];
        ingredientText := [];
      }
      if old(Clean(ingredients)) {
        AddEntryKeepsClean(old(ingredients), old(ingredientText));
      }
    }

    /** `removeIngredient`. */
    method RemoveIngredient(ingredient: string)
      modifies this
      ensures ingredients == RemoveEntry(old(ingredients), ingredient)
      ensures old(Clean(ingredients)) ==> Clean(ingredients) && ingredient !in ingredients
      ensures ingredientText == old(ingredientText)
      ensures tags == old(tags) && tagText == old(tagText) && score == old(score) && Inputs() == old(Inputs())
    {
      var index := IndexOf(ingredients, ingredient, Self);
      if index > -1 {
        ingredients := RemoveAt(ingredients, index);
      }
      if old(Clean(ingredients)) {
        RemoveEntryKeepsClean(old(ingredients), ingredient);
      }
    }

    /** `addTag`. */
    method AddTag()
      modifies this
      ensures tags == AddEntry(old(tags), old(tagText))
      ensures tagText == if tags == old(tags) then old(tagText) else []
      ensures old(Clean(tags)) ==> Clean(tags)
      ensures ingredients == old(ingredients) && ingredientText == old(ingredientText)
      ensures score == old(score) && Inputs() == old(Inputs())
    {
      var value := Trim(tagText);
      if value != [] && value !in tags {
        tags := tags + [value];
        tagText := [];
      }
      if old(Clean(tags)) {
        AddEntryKeepsClean(old(tags), old(tagText));
      }
    }

    /** `removeTag`. */
    method RemoveTag(tag: string)
      modifies this
      ensures tags == RemoveEntry(old(tags), tag)
      ensures old(Clean(tags)) ==> Clean(tags) && tag !in tags
      ensures tagText == old(tagText)
      ensures ingredients == old(ingredients) && ingredientText == old(ingredientText)
      ensures score == old(score) && Inputs() == old(Inputs())
    {
      var index := IndexOf(tags, tag, Self);
      if index > -1 {
        tags := RemoveAt(tags, index);
      }
      if old(Clean(tags)) {
        RemoveEntryKeepsClean(old(tags), tag);
      }
    }

    /** `setRating`: a star's value becomes the score. */
    method SetRating(value: int)
      modifies this
      ensures score == value
      ensures ingredients == old(ingredients) && tags == old(tags)
      ensures ingredientText == old(ingredientText) && tagText == old(tagText) && Inputs() == old(Inputs())
    {
      score := value;
    }

    /**
     * `validateForm`: runs the four checks, lowers `isValid` and lists an
     * error for each that fails. The form is valid exactly when no error is
     * listed, and an error is listed exactly when its rule holds.
     */
    method ValidateForm() returns (isValid: bool, errors: seq<FormError>)
      ensures isValid <==> errors == []
      ensures errors == FormErrors(nameText, ingredients, score, memoText)
      ensures forall e :: e in errors <==> FormRule(nameText, ingredients, score, memoText, e)
    {
      isValid, errors := true, [];
      var badName := ValidateName(nameText).Failed?;
      isValid, errors := Report(isValid, errors, badName, NameInvalid);
      assert errors == When(badName, NameInvalid);
      var noIngredients := |ingredients| == 0;
      isValid, errors := Report(isValid, errors, noIngredients, NoIngredientsAdded);
      var noScore := score == 0;
      isValid, errors := Report(isValid, errors, noScore, ScoreNotChosen);
      var badMemo := ValidateMemo(memoText).Failed?;
      isValid, errors := Report(isValid, errors, badMemo, MemoInvalid);
      FormErrorsAre(nameText, ingredients, score, memoText, badName, noIngredients, noScore, badMemo);
      FormErrorsMeaning(nameText, ingredients, score, memoText);
    }

    /** The object `handleSubmit` builds from the form, with `picked` the time the date input names. */
    function Submitted(picked: int): FlavorData
      reads this
    {
      FormData(nameText, ingredients, score, shopChoice, memoText, tags, smokedAtText, picked)
    }

    /**
     * The saving half of `handleSubmit`: `updateFlavor` on the flavor being
     * edited, where `null` means no flavor has that id, or `addFlavor`.
     * `editId` is the `EditTarget` of the page's `id` parameter.
     */
    method Save(store: Store, data: FlavorData, editId: Option<string>, newId: string, now: int)
      returns (outcome: Submission)
      modifies store
      ensures StoredAs(outcome, old(store.Flavors(now)), store.Flavors(now), data, editId, newId, now)
      ensures store.shops == old(store.shops) && store.settings == old(store.settings)
    {
      if editId.Some? {
        var saved := store.UpdateFlavor(editId.value, PatchOf(data), now);
        if saved.None? {
          return UpdateFailed;
        }
        outcome := Saved(saved.value);
      } else {
        var saved := store.AddFlavor(data, newId, now);
        outcome := Saved(saved);
      }
    }

    /**
     * `handleSubmit`: the form's checks first, then the store's check of the
     * submitted object, then `updateFlavor` on the flavor being edited or
     * `addFlavor` for a new one. `flavorId` is the page's `id` parameter,
     * `newId` the id `addFlavor` draws, `now` the clock, `picked` the time the
     * date input names.
     */
    method HandleSubmit(store: Store, flavorId: Option<string>, newId: string, now: int, picked: int)
      returns (outcome: Submission)
      modifies store
      ensures var formErrors := FormErrors(nameText, ingredients, score, memoText);
        formErrors != [] ==> outcome == FormRejected(formErrors) && unchanged(store)
      ensures var dataErrors := FlavorErrors(DraftOf(Submitted(picked)));
        FormErrors(nameText, ingredients, score, memoText) == [] && dataErrors != [] ==>
          outcome == DataRejected(dataErrors) && unchanged(store)
      ensures FormErrors(nameText, ingredients, score, memoText) == [] && FlavorErrors(DraftOf(Submitted(picked))) == [] ==>
        StoredAs(outcome, old(store.Flavors(now)), store.Flavors(now), Submitted(picked), EditTarget(flavorId), newId, now)
      ensures store.shops == old(store.shops) && store.settings == old(store.settings)
    {
      var formOk, formErrors := ValidateForm();
      if !formOk {
        return FormRejected(formErrors);
      }
      var data := FormData(nameText, ingredients, score, shopChoice, memoText, tags, smokedAtText, picked);
      var validation := ValidateFlavorData(DraftOf(data));
      if !validation.isValid {
        return DataRejected(validation.errors);
      }
      outcome := Save(store, data, EditTarget(flavorId), newId, now);
    }
  }
}
