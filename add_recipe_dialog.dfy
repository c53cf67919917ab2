/** The create/edit form (src/components/AddRecipeDialog.tsx). */
module RecipeDialog {
  import opened Wrappers
  import opened Text
  import opened Seqs
  import opened RecipeTypes
  import opened RecipeApi
  import opened TagInput

  const BlankRow := Ingredient("", "")

  /** The rows the form opens with: the recipe's rows when it has at least one, otherwise one blank row. */
  function InitialIngredients(recipe: Option<Recipe>): (rows: seq<Ingredient>)
    ensures |rows| >= 1
    ensures HasRows(recipe) ==> rows == recipe.value.ingredients.value
    ensures !HasRows(recipe) ==> rows == [BlankRow]
  {
    if HasRows(recipe) then recipe.value.ingredients.value else [BlankRow]
  }

  /** `recipe?.ingredients?.length` is truthy. */
  predicate HasRows(recipe: Option<Recipe>) {
    recipe.Some? && recipe.value.ingredients.Some? && recipe.value.ingredients.value != []
  }

  /** The two editable fields of a row. */
  datatype Field = IngredientName | Amount

  /** `{ ...row, [field]: value }`: only the chosen field changes. */
  function WithField(row: Ingredient, field: Field, value: string): (r: Ingredient)
    ensures field == IngredientName ==> r.ingredient == value && r.amount == row.amount
    ensures field == Amount ==> r.amount == value && r.ingredient == row.ingredient
  {
    match field
    case IngredientName => row.(ingredient := value)
    case Amount => row.(amount := value)
  }

  /** `prev.map((row, i) => i === index ? {...} : row)`: only row `index` changes, in only one field. */
  function UpdateRow(rows: seq<Ingredient>, index: int, field: Field, value: string): (r: seq<Ingredient>)
    ensures |r| == |rows|
    ensures forall i :: 0 <= i < |rows| && i != index ==> r[i] == rows[i]
    ensures 0 <= index < |rows| ==> r[index] == WithField(rows[index], field, value)
  {
    seq(|rows|, i requires 0 <= i < |rows| => if i == index then WithField(rows[i], field, value) else rows[i])
  }

  /**
   * `addTag` on the tag list: the trimmed text is appended when it is non-empty and not present yet.
   * The old tags stay first and in order, at most one tag is added, and it is the trimmed text.
   */
  function AddedTags(tags: seq<string>, input: string): (r: seq<string>)
    ensures |tags| <= |r| <= |tags| + 1 && r[..|tags|] == tags
    ensures IsBlank(input) ==> r == tags
    ensures !IsBlank(input) ==> Trim(input) in r
    ensures forall t :: t in r ==> t in tags || t == Trim(input)
    ensures NoDuplicates(tags) ==> NoDuplicates(r)
  {
    var t := Trim(input);
    if t != "" && t !in tags then tags + [t] else tags
  }

  /** `selectSuggestedTag` on the tag list: the tag is appended unless present (exact match). */
  function SelectedTags(tags: seq<string>, tag: string): (r: seq<string>)
    ensures |tags| <= |r| <= |tags| + 1 && r[..|tags|] == tags
    ensures tag in r
    ensures forall t :: t in r ==> t in tags || t == tag
    ensures NoDuplicates(tags) ==> NoDuplicates(r)
  {
    if tag !in tags then tags + [tag] else tags
  }

  /** Adding a tag that is already there changes nothing, so adding twice is adding once. */
  lemma AddTagIdempotent(tags: seq<string>, input: string, tag: string)
    ensures Trim(input) in tags ==> AddedTags(tags, input) == tags
    ensures AddedTags(AddedTags(tags, input), input) == AddedTags(tags, input)
    ensures tag in tags ==> SelectedTags(tags, tag) == tags
    ensures SelectedTags(SelectedTags(tags, tag), tag) == SelectedTags(tags, tag)
  {
  }

  /** A row is kept on submit when its trimmed name is non-empty. */
  predicate Named(row: Ingredient) {
    !IsBlank(row.ingredient)
  }

  /**
   * The record `handleSubmit` sends: trimmed title; rows with a blank name dropped (kept rows are
   * not trimmed), and no `ingredients` at all when none remain; no `tags` for an empty list;
   * trimmed `content`, absent when blank; the dish type as chosen; never images or a cook count.
   */
  function Payload(uuid: string, title: string, typeOfDish: Option<TypeOfDish>, content: string,
                   ingredients: seq<Ingredient>, tags: seq<string>): (p: Recipe)
    ensures p.uuid == uuid && p.title == Trim(title) && p.typeOfDish == typeOfDish
    ensures p.ingredients.None? <==> forall i :: 0 <= i < |ingredients| ==> !Named(ingredients[i])
    ensures p.ingredients.Some? ==> forall row :: row in p.ingredients.value <==> row in ingredients && Named(row)
    ensures p.ingredients.GetOr([]) == Filter(ingredients, Named)
    ensures p.tags.None? <==> tags == []
    ensures p.tags.Some? ==> p.tags.value == tags
    ensures p.content.None? <==> IsBlank(content)
    ensures p.content.Some? ==> p.content.value == Trim(content)
    ensures p.images.None? && p.cookCount.None?
  {
    var kept := Filter(ingredients, Named);
    FilterMembers(ingredients, Named);
    FilterEmpty(ingredients, Named);
    Recipe(uuid, Trim(title),
      if IsBlank(content) then None else Some(Trim(content)),
      if kept != [] then Some(kept) else None,
      typeOfDish,
      if tags != [] then Some(tags) else None,
      None, None)
  }

  /**
   * The rows sent for a list of rows are the rows sent for its first part followed by those for the
   * rest: dropping unnamed rows keeps the order and the repeats of the named ones.
   */
  lemma PayloadRowsInOrder(uuid: string, title: string, typeOfDish: Option<TypeOfDish>, content: string,
                           a: seq<Ingredient>, b: seq<Ingredient>, tags: seq<string>)
    ensures Payload(uuid, title, typeOfDish, content, a + b, tags).ingredients.GetOr([])
         == Payload(uuid, title, typeOfDish, content, a, tags).ingredients.GetOr([])
          + Payload(uuid, title, typeOfDish, content, b, tags).ingredients.GetOr([])
  {
    FilterAppend(a, b, Named);
  }

  /** A row with an empty name is dropped and the named row is sent as it is; all-empty rows send no ingredients. */
  lemma PayloadExample(uuid: string)
    ensures Payload(uuid, "Zupa", None, "", [Ingredient("", "1"), Ingredient("Salt", "2tsp")], []).ingredients
         == Some([Ingredient("Salt", "2tsp")])
    ensures Payload(uuid, "Zupa", None, "", [Ingredient("", "1"), Ingredient(" ", "2")], []).ingredients == None
  {
    var salt := Ingredient("Salt", "2tsp");
    var rows := [Ingredient("", "1"), salt];
    assert Named(salt) by { NamedSalt(); }
    assert !Named(rows[0]);
    assert Filter(rows, Named) == [salt] by {
      assert rows[1..] == [salt];
      assert Filter([salt], Named) == [salt] by { assert [salt][1..] == []; }
    }
    var blank := [Ingredient("", "1"), Ingredient(" ", "2")];
    assert !Named(blank[1]) by { BlankIffAllSpace(" "); }
    FilterEmpty(blank, Named);
  }

  lemma NamedSalt()
    ensures Named(Ingredient("Salt", "2tsp"))
  {
    var s := "Salt";
    assert !IsSpace(s[0]);
    assert !AllSpace(s);
    BlankIffAllSpace(s);
  }

  /** The call a submission makes: update under the recipe's own uuid when editing, create otherwise. */
  function SaveCall(recipe: Option<Recipe>, payload: Recipe): (c: ApiCall)
    ensures recipe.Some? ==> c == UpdateRecipe(payload.uuid, payload)
    ensures recipe.None? ==> c == CreateRecipe(payload)
  {
    if recipe.Some? then UpdateRecipe(payload.uuid, payload) else CreateRecipe(payload)
  }

  /** Everything the form holds, for stating what a handler leaves alone. */
  datatype FormState = FormState(
    title: string,
    typeOfDish: Option<TypeOfDish>,
    content: string,
    ingredients: seq<Ingredient>,
    tagInput: string,
    tags: seq<string>,
    tagSuggestions: seq<string>,
    showTagSuggestions: bool,
    loading: bool,
    error: Option<string>,
    lookup: Lookup)

  class AddRecipeDialog {
    /** The recipe being edited; absent in create mode. */
    const recipe: Option<Recipe>

    var title: string
    /** The chosen dish type; `None` is the empty choice `''`. */
    var typeOfDish: Option<TypeOfDish>
    var content: string
    var ingredients: seq<Ingredient>
    var tagInput: string
    var tags: seq<string>
    var tagSuggestions: seq<string>
    var showTagSuggestions: bool
    var loading: bool
    var error: Option<string>
    /** The pending debounce timer of the tag lookup. */
    var lookup: Lookup

    function State(): FormState
      reads this
    {
      FormState(title, typeOfDish, content, ingredients, tagInput, tags, tagSuggestions,
                showTagSuggestions, loading, error, lookup)
    }

    /** A pending lookup is one for the current text, and none is pending while the dropdown is closed. */
    ghost predicate Valid()
      reads this
    {
      lookup.Pending? ==> lookup == Reschedule(showTagSuggestions, tagInput)
    }

    /** The state the form opens with, from the recipe being edited or from nothing. */
    constructor(recipe: Option<Recipe>)
      ensures Valid() && this.recipe == recipe
      ensures title == (if recipe.Some? then recipe.value.title else "")
      ensures typeOfDish == (if recipe.Some? then recipe.value.typeOfDish else None)
      ensures content == (if recipe.Some? && recipe.value.content.Some? then recipe.value.content.value else "")
      ensures ingredients == InitialIngredients(recipe)
      ensures tags == (if recipe.Some? && recipe.value.tags.Some? then recipe.value.tags.value else [])
      ensures tagInput == "" && tagSuggestions == [] && !showTagSuggestions
      ensures !loading && error == None && lookup == Idle
    {
      this.recipe := recipe;
      title := if recipe.Some? then recipe.value.title else "";
      typeOfDish := if recipe.Some? then recipe.value.typeOfDish else None;
      content := if recipe.Some? && recipe.value.content.Some? then recipe.value.content.value else "";
      ingredients := InitialIngredients(recipe);
      tagInput := "";
      tags := if recipe.Some? && recipe.value.tags.Some? then recipe.value.tags.value else [];
      tagSuggestions := [];
      showTagSuggestions := false;
      loading := false;
      error := None;
      lookup := Idle;
    }

    /** `visibleSuggestions`: fetched suggestions never offer a tag the recipe already has. */
    function VisibleSuggestions(): (r: seq<string>)
      reads this
      ensures forall t :: t in r <==> t in tagSuggestions && t !in tags
      ensures r != [] ==>
        exists i :: 0 <= i < |tagSuggestions| && r[0] == tagSuggestions[i] && tagSuggestions[i] !in tags
          && forall j :: 0 <= j < i ==> tagSuggestions[j] in tags
    {
      Unchosen(tagSuggestions, tags)
    }

    /** The submit button is enabled: not saving, and a title that is not blank. */
    predicate CanSubmit(): (enabled: bool)
      reads this
      ensures enabled <==> !loading && exists k :: 0 <= k < |title| && !IsSpace(title[k])
    {
      BlankIffAllSpace(title);
      !loading && !IsBlank(title)
    }

    method SetTitle(value: string)
      modifies this
      ensures State() == old(State()).(title := value)
    {
      title := value;
    }

    method SetTypeOfDish(value: Option<TypeOfDish>)
      modifies this
      ensures State() == old(State()).(typeOfDish := value)
    {
      typeOfDish := value;
    }

    method SetContent(value: string)
      modifies this
      ensures State() == old(State()).(content := value)
    {
      content := value;
    }

    /** `addIngredient`: one blank row appended. */
    method AddIngredient()
      modifies this
      ensures State() == old(State()).(ingredients := old(ingredients) + [BlankRow])
    {
      ingredients := ingredients + [BlankRow];
    }

    /** `removeIngredient`: exactly the row at `index` goes. */
    method RemoveIngredient(index: int)
      modifies this
      ensures State() == old(State()).(ingredients := RemoveAt(old(ingredients), index))
    {
      ingredients := RemoveAt(ingredients, index);
    }

    /** `updateIngredient`: one field of one row changes. */
    method UpdateIngredient(index: int, field: Field, value: string)
      modifies this
      ensures State() == old(State()).(ingredients := UpdateRow(old(ingredients), index, field, value))
    {
      ingredients := UpdateRow(ingredients, index, field, value);
    }

    /** Typing in the tag field stores the text and opens the dropdown; a changed dependency restarts the timer. */
    method TypeTag(text: string)
      requires Valid()
      modifies this
      ensures Valid()
      ensures State() == old(State()).(tagInput := text, showTagSuggestions := true,
        lookup := if text != old(tagInput) || !old(showTagSuggestions) then Reschedule(true, text) else old(lookup))
    {
      var changed := text != tagInput || !showTagSuggestions;
      tagInput := text;
      showTagSuggestions := true;
      if changed {
        lookup := Reschedule(showTagSuggestions, tagInput);
      }
    }

    /** Focusing the tag field opens the dropdown. */
    method FocusTag()
      requires Valid()
      modifies this
      ensures Valid()
      ensures State() == old(State()).(showTagSuggestions := true,
        lookup := if !old(showTagSuggestions) then Reschedule(true, tagInput) else old(lookup))
    {
      if !showTagSuggestions {
        showTagSuggestions := true;
        lookup := Reschedule(showTagSuggestions, tagInput);
      }
    }

    /** A pointer press outside the tag field closes the dropdown. */
    method ClickOutsideTags()
      requires Valid()
      modifies this
      ensures Valid()
      ensures State() == old(State()).(showTagSuggestions := false, lookup := Idle)
    {
      showTagSuggestions := false;
      lookup := Reschedule(showTagSuggestions, tagInput);
    }

    /** `addTag`: the trimmed text joins the tags if new; the text is cleared and the dropdown closes either way. */
    method AddTag()
      requires Valid()
      modifies this
      ensures Valid()
      ensures State() == old(State()).(tags := AddedTags(old(tags), old(tagInput)), tagInput := "",
        showTagSuggestions := false, lookup := Idle)
    {
      tags := AddedTags(tags, tagInput);
      tagInput := "";
      showTagSuggestions := false;
      lookup := Reschedule(showTagSuggestions, tagInput);
    }

    /** `selectSuggestedTag`: the tag joins the tags if new; the text is cleared and the dropdown closes. */
    method SelectSuggestedTag(tag: string)
      requires Valid()
      modifies this
      ensures Valid()
      ensures State() == old(State()).(tags := SelectedTags(old(tags), tag), tagInput := "",
        showTagSuggestions := false, lookup := Idle)
    {
      tags := SelectedTags(tags, tag);
      tagInput := "";
      showTagSuggestions := false;
      lookup := Reschedule(showTagSuggestions, tagInput);
    }

    /** `removeTag`: every occurrence of the tag goes; the new list restarts the lookup timer. */
    method RemoveTag(tag: string)
      requires Valid()
      modifies this
      ensures Valid()
      ensures State() == old(State()).(tags := WithoutTag(old(tags), tag),
        lookup := Reschedule(showTagSuggestions, tagInput))
    {
      tags := WithoutTag(tags, tag);
      lookup := Reschedule(showTagSuggestions, tagInput);
    }

    /**
     * Escape: an open dropdown is only closed; with the dropdown closed the dialog asks to be
     * closed (`onClose`), which the result reports.
     */
    method Escape() returns (close: bool)
      requires Valid()
      modifies this
      ensures Valid()
      ensures close == !old(showTagSuggestions)
      ensures State() == old(State()).(showTagSuggestions := false, lookup := Idle)
    {
      close := !showTagSuggestions;
      if showTagSuggestions {
        showTagSuggestions := false;
        lookup := Reschedule(showTagSuggestions, tagInput);
      }
    }

    /**
     * Enter in the tag field: with an empty text and at least one visible suggestion the first
     * suggestion is selected; in every other case it is `addTag`.
     */
    method Enter()
      requires Valid()
      modifies this
      ensures Valid()
      ensures old(VisibleSuggestions()) != [] && old(tagInput) == "" ==>
        State() == old(State()).(tags := SelectedTags(old(tags), old(VisibleSuggestions())[0]),
          tagInput := "", showTagSuggestions := false, lookup := Idle)
      ensures !(old(VisibleSuggestions()) != [] && old(tagInput) == "") ==>
        State() == old(State()).(tags := AddedTags(old(tags), old(tagInput)),
          tagInput := "", showTagSuggestions := false, lookup := Idle)
    {
      var visible := VisibleSuggestions();
      if |visible| > 0 && tagInput == "" {
        SelectSuggestedTag(visible[0]);
      } else {
        AddTag();
      }
    }

    /** The debounce timer fires: the pending lookup is sent, only ever while the dropdown is open. */
    method FireTagLookup() returns (call: Option<ApiCall>)
      requires Valid()
      modifies this
      ensures Valid()
      ensures call == LookupCall(old(lookup))
      ensures call.Some? ==> showTagSuggestions && call.value == FindTags(TagName(tagInput))
      ensures State() == old(State()).(lookup := Idle)
    {
      call := LookupCall(lookup);
      lookup := Idle;
    }

    /** The lookup settles; `chosen` is the tag list its timer was scheduled with. */
    method ReceiveTagSuggestions(result: Result<seq<string>, ApiError>, chosen: seq<string>)
      requires Valid()
      modifies this
      ensures Valid()
      ensures State() == old(State()).(tagSuggestions := Settle(result, chosen))
    {
      tagSuggestions := Settle(result, chosen);
    }

    /**
     * The synchronous part of `handleSubmit`. A blank title sends nothing and changes nothing.
     * Otherwise saving starts and the payload is sent: an update under the recipe's own uuid when
     * editing, a create under `freshUuid` (the `crypto.randomUUID()` value) otherwise.
     */
    method BeginSubmit(freshUuid: string) returns (call: Option<ApiCall>)
      requires Valid()
      modifies this
      ensures Valid()
      ensures old(CanSubmit()) ==> call.Some? && loading
      ensures IsBlank(old(title)) ==> call == None && State() == old(State())
      ensures !IsBlank(old(title)) ==>
        && call == Some(SaveCall(recipe, Payload(if recipe.Some? then recipe.value.uuid else freshUuid,
                          old(title), old(typeOfDish), old(content), old(ingredients), old(tags))))
        && State() == old(State()).(loading := true, error := None)
    {
      if IsBlank(title) {
        call := None;
        return;
      }
      var uuid := if recipe.Some? then recipe.value.uuid else freshUuid;
      var payload := Payload(uuid, title, typeOfDish, content, ingredients, tags);
      call := Some(SaveCall(recipe, payload));
      loading := true;
      error := None;
    }

    /**
     * The save settles: success reports `onSaved`; failure keeps the message; saving ends either
     * way and no field of the form is cleared.
     */
    method FinishSubmit(outcome: Result<Recipe, ApiError>) returns (saved: bool)
      requires Valid()
      modifies this
      ensures Valid()
      ensures saved == outcome.Success?
      ensures State() == old(State()).(loading := false,
        error := if outcome.Failure? then Some(ErrorMessage(outcome.error)) else old(error))
    {
      saved := outcome.Success?;
      if outcome.Failure? {
        error := Some(ErrorMessage(outcome.error));
      }
      loading := false;
    }
  }
}
