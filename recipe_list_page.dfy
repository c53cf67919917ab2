/** The recipe list with its search criteria (src/pages/RecipeListPage.tsx). */
module ListPage {
  import opened Wrappers
  import opened Text
  import opened RecipeTypes
  import opened RecipeApi

  /** The three grammatical forms the labels choose between. */
  datatype PluralForm = One | Few | Many

  /** The count rule both labels use: exactly 1 is singular, other counts below 5 (0 too) take the second form, the rest the third. */
  function PluralFormOf(n: nat): (f: PluralForm)
    ensures f == One <==> n == 1
    ensures f == Few <==> n != 1 && n < 5
    ensures f == Many <==> n >= 5
  {
    if n == 1 then One else if n < 5 then Few else Many
  }

  /** `pluralRecipes`. */
  function PluralRecipes(n: nat): (w: string)
    ensures w == "przepis" <==> n == 1
    ensures w == "przepisy" <==> n != 1 && n < 5
    ensures w == "przepisów" <==> n >= 5
  {
    match PluralFormOf(n)
    case One => "przepis"
    case Few => "przepisy"
    case Many => "przepisów"
  }

  /** `pluralIngredients`. */
  function PluralIngredients(n: nat): (w: string)
    ensures w == "składnik" <==> n == 1
    ensures w == "składniki" <==> n != 1 && n < 5
    ensures w == "składników" <==> n >= 5
  {
    match PluralFormOf(n)
    case One => "składnik"
    case Few => "składniki"
    case Many => "składników"
  }

  /** `s || undefined`. */
  function NonEmpty(s: string): (r: Option<string>)
    ensures r.None? <==> s == ""
    ensures r.Some? ==> r.value == s
  {
    if s == "" then None else Some(s)
  }

  /**
   * The request the fetch effect makes: a search exactly when the title, the dish type or the tag
   * list is non-empty, carrying only the non-empty parts; "list all" otherwise.
   */
  function ListCall(title: string, typeOfDish: string, tags: seq<string>): (c: ApiCall)
    ensures c.FindRecipes? <==> title != "" || typeOfDish != "" || tags != []
    ensures !c.FindRecipes? ==> c == GetAllRecipes
    ensures c.FindRecipes? ==>
      c.params == FindParams(NonEmpty(title), NonEmpty(typeOfDish), if tags != [] then Some(tags) else None)
  {
    if title != "" || typeOfDish != "" || |tags| > 0 then
      FindRecipes(FindParams(NonEmpty(title), NonEmpty(typeOfDish), if |tags| > 0 then Some(tags) else None))
    else GetAllRecipes
  }

  /** What reaches the wire for a search: the non-empty title and type once each, and every selected tag in order. */
  lemma SearchQueryCarriesCriteria(title: string, typeOfDish: string, tags: seq<string>)
    requires title != "" || typeOfDish != "" || tags != []
    ensures var q := RequestOf(ListCall(title, typeOfDish, tags)).query;
      && GetAll(q, "title") == (if title != "" then [title] else [])
      && GetAll(q, "typeOfDish") == (if typeOfDish != "" then [typeOfDish] else [])
      && GetAll(q, "tags") == tags
  {
    FindQueryReadsBack(ListCall(title, typeOfDish, tags).params);
  }

  /** Title "soup" with no type and no tags sends a search whose only pair is `title=soup`. */
  lemma SoupSearch()
    ensures ListCall("soup", "", []).FindRecipes?
    ensures RequestOf(ListCall("soup", "", [])).query == [("title", "soup")]
  {
    var p := ListCall("soup", "", []).params;
    assert FilterPairs(p) == [("title", "soup")];
    assert TagPairs([]) == [];
  }

  /** What the content area renders. */
  datatype Panel = Spinner | ErrorBox(message: string) | EmptyMessage | Grid

  /** `error` used as a condition: a missing or empty message counts as no error. */
  predicate Raised(error: Option<string>)
  {
    error.Some? && error.value != ""
  }

  /**
   * The panels the content area renders, each under its own condition. When loading and a raised
   * error never coincide, exactly one panel shows; the empty message needs zero recipes and the grid
   * at least one, both only when neither loading nor failed.
   */
  function Panels(loading: bool, error: Option<string>, count: nat): (ps: seq<Panel>)
    ensures (loading ==> !Raised(error)) ==> |ps| == 1
    ensures Spinner in ps <==> loading
    ensures Raised(error) <==> ErrorBox(error.GetOr("")) in ps
    ensures EmptyMessage in ps <==> !loading && !Raised(error) && count == 0
    ensures Grid in ps <==> !loading && !Raised(error) && count > 0
  {
    (if loading then [Spinner] else [])
    + (if Raised(error) then [ErrorBox(error.value)] else [])
    + (if !loading && !Raised(error) && count == 0 then [EmptyMessage] else [])
    + (if !loading && !Raised(error) && count > 0 then [Grid] else [])
  }

  /** The dish type's Polish label. */
  function DishLabel(t: TypeOfDish): (name: string)
    ensures name != ""
  {
    match t
    case BREAKFAST => "Śniadanie"
    case DINNER => "Obiad"
    case DESSERT => "Deser"
    case DRINK => "Napój"
  }

  /** No two dish types share a label. */
  lemma DishLabelsDistinct(a: TypeOfDish, b: TypeOfDish)
    ensures DishLabel(a) == DishLabel(b) ==> a == b
  {
  }

  /** The count line above the grid, e.g. "3 przepisy". */
  function ResultsLabel(count: nat): (s: string)
    ensures StripSuffix(s, " " + PluralRecipes(count)) == Some(DecimalString(count))
  {
    StripSuffixOf(DecimalString(count), " " + PluralRecipes(count));
    DecimalString(count) + (" " + PluralRecipes(count))
  }

  /** The tags a card shows: the first three at most, in order. */
  function CardTags(r: Recipe): (shown: seq<string>)
    ensures |shown| <= 3
    ensures r.tags.None? ==> shown == []
    ensures r.tags.Some? ==> |shown| <= |r.tags.value| && shown == r.tags.value[..|shown|]
    ensures r.tags.Some? ==> |shown| == 3 || shown == r.tags.value
  {
    if r.tags.None? then []
    else if |r.tags.value| <= 3 then r.tags.value
    else r.tags.value[..3]
  }

  /** The card footer: the ingredient count with its word, only for a recipe that has ingredients. */
  function IngredientsLabel(r: Recipe): (s: Option<string>)
    ensures s.Some? <==> r.ingredients.Some? && r.ingredients.value != []
    ensures s.Some? ==> s.value == DecimalString(|r.ingredients.value|) + " " + PluralIngredients(|r.ingredients.value|)
  {
    if r.ingredients.Some? && |r.ingredients.value| > 0 then
      var n := |r.ingredients.value|;
      Some(DecimalString(n) + " " + PluralIngredients(n))
    else None
  }

  datatype ListState = ListState(
    recipes: seq<Recipe>,
    loading: bool,
    error: Option<string>,
    title: string,
    typeOfDish: string,
    selectedTags: seq<string>,
    showDialog: bool,
    refreshKey: nat,
    pending: Option<ApiCall>)

  class RecipeListPage {
    var recipes: seq<Recipe>
    var loading: bool
    var error: Option<string>
    var title: string
    var typeOfDish: string
    var selectedTags: seq<string>
    var showDialog: bool
    var refreshKey: nat
    /** The request of the one live debounce timer, if any. */
    var pending: Option<ApiCall>

    function State(): ListState
      reads this
    {
      ListState(recipes, loading, error, title, typeOfDish, selectedTags, showDialog, refreshKey, pending)
    }

    /**
     * Loading and an error never show together, and a scheduled request is always the one for the
     * current criteria: a change re-schedules, cancelling the request of the old criteria.
     */
    ghost predicate Valid()
      reads this
    {
      && (loading ==> error.None?)
      && (pending.Some? ==> pending.value == ListCall(title, typeOfDish, selectedTags))
    }

    /** The first render: loading, nothing found yet, and the mount effect's timer scheduled. */
    constructor()
      ensures Valid()
      ensures State() == ListState([], true, None, "", "", [], false, 0, Some(GetAllRecipes))
    {
      recipes := [];
      loading := true;
      error := None;
      title := "";
      typeOfDish := "";
      selectedTags := [];
      showDialog := false;
      refreshKey := 0;
      pending := Some(ListCall("", "", []));
    }

    /** The content panels of the current state; under the invariant exactly one shows. */
    function Shown(): (ps: seq<Panel>)
      reads this
      ensures (loading ==> error.None?) ==> |ps| == 1
    {
      Panels(loading, error, |recipes|)
    }

    /** Editing the title; a different value restarts the debounce timer. */
    method SetTitle(value: string)
      requires Valid()
      modifies this
      ensures Valid()
      ensures value == old(title) ==> State() == old(State())
      ensures value != old(title) ==>
        State() == old(State()).(title := value, pending := Some(ListCall(value, typeOfDish, selectedTags)))
    {
      if value != title {
        title := value;
        pending := Some(ListCall(title, typeOfDish, selectedTags));
      }
    }

    /** Choosing a dish type (`""` for all types); a different value restarts the timer. */
    method SetTypeOfDish(value: string)
      requires Valid()
      modifies this
      ensures Valid()
      ensures value == old(typeOfDish) ==> State() == old(State())
      ensures value != old(typeOfDish) ==>
        State() == old(State()).(typeOfDish := value, pending := Some(ListCall(title, value, selectedTags)))
    {
      if value != typeOfDish {
        typeOfDish := value;
        pending := Some(ListCall(title, typeOfDish, selectedTags));
      }
    }

    /** The tag filter's `onChange`: every call hands over a new list, so the timer always restarts. */
    method SetSelectedTags(tags: seq<string>)
      requires Valid()
      modifies this
      ensures Valid()
      ensures State() == old(State()).(selectedTags := tags, pending := Some(ListCall(title, typeOfDish, tags)))
    {
      selectedTags := tags;
      pending := Some(ListCall(title, typeOfDish, selectedTags));
    }

    method OpenDialog()
      requires Valid()
      modifies this
      ensures Valid()
      ensures State() == old(State()).(showDialog := true)
    {
      showDialog := true;
    }

    method CloseDialog()
      requires Valid()
      modifies this
      ensures Valid()
      ensures State() == old(State()).(showDialog := false)
    {
      showDialog := false;
    }

    /** `onSaved`: the dialog closes and the refresh key grows by one, which schedules a re-fetch. */
    method OnSaved()
      requires Valid()
      modifies this
      ensures Valid()
      ensures State() == old(State()).(showDialog := false, refreshKey := old(refreshKey) + 1,
        pending := Some(ListCall(title, typeOfDish, selectedTags)))
    {
      showDialog := false;
      refreshKey := refreshKey + 1;
      pending := Some(ListCall(title, typeOfDish, selectedTags));
    }

    /** The debounce timer fires: loading starts, the error clears, and the request for the current criteria goes out. */
    method FireFetch() returns (call: Option<ApiCall>)
      requires Valid()
      modifies this
      ensures Valid()
      ensures call == old(pending)
      ensures call.Some? ==> call.value == ListCall(title, typeOfDish, selectedTags)
      ensures call.None? ==> State() == old(State())
      ensures call.Some? ==> State() == old(State()).(loading := true, error := None, pending := None)
    {
      call := pending;
      if pending.Some? {
        loading := true;
        error := None;
        pending := None;
      }
    }

    /** The request settles: success replaces the list, failure keeps it and records the message; loading ends. */
    method FinishFetch(outcome: Result<seq<Recipe>, ApiError>)
      requires Valid()
      modifies this
      ensures Valid()
      ensures outcome.Success? ==> State() == old(State()).(recipes := outcome.value, loading := false)
      ensures outcome.Failure? ==>
        State() == old(State()).(error := Some(ErrorMessage(outcome.error)), loading := false)
    {
      if outcome.Success? {
        recipes := outcome.value;
      } else {
        error := Some(ErrorMessage(outcome.error));
      }
      loading := false;
    }
  }
}
