/** One recipe's page: fetch, cook counter, deletion, photo upload and the edit dialog (src/pages/RecipeDetailPage.tsx). */
module DetailPage {
  import opened Wrappers
  import opened Text
  import opened Seqs
  import opened RecipeTypes
  import opened Image
  import opened RecipeApi

  /** The picture a single blob contributes: its data URL, or nothing. */
  function UrlOf(b: Binary): (urls: seq<string>)
    ensures urls == [] <==> BinaryToDataUrl(b).None?
    ensures urls != [] ==> urls == [BinaryToDataUrl(b).value]
  {
    match BinaryToDataUrl(b)
    case Some(u) => [u]
    case None => []
  }

  /** The gallery: every blob that yields a data URL, in order; the others are dropped. */
  function DataUrls(bs: seq<Binary>): (urls: seq<string>)
    ensures |urls| <= |bs|
    ensures forall k :: 0 <= k < |urls| ==> DataUrlPayload(urls[k]).Some?
  {
    DataUrlsShape(bs);
    FlatMap(bs, UrlOf)
  }

  /** Each blob adds at most one picture, and every picture is a JPEG data URL. */
  lemma {:induction false} DataUrlsShape(bs: seq<Binary>)
    ensures |FlatMap(bs, UrlOf)| <= |bs|
    ensures forall k :: 0 <= k < |FlatMap(bs, UrlOf)| ==> DataUrlPayload(FlatMap(bs, UrlOf)[k]).Some?
  {
    if |bs| != 0 {
      DataUrlsShape(bs[1..]);
      var head := UrlOf(bs[0]);
      var rest := FlatMap(bs[1..], UrlOf);
      assert FlatMap(bs, UrlOf) == head + rest;
      assert forall k :: 0 <= k < |head| ==> DataUrlPayload(head[k]).Some?;
    }
  }

  /** A single blob shows exactly the URL `binaryToDataUrl` gives it, or nothing when that is null. */
  lemma DataUrlsSingle(b: Binary)
    ensures DataUrls([b]) == if BinaryToDataUrl(b).Some? then [BinaryToDataUrl(b).value] else []
  {
    assert [b][1..] == [];
    assert FlatMap([b], UrlOf) == UrlOf(b) + FlatMap([], UrlOf);
  }

  /** The gallery of a list is the gallery of its parts, one after the other. */
  lemma DataUrlsAppend(a: seq<Binary>, b: seq<Binary>)
    ensures DataUrls(a + b) == DataUrls(a) + DataUrls(b)
  {
    FlatMapAppend(a, b, UrlOf);
  }

  /** The gallery keeps every image exactly when every blob yields a URL. */
  lemma {:induction false} DataUrlsKeepAll(bs: seq<Binary>)
    ensures |DataUrls(bs)| == |bs| <==> forall k :: 0 <= k < |bs| ==> BinaryToDataUrl(bs[k]).Some?
  {
    if |bs| != 0 {
      DataUrlsKeepAll(bs[1..]);
      assert DataUrls(bs) == UrlOf(bs[0]) + DataUrls(bs[1..]);
      assert forall k :: 1 <= k < |bs| ==> bs[k] == bs[1..][k - 1];
    }
  }

  /** A blob without data sits in the list without adding a picture or shifting the others. */
  lemma DataUrlsSkipEmpty(a: seq<Binary>, t: Option<BinaryType>, b: seq<Binary>)
    ensures DataUrls(a + [Binary(t, None)] + b) == DataUrls(a) + DataUrls(b)
  {
    var blank := [Binary(t, None)];
    DataUrlsAppend(a + blank, b);
    DataUrlsAppend(a, blank);
    NoDataNoPicture(t);
    assert DataUrls(a + blank) == DataUrls(a);
  }

  /** A single blob without data shows nothing. */
  lemma NoDataNoPicture(t: Option<BinaryType>)
    ensures DataUrls([Binary(t, None)]) == []
  {
    var blank := [Binary(t, None)];
    assert UrlOf(blank[0]) == [];
    assert blank[1..] == [];
    assert FlatMap(blank, UrlOf) == UrlOf(blank[0]) + FlatMap([], UrlOf);
  }

  /** The images of the shown recipe; a missing recipe or image list shows none. */
  function Gallery(recipe: Option<Recipe>): (urls: seq<string>)
    ensures recipe.None? || recipe.value.images.None? ==> urls == []
    ensures recipe.Some? && recipe.value.images.Some? ==> |urls| <= |recipe.value.images.value|
    ensures recipe.Some? ==> urls == DataUrls(recipe.value.images.GetOr([]))
  {
    if recipe.None? then [] else DataUrls(recipe.value.images.GetOr([]))
  }

  /** `recipe.cookCount ?? 0`. */
  function DisplayedCookCount(r: Recipe): (n: nat)
    ensures r.cookCount.Some? ==> n == r.cookCount.value
    ensures r.cookCount.None? ==> n == 0
  {
    r.cookCount.GetOr(0)
  }

  /** The word after the counter: singular exactly for one. */
  function CookLabel(n: nat): (w: string)
    ensures w == "raz" <==> n == 1
    ensures w == "razy" <==> n != 1
  {
    if n == 1 then "raz" else "razy"
  }

  predicate NotBlank(s: string) {
    !IsBlank(s)
  }

  /**
   * The paragraphs of the preparation text: the lines between newlines that are not blank,
   * untrimmed and in order; no content shows none.
   */
  function Paragraphs(content: Option<string>): (ps: seq<string>)
    ensures forall k :: 0 <= k < |ps| ==> !IsBlank(ps[k]) && '\n' !in ps[k]
    ensures content.None? ==> ps == []
  {
    if content.None? || content.value == "" then []
    else
      var ps := Filter(Split(content.value, '\n'), NotBlank);
      assert forall k :: 0 <= k < |ps| ==> ps[k] in Split(content.value, '\n') by {
        FilterMembers(Split(content.value, '\n'), NotBlank);
      }
      ps
  }

  /** A line shows as a paragraph exactly when it is one of the text's lines and is not blank. */
  lemma ParagraphMembership(content: string, line: string)
    ensures line in Paragraphs(Some(content)) <==> line in Split(content, '\n') && !IsBlank(line)
  {
    FilterMembership(Split(content, '\n'), NotBlank, line);
    if content == "" {
      assert Split(content, '\n') == [""];
    }
  }

  /** Text assembled from lines shows exactly the non-blank ones, in their order. */
  lemma ParagraphsOfLines(lines: seq<string>)
    requires |lines| >= 1
    requires forall k :: 0 <= k < |lines| ==> '\n' !in lines[k]
    ensures Paragraphs(Some(JoinWith(lines, '\n'))) == Filter(lines, NotBlank)
  {
    JoinSplit(lines, '\n');
    var text := JoinWith(lines, '\n');
    if text == "" {
      assert Filter(lines, NotBlank) == Filter(Split(text, '\n'), NotBlank);
      assert Split(text, '\n') == [""];
      assert Filter([""], NotBlank) == [] by {
        assert !NotBlank("");
        assert [""][1..] == [];
      }
    }
  }

  datatype DetailState = DetailState(
    recipe: Option<Recipe>,
    loading: bool,
    error: Option<string>,
    showEdit: bool,
    showConfirm: bool,
    deleting: bool,
    deleteError: Option<string>,
    cooking: bool,
    cookError: Option<string>,
    uploading: bool,
    uploadError: Option<string>)

  class RecipeDetailPage {
    const uuid: string
    var recipe: Option<Recipe>
    var loading: bool
    var error: Option<string>
    var showEdit: bool
    var showConfirm: bool
    var deleting: bool
    var deleteError: Option<string>
    var cooking: bool
    var cookError: Option<string>
    var uploading: bool
    var uploadError: Option<string>

    function State(): DetailState
      reads this
    {
      DetailState(recipe, loading, error, showEdit, showConfirm, deleting, deleteError,
        cooking, cookError, uploading, uploadError)
    }

    /** A fetch in flight has no error to show, and a deletion in flight keeps its confirmation open. */
    ghost predicate Valid()
      reads this
    {
      && (loading ==> error.None?)
      && (deleting ==> showConfirm)
    }

    /** Mounting for `uuid`: loading is on; the mount effect's request is the first `StartFetch`. */
    constructor(uuid: string)
      ensures Valid()
      ensures this.uuid == uuid
      ensures State() == DetailState(None, true, None, false, false, false, None, false, None, false, None)
    {
      this.uuid := uuid;
      recipe := None;
      loading := true;
      error := None;
      showEdit := false;
      showConfirm := false;
      deleting := false;
      deleteError := None;
      cooking := false;
      cookError := None;
      uploading := false;
      uploadError := None;
    }

    /** The pictures the gallery shows now. */
    function Images(): (urls: seq<string>)
      reads this
      ensures recipe.None? ==> urls == []
      ensures urls == Gallery(recipe)
    {
      Gallery(recipe)
    }

    /** `fetchRecipe`: loading starts, the error clears, and the recipe of this page is requested. */
    method StartFetch() returns (call: ApiCall)
      requires Valid()
      modifies this
      ensures Valid()
      ensures call == GetRecipeByUuid(uuid)
      ensures State() == old(State()).(loading := true, error := None)
    {
      loading := true;
      error := None;
      call := GetRecipeByUuid(uuid);
    }

    /** The fetch settles: success replaces the recipe, failure keeps the old one and records the message. */
    method FinishFetch(outcome: Result<Recipe, ApiError>)
      requires Valid()
      modifies this
      ensures Valid()
      ensures outcome.Success? ==> State() == old(State()).(recipe := Some(outcome.value), loading := false)
      ensures outcome.Failure? ==>
        State() == old(State()).(error := Some(ErrorMessage(outcome.error)), loading := false)
    {
      if outcome.Success? {
        recipe := Some(outcome.value);
      } else {
        error := Some(ErrorMessage(outcome.error));
      }
      loading := false;
    }

    /** `handleCook`: the counter button is busy and the increment is requested. */
    method StartCook() returns (call: ApiCall)
      requires Valid()
      modifies this
      ensures Valid()
      ensures call == IncrementCookCount(uuid)
      ensures State() == old(State()).(cooking := true, cookError := None)
    {
      cooking := true;
      cookError := None;
      call := IncrementCookCount(uuid);
    }

    /** The increment settles: the server's recipe replaces the shown one, or the message is recorded. */
    method FinishCook(outcome: Result<Recipe, ApiError>)
      requires Valid()
      modifies this
      ensures Valid()
      ensures outcome.Success? ==> State() == old(State()).(recipe := Some(outcome.value), cooking := false)
      ensures outcome.Failure? ==>
        State() == old(State()).(cookError := Some(ErrorMessage(outcome.error)), cooking := false)
    {
      if outcome.Success? {
        recipe := Some(outcome.value);
      } else {
        cookError := Some(ErrorMessage(outcome.error));
      }
      cooking := false;
    }

    method OpenEdit()
      requires Valid()
      modifies this
      ensures Valid()
      ensures State() == old(State()).(showEdit := true)
    {
      showEdit := true;
    }

    method CloseEdit()
      requires Valid()
      modifies this
      ensures Valid()
      ensures State() == old(State()).(showEdit := false)
    {
      showEdit := false;
    }

    /** The edit dialog saved: it closes and the recipe is fetched again. */
    method EditSaved() returns (call: ApiCall)
      requires Valid()
      modifies this
      ensures Valid()
      ensures call == GetRecipeByUuid(uuid)
      ensures State() == old(State()).(showEdit := false, loading := true, error := None)
    {
      showEdit := false;
      call := StartFetch();
    }

    method OpenConfirm()
      requires Valid()
      modifies this
      ensures Valid()
      ensures State() == old(State()).(showConfirm := true)
    {
      showConfirm := true;
    }

    /** Cancel or a click on the overlay: the confirmation closes, unless a deletion is in flight. */
    method DismissConfirm()
      requires Valid()
      modifies this
      ensures Valid()
      ensures old(deleting) ==> State() == old(State())
      ensures !old(deleting) ==> State() == old(State()).(showConfirm := false)
    {
      if !deleting {
        showConfirm := false;
      }
    }

    /** `handleDelete`, from the confirmation's button: the deletion is requested. */
    method StartDelete() returns (call: ApiCall)
      requires Valid()
      requires showConfirm && recipe.Some? && !deleting
      modifies this
      ensures Valid()
      ensures call == DeleteRecipe(uuid)
      ensures State() == old(State()).(deleting := true, deleteError := None)
    {
      deleting := true;
      deleteError := None;
      call := DeleteRecipe(uuid);
    }

    /**
     * The deletion settles: success navigates back (`back`) and leaves the state as it is;
     * failure records the message and re-enables the dialog, which stays open.
     */
    method FinishDelete(outcome: Result<(), ApiError>) returns (back: bool)
      requires Valid()
      modifies this
      ensures Valid()
      ensures back <==> outcome.Success?
      ensures outcome.Success? ==> State() == old(State())
      ensures outcome.Failure? ==>
        State() == old(State()).(deleteError := Some(ErrorMessage(outcome.error)), deleting := false)
    {
      if outcome.Success? {
        back := true;
      } else {
        deleteError := Some(ErrorMessage(outcome.error));
        deleting := false;
        back := false;
      }
    }

    /** The file picker changed: an empty choice does nothing; otherwise the first file is uploaded. */
    method SelectPhoto(files: seq<PhotoFile>) returns (call: Option<ApiCall>)
      requires Valid()
      modifies this
      ensures Valid()
      ensures call.None? <==> files == []
      ensures files == [] ==> State() == old(State())
      ensures files != [] ==>
        && call.value == AddPhoto(uuid, files[0])
        && State() == old(State()).(uploading := true, uploadError := None)
    {
      if files == [] {
        call := None;
      } else {
        uploading := true;
        uploadError := None;
        call := Some(AddPhoto(uuid, files[0]));
      }
    }

    /**
     * The upload settles. Success re-fetches the recipe rather than adding the picture locally, so the
     * shown recipe is untouched until that fetch returns; failure records the message. Either way the
     * upload button is free again.
     */
    method FinishUpload(outcome: Result<(), ApiError>) returns (refetch: Option<ApiCall>)
      requires Valid()
      modifies this
      ensures Valid()
      ensures refetch.Some? <==> outcome.Success?
      ensures outcome.Success? ==>
        && refetch.value == GetRecipeByUuid(uuid)
        && State() == old(State()).(loading := true, error := None, uploading := false)
      ensures outcome.Failure? ==>
        State() == old(State()).(uploadError := Some(ErrorMessage(outcome.error)), uploading := false)
    {
      if outcome.Success? {
        var call := StartFetch();
        refetch := Some(call);
      } else {
        uploadError := Some(ErrorMessage(outcome.error));
        refetch := None;
      }
      uploading := false;
    }
  }
}
