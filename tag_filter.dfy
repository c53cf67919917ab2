/**
 * The multi-select tag filter of the list page (src/components/TagFilter.tsx).
 * The selected tags belong to the parent: every handler that changes them returns the new
 * list it hands to `onChange` instead of storing it.
 */
module TagFilterView {
  import opened Wrappers
  import opened Seqs
  import opened RecipeApi
  import opened TagInput

  datatype Key = Enter | Escape | OtherKey

  class TagFilter {
    var input: string
    var suggestions: seq<string>
    var isOpen: bool
    /** The pending debounce timer of the suggestion lookup. */
    var lookup: Lookup

    /** A pending lookup is one for the current text, and none is pending while the dropdown is closed. */
    ghost predicate Valid()
      reads this
    {
      lookup.Pending? ==> lookup == Reschedule(isOpen, input)
    }

    constructor()
      ensures Valid()
      ensures input == "" && suggestions == [] && !isOpen && lookup == Idle
    {
      input := "";
      suggestions := [];
      isOpen := false;
      lookup := Idle;
    }

    /** `visible`: the fetched suggestions minus the tags already selected. */
    function Visible(selected: seq<string>): (r: seq<string>)
      reads this
      ensures forall t :: t in r <==> t in suggestions && t !in selected
      ensures r != [] ==>
        exists i :: 0 <= i < |suggestions| && r[0] == suggestions[i] && suggestions[i] !in selected
          && forall j :: 0 <= j < i ==> suggestions[j] in selected
    {
      Unchosen(suggestions, selected)
    }

    /** Typing: the text is stored and the dropdown opens; a changed dependency restarts the timer. */
    method Type(text: string)
      requires Valid()
      modifies this
      ensures Valid()
      ensures input == text && isOpen && suggestions == old(suggestions)
      ensures lookup == if text != old(input) || !old(isOpen) then Reschedule(true, text) else old(lookup)
    {
      var changed := text != input || !isOpen;
      input := text;
      isOpen := true;
      if changed {
        lookup := Reschedule(isOpen, input);
      }
    }

    /** Focusing the input opens the dropdown. */
    method Focus()
      requires Valid()
      modifies this
      ensures Valid()
      ensures isOpen && input == old(input) && suggestions == old(suggestions)
      ensures lookup == if !old(isOpen) then Reschedule(true, input) else old(lookup)
    {
      if !isOpen {
        isOpen := true;
        lookup := Reschedule(isOpen, input);
      }
    }

    /** A pointer press outside the component closes the dropdown. */
    method ClickOutside()
      requires Valid()
      modifies this
      ensures Valid()
      ensures !isOpen && lookup == Idle && input == old(input) && suggestions == old(suggestions)
    {
      isOpen := false;
      lookup := Reschedule(isOpen, input);
    }

    /**
     * `selectTag`: hands `selected ++ [tag]` to the parent and clears the text; the dropdown
     * stays as it was. The new selection restarts the lookup timer.
     */
    method SelectTag(selected: seq<string>, tag: string) returns (changed: seq<string>)
      requires Valid()
      modifies this
      ensures Valid()
      ensures changed == selected + [tag]
      ensures input == "" && isOpen == old(isOpen) && suggestions == old(suggestions)
      ensures lookup == Reschedule(isOpen, "")
    {
      changed := selected + [tag];
      input := "";
      lookup := Reschedule(isOpen, input);
    }

    /** `removeTag`: hands the selection without `tag` to the parent. */
    method RemoveTag(selected: seq<string>, tag: string) returns (changed: seq<string>)
      requires Valid()
      modifies this
      ensures Valid()
      ensures changed == WithoutTag(selected, tag)
      ensures input == old(input) && isOpen == old(isOpen) && suggestions == old(suggestions)
      ensures lookup == Reschedule(isOpen, input)
    {
      changed := WithoutTag(selected, tag);
      lookup := Reschedule(isOpen, input);
    }

    /** The clear-all button: hands the empty selection to the parent. */
    method ClearAll() returns (changed: seq<string>)
      requires Valid()
      modifies this
      ensures Valid()
      ensures changed == []
      ensures input == old(input) && isOpen == old(isOpen) && suggestions == old(suggestions)
      ensures lookup == Reschedule(isOpen, input)
    {
      changed := [];
      lookup := Reschedule(isOpen, input);
    }

    /**
     * The key handler: Escape closes the dropdown; Enter selects the first visible suggestion
     * when there is one and otherwise changes nothing. `None` means `onChange` was not called.
     */
    method KeyDown(key: Key, selected: seq<string>) returns (changed: Option<seq<string>>)
      requires Valid()
      modifies this
      ensures Valid()
      ensures suggestions == old(suggestions)
      ensures key == Escape ==> changed == None && !isOpen && lookup == Idle && input == old(input)
      ensures key == Enter && old(Visible(selected)) != [] ==>
        && changed == Some(selected + [old(Visible(selected))[0]])
        && input == "" && isOpen == old(isOpen) && lookup == Reschedule(old(isOpen), "")
      ensures key == Enter && old(Visible(selected)) == [] ==> changed == None && unchanged(this)
      ensures key == OtherKey ==> changed == None && unchanged(this)
    {
      changed := None;
      if key == Escape {
        isOpen := false;
        lookup := Reschedule(isOpen, input);
      }
      if key == Enter && Visible(selected) != [] {
        var next := SelectTag(selected, Visible(selected)[0]);
        changed := Some(next);
      }
    }

    /** The debounce timer fires: the pending lookup is sent, and it is only ever sent while the dropdown is open. */
    method FireLookup() returns (call: Option<ApiCall>)
      requires Valid()
      modifies this
      ensures Valid()
      ensures call == LookupCall(old(lookup))
      ensures call.Some? ==> isOpen && call.value == FindTags(TagName(input))
      ensures lookup == Idle && input == old(input) && isOpen == old(isOpen) && suggestions == old(suggestions)
    {
      call := LookupCall(lookup);
      lookup := Idle;
    }

    /** The lookup settles; `selected` is the selection its timer was scheduled with. */
    method ReceiveSuggestions(result: Result<seq<string>, ApiError>, selected: seq<string>)
      requires Valid()
      modifies this
      ensures Valid()
      ensures suggestions == Settle(result, selected)
      ensures input == old(input) && isOpen == old(isOpen) && lookup == old(lookup)
    {
      suggestions := Settle(result, selected);
    }
  }

  /** Enter never selects a tag twice: a duplicate-free selection stays duplicate-free. */
  lemma EnterKeepsSelectionDistinct(suggestions: seq<string>, selected: seq<string>)
    requires NoDuplicates(selected)
    requires Unchosen(suggestions, selected) != []
    ensures NoDuplicates(selected + [Unchosen(suggestions, selected)[0]])
  {
    var v := Unchosen(suggestions, selected);
    assert v[0] in v;
    AppendFreshKeepsDistinct(selected, v[0]);
  }
}
