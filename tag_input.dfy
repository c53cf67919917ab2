/**
 * What the two tag inputs share (src/components/TagFilter.tsx and the tag field of
 * src/components/AddRecipeDialog.tsx): the debounced suggestion lookup, the filter that hides
 * tags already chosen, and removal of a tag from a list.
 */
module TagInput {
  import opened Wrappers
  import opened Text
  import opened Seqs
  import opened RecipeApi

  /** The debounce timer of a tag input: nothing pending, or one lookup of `tagName` waiting to fire. */
  datatype Lookup = Idle | Pending(tagName: Option<string>)

  /** `input.trim() || undefined`: the trimmed text, or no argument when the text is blank. */
  function TagName(input: string): (r: Option<string>)
    ensures r.None? <==> IsBlank(input)
    ensures r.Some? ==> r.value == Trim(input) && r.value != ""
  {
    var t := Trim(input);
    if t == "" then None else Some(t)
  }

  /**
   * The timer after the lookup effect re-runs: its cleanup cancels the pending timer, and only an
   * open dropdown schedules a new one, for the current text.
   */
  function Reschedule(isOpen: bool, input: string): (l: Lookup)
    ensures l.Pending? <==> isOpen
    ensures l.Pending? ==> l.tagName == TagName(input)
  {
    if isOpen then Pending(TagName(input)) else Idle
  }

  /** The request a firing timer sends. */
  function LookupCall(l: Lookup): (c: Option<ApiCall>)
    ensures c.Some? <==> l.Pending?
    ensures c.Some? ==> c.value == FindTags(l.tagName)
  {
    match l
    case Idle => None
    case Pending(t) => Some(FindTags(t))
  }

  /** The test `!chosen.includes(t)`. */
  function NotIn(chosen: seq<string>): string -> bool {
    t => t !in chosen
  }

  /**
   * `suggestions.filter(t => !chosen.includes(t))`: the suggestions not chosen yet, in order.
   * Its first element is the earliest suggestion not chosen, the one Enter picks.
   */
  function Unchosen(suggestions: seq<string>, chosen: seq<string>): (r: seq<string>)
    ensures forall t :: t in r <==> t in suggestions && t !in chosen
    ensures |r| <= |suggestions|
    ensures r != [] ==>
      exists i :: 0 <= i < |suggestions| && r[0] == suggestions[i] && suggestions[i] !in chosen
        && forall j :: 0 <= j < i ==> suggestions[j] in chosen
  {
    FilterMembers(suggestions, NotIn(chosen));
    FilterFirst(suggestions, NotIn(chosen));
    Filter(suggestions, NotIn(chosen))
  }

  /** Filtering works piecewise, so the unchosen suggestions keep their relative order and repeats. */
  lemma UnchosenAppend(a: seq<string>, b: seq<string>, chosen: seq<string>)
    ensures Unchosen(a + b, chosen) == Unchosen(a, chosen) + Unchosen(b, chosen)
  {
    FilterAppend(a, b, NotIn(chosen));
  }

  /** A single suggestion survives exactly when it is not chosen. */
  lemma UnchosenSingle(t: string, chosen: seq<string>)
    ensures Unchosen([t], chosen) == if t in chosen then [] else [t]
  {
    assert [t][1..] == [];
  }

  /** The suggestion list once a lookup settles: the unchosen results, or nothing when it failed. */
  function Settle(result: Result<seq<string>, ApiError>, chosen: seq<string>): (r: seq<string>)
    ensures result.Failure? ==> r == []
    ensures result.Success? ==> forall t :: t in r <==> t in result.value && t !in chosen
    ensures result.Success? ==> r == Unchosen(result.value, chosen)
  {
    match result
    case Success(tags) => Unchosen(tags, chosen)
    case Failure(_) => []
  }

  /** `tags.filter(t => t !== tag)`: every occurrence of `tag` removed, the others kept. */
  function WithoutTag(tags: seq<string>, tag: string): (r: seq<string>)
    ensures forall t :: t in r <==> t in tags && t != tag
    ensures |r| <= |tags|
  {
    FilterMembers(tags, t => t != tag);
    Filter(tags, t => t != tag)
  }

  /** Removal keeps the order of the remaining tags and leaves a list without `tag` as it was. */
  lemma WithoutTagKeepsOrder(a: seq<string>, b: seq<string>, tag: string)
    ensures WithoutTag(a + b, tag) == WithoutTag(a, tag) + WithoutTag(b, tag)
    ensures tag !in a ==> WithoutTag(a, tag) == a
  {
    FilterAppend(a, b, t => t != tag);
    if tag !in a {
      FilterKeepsAll(a, t => t != tag);
    }
  }

  /** Removal keeps a duplicate-free list duplicate-free. */
  lemma {:induction false} WithoutTagKeepsDistinct(tags: seq<string>, tag: string)
    requires NoDuplicates(tags)
    ensures NoDuplicates(WithoutTag(tags, tag))
  {
    if tags != [] {
      WithoutTagKeepsDistinct(tags[1..], tag);
      WithoutTagKeepsOrder([tags[0]], tags[1..], tag);
      assert [tags[0]] + tags[1..] == tags;
      assert tags[0] !in tags[1..];
      assert tags[0] !in WithoutTag(tags[1..], tag);
      assert WithoutTag([tags[0]], tag) == if tags[0] != tag then [tags[0]] else [] by {
        assert [tags[0]][1..] == [];
      }
    }
  }

  /** Appending a tag absent from a duplicate-free list keeps it duplicate-free. */
  lemma AppendFreshKeepsDistinct(tags: seq<string>, tag: string)
    requires NoDuplicates(tags) && tag !in tags
    ensures NoDuplicates(tags + [tag])
  {
  }
}
