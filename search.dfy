/** The search hook (`useSearch`): a query and an error message held as
    state, and the items whose search key contains the query, ignoring case.
    The key of an item is given as `keyOf`, standing for
    `String(item[searchKey])`. */
module Search {
  import opened Strings
  import opened Sequences

  const TooShort := "Search must be at least 2 characters"

  /** `validateSearch`'s verdict: a query of exactly one character is refused. */
  predicate Acceptable(query: string) {
    !(|query| > 0 && |query| < 2)
  }

  /** The item's key contains the query, case-insensitively. */
  predicate Matches(key: string, query: string) {
    Includes(ToLower(key), ToLower(query))
  }

  /** `filteredItems`: all items for an empty query, else those whose key matches. */
  function FilteredItems<T(!new)>(items: seq<T>, keyOf: T -> string, query: string): (r: seq<T>)
    ensures query == "" ==> r == items
    ensures query != "" ==> forall x :: x in r <==> x in items && Matches(keyOf(x), query)
    ensures Subsequence(r, items)
  {
    if query == "" then
      SubsequenceOfItself(items);
      items
    else
      FilterIsSubsequence(items, (item: T) => Matches(keyOf(item), query));
      Filter(items, (item: T) => Matches(keyOf(item), query))
  }

  /** Changing the case of the query changes nothing. */
  lemma QueryCaseIgnored<T(!new)>(items: seq<T>, keyOf: T -> string, query: string)
    ensures FilteredItems(items, keyOf, ToLower(query)) == FilteredItems(items, keyOf, query)
  {
    ToLowerIdempotent(query);
    assert forall key :: Matches(key, ToLower(query)) == Matches(key, query);
    assert (ToLower(query) == "") == (query == "");
    if query != "" {
      FilterAgree(items, (item: T) => Matches(keyOf(item), ToLower(query)), (item: T) => Matches(keyOf(item), query));
    }
  }

  /** Every item matches a query it carries in its key, whatever the case. */
  lemma {:induction false} OwnKeyMatches(key: string)
    ensures Matches(key, key)
  {
    assert ToLower(key)[..|ToLower(key)|] == ToLower(key);
  }

  /** The hook's state: the query as typed and the error shown under the field. */
  class SearchState {
    var query: string
    var searchError: string

    /** Both start empty, so every item is shown and no error. */
    constructor ()
      ensures query == "" && searchError == ""
    {
      query := "";
      searchError := "";
    }

    /** `validateSearch`: sets or clears the error and reports whether the
        query is acceptable. The query itself is not touched. */
    method ValidateSearch(searchQuery: string) returns (ok: bool)
      modifies this
      ensures ok <==> Acceptable(searchQuery)
      ensures searchError == (if ok then "" else TooShort)
      ensures query == old(query)
    {
      if |searchQuery| > 0 && |searchQuery| < 2 {
        searchError := TooShort;
        return false;
      }
      searchError := "";
      return true;
    }

    /** `handleSearchChange`: the query becomes the text whether or not it is
        acceptable, and the error follows the text. */
    method HandleSearchChange(text: string)
      modifies this
      ensures query == text
      ensures searchError == (if |text| == 1 then TooShort else "")
    {
      query := text;
      var _ := ValidateSearch(text);
    }
  }
}
