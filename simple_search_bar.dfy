/**
 * The simple search box: a query filtered case-insensitively against a
 * fixed list of suggestions, the dropdown that shows them, and picking one.
 */
module SimpleSearchBar {
  import opened Seqs
  import opened Text

  datatype Suggestion = Suggestion(id: string, name: string, city: string, category: string, image: string)

  const MockSuggestions: seq<Suggestion> := [
    Suggestion("1", "Tokyo Tower", "Tokyo, Japan", "Landmarks", "https://images.unsplash.com/photo-1540959733332-eab4deabeeaf?w=300"),
    Suggestion("2", "Shibuya Crossing", "Tokyo, Japan", "City Life", "https://images.unsplash.com/photo-1526481280693-3bfa7568e0f3?w=300"),
    Suggestion("3", "Fushimi Inari", "Kyoto, Japan", "Temples", "https://images.unsplash.com/photo-1493976040374-85c8e12f0c0e?w=300"),
    Suggestion("4", "Arashiyama Bamboo", "Kyoto, Japan", "Nature", "https://images.unsplash.com/photo-1478436127897-769e1b3f0f36?w=300"),
    Suggestion("5", "Osaka Castle", "Osaka, Japan", "Landmarks", "https://images.unsplash.com/photo-1590559899731-a382839e5549?w=300")]

  /** The query occurs, ignoring case, in the name, the city or the category. */
  predicate Matches(query: string, s: Suggestion)
    ensures query == "" ==> Matches(query, s)
  {
    var q := ToLower(query);
    Contains(ToLower(s.name), q) || Contains(ToLower(s.city), q) || Contains(ToLower(s.category), q)
  }

  /** The suggestions the effect keeps for a query, in the fixed list's order: none for an empty one. */
  function SuggestionsFor(query: string): (r: seq<Suggestion>)
    ensures query == "" ==> r == []
    ensures query != "" ==> forall s :: s in r <==> s in MockSuggestions && Matches(query, s)
    ensures Subsequence(r, MockSuggestions)
  {
    if |query| > 0 then
      FilterIsSubsequence(MockSuggestions, (s: Suggestion) => Matches(query, s));
      Filter(MockSuggestions, (s: Suggestion) => Matches(query, s))
    else []
  }

  /** Whatever the query, the suggestions come from the fixed list, at most all five, none twice. */
  lemma SuggestionsFromList(query: string)
    ensures |SuggestionsFor(query)| <= |MockSuggestions|
    ensures forall s :: s in SuggestionsFor(query) ==> s in MockSuggestions
    ensures NoDuplicates(SuggestionsFor(query))
  {
    assert NoDuplicates(MockSuggestions) by {
      forall i, j | 0 <= i < j < |MockSuggestions| ensures MockSuggestions[i] != MockSuggestions[j] {
        assert MockSuggestions[i].id != MockSuggestions[j].id;
      }
    }
    if query != "" {
      FilterNoDuplicates(MockSuggestions, (s: Suggestion) => Matches(query, s));
    }
  }

  /** Case does not matter: a query and its lowercased form suggest the same places. */
  lemma CaseInsensitive(query: string)
    requires query != ""
    ensures SuggestionsFor(ToLower(query)) == SuggestionsFor(query)
  {
    var lower := ToLower(query);
    assert |lower| > 0;
    SameMatches(MockSuggestions, query);
  }

  lemma SameMatches(list: seq<Suggestion>, query: string)
    ensures Filter(list, (s: Suggestion) => Matches(ToLower(query), s)) == Filter(list, (s: Suggestion) => Matches(query, s))
  {
    ToLowerIdempotent(query);
    FilterSameTest(list, (s: Suggestion) => Matches(ToLower(query), s), (s: Suggestion) => Matches(query, s));
  }

  class SearchBox {
    var query: string
    var suggestions: seq<Suggestion>
    var showSuggestions: bool

    constructor ()
      ensures query == "" && suggestions == [] && !showSuggestions
    {
      query := "";
      suggestions := [];
      showSuggestions := false;
    }

    /** Typing, followed by the effect the new query triggers: the dropdown shows iff the query is not empty. */
    method SetQuery(q: string)
      modifies this
      ensures query == q && suggestions == SuggestionsFor(q)
      ensures showSuggestions <==> q != ""
    {
      query := q;
      QueryEffect();
    }

    /** The effect run when the query changes: refilter, and show the dropdown iff the query is not empty. */
    method QueryEffect()
      modifies this
      ensures query == old(query) && suggestions == SuggestionsFor(query)
      ensures showSuggestions <==> query != ""
    {
      if |query| > 0 {
        suggestions := SuggestionsFor(query);
        showSuggestions := true;
      } else {
        suggestions := [];
        showSuggestions := false;
      }
    }

    /** Picking a suggestion hands it to the caller, clears the query and closes the dropdown. */
    method Select(s: Suggestion) returns (picked: Suggestion)
      modifies this
      ensures picked == s
      ensures query == "" && suggestions == [] && !showSuggestions
    {
      SetQuery("");
      showSuggestions := false;
      picked := s;
    }

    /** Focusing the box reopens the dropdown only when there is a query. */
    method Focus()
      modifies this
      ensures showSuggestions <==> old(showSuggestions) || query != ""
      ensures query == old(query) && suggestions == old(suggestions)
    {
      if |query| > 0 {
        showSuggestions := true;
      }
    }

    /** Leaving the box closes the dropdown (after a delay, not modelled). */
    method Blur()
      modifies this
      ensures !showSuggestions
      ensures query == old(query) && suggestions == old(suggestions)
    {
      showSuggestions := false;
    }
  }
}
