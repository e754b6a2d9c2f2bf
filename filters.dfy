/**
 * The two ingredients of every list page's filter: a drop-down whose `'all'` option
 * admits everything, and a case-insensitive substring search.
 */
module Filters {
  import opened Strings

  /** A drop-down filter: `'all'`, or one value. */
  datatype Choice<T> = All | Only(value: T)

  /** `filter === 'all' || x === filter`. */
  predicate Admits<T(==)>(c: Choice<T>, x: T)
  {
    c.All? || c.value == x
  }

  /** `text.toLowerCase().includes(term.toLowerCase())`. */
  predicate MatchesSearch(text: string, term: string)
  {
    Contains(ToLower(text), ToLower(term))
  }

  /** The empty search matches every text. */
  lemma EmptySearchMatches(text: string)
    ensures MatchesSearch(text, "")
  {
    assert ToLower("") == "";
    ContainsEmpty(ToLower(text));
  }

  /** The search ignores the case of both the text and the term. */
  lemma SearchIgnoresCase(text: string, term: string)
    ensures MatchesSearch(text, term) <==> MatchesSearch(ToLower(text), ToLower(term))
  {
    ToLowerIdempotent(text);
    ToLowerIdempotent(term);
  }
}
