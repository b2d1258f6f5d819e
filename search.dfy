/**
 * The field test every search box of the site is built from:
 * `record.field?.toLowerCase().includes(searchTerm.toLowerCase())`.
 */
module Search {
  import opened Wrappers
  import opened Text

  /** True when the field is present and, lower-cased, contains the lower-cased term.
      A missing field yields `undefined`, which the surrounding `filter` treats as false. */
  predicate FieldMatches(field: Option<string>, term: string)
    ensures FieldMatches(field, term) ==> field.Some? && exists i :: OccursAt(Lower(field.value), Lower(term), i)
    ensures field.Some? && (exists i :: OccursAt(Lower(field.value), Lower(term), i)) ==> FieldMatches(field, term)
  {
    if field.None? then false
    else
      var f, t := Lower(field.value), Lower(term);
      IncludesIff(f, t);
      Includes(f, t)
  }

  /** A missing field never matches, whatever the term. */
  lemma MissingFieldNeverMatches(term: string)
    ensures !FieldMatches(None, term)
  {
  }

  /** The empty term matches every present field, and only present fields. */
  lemma EmptyTermMatchesPresent(field: Option<string>)
    ensures FieldMatches(field, "") <==> field.Some?
  {
    if field.Some? {
      IncludesEmpty(Lower(field.value));
    }
  }

  /** The match ignores the case of the term: the term in capitals matches the same fields. */
  lemma MatchIgnoresTermCase(field: Option<string>, term: string)
    ensures FieldMatches(field, Upper(term)) <==> FieldMatches(field, term)
  {
    LowerOfUpper(term);
  }

  /** The match ignores the case of the field too. */
  lemma MatchIgnoresFieldCase(field: string, term: string)
    ensures FieldMatches(Some(Upper(field)), term) <==> FieldMatches(Some(field), term)
  {
    LowerOfUpper(field);
  }

  /** Narrowing: a field that matches a longer term also matches every part of that term, so
      typing more characters into the search box never brings back a record it had hidden. */
  lemma MatchNarrows(field: Option<string>, longer: string, shorter: string)
    requires Includes(longer, shorter)
    requires FieldMatches(field, longer)
    ensures FieldMatches(field, shorter)
  {
    IncludesLower(longer, shorter);
    IncludesTransitive(Lower(field.value), Lower(longer), Lower(shorter));
  }
}
