/** The treatment list page: its search filter, the result count line and the card links. */
module TreatmentsPage {
  import opened Wrappers
  import opened Text
  import opened Seqs
  import opened Entities
  import opened Search

  /** The filter predicate: the name or the card description contains the term, ignoring case. */
  predicate TreatmentMatches(t: Treatment, searchTerm: string)
  {
    FieldMatches(t.treatmentName, searchTerm) || FieldMatches(t.cardDescription, searchTerm)
  }

  /** `filteredTreatments`: the fetched treatments that match the search term. */
  function FilteredTreatments(treatments: seq<Treatment>, searchTerm: string): (r: seq<Treatment>)
    ensures |r| <= |treatments|
    ensures forall i :: 0 <= i < |r| ==> r[i] in treatments && TreatmentMatches(r[i], searchTerm)
    ensures forall i :: 0 <= i < |treatments| && TreatmentMatches(treatments[i], searchTerm) ==>
              treatments[i] in r
  {
    Filter(treatments, t => TreatmentMatches(t, searchTerm))
  }

  /** The kept treatments keep their order in the fetched list. */
  lemma FilteredTreatmentsKeepsOrder(treatments: seq<Treatment>, searchTerm: string)
    ensures IsSubsequence(FilteredTreatments(treatments, searchTerm), treatments)
  {
    FilterIsSubsequence(treatments, t => TreatmentMatches(t, searchTerm));
  }

  /** With an empty search box exactly the treatments that have a name or a description are
      listed: one with neither is never shown. */
  lemma EmptySearchKeepsDescribed(treatments: seq<Treatment>)
    ensures FilteredTreatments(treatments, "")
         == Filter(treatments, (t: Treatment) => t.treatmentName.Some? || t.cardDescription.Some?)
  {
    forall i | 0 <= i < |treatments|
      ensures TreatmentMatches(treatments[i], "")
          <==> treatments[i].treatmentName.Some? || treatments[i].cardDescription.Some?
    {
      EmptyTermMatchesPresent(treatments[i].treatmentName);
      EmptyTermMatchesPresent(treatments[i].cardDescription);
    }
    FilterCongruent(treatments, t => TreatmentMatches(t, ""),
                    (t: Treatment) => t.treatmentName.Some? || t.cardDescription.Some?);
  }

  /** Typing more characters only narrows the list: the result for a longer term is a
      subsequence of the result for any part of it. */
  lemma SearchNarrows(treatments: seq<Treatment>, longer: string, shorter: string)
    requires Includes(longer, shorter)
    ensures IsSubsequence(FilteredTreatments(treatments, longer), FilteredTreatments(treatments, shorter))
  {
    forall i | 0 <= i < |treatments| && TreatmentMatches(treatments[i], longer)
      ensures TreatmentMatches(treatments[i], shorter)
    {
      var t := treatments[i];
      if FieldMatches(t.treatmentName, longer) {
        MatchNarrows(t.treatmentName, longer, shorter);
      } else {
        MatchNarrows(t.cardDescription, longer, shorter);
      }
    }
    FilterMonotone(treatments, t => TreatmentMatches(t, longer), t => TreatmentMatches(t, shorter));
  }

  /** The search is case-insensitive: the term in capitals lists the same treatments. */
  lemma SearchIgnoresCase(treatments: seq<Treatment>, searchTerm: string)
    ensures FilteredTreatments(treatments, Upper(searchTerm)) == FilteredTreatments(treatments, searchTerm)
  {
    forall i | 0 <= i < |treatments|
      ensures TreatmentMatches(treatments[i], Upper(searchTerm)) <==> TreatmentMatches(treatments[i], searchTerm)
    {
      MatchIgnoresTermCase(treatments[i].treatmentName, searchTerm);
      MatchIgnoresTermCase(treatments[i].cardDescription, searchTerm);
    }
    FilterCongruent(treatments, t => TreatmentMatches(t, Upper(searchTerm)), t => TreatmentMatches(t, searchTerm));
  }

  /** `{n} treatment{n !== 1 ? 's' : ''} available`: singular exactly when there is one result. */
  function ResultCountLine(n: nat): (line: string)
    ensures line == NatToString(n) + " treatment available" <==> n == 1
    ensures line == NatToString(n) + " treatments available" <==> n != 1
  {
    NatToString(n) + " treatment" + (if n != 1 then "s" else "") + " available"
  }

  /** The path segment of a card link: the slug when it is non-empty, otherwise the record id. */
  function LinkSegment(t: Treatment): (segment: string)
    ensures t.slug.Some? && t.slug.value != "" ==> segment == t.slug.value
    ensures t.slug.None? || t.slug.value == "" ==> segment == t.id
  {
    OrElse(t.slug, t.id)
  }

  /** `/treatments/${treatment.slug || treatment._id}`: the treatments route followed by the
      slug when it is non-empty, otherwise by the record id. */
  function TreatmentLink(t: Treatment): (link: string)
    ensures |link| >= 12 && link[..12] == "/treatments/"
    ensures t.slug.Some? && t.slug.value != "" ==> link[12..] == t.slug.value
    ensures t.slug.None? || t.slug.value == "" ==> link[12..] == t.id
  {
    "/treatments/" + LinkSegment(t)
  }
}
