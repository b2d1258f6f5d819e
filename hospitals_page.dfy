/** The hospital list page: its search filter and the result count line. */
module HospitalsPage {
  import opened Wrappers
  import opened Text
  import opened Seqs
  import opened Entities
  import opened Search

  /** The filter predicate: the name or the address contains the term, ignoring case. */
  predicate HospitalMatches(h: Hospital, searchTerm: string)
  {
    FieldMatches(h.hospitalName, searchTerm) || FieldMatches(h.address, searchTerm)
  }

  /** `filteredHospitals`: the fetched hospitals that match the search term. */
  function FilteredHospitals(hospitals: seq<Hospital>, searchTerm: string): (r: seq<Hospital>)
    ensures |r| <= |hospitals|
    ensures forall i :: 0 <= i < |r| ==> r[i] in hospitals && HospitalMatches(r[i], searchTerm)
    ensures forall i :: 0 <= i < |hospitals| && HospitalMatches(hospitals[i], searchTerm) ==>
              hospitals[i] in r
  {
    Filter(hospitals, h => HospitalMatches(h, searchTerm))
  }

  /** The kept hospitals keep their order in the fetched list. */
  lemma FilteredHospitalsKeepsOrder(hospitals: seq<Hospital>, searchTerm: string)
    ensures IsSubsequence(FilteredHospitals(hospitals, searchTerm), hospitals)
  {
    FilterIsSubsequence(hospitals, h => HospitalMatches(h, searchTerm));
  }

  /** Filtering the filtered list again with the same term changes nothing. */
  lemma FilteredHospitalsIdempotent(hospitals: seq<Hospital>, searchTerm: string)
    ensures FilteredHospitals(FilteredHospitals(hospitals, searchTerm), searchTerm)
         == FilteredHospitals(hospitals, searchTerm)
  {
    FilterIdempotent(hospitals, h => HospitalMatches(h, searchTerm));
  }

  /** A hospital with neither a name nor an address is never listed, not even for an empty
      search box. */
  lemma UnnamedHospitalNeverListed(hospitals: seq<Hospital>, searchTerm: string, i: nat)
    requires i < |hospitals|
    requires hospitals[i].hospitalName.None? && hospitals[i].address.None?
    ensures hospitals[i] !in FilteredHospitals(hospitals, searchTerm)
  {
  }

  /** With an empty search box exactly the hospitals that have a name or an address are listed. */
  lemma EmptySearchKeepsAddressed(hospitals: seq<Hospital>)
    ensures FilteredHospitals(hospitals, "")
         == Filter(hospitals, (h: Hospital) => h.hospitalName.Some? || h.address.Some?)
  {
    forall i | 0 <= i < |hospitals|
      ensures HospitalMatches(hospitals[i], "") <==> hospitals[i].hospitalName.Some? || hospitals[i].address.Some?
    {
      EmptyTermMatchesPresent(hospitals[i].hospitalName);
      EmptyTermMatchesPresent(hospitals[i].address);
    }
    FilterCongruent(hospitals, h => HospitalMatches(h, ""),
                    (h: Hospital) => h.hospitalName.Some? || h.address.Some?);
  }

  /** Typing more characters only narrows the list. */
  lemma SearchNarrows(hospitals: seq<Hospital>, longer: string, shorter: string)
    requires Includes(longer, shorter)
    ensures IsSubsequence(FilteredHospitals(hospitals, longer), FilteredHospitals(hospitals, shorter))
  {
    forall i | 0 <= i < |hospitals| && HospitalMatches(hospitals[i], longer)
      ensures HospitalMatches(hospitals[i], shorter)
    {
      var h := hospitals[i];
      if FieldMatches(h.hospitalName, longer) {
        MatchNarrows(h.hospitalName, longer, shorter);
      } else {
        MatchNarrows(h.address, longer, shorter);
      }
    }
    FilterMonotone(hospitals, h => HospitalMatches(h, longer), h => HospitalMatches(h, shorter));
  }

  /** `{n} treatment center{n !== 1 ? 's' : ''} found`: singular exactly when there is one result. */
  function ResultCountLine(n: nat): (line: string)
    ensures line == NatToString(n) + " treatment center found" <==> n == 1
    ensures line == NatToString(n) + " treatment centers found" <==> n != 1
  {
    NatToString(n) + " treatment center" + (if n != 1 then "s" else "") + " found"
  }
}
