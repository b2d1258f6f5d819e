/**
 * The treatment detail page: which treatment the URL parameter opens. The page fetches all
 * treatments, looks for one whose slug equals the parameter and, failing that, one whose id
 * does; the fetch itself is foreign code and comes in as a parameter.
 */
module TreatmentDetail {
  import opened Wrappers
  import opened Seqs
  import opened Text
  import opened Entities
  import TreatmentsPage

  /** What the page renders: the spinner, the "Treatment Not Found" view or the treatment. */
  datatype DetailView = Loading | NotFound | Showing(treatment: Treatment)

  /** The first treatment whose slug is the parameter, else the first whose id is. */
  function LookUp(items: seq<Treatment>, treatmentId: string): (r: Option<Treatment>)
    ensures r.Some? ==> r.value in items && (r.value.slug == Some(treatmentId) || r.value.id == treatmentId)
    ensures r.None? <==>
              forall i :: 0 <= i < |items| ==> items[i].slug != Some(treatmentId) && items[i].id != treatmentId
  {
    match Find(items, (t: Treatment) => t.slug == Some(treatmentId))
    case Some(t) => Some(t)
    case None => Find(items, (t: Treatment) => t.id == treatmentId)
  }

  /** A slug match wins over an id match wherever the two stand in the list: the page opens
      the first treatment with that slug. */
  lemma SlugTakesPrecedence(items: seq<Treatment>, treatmentId: string, i: nat)
    requires i < |items| && items[i].slug == Some(treatmentId)
    requires forall j :: 0 <= j < i ==> items[j].slug != Some(treatmentId)
    ensures LookUp(items, treatmentId) == Some(items[i])
  {
    FindIsFirst(items, (t: Treatment) => t.slug == Some(treatmentId), i);
  }

  /** Without a slug match the first treatment with that id is opened. */
  lemma IdFallback(items: seq<Treatment>, treatmentId: string, i: nat)
    requires forall j :: 0 <= j < |items| ==> items[j].slug != Some(treatmentId)
    requires i < |items| && items[i].id == treatmentId
    requires forall j :: 0 <= j < i ==> items[j].id != treatmentId
    ensures LookUp(items, treatmentId) == Some(items[i])
  {
    FindIsFirst(items, (t: Treatment) => t.id == treatmentId, i);
  }

  /** The effect of `fetchTreatment`. An empty parameter returns before anything is fetched and
      leaves the spinner up; a failed fetch ends loading with nothing found. */
  function TreatmentView(treatmentId: string, fetched: Option<seq<Treatment>>): (v: DetailView)
    ensures v.Loading? <==> treatmentId == ""
    ensures treatmentId != "" && fetched.None? ==> v.NotFound?
    ensures treatmentId != "" && fetched.Some? ==>
              (v.NotFound? <==> LookUp(fetched.value, treatmentId).None?)
    ensures v.Showing? ==> fetched.Some? && v.treatment in fetched.value
  {
    if treatmentId == "" then Loading
    else match fetched
      case None => NotFound
      case Some(items) =>
        match LookUp(items, treatmentId)
        case None => NotFound
        case Some(t) => Showing(t)
  }

  /** Following a card link of the list page opens the card's own treatment whenever no other
      treatment shares its link segment as a slug or an id. */
  lemma LinkOpensItsTreatment(items: seq<Treatment>, i: nat)
    requires i < |items|
    requires TreatmentsPage.LinkSegment(items[i]) != ""
    requires forall j :: 0 <= j < |items| && j != i ==>
               items[j].slug != Some(TreatmentsPage.LinkSegment(items[i]))
               && items[j].id != TreatmentsPage.LinkSegment(items[i])
    ensures TreatmentView(TreatmentsPage.LinkSegment(items[i]), Some(items)) == Showing(items[i])
  {
    var seg := TreatmentsPage.LinkSegment(items[i]);
    if items[i].slug == Some(seg) {
      SlugTakesPrecedence(items, seg, i);
    } else {
      assert items[i].id == seg;
      IdFallback(items, seg, i);
    }
  }

  /** The route `treatments/:treatmentId`: a path of the treatments prefix, in any case (route
      matching ignores case unless `caseSensitive` is set), and one further non-empty segment,
      which becomes the parameter with its case kept. */
  function RouteTreatmentId(path: string): (param: Option<string>)
    ensures param.Some? ==> |path| > 12 && Lower(path[..12]) == "/treatments/"
                            && path[12..] == param.value && param.value != "" && '/' !in param.value
    ensures (|path| > 12 && Lower(path[..12]) == "/treatments/" && '/' !in path[12..]) ==> param.Some?
  {
    if |path| > 12 && Lower(path[..12]) == "/treatments/" && '/' !in path[12..] then Some(path[12..]) else None
  }

  /** The prefix is matched regardless of case: "/Treatments/x" opens the same parameter. */
  lemma RouteIgnoresPrefixCase(segment: string)
    requires segment != "" && '/' !in segment
    ensures RouteTreatmentId("/Treatments/" + segment) == Some(segment)
    ensures RouteTreatmentId("/TREATMENTS/" + segment) == Some(segment)
  {
    assert ("/Treatments/" + segment)[..12] == "/Treatments/";
    assert ("/TREATMENTS/" + segment)[..12] == "/TREATMENTS/";
    assert ("/Treatments/" + segment)[12..] == segment;
    assert ("/TREATMENTS/" + segment)[12..] == segment;
  }

  /** A card link whose segment holds no '/' reaches the detail route with the segment as its
      parameter, and so opens the card's treatment whenever no other record shares the segment. */
  lemma CardLinkOpensItsTreatment(items: seq<Treatment>, i: nat)
    requires i < |items|
    requires TreatmentsPage.LinkSegment(items[i]) != "" && '/' !in TreatmentsPage.LinkSegment(items[i])
    requires forall j :: 0 <= j < |items| && j != i ==>
               items[j].slug != Some(TreatmentsPage.LinkSegment(items[i]))
               && items[j].id != TreatmentsPage.LinkSegment(items[i])
    ensures RouteTreatmentId(TreatmentsPage.TreatmentLink(items[i])) == Some(TreatmentsPage.LinkSegment(items[i]))
    ensures TreatmentView(RouteTreatmentId(TreatmentsPage.TreatmentLink(items[i])).value, Some(items)) == Showing(items[i])
  {
    var link := TreatmentsPage.TreatmentLink(items[i]);
    assert link[12..] == TreatmentsPage.LinkSegment(items[i]);
    assert Lower(link[..12]) == "/treatments/";
    LinkOpensItsTreatment(items, i);
  }
}
