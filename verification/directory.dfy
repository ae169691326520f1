/** The farmer directory: search and location filter, the location cards'
    counts, and the paged table whose page returns to 1 whenever the filter
    changes. */
module Directory {
  import opened Common
  import opened Entities
  import opened Seqs
  import opened Text
  import opened Paging

  /** The location filter value that keeps every farmer. */
  const AllLocations: string := "ALL"

  const PerPage: nat := 10

  /** Name or code, case-insensitively, or phone (when there is one), as typed. */
  predicate MatchesSearch(f: Farmer, term: string) {
    || Contains(ToLower(f.name), ToLower(term))
    || Contains(ToLower(f.farmerCode), ToLower(term))
    || (f.phone.Some? && Contains(f.phone.value, term))
  }

  predicate MatchesLocation(f: Farmer, location: string) {
    location == AllLocations || f.address == Some(location)
  }

  predicate Shown(f: Farmer, term: string, location: string) {
    MatchesSearch(f, term) && MatchesLocation(f, location)
  }

  /** The filtered list: in directory order, exactly the farmers that match both filters. */
  function Filtered(farmers: seq<Farmer>, term: string, location: string): (r: seq<Farmer>)
    ensures IsSubsequence(r, farmers)
    ensures forall i :: 0 <= i < |r| ==> Shown(r[i], term, location)
    ensures forall i :: 0 <= i < |farmers| && Shown(farmers[i], term, location) ==> farmers[i] in r
  {
    Filter(farmers, (f: Farmer) => Shown(f, term, location))
  }

  function AtAddress(farmers: seq<Farmer>, location: string): seq<Farmer> {
    Filter(farmers, (f: Farmer) => f.address == Some(location))
  }

  /** `getCount(loc)`: the farmers whose address is `loc`. */
  function GetCount(farmers: seq<Farmer>, location: string): (r: nat)
    ensures r <= |farmers|
  {
    |AtAddress(farmers, location)|
  }

  /** The number a location card shows: everyone on the 'ALL' card. */
  function CardCount(farmers: seq<Farmer>, location: string): (r: nat)
    ensures r <= |farmers|
    ensures location == AllLocations ==> r == |farmers|
  {
    if location == AllLocations then |farmers| else GetCount(farmers, location)
  }

  /** With nothing typed in the search box, the table lists as many farmers
      as the selected card counts. */
  lemma {:induction false} CardCountsTable(farmers: seq<Farmer>, location: string)
    ensures |Filtered(farmers, "", location)| == CardCount(farmers, location)
  {
    forall i | 0 <= i < |farmers|
      ensures MatchesSearch(farmers[i], "")
    {
      EmptyTermMatches(ToLower(farmers[i].name));
    }
    if location == AllLocations {
      FilterAll(farmers, (f: Farmer) => Shown(f, "", location));
    } else {
      FilterCongruent(farmers, (f: Farmer) => Shown(f, "", location), (f: Farmer) => f.address == Some(location));
    }
  }

  /** What the directory screen holds. */
  datatype View = View(term: string, location: string, page: int)

  function TableRows(farmers: seq<Farmer>, v: View): (r: seq<Farmer>)
    ensures |r| <= PerPage
  {
    PageRows(Filtered(farmers, v.term, v.location), v.page, PerPage)
  }

  function PageCount(farmers: seq<Farmer>, v: View): nat {
    TotalPages(|Filtered(farmers, v.term, v.location)|, PerPage)
  }

  /** Typing in the search box or picking a card starts again at page 1. */
  function SetSearch(v: View, term: string): (r: View)
    ensures r.term == term && r.location == v.location && r.page == 1
  {
    View(term, v.location, 1)
  }

  function SetLocation(v: View, location: string): (r: View)
    ensures r.location == location && r.term == v.term && r.page == 1
  {
    View(v.term, location, 1)
  }

  /** The page buttons; the footer that holds them is shown only while the
      filtered list is not empty. */
  function ClickNext(farmers: seq<Farmer>, v: View): View {
    v.(page := ButtonNext(v.page, PageCount(farmers, v)))
  }

  function ClickPrev(v: View): View {
    v.(page := ButtonPrev(v.page))
  }

  /** The page is 1 or one that exists. */
  predicate PageValid(farmers: seq<Farmer>, v: View) {
    1 <= v.page <= Max(1, PageCount(farmers, v))
  }

  /** Every action the screen offers keeps the page valid. */
  lemma ActionsKeepPageValid(farmers: seq<Farmer>, v: View, term: string, location: string)
    requires PageValid(farmers, v)
    ensures PageValid(farmers, SetSearch(v, term))
    ensures PageValid(farmers, SetLocation(v, location))
    ensures |Filtered(farmers, v.term, v.location)| > 0 ==> PageValid(farmers, ClickNext(farmers, v))
    ensures |Filtered(farmers, v.term, v.location)| > 0 ==> PageValid(farmers, ClickPrev(v))
  {
    if |Filtered(farmers, v.term, v.location)| > 0 {
      ButtonsStayInRange(v.page, PageCount(farmers, v));
    }
  }

  /** On a valid page of a non-empty list, the table shows at least one farmer. */
  lemma ValidPageNotEmpty(farmers: seq<Farmer>, v: View)
    requires PageValid(farmers, v) && |Filtered(farmers, v.term, v.location)| > 0
    ensures |TableRows(farmers, v)| > 0
  {
    ShowingCountsRows(Filtered(farmers, v.term, v.location), v.page, PerPage);
  }
}
