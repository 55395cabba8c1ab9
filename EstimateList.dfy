// The estimate list page (pages/EstimateList.tsx): the stored list, seeded
// on first visit, shown under one of three category tabs.

module EstimateList {
  import opened Types
  import opened Seqs
  import opened Constants
  import opened Storage
  import EstimateDetail

  /** The page's filter state: 'All', 'Carpentry' or 'Tile'; there is no 'General' tab. */
  datatype Tab = ShowAll | ShowCarpentry | ShowTile

  /** The category a tab requires, if any. */
  function TabCategory(tab: Tab): Option<Category> {
    match tab
    case ShowAll => None
    case ShowCarpentry => Some(Carpentry)
    case ShowTile => Some(Tile)
  }

  /** The predicate of lines 23-26. */
  function Passes(tab: Tab): Estimate -> bool {
    (e: Estimate) => tab == ShowAll || Some(e.category) == TabCategory(tab)
  }

  /** `filteredEstimates`. */
  function Visible(list: seq<Estimate>, tab: Tab): (r: seq<Estimate>)
    ensures tab == ShowAll ==> r == list
    ensures Subseq(r, list)
    ensures tab != ShowAll ==> forall i :: 0 <= i < |r| ==> Some(r[i].category) == TabCategory(tab)
    ensures forall i :: 0 <= i < |r| ==> r[i] in list
    ensures forall i :: 0 <= i < |list| && Some(list[i].category) == TabCategory(tab) ==> list[i] in r
    ensures forall x ::
      multiset(r)[x] == if tab == ShowAll || Some(x.category) == TabCategory(tab) then multiset(list)[x] else 0
  {
    FilterCounts(list, Passes(tab));
    if tab == ShowAll then FilterKeepsAll(list, Passes(tab)); Filter(list, Passes(tab))
    else Filter(list, Passes(tab))
  }

  /** General estimates are listed only under 'All'. */
  lemma GeneralOnlyUnderAll(list: seq<Estimate>, tab: Tab, e: Estimate)
    requires e.category == General && e in Visible(list, tab)
    ensures tab == ShowAll
  {
    var r := Visible(list, tab);
    var i :| 0 <= i < |r| && r[i] == e;
  }

  /** The two category tabs split the non-General estimates without overlap. */
  lemma TabsPartition(list: seq<Estimate>, e: Estimate)
    requires e in list && e.category != General
    ensures e in Visible(list, ShowCarpentry) <==> e !in Visible(list, ShowTile)
  {
    var i :| 0 <= i < |list| && list[i] == e;
    var c := Visible(list, ShowCarpentry);
    var t := Visible(list, ShowTile);
    if e in c {
      var j :| 0 <= j < |c| && c[j] == e;
    }
    if e in t {
      var j :| 0 <= j < |t| && t[j] == e;
    }
  }

  /** The category label of a card (line 104). */
  function CategoryLabel(c: Category): (r: string)
    ensures r == "타일" <==> c == Tile
    ensures r == "목공" <==> c == Carpentry
    ensures r == "일반" <==> c == General
  {
    if c == Tile then "타일" else if c == Carpentry then "목공" else assert c == General; "일반"
  }

  lemma CategoryLabelsDistinct(a: Category, b: Category)
    ensures CategoryLabel(a) == CategoryLabel(b) <==> a == b
  {
  }

  /** `getStatusBadge`: the badge text. */
  function StatusBadge(s: Status): (r: string)
    ensures r == "결제 완료" <==> s == Completed
    ensures r == "전송 완료" <==> s == Sent
    ensures r == "작성 중" <==> s == Draft
  {
    match s
    case Completed => "결제 완료"
    case Sent => "전송 완료"
    case Draft => "작성 중"
  }

  /** Each status has its own badge. */
  lemma StatusBadgesDistinct(a: Status, b: Status)
    ensures StatusBadge(a) == StatusBadge(b) <==> a == b
  {
  }

  /** The detail page announces a move to Sent with the text of the Sent badge. */
  lemma SentNoticeMatchesBadge()
    ensures EstimateDetail.NoticeFor(Sent) == EstimateDetail.StatusChanged(StatusBadge(Sent))
  {
  }

  class ListPage {
    var estimates: seq<Estimate>
    var tab: Tab

    constructor ()
      ensures estimates == [] && tab == ShowAll
    {
      estimates := [];
      tab := ShowAll;
    }

    function Shown(): seq<Estimate>
      reads this
    {
      Visible(estimates, tab)
    }

    /** The mount effect: read the stored list, or seed storage with the sample list. */
    method Mount(store: LocalStorage)
      modifies this`estimates, store
      ensures old(store.estimates).None? ==> store.estimates == Some(MockEstimates)
      ensures old(store.estimates).Some? ==> store.estimates == old(store.estimates)
      ensures estimates == StoredOrSeed(old(store.estimates))
      ensures store.estimates == Some(estimates)
    {
      if store.estimates.Some? {
        estimates := store.estimates.value;
      } else {
        store.estimates := Some(MockEstimates);
        estimates := MockEstimates;
      }
    }

    method SelectTab(t: Tab)
      modifies this`tab
      ensures tab == t
    {
      tab := t;
    }

    /**
     * Tapping the i-th card (line 95): the detail page for its id opens on
     * the same storage, which after `Mount` holds the listed estimates, and
     * shows an estimate carrying that id.
     */
    method OpenCard(store: LocalStorage, i: nat) returns (detail: EstimateDetail.DetailPage)
      requires i < |Shown()| && store.estimates == Some(estimates)
      ensures detail.allEstimates == estimates && detail.routeId == Shown()[i].id
      ensures detail.Shown().Some? && detail.Shown().value.id == Shown()[i].id
    {
      var card := Shown()[i];
      assert card in estimates;
      detail := new EstimateDetail.DetailPage(store, card.id);
    }
  }
}
