// The estimate detail page (pages/EstimateDetail.tsx): which estimate the
// route shows, the figures derived from its stored price, its item table,
// and the status buttons that move it from Draft to Sent to Completed.

module EstimateDetail {
  import opened Types
  import opened Pricing
  import opened ItemTable
  import opened Storage
  import opened Constants
  import Text
  import EstimateForm

  /** The position of the first estimate carrying `id` (`Array.prototype.find`). */
  function FindIndex(list: seq<Estimate>, id: string): (r: Option<nat>)
    ensures r.Some? ==> r.value < |list| && list[r.value].id == id
    ensures r.Some? ==> forall j :: 0 <= j < r.value ==> list[j].id != id
    ensures r.None? <==> forall j :: 0 <= j < |list| ==> list[j].id != id
    decreases |list|
  {
    if list == [] then None
    else if list[0].id == id then Some(0)
    else match FindIndex(list[1..], id)
      case None => None
      case Some(k) => Some(k + 1)
  }

  /** Lines 18-20: the estimate with the route id, else the first one; an empty list shows nothing. */
  function Displayed(list: seq<Estimate>, routeId: string): (r: Option<Estimate>)
    ensures r.None? <==> list == []
    ensures FindIndex(list, routeId).Some? ==> r == Some(list[FindIndex(list, routeId).value])
    ensures FindIndex(list, routeId).None? && list != [] ==> r == Some(list[0])
  {
    match FindIndex(list, routeId)
    case Some(k) => Some(list[k])
    case None => if list == [] then None else Some(list[0])
  }

  /** Two lists whose estimates carry the same ids, position by position. */
  predicate SameIds(a: seq<Estimate>, b: seq<Estimate>) {
    |a| == |b| && forall i :: 0 <= i < |a| ==> a[i].id == b[i].id
  }

  lemma {:induction false} FindIndexSameIds(a: seq<Estimate>, b: seq<Estimate>, id: string)
    requires SameIds(a, b)
    ensures FindIndex(a, id) == FindIndex(b, id)
    decreases |a|
  {
    if a != [] {
      FindIndexSameIds(a[1..], b[1..], id);
    }
  }

  /** No two estimates of the list share an id. */
  predicate UniqueIds(list: seq<Estimate>) {
    forall i, j :: 0 <= i < j < |list| ==> list[i].id != list[j].id
  }

  /** Every id of the list is a decimal number below `now`, as `Date.now().toString()` of an earlier clock reading is. */
  predicate StampedBefore(list: seq<Estimate>, now: nat) {
    forall i :: 0 <= i < |list| ==> Text.IsDigits(list[i].id) && Text.DigitsValue(list[i].id) < now
  }

  /** The ids of the sample list, "1" to "4". */
  lemma SeedIds()
    ensures |MockEstimates| == 4
    ensures MockEstimates[0].id == "1" && MockEstimates[1].id == "2"
    ensures MockEstimates[2].id == "3" && MockEstimates[3].id == "4"
  {
  }

  /** A list carrying the ids "1" to "4" has distinct ids, as if stamped before the clock read 5. */
  lemma FirstFourStamps(list: seq<Estimate>)
    requires |list| == 4
    requires list[0].id == "1" && list[1].id == "2" && list[2].id == "3" && list[3].id == "4"
    ensures UniqueIds(list) && StampedBefore(list, 5)
  {
    forall i | 0 <= i < 4
      ensures Text.IsDigits(list[i].id) && Text.DigitsValue(list[i].id) == i + 1
    {
      assert list[i].id == Text.DecimalText(i + 1);
      Text.DecimalTextValue(i + 1);
    }
  }

  /** The sample list has distinct ids, all below any clock reading from 5 on. */
  lemma SeedIdsUnique()
    ensures UniqueIds(MockEstimates) && StampedBefore(MockEstimates, 5)
  {
    SeedIds();
    FirstFourStamps(MockEstimates);
  }

  /** Putting an estimate stamped `now` in front of a list stamped before `now` keeps the ids distinct. */
  lemma PrependKeepsIdsUnique(stored: seq<Estimate>, e: Estimate, now: nat)
    requires UniqueIds(stored) && StampedBefore(stored, now) && e.id == Text.DecimalText(now)
    ensures UniqueIds([e] + stored) && StampedBefore([e] + stored, now + 1)
  {
    Text.DecimalTextValue(now);
    var list := [e] + stored;
    forall i, j | 0 <= i < j < |list|
      ensures list[i].id != list[j].id
    {
      assert list[j] == stored[j - 1];
      if i > 0 {
        assert list[i] == stored[i - 1];
      }
    }
  }

  /**
   * `handleFinalSave` puts the new estimate, whose id is the clock's decimal
   * text, in front of the stored (or seed) list: with a clock later than
   * every stored id, the ids stay distinct and the list stays stamped before
   * the next reading.
   */
  lemma SaveKeepsIdsUnique(saved: Option<seq<Estimate>>, title: string, customerName: string, author: string,
                           customerPlace: string, items: seq<Item>, bank: BankInfo, now: nat, today: string)
    requires EstimateForm.NewEstimate(title, customerName, author, customerPlace, items, bank, now, today).Ok?
    requires UniqueIds(StoredOrSeed(saved)) && StampedBefore(StoredOrSeed(saved), now)
    ensures var e := EstimateForm.NewEstimate(title, customerName, author, customerPlace, items, bank, now, today).value;
      UniqueIds([e] + StoredOrSeed(saved)) && StampedBefore([e] + StoredOrSeed(saved), now + 1)
  {
    var e := EstimateForm.NewEstimate(title, customerName, author, customerPlace, items, bank, now, today).value;
    PrependKeepsIdsUnique(StoredOrSeed(saved), e, now);
  }

  // ---- status ----

  /** The transition the bottom bar offers for a status (lines 218-241). */
  function NextStatus(s: Status): (r: Option<Status>)
    ensures r.Some? ==> Rank(r.value) == Rank(s) + 1
    ensures r.None? <==> s == Completed
  {
    match s
    case Draft => Some(Sent)
    case Sent => Some(Completed)
    case Completed => None
  }

  /** A status's position in the lifecycle. */
  function Rank(s: Status): nat {
    match s
    case Draft => 0
    case Sent => 1
    case Completed => 2
  }

  /** The `map` of `updateStatus`: estimates with the id get the new status, nothing else changes. */
  function SetStatus(list: seq<Estimate>, id: string, s: Status): (r: seq<Estimate>)
    ensures |r| == |list|
    ensures forall i :: 0 <= i < |list| && list[i].id == id ==> r[i] == list[i].(status := s)
    ensures forall i :: 0 <= i < |list| && list[i].id != id ==> r[i] == list[i]
    ensures SameIds(list, r)
  {
    seq(|list|, i requires 0 <= i < |list| => if list[i].id == id then list[i].(status := s) else list[i])
  }

  /** An id that no estimate carries leaves the list as it is. */
  lemma SetStatusUnknownId(list: seq<Estimate>, id: string, s: Status)
    requires forall i :: 0 <= i < |list| ==> list[i].id != id
    ensures SetStatus(list, id, s) == list
  {
  }

  /** What the page does after a status change. */
  datatype Notice = ReturnToList | StatusChanged(statusName: string)

  /** Lines 48-54: Completed returns to the list; otherwise the new status is announced. */
  function NoticeFor(s: Status): (r: Notice)
    ensures r == ReturnToList <==> s == Completed
    ensures s == Sent ==> r == StatusChanged("전송 완료")
    ensures s == Draft ==> r == StatusChanged("결제 완료")
  {
    if s == Completed then ReturnToList
    else StatusChanged(if s == Sent then "전송 완료" else "결제 완료")
  }

  /** Only the two offered transitions reach `updateStatus`, so the Draft label is never shown. */
  lemma OfferedNotices(s: Status)
    requires NextStatus(s).Some?
    ensures NoticeFor(NextStatus(s).value) == ReturnToList <==> s == Sent
    ensures NoticeFor(NextStatus(s).value) == StatusChanged("전송 완료") <==> s == Draft
    ensures NoticeFor(NextStatus(s).value) != StatusChanged("결제 완료")
  {
  }

  /** Pressing the bottom bar's button: None when no button is shown. */
  function Press(list: seq<Estimate>, routeId: string): (r: Option<seq<Estimate>>)
    ensures r.Some? ==> SameIds(list, r.value)
    ensures r.None? <==> Displayed(list, routeId).None? || Displayed(list, routeId).value.status == Completed
  {
    match Displayed(list, routeId)
    case None => None
    case Some(shown) =>
      match NextStatus(shown.status)
      case None => None
      case Some(next) => Some(SetStatus(list, routeId, next))
  }

  /** With distinct ids, a press moves one estimate one step forward and leaves the rest alone. */
  lemma PressOnlyMovesForward(list: seq<Estimate>, routeId: string)
    requires UniqueIds(list)
    requires Press(list, routeId).Some?
    ensures var after := Press(list, routeId).value;
      forall i :: 0 <= i < |list| ==>
        || after[i] == list[i]
        || (list[i].id == routeId && NextStatus(list[i].status).Some?
            && after[i] == list[i].(status := NextStatus(list[i].status).value))
  {
    match FindIndex(list, routeId)
    case None =>
      SetStatusUnknownId(list, routeId, NextStatus(list[0].status).value);
    case Some(k) =>
      var after := PressStep(list, routeId, 1, k);
      forall i | 0 <= i < |list| && i != k
        ensures list[i].id != routeId
      {
        assert list[i].id != list[k].id;
      }
  }

  /** When the route id matches nothing, the first estimate is shown but a press changes nothing. */
  lemma PressWithUnknownRouteId(list: seq<Estimate>, routeId: string)
    requires FindIndex(list, routeId).None? && list != [] && list[0].status != Completed
    ensures Displayed(list, routeId) == Some(list[0])
    ensures Press(list, routeId) == Some(list)
  {
    SetStatusUnknownId(list, routeId, NextStatus(list[0].status).value);
  }

  /** `n` presses in a row, stopping once no button is shown. */
  function PressTimes(list: seq<Estimate>, routeId: string, n: nat): (r: seq<Estimate>)
    ensures SameIds(list, r)
    decreases n
  {
    if n == 0 then list
    else match Press(list, routeId)
      case None => list
      case Some(after) => PressTimes(after, routeId, n - 1)
  }

  /** `b` is `a` with at most the status of the estimate at `k` changed. */
  predicate OnlyStatusAt(a: seq<Estimate>, b: seq<Estimate>, k: nat) {
    && |a| == |b| && k < |a|
    && b[k] == a[k].(status := b[k].status)
    && forall i :: 0 <= i < |a| && i != k ==> b[i] == a[i]
  }

  lemma OnlyStatusAtTrans(a: seq<Estimate>, b: seq<Estimate>, c: seq<Estimate>, k: nat)
    requires OnlyStatusAt(a, b, k) && OnlyStatusAt(b, c, k)
    ensures OnlyStatusAt(a, c, k)
  {
  }

  /** `b` is `a` with the unfinished estimate at `k` moved one step forward and nothing else changed. */
  predicate Stepped(a: seq<Estimate>, b: seq<Estimate>, k: nat) {
    && OnlyStatusAt(a, b, k)
    && a[k].status != Completed
    && b[k].status == NextStatus(a[k].status).value
  }

  /**
   * `b` is `a` after `n` capped steps of the estimate at `k`: only its status
   * changed, and it moved min(n, steps left) steps toward Completed.
   */
  predicate Progressed(a: seq<Estimate>, b: seq<Estimate>, k: nat, n: nat) {
    && OnlyStatusAt(a, b, k)
    && Rank(b[k].status) == if Rank(a[k].status) + n < 2 then Rank(a[k].status) + n else 2
  }

  /**
   * Pressing repeatedly walks the shown estimate through the lifecycle one
   * step per press, never past Completed, and touches nothing else.
   */
  lemma {:induction false} RepeatedPresses(list: seq<Estimate>, routeId: string, n: nat, k: nat)
      returns (r: seq<Estimate>)
    requires UniqueIds(list) && FindIndex(list, routeId) == Some(k)
    ensures r == PressTimes(list, routeId, n) && Progressed(list, r, k, n)
    decreases n
  {
    if n == 0 || list[k].status == Completed {
      PressTimesStops(list, routeId, n, k);
      r := list;
    } else {
      var after := PressStep(list, routeId, n, k);
      r := RepeatedPresses(after, routeId, n - 1, k);
      PressesCompose(list, after, r, n, k);
    }
  }

  /** A step forward followed by `n - 1` further presses amounts to `n` presses' worth of progress. */
  lemma PressesCompose(list: seq<Estimate>, after: seq<Estimate>, r: seq<Estimate>, n: nat, k: nat)
    requires n > 0 && Stepped(list, after, k) && Progressed(after, r, k, n - 1)
    ensures Progressed(list, r, k, n)
  {
    OnlyStatusAtTrans(list, after, r, k);
  }

  /** No presses, or a Completed estimate shown: nothing changes. */
  lemma PressTimesStops(list: seq<Estimate>, routeId: string, n: nat, k: nat)
    requires FindIndex(list, routeId) == Some(k)
    requires n == 0 || list[k].status == Completed
    ensures PressTimes(list, routeId, n) == list
  {
  }

  /** The first of `n` presses on a shown, unfinished estimate with a unique id: only that estimate steps forward. */
  lemma PressStep(list: seq<Estimate>, routeId: string, n: nat, k: nat) returns (after: seq<Estimate>)
    requires UniqueIds(list) && FindIndex(list, routeId) == Some(k)
    requires n > 0 && list[k].status != Completed
    ensures Press(list, routeId) == Some(after)
    ensures PressTimes(list, routeId, n) == PressTimes(after, routeId, n - 1)
    ensures Stepped(list, after, k)
    ensures UniqueIds(after) && FindIndex(after, routeId) == Some(k)
  {
    var next := NextStatus(list[k].status).value;
    after := SetStatus(list, routeId, next);
    assert Press(list, routeId) == Some(after);
    forall i | 0 <= i < |list| && i != k
      ensures after[i] == list[i]
    {
      assert list[i].id != list[k].id;
    }
    FindIndexSameIds(list, after, routeId);
    assert SameIds(list, after);
  }

  // ---- what the page shows ----

  /** Lines 23-27: the rows shown for an estimate saved without items. */
  const FallbackItems: seq<Item> := [
    Item(Fixed("1"), "영림 도어 세트 (ABS)", "set", 33.0, 248333, 0, None, Some("문틀, 문짝, 경첩, 손잡이 세트")),
    Item(Fixed("2"), "편백나무 루바", "bundle", 333.0, 45333, 0, None, Some("무절, 2400mm x 100mm (8pcs)")),
    Item(Fixed("3"), "600각 포세린 타일 시공", "m2", 3332.99, 78333, 0, None, Some("거실/주방 바닥, 졸리컷 마감 별도"))]

  function ItemsShown(e: Estimate): seq<Item> {
    e.items.GetOr(FallbackItems)
  }

  /** Lines 142-158: one row per item, padded with blank rows to four. */
  function DetailRows(e: Estimate): (r: seq<Row>)
    ensures |r| == if |ItemsShown(e)| < 4 then 4 else |ItemsShown(e)|
    ensures forall i :: 0 <= i < |ItemsShown(e)| ==>
      && r[i].ItemRow? && r[i].item == ItemsShown(e)[i]
      && r[i].unitPrice == UnitPrice(ItemsShown(e)[i])
      && r[i].amount == LineTotal(ItemsShown(e)[i])
    ensures forall i :: |ItemsShown(e)| <= i < |r| ==> r[i] == BlankRow
    ensures RowsTotal(r) == Subtotal(ItemsShown(e))
  {
    RowsTotalIsSubtotal(ItemsShown(e), 4);
    TableRows(ItemsShown(e), 4)
  }

  /** The three fallback rows are followed by exactly one blank row. */
  lemma FallbackTable(e: Estimate)
    requires e.items.None?
    ensures |DetailRows(e)| == 4 && DetailRows(e)[3] == BlankRow
    ensures DetailRows(e)[2].amount == 261083105.67
  {
  }

  /** Lines 29-32: the figures are derived from the stored price, not from the rows. */
  function DetailQuote(e: Estimate): (q: Quote)
    ensures q.finalPrice % 1000 == 0
    ensures q.finalPrice as real <= e.price < q.finalPrice as real + 1000.0
    ensures q.subtotal == e.price
    ensures q.payments == Split(q.finalPrice)
    ensures q.payments.contract + q.payments.middle + q.payments.balance == q.finalPrice
    ensures q.payments.contract <= q.payments.balance
    ensures e.price >= 0.0 ==> 0 <= q.payments.contract && 0 <= q.payments.middle
  {
    QuoteOf(e.price)
  }

  /** For an estimate the form saved, the page shows the figures the form's preview showed. */
  lemma DetailMatchesForm(e: Estimate, items: seq<Item>)
    requires e.price == Subtotal(items)
    ensures DetailQuote(e) == QuoteOf(Subtotal(items))
  {
  }

  /** Lines 34-38. */
  function BankShown(e: Estimate): (r: BankInfo)
    ensures e.bankInfo.Some? ==> r == e.bankInfo.value
    ensures e.bankInfo.None? ==> r == BankInfo("신한은행", "110-123-456789", "Ucraft")
  {
    e.bankInfo.GetOr(BankInfo("신한은행", "110-123-456789", "Ucraft"))
  }

  /** `getCategoryDisplayName`. */
  function CategoryDisplayName(c: Category): (r: string)
    ensures r == "타일 공사" <==> c == Tile
    ensures r == "목공 공사" <==> c == Carpentry
    ensures r == "종합 공사" <==> c == General
  {
    match c
    case Tile => "타일 공사"
    case Carpentry => "목공 공사"
    case General => "종합 공사"
  }

  /** The three categories get three different headings. */
  lemma CategoryDisplayNamesDistinct(a: Category, b: Category)
    ensures CategoryDisplayName(a) == CategoryDisplayName(b) <==> a == b
  {
  }

  class DetailPage {
    var allEstimates: seq<Estimate>
    const routeId: string

    /** Lines 12-15: the stored list, or the seed list when nothing is stored. */
    constructor (store: LocalStorage, routeId: string)
      ensures allEstimates == StoredOrSeed(store.estimates)
      ensures this.routeId == routeId
    {
      allEstimates := StoredOrSeed(store.estimates);
      this.routeId := routeId;
    }

    function Shown(): Option<Estimate>
      reads this
    {
      Displayed(allEstimates, routeId)
    }

    /** `updateStatus`: the list is updated, written back, and the outcome announced. */
    method UpdateStatus(newStatus: Status, store: LocalStorage) returns (notice: Notice)
      modifies this`allEstimates, store
      ensures allEstimates == SetStatus(old(allEstimates), routeId, newStatus)
      ensures store.estimates == Some(allEstimates)
      ensures notice == NoticeFor(newStatus)
    {
      var updated := SetStatus(allEstimates, routeId, newStatus);
      allEstimates := updated;
      store.estimates := Some(updated);
      notice := NoticeFor(newStatus);
    }

    /** The bottom bar's status button, when one is shown. */
    method PressButton(store: LocalStorage) returns (notice: Option<Notice>)
      modifies this`allEstimates, store
      ensures Press(old(allEstimates), routeId).None? ==>
        notice.None? && allEstimates == old(allEstimates) && store.estimates == old(store.estimates)
      ensures Press(old(allEstimates), routeId).Some? ==>
        && allEstimates == Press(old(allEstimates), routeId).value
        && store.estimates == Some(allEstimates)
        && notice == Some(NoticeFor(NextStatus(old(Shown()).value.status).value))
    {
      var shown := Shown();
      if shown.Some? && shown.value.status != Completed {
        var n := UpdateStatus(NextStatus(shown.value.status).value, store);
        notice := Some(n);
      } else {
        notice := None;
      }
    }
  }
}
