// The page shown after a save (pages/SuccessPage.tsx): the saved estimate's
// title and its price rounded down to 1000.

module SuccessPage {
  import opened Types
  import opened Pricing
  import EstimateForm

  /** The fields the page reads from its navigation state. */
  datatype Summary = Summary(title: string, price: real, date: string, customerName: string, author: Option<string>)

  /** Lines 12-18: the saved estimate, or defaults when the page is opened without one. */
  function SummaryOf(saved: Option<Estimate>, today: string): (d: Summary)
    ensures saved.Some? ==>
      && d.title == saved.value.title && d.price == saved.value.price && d.date == saved.value.date
      && d.customerName == saved.value.customerName && d.author == saved.value.author
    ensures saved.None? ==> d == Summary("새 견적서", 0.0, today, "고객", Some("Ucraft"))
  {
    match saved
    case Some(e) => Summary(e.title, e.price, e.date, e.customerName, e.author)
    case None => Summary("새 견적서", 0.0, today, "고객", Some("Ucraft"))
  }

  /** Line 20: the amount shown, a multiple of 1000 within 1000 below the price. */
  function ShownAmount(d: Summary): (r: int)
    ensures r % 1000 == 0
    ensures r as real <= d.price < r as real + 1000.0
  {
    Floor1000(d.price)
  }

  /** Opened without a saved estimate, the page shows 0. */
  lemma DefaultShowsZero(today: string)
    ensures ShownAmount(SummaryOf(None, today)) == 0
  {
    Floor1000OfMultiple(0);
  }

  /** The amount shown equals the final price of the form's preview for the saved items. */
  lemma ShownMatchesFormFinalPrice(title: string, customerName: string, author: string, customerPlace: string,
                                   items: seq<Item>, bank: BankInfo, now: nat, today: string,
                                   layout: EstimateForm.Layout, clock: nat)
    requires EstimateForm.NewEstimate(title, customerName, author, customerPlace, items, bank, now, today).Ok?
    ensures var e := EstimateForm.NewEstimate(title, customerName, author, customerPlace, items, bank, now, today).value;
      ShownAmount(SummaryOf(Some(e), today))
        == EstimateForm.Compose(layout, title, customerName, customerPlace, author, today, items, bank, clock).finalPrice
  {
  }

  /** Showing a shown amount again changes nothing. */
  lemma ShownAmountIdempotent(d: Summary)
    ensures ShownAmount(d.(price := ShownAmount(d) as real)) == ShownAmount(d)
  {
    Floor1000Idempotent(d.price);
  }
}
