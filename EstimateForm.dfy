// The estimate form (pages/EstimateForm.tsx): the item-entry fields, the
// item list built from manual entries, catalog selections and templates,
// the review gate, the three printed layouts and the final save. The
// clock (`Date.now()`) and today's date text are parameters.

module EstimateForm {
  import opened Types
  import opened Text
  import opened Seqs
  import opened Pricing
  import opened ItemTable
  import opened Constants
  import opened Storage
  import Library

  /** `normalizeUnit`: a missing or empty unit becomes 'py', 'm²' becomes 'm2'. */
  function NormalizeUnit(u: Option<string>): (r: string)
    ensures r != "" && r != "m²"
    ensures u.None? || u == Some("") ==> r == "py"
    ensures u == Some("m²") ==> r == "m2"
    ensures u.Some? && u.value != "" && u.value != "m²" ==> r == u.value
  {
    if u.None? || u.value == "" then "py"
    else if u.value == "m²" then "m2"
    else u.value
  }

  /** Normalising a normalised unit changes nothing. */
  lemma NormalizeUnitIdempotent(u: Option<string>)
    ensures NormalizeUnit(Some(NormalizeUnit(u))) == NormalizeUnit(u)
  {
  }

  /** The `|| '식'` after `normalizeUnit` in the template apply never takes effect. */
  lemma TemplateUnitFallbackUnused(u: string)
    ensures OrElse(NormalizeUnit(Some(u)), "식") == NormalizeUnit(Some(u))
  {
  }

  // ---- catalog and template items ----

  /** The item a bulk add makes from the catalog entry at `index` of the selection. */
  function LibraryLine(entry: LibraryItem, now: int, index: nat): Item {
    Item(FromLibrary(now, index), entry.name, NormalizeUnit(Some(entry.unit)), 1.0,
         entry.price, 0, None, Some(entry.description))
  }

  /** The items of the bulk-add effect (lines 81-90). */
  function BulkItems(selected: seq<LibraryItem>, now: int): (r: seq<Item>)
    ensures |r| == |selected|
    ensures forall i :: 0 <= i < |r| ==>
      && r[i].id == FromLibrary(now, i)
      && r[i].quantity == 1.0 && r[i].laborCost == 0
      && r[i].materialCost == selected[i].price
      && r[i].name == selected[i].name
      && r[i].description == Some(selected[i].description)
      && r[i].unit == NormalizeUnit(Some(selected[i].unit))
      && r[i].imageUrl == None
    ensures forall i, j :: 0 <= i < j < |r| ==> r[i].id != r[j].id
  {
    seq(|selected|, i requires 0 <= i < |selected| => LibraryLine(selected[i], now, i))
  }

  /** The item a template apply makes from the template entry at `index`. */
  function TemplateLine(entry: TemplateItem, now: int, index: nat): Item {
    Item(FromTemplate(now, index), entry.name, OrElse(NormalizeUnit(Some(entry.unit)), "식"),
         entry.quantity, entry.materialCost, entry.laborCost, entry.imageUrl, entry.description)
  }

  /** The items of `handleApplyTemplate` (lines 141-145): copies with fresh ids. */
  function TemplateItems(t: Template, now: int): (r: seq<Item>)
    ensures |r| == |t.items|
    ensures forall i :: 0 <= i < |r| ==>
      && r[i].id == FromTemplate(now, i)
      && r[i].name == t.items[i].name
      && r[i].quantity == t.items[i].quantity
      && r[i].materialCost == t.items[i].materialCost
      && r[i].laborCost == t.items[i].laborCost
      && r[i].description == t.items[i].description
      && r[i].imageUrl == t.items[i].imageUrl
      && r[i].unit == NormalizeUnit(Some(t.items[i].unit))
    ensures forall i, j :: 0 <= i < j < |r| ==> r[i].id != r[j].id
  {
    seq(|t.items|, i requires 0 <= i < |t.items| => TemplateLine(t.items[i], now, i))
  }

  /** No item of `items` carries a template id stamped `now`. */
  predicate NoTemplateStamp(items: seq<Item>, now: int) {
    forall i :: 0 <= i < |items| ==> !(items[i].id.FromTemplate? && items[i].id.now == now)
  }

  /**
   * A template applied at a time no earlier template apply used gives ids
   * that clash neither with each other nor with the items already listed.
   */
  lemma TemplateIdsFresh(items: seq<Item>, t: Template, now: int)
    requires NoTemplateStamp(items, now)
    ensures var all := items + TemplateItems(t, now);
      forall i, j :: 0 <= i < |items| <= j < |all| ==> all[i].id != all[j].id
  {
  }

  /** Applying the first template to an empty list gives its four priced lines. */
  lemma ApplyFirstTemplateExample(now: int)
    ensures var r := TemplateItems(EstimateTemplates[0], now);
      |r| == 4 && Subtotal(r) == 1650000.0
  {
    var r := TemplateItems(EstimateTemplates[0], now);
    assert LineTotal(r[0]) == 250000.0;
    assert LineTotal(r[1]) == 1200000.0;
    assert LineTotal(r[2]) == 150000.0;
    assert LineTotal(r[3]) == 50000.0;
    assert r[..1][..0] == [];
    assert r[..2][..1] == r[..1];
    assert r[..3][..2] == r[..2];
    assert r[..4] == r;
    assert Subtotal(r[..1]) == 250000.0;
    assert Subtotal(r[..2]) == 1450000.0;
    assert Subtotal(r[..3]) == 1600000.0;
  }

  // ---- name suggestions (lines 114-129) ----

  /** Name or category contains the typed text, ignoring case. */
  predicate SuggestionMatch(entry: LibraryItem, value: string) {
    Includes(Lower(entry.name), Lower(value)) || Includes(Lower(entry.category), Lower(value))
  }

  function Suggesting(value: string): LibraryItem -> bool {
    (entry: LibraryItem) => SuggestionMatch(entry, value)
  }

  /** The suggestion list shown under the name field. */
  function Suggestions(catalog: seq<LibraryItem>, value: string): (r: seq<LibraryItem>)
    ensures IsBlank(value) ==> r == []
    ensures Subseq(r, catalog)
    ensures forall i :: 0 <= i < |r| ==> r[i] in catalog && SuggestionMatch(r[i], value)
    ensures !IsBlank(value) ==>
      forall i :: 0 <= i < |catalog| && SuggestionMatch(catalog[i], value) ==> catalog[i] in r
    ensures !IsBlank(value) ==>
      forall x :: multiset(r)[x] == if SuggestionMatch(x, value) then multiset(catalog)[x] else 0
  {
    // `value.trim()` is non-empty exactly when the value is not blank (Text.TrimIsEmptyIffBlank).
    if !IsBlank(value) then FilterCounts(catalog, Suggesting(value)); Filter(catalog, Suggesting(value)) else []
  }

  // ---- the current item list ----

  function WithoutIdTest(id: ItemId): Item -> bool {
    (it: Item) => it.id != id
  }

  /** `handleRemoveItem`: every item with that id is dropped, the others keep their order. */
  function WithoutId(items: seq<Item>, id: ItemId): (r: seq<Item>)
    ensures Subseq(r, items)
    ensures forall i :: 0 <= i < |r| ==> r[i] in items && r[i].id != id
    ensures forall i :: 0 <= i < |items| && items[i].id != id ==> items[i] in r
    ensures forall x :: multiset(r)[x] == if x.id != id then multiset(items)[x] else 0
  {
    FilterCounts(items, WithoutIdTest(id));
    Filter(items, WithoutIdTest(id))
  }

  /** Removing an id that no item has is a no-op. */
  lemma RemoveAbsentIdIsNoop(items: seq<Item>, id: ItemId)
    requires forall i :: 0 <= i < |items| ==> items[i].id != id
    ensures WithoutId(items, id) == items
  {
    FilterKeepsAll(items, WithoutIdTest(id));
  }

  /** Why `handleAddItem` refuses an entry; each has its own alert. */
  datatype EntryError = MissingName | InvalidQuantity

  /**
   * The checks and the item of `handleAddItem` (lines 152-170). The number
   * fields hold either nothing or a number, so None stands for ''.
   */
  function NewItem(name: string, description: string, unit: string, quantity: Option<real>,
                   materialCost: Option<int>, laborCost: Option<int>, imageUrl: string,
                   now: int): (r: Result<Item, EntryError>)
    ensures r == Err(MissingName) <==> IsBlank(name)
    ensures r == Err(InvalidQuantity) <==> !IsBlank(name) && (quantity.None? || quantity.value <= 0.0)
    ensures r.Ok? ==>
      && r.value.id == Added(now)
      && r.value.name == name && r.value.description == Some(description) && r.value.unit == unit
      && quantity.Some? && r.value.quantity == quantity.value && r.value.quantity > 0.0
      && r.value.materialCost == materialCost.GetOr(0)
      && r.value.laborCost == laborCost.GetOr(0)
      && (r.value.imageUrl.None? <==> imageUrl == "")
  {
    // `!newItemName.trim()`, stated through Text.TrimIsEmptyIffBlank.
    if IsBlank(name) then Err(MissingName)
    else if quantity.None? || quantity.value <= 0.0 then Err(InvalidQuantity)
    else Ok(Item(Added(now), name, unit, quantity.value, materialCost.GetOr(0), laborCost.GetOr(0),
                 if imageUrl == "" then None else Some(imageUrl), Some(description)))
  }

  /** An item that passed the checks has a positive quantity, and no negative cost came from blank fields. */
  lemma AddedItemIsPriced(name: string, description: string, unit: string, quantity: Option<real>,
                          materialCost: Option<int>, laborCost: Option<int>, imageUrl: string, now: int)
    requires NewItem(name, description, unit, quantity, materialCost, laborCost, imageUrl, now).Ok?
    requires materialCost.GetOr(0) >= 0 && laborCost.GetOr(0) >= 0
    ensures var it := NewItem(name, description, unit, quantity, materialCost, laborCost, imageUrl, now).value;
      NonNegativeItem(it) && LineTotal(it) >= 0.0
  {
    var r := NewItem(name, description, unit, quantity, materialCost, laborCost, imageUrl, now);
    var it := r.value;
    assert it.quantity > 0.0 && it.materialCost == materialCost.GetOr(0) && it.laborCost == laborCost.GetOr(0);
  }

  // ---- final save (lines 234-263) ----

  datatype SaveError = MissingTitleOrCustomer

  /** The estimate `handleFinalSave` stores: a Draft whose price is the unrounded subtotal. */
  function NewEstimate(title: string, customerName: string, author: string, customerPlace: string,
                       items: seq<Item>, bank: BankInfo, now: nat, today: string): (r: Result<Estimate, SaveError>)
    ensures r.Err? <==> IsBlank(title) || IsBlank(customerName)
    ensures r.Ok? ==>
      && r.value.id == DecimalText(now)
      && r.value.title == title && r.value.customerName == customerName
      && r.value.author == Some(author) && r.value.constructionPlace == Some(customerPlace)
      && r.value.price == Subtotal(items)
      && r.value.status == Draft && r.value.category == General
      && r.value.date == today && r.value.items == Some(items) && r.value.bankInfo == Some(bank)
  {
    // The trimmed-empty tests, stated through Text.TrimIsEmptyIffBlank.
    if IsBlank(title) || IsBlank(customerName) then Err(MissingTitleOrCustomer)
    else
      Ok(Estimate(DecimalText(now), OrElse(title, "새 견적서"), customerName, Subtotal(items), Draft, General,
                  "https://picsum.photos/seed/" + DecimalText(now) + "/200/200", today,
                  Some(author), Some(customerPlace), Some(items), Some(bank)))
  }

  // ---- printed layouts (lines 298-660) ----

  /** The three print templates: 'A' standard, 'B' modern, 'C' boxed. */
  datatype Layout = A | B | C

  /** Layouts A and B pad the table to six rows (lines 479, 557), C to five (638). */
  function MinRows(layout: Layout): (r: nat)
    ensures r == 5 <==> layout == C
    ensures r == 6 <==> layout != C
  {
    if layout == C then 5 else 6
  }

  /** `s.slice(-6)`: the last six characters, or all of a shorter string. */
  function LastSix(s: string): (r: string)
    ensures |r| == if |s| < 6 then |s| else 6
    ensures r == s[|s| - |r|..]
  {
    if |s| < 6 then s else s[|s| - 6..]
  }

  /**
   * What a printed layout shows. Layouts A and B end with the payment
   * block (lines 300-330); layout C prints no payment block but a serial
   * number cut from the clock (line 579) and only the final price (647).
   */
  datatype Document = Document(
    layout: Layout,
    title: string,
    customer: string,
    place: string,
    author: string,
    date: string,
    serial: Option<string>,
    rows: seq<Row>,
    finalPrice: int,
    payments: Option<Installments>,
    bank: BankInfo)

  /** One of the three layouts filled in from the form's current state. */
  function Compose(layout: Layout, title: string, customerName: string, customerPlace: string,
                   author: string, today: string, items: seq<Item>, bank: BankInfo, now: nat): (d: Document)
    ensures d.layout == layout && d.author == author && d.date == today && d.bank == bank
    ensures d.title != "" && d.customer != "" && d.place != ""
    ensures d.title == if title == "" then "(견적명 미입력)" else title
    ensures d.customer == if customerName == "" then "고객" else customerName
    ensures d.place == if customerPlace == "" then "정보 미기재" else customerPlace
    ensures |d.rows| == if |items| < MinRows(layout) then MinRows(layout) else |items|
    ensures forall i :: 0 <= i < |items| ==> d.rows[i] == ItemRowOf(items[i])
    ensures forall i :: |items| <= i < |d.rows| ==> d.rows[i] == BlankRow
    ensures RowsTotal(d.rows) == Subtotal(items)
    ensures d.finalPrice == QuoteOf(Subtotal(items)).finalPrice
    ensures d.payments.None? <==> layout == C
    ensures layout != C ==> d.payments == Some(Split(d.finalPrice))
    ensures d.serial.Some? <==> layout == C
    ensures layout == C ==> d.serial == Some(LastSix(DecimalText(now)))
  {
    RowsTotalIsSubtotal(items, MinRows(layout));
    var quote := QuoteOf(Subtotal(items));
    Document(layout, OrElse(title, "(견적명 미입력)"), OrElse(customerName, "고객"),
             OrElse(customerPlace, "정보 미기재"), author, today,
             if layout == C then Some(LastSix(DecimalText(now))) else None,
             TableRows(items, MinRows(layout)), quote.finalPrice,
             if layout == C then None else Some(quote.payments), bank)
  }

  function LayoutLetter(layout: Layout): string {
    match layout
    case A => "A"
    case B => "B"
    case C => "C"
  }

  /** The name the PDF export saves under (line 225). */
  function PdfFileName(title: string, layout: Layout): (r: string)
    ensures |r| >= 8 && r[|r| - 8..] == "_" + LayoutLetter(layout) + "타입.pdf"
    ensures r[..|r| - 8] == if title == "" then "견적서" else title
  {
    OrElse(title, "견적서") + "_" + LayoutLetter(layout) + "타입.pdf"
  }

  // ---- the form's state ----

  class Form {
    var author: string
    var title: string
    var customerName: string
    var customerPlace: string
    var name: string
    var description: string
    var unit: string
    var quantity: Option<real>
    var materialCost: Option<int>
    var laborCost: Option<int>
    var imageUrl: string
    var bankName: string
    var accountNumber: string
    var accountHolder: string
    var items: seq<Item>
    var suggestions: seq<LibraryItem>
    var showSuggestions: bool
    var isLibraryModalOpen: bool
    var libraryCategory: string
    var isTemplateModalOpen: bool
    var isPreviewOpen: bool
    var printTemplate: Layout
    /** The catalog the name suggestions and the catalog modal draw on. */
    const catalog: seq<LibraryItem>

    /** The initial state: an estimate being edited, or a catalog entry picked for a single add. */
    constructor (initialData: Option<Estimate>, picked: Option<LibraryItem>)
      ensures initialData.None? ==>
        && author == "Ucraft" && title == "" && customerName == "" && customerPlace == ""
        && bankName == "신한은행" && accountNumber == "" && accountHolder == "Ucraft" && items == []
      ensures initialData.Some? ==>
        var d := initialData.value;
        && author == OrElse(d.author.GetOr(""), "Ucraft")
        && title == d.title && customerName == d.customerName
        && customerPlace == d.constructionPlace.GetOr("")
        && bankName == (if d.bankInfo.Some? then OrElse(d.bankInfo.value.bankName, "신한은행") else "신한은행")
        && accountNumber == (if d.bankInfo.Some? then d.bankInfo.value.accountNumber else "")
        && accountHolder == (if d.bankInfo.Some? then OrElse(d.bankInfo.value.accountHolder, "Ucraft") else "Ucraft")
        && items == d.items.GetOr([])
      ensures picked.None? ==> name == "" && description == "" && unit == "py" && materialCost.None?
      ensures picked.Some? ==>
        && name == picked.value.name && description == picked.value.description
        && unit == NormalizeUnit(Some(picked.value.unit)) && materialCost == Some(picked.value.price)
      ensures quantity.None? && laborCost.None? && imageUrl == ""
      ensures suggestions == [] && !showSuggestions && !isLibraryModalOpen && !isTemplateModalOpen
      ensures libraryCategory == Library.AllCategory && !isPreviewOpen && printTemplate == A
      ensures catalog == MockLibrary
    {
      catalog := MockLibrary;
      if initialData.Some? {
        var d := initialData.value;
        author := OrElse(d.author.GetOr(""), "Ucraft");
        title := d.title;
        customerName := d.customerName;
        customerPlace := d.constructionPlace.GetOr("");
        if d.bankInfo.Some? {
          bankName := OrElse(d.bankInfo.value.bankName, "신한은행");
          accountNumber := d.bankInfo.value.accountNumber;
          accountHolder := OrElse(d.bankInfo.value.accountHolder, "Ucraft");
        } else {
          bankName, accountNumber, accountHolder := "신한은행", "", "Ucraft";
        }
        items := d.items.GetOr([]);
      } else {
        author, title, customerName, customerPlace := "Ucraft", "", "", "";
        bankName, accountNumber, accountHolder := "신한은행", "", "Ucraft";
        items := [];
      }
      if picked.Some? {
        name := picked.value.name;
        description := picked.value.description;
        unit := NormalizeUnit(Some(picked.value.unit));
        materialCost := Some(picked.value.price);
      } else {
        name, description, unit, materialCost := "", "", NormalizeUnit(None), None;
      }
      quantity, laborCost, imageUrl := None, None, "";
      suggestions, showSuggestions := [], false;
      isLibraryModalOpen, libraryCategory := false, Library.AllCategory;
      isTemplateModalOpen, isPreviewOpen, printTemplate := false, false, A;
    }

    /** The figures of lines 67-75 for the current items. */
    function Totals(): (q: Quote)
      reads this
      ensures q.subtotal == Subtotal(items)
      ensures q.finalPrice % 1000 == 0 && q.finalPrice as real <= q.subtotal < q.finalPrice as real + 1000.0
      ensures q.payments == Split(q.finalPrice)
    {
      QuoteOf(Subtotal(items))
    }

    /** `isFormValid`: review is possible once there is an item. */
    function IsFormValid(): (r: bool)
      reads this
      ensures r <==> items != []
    {
      |items| > 0
    }

    /** The catalog modal's list for its category tab (lines 291-294). */
    function LibraryModalItems(): (r: seq<LibraryItem>)
      reads this
      ensures Subseq(r, catalog)
      ensures libraryCategory == Library.AllCategory ==> r == catalog
      ensures libraryCategory != Library.AllCategory ==>
        && (forall i :: 0 <= i < |r| ==> r[i].category == libraryCategory)
        && (forall i :: 0 <= i < |catalog| && catalog[i].category == libraryCategory ==> catalog[i] in r)
    ensures forall x ::
      multiset(r)[x] == if libraryCategory == Library.AllCategory || x.category == libraryCategory then multiset(catalog)[x] else 0
    {
      Library.ByCategory(catalog, libraryCategory)
    }

    /** The preview in the chosen layout. */
    function Preview(today: string, now: nat): Document
      reads this
    {
      Compose(printTemplate, title, customerName, customerPlace, author, today, items,
              BankInfo(bankName, accountNumber, accountHolder), now)
    }

    /** The effect of lines 79-95: entries handed over by the catalog page are appended. */
    method ReceiveBulkSelection(selected: Option<seq<LibraryItem>>, now: int)
      modifies this`items
      ensures selected.Some? && |selected.value| > 0 ==> items == old(items) + BulkItems(selected.value, now)
      ensures selected.None? || |selected.value| == 0 ==> items == old(items)
    {
      if selected.Some? && |selected.value| > 0 {
        var added: seq<Item> := [];
        var i := 0;
        while i < |selected.value|
          invariant 0 <= i <= |selected.value|
          invariant added == BulkItems(selected.value[..i], now)
        {
          added := added + [LibraryLine(selected.value[i], now, i)];
          i := i + 1;
        }
        assert selected.value[..i] == selected.value;
        items := items + added;
      }
    }

    /** `handleNameChange`. */
    method ChangeName(value: string)
      modifies this`name, this`suggestions, this`showSuggestions
      ensures name == value
      ensures suggestions == Suggestions(catalog, value)
      ensures showSuggestions <==> !IsBlank(value)
    {
      var shown := !IsBlank(value);
      var found := Suggestions(catalog, value);
      name, suggestions, showSuggestions := value, found, shown;
    }

    /** `handleSelectLibraryItem`: copies a catalog entry into the entry fields. */
    method SelectLibraryItem(entry: LibraryItem)
      modifies this`name, this`description, this`unit, this`materialCost,
               this`isLibraryModalOpen, this`showSuggestions
      ensures name == entry.name && description == entry.description
      ensures unit == NormalizeUnit(Some(entry.unit)) && materialCost == Some(entry.price)
      ensures !isLibraryModalOpen && !showSuggestions
    {
      name := entry.name;
      description := entry.description;
      unit := NormalizeUnit(Some(entry.unit));
      materialCost := Some(entry.price);
      isLibraryModalOpen := false;
      showSuggestions := false;
    }

    /** `handleApplyTemplate`. */
    method ApplyTemplate(t: Template, now: int)
      modifies this`items, this`isTemplateModalOpen
      ensures items == old(items) + TemplateItems(t, now)
      ensures !isTemplateModalOpen
    {
      var added: seq<Item> := [];
      var i := 0;
      while i < |t.items|
        invariant 0 <= i <= |t.items|
        invariant |added| == i
        invariant forall k :: 0 <= k < i ==> added[k] == TemplateLine(t.items[k], now, k)
      {
        added := added + [TemplateLine(t.items[i], now, i)];
        i := i + 1;
      }
      items := items + added;
      isTemplateModalOpen := false;
    }

    /** `handleAddItem`: a refused entry changes nothing; an accepted one is appended and the fields reset. */
    method AddItem(now: int) returns (r: Result<Item, EntryError>)
      modifies this`items, this`name, this`description, this`quantity, this`materialCost,
               this`laborCost, this`imageUrl
      ensures r == NewItem(old(name), old(description), unit, old(quantity), old(materialCost),
                           old(laborCost), old(imageUrl), now)
      ensures r.Err? ==>
        && items == old(items) && name == old(name) && description == old(description)
        && quantity == old(quantity) && materialCost == old(materialCost)
        && laborCost == old(laborCost) && imageUrl == old(imageUrl)
      ensures r.Ok? ==>
        && items == old(items) + [r.value]
        && name == "" && description == "" && quantity.None? && materialCost.None?
        && laborCost.None? && imageUrl == ""
    {
      var entered := NewItem(name, description, unit, quantity, materialCost, laborCost, imageUrl, now);
      r := entered;
      if entered.Ok? {
        items := items + [entered.value];
        name, description, quantity, materialCost, laborCost, imageUrl := "", "", None, None, None, "";
      }
    }

    /** `handleRemoveItem`. */
    method RemoveItem(id: ItemId)
      modifies this`items
      ensures items == WithoutId(old(items), id)
    {
      items := WithoutId(items, id);
    }

    /** `handleReview`: the preview opens only when there is an item. */
    method Review()
      modifies this`isPreviewOpen
      ensures isPreviewOpen == (|items| > 0 || old(isPreviewOpen))
    {
      if IsFormValid() {
        isPreviewOpen := true;
      }
    }

    /** A category tab of the catalog modal (line 1123). */
    method SelectLibraryCategory(category: string)
      modifies this`libraryCategory
      ensures libraryCategory == category
    {
      libraryCategory := category;
    }

    method ChoosePrintTemplate(layout: Layout)
      modifies this`printTemplate
      ensures printTemplate == layout
    {
      printTemplate := layout;
    }

    /**
     * `handleFinalSave`: refused without a title and a customer name;
     * otherwise the new estimate goes in front of the stored list (or of
     * the seed list when nothing is stored) and is handed to the success page.
     */
    method FinalSave(store: LocalStorage, now: nat, today: string) returns (r: Result<Estimate, SaveError>)
      modifies store
      ensures r == NewEstimate(title, customerName, author, customerPlace, items,
                               BankInfo(bankName, accountNumber, accountHolder), now, today)
      ensures r.Err? ==> store.estimates == old(store.estimates)
      ensures r.Ok? ==> store.estimates == Some([r.value] + StoredOrSeed(old(store.estimates)))
    {
      r := NewEstimate(title, customerName, author, customerPlace, items,
                       BankInfo(bankName, accountNumber, accountHolder), now, today);
      if r.Ok? {
        var current := StoredOrSeed(store.estimates);
        store.estimates := Some([r.value] + current);
      }
    }
  }

  /** A bulk add of catalog entries keeps the existing items in front, untouched. */
  lemma BulkAddAppends(existing: seq<Item>, selected: seq<LibraryItem>, now: int)
    ensures var all := existing + BulkItems(selected, now);
      |all| == |existing| + |selected| && all[..|existing|] == existing
  {
    var all := existing + BulkItems(selected, now);
    assert all[..|existing|] == existing;
  }
}
