// The records of types.ts, as Dafny values.

module Types {

  datatype Option<+T> = None | Some(value: T) {
    /** The value, or `default` when absent. */
    function GetOr(default: T): T {
      match this
      case Some(v) => v
      case None => default
    }
  }

  /** A validated value, or the reason it was rejected. */
  datatype Result<+T, +E> = Ok(value: T) | Err(error: E)

  /** EstimateStatus: the three lifecycle states of an estimate. */
  datatype Status = Draft | Sent | Completed

  /** Estimate.category. */
  datatype Category = Carpentry | Tile | General

  /**
   * Item ids. The form builds them from `Date.now()`: a manual add uses the
   * timestamp alone, a bulk add appends '-' and the index, a template
   * apply appends '-', the index and '-t'. Ids that come from elsewhere
   * (stored estimates, the detail page's fallback rows) are kept as text.
   */
  datatype ItemId =
    | Fixed(text: string)
    | Added(now: int)
    | FromLibrary(now: int, index: nat)
    | FromTemplate(now: int, index: nat)

  /** EstimateItemDetail: one line of an estimate. */
  datatype Item = Item(
    id: ItemId,
    name: string,
    unit: string,
    quantity: real,
    materialCost: int,
    laborCost: int,
    imageUrl: Option<string>,
    description: Option<string>)

  /** An EstimateTemplate entry: an item without an id. */
  datatype TemplateItem = TemplateItem(
    name: string,
    unit: string,
    quantity: real,
    materialCost: int,
    laborCost: int,
    imageUrl: Option<string>,
    description: Option<string>)

  datatype Template = Template(
    id: string,
    name: string,
    description: string,
    category: string,
    items: seq<TemplateItem>)

  /** LibraryItem: a catalog entry; `price` is the material unit price. */
  datatype LibraryItem = LibraryItem(
    id: string,
    category: string,
    name: string,
    price: int,
    unit: string,
    description: string,
    isFavorite: Option<bool>)

  datatype BankInfo = BankInfo(bankName: string, accountNumber: string, accountHolder: string)

  /** Estimate: `price` is the cached subtotal the form saved. */
  datatype Estimate = Estimate(
    id: string,
    title: string,
    customerName: string,
    price: real,
    status: Status,
    category: Category,
    imageUrl: string,
    date: string,
    author: Option<string>,
    constructionPlace: Option<string>,
    items: Option<seq<Item>>,
    bankInfo: Option<BankInfo>)
}
