# Estimate app: pricing, item list, catalog and status lifecycle

This project is a Dafny model of the business rules behind a small
construction-estimate web app. An author picks catalog entries (the
"library"), templates or hand-typed lines into an item list. The app prices
the list and rounds the total down to 1000 won. It splits that total into a
30 % deposit, a 40 % middle payment and a balance. Estimates are saved in the
browser's storage, listed by category, and moved through Draft → Sent →
Completed on a detail page.

The model is organised by the app's pages:

| module | models |
|---|---|
| `Types` | the records of `types.ts`; `Option`/`Result` |
| `Constants` | the sample estimates, the 80-entry catalog and the three templates of `constants.ts` |
| `Text` | `trim`, ASCII `toLowerCase`, `includes`, `s \|\| fallback`, `n.toString()` |
| `Seqs` | `Array.prototype.filter` and the order-preserving subsequence relation |
| `Pricing` | subtotal, floor to 1000, the 30/40/remainder split (shared by the form, detail and success pages) |
| `ItemTable` | the table rows every printed layout draws, padded with blank rows |
| `Storage` | the `'estimates'` key of `localStorage` as a class with one field |
| `Library` | the catalog page: category tab, text search, selection mode, bulk add |
| `EstimateForm` | the form: unit normalisation, suggestions, add/remove/bulk/template items, review, layouts A/B/C, final save |
| `EstimateDetail` | the detail page: which estimate the route shows, figures from the stored price, status buttons |
| `EstimateList` | the list page: seeding storage, category tabs, labels and badges |
| `SuccessPage` | the page after a save: defaults and the floored amount |

Modelling choices:
- **Numbers.** Costs and prices are `int`. Quantities are `real`, because the
  quantity field accepts steps of 0.01 and a sample quantity is 3332.99, and
  so the subtotal is `real` too. `0.3` and `0.4` are the exact rationals.
  `Math.floor(x / 1000) * 1000` is `Floor1000`.
- **Number inputs.** The number fields of the entry form hold either nothing
  or a number, so they are `Option` values; `parseFloat(x) || 0` is
  `GetOr(0)`.
- **Ids.** Item ids are a datatype recording how they were built from
  `Date.now()`: plain, `-index`, or `-index-t`. This makes batch-internal
  distinctness provable without string reasoning. Estimate ids stay strings,
  and a new one is the decimal text of the clock.
- **Clock and date.** The clock and today's date text are parameters.
- **Storage.** The `'estimates'` key is an `Option<seq<Estimate>>` field.
  `JSON.stringify`/`JSON.parse` are taken as the identity.
- **Pages.** Each page whose handlers update state is a class. Each such
  handler is a method whose `modifies` clause names the fields it may set.

Where the code and its intent differ, the model follows the code:
- The form saves the *unrounded* subtotal as the estimate's price. The detail
  and success pages floor it again. `SuccessPage.ShownMatchesFormFinalPrice`
  and `EstimateDetail.DetailMatchesForm` show the figures still agree.
- The detail page's button updates the estimates whose id equals the *route*
  id. When no estimate has that id, the page shows the first estimate instead,
  and the button then changes nothing (`EstimateDetail.PressWithUnknownRouteId`).
- The Draft label `'결제 완료'` in the status notice and the template unit
  fallback `'식'` are unreachable. `EstimateDetail.OfferedNotices` and
  `EstimateForm.TemplateUnitFallbackUnused` prove this.
- The header text fallback `title || '새 견적서'` at save time never applies,
  because the save is refused for a blank title.
- Layout C has no payment block: it prints only the final price, and its
  header carries a serial number, the last six digits of the clock. Layouts A
  and B print the deposit, middle payment and balance (`EstimateForm.Compose`).

## Model

| member | source | states |
|---|---|---|
| Text.TrimStart | pages/Library.tsx:28 | the result is a suffix of the input, the dropped prefix is all white space, and the result does not start with white space |
| Text.TrimEnd | pages/Library.tsx:28 | the result is a prefix, the dropped suffix is all white space, and the result does not end with white space |
| Text.Trim | pages/Library.tsx:28 | the result neither starts nor ends with white space and is no longer than the input |
| Text.TrimIsInfix | pages/Library.tsx:28 | the result is the infix of the input between an all-white-space prefix and an all-white-space suffix |
| Text.TrimIsEmptyIffBlank | pages/EstimateForm.tsx:152 | `s.trim()` is empty exactly when every character of `s` is white space |
| Text.BlankConcat | pages/Library.tsx:28 | joining two all-white-space strings gives an all-white-space string |
| Text.Lower | pages/Library.tsx:30-31 | lower-casing keeps the length, leaves no upper-case ASCII letter, and moves each letter by 32 code points or keeps it |
| Text.LowerIdempotent | pages/Library.tsx:30-31 | lower-casing twice equals lower-casing once |
| Text.LowerKeepsBlank | pages/Library.tsx:28-31 | lower-casing keeps a query blank or non-blank |
| Text.DecimalText | pages/EstimateForm.tsx:242 | the decimal text of the clock is non-empty, all digits, and one digit exactly for values below 10 |
| Text.DecimalTextValue | pages/EstimateForm.tsx:242 | reading the digits of `n.toString()` back gives `n` |
| Text.DecimalTextInjective | pages/EstimateForm.tsx:242 | two clock readings with the same decimal text are equal |
| Seqs.Filter | pages/Library.tsx:25 | the result is an order-preserving subsequence of the input, every element kept passes, and every passing element occurs in it |
| Seqs.FilterCounts | pages/Library.tsx:25 | every passing value occurs as often as in the input and no failing value occurs; with the subsequence clause this fixes the result to `s.filter(p)` |
| Seqs.SubseqRefl | pages/Library.tsx:22 | a list is an order-preserving subsequence of itself |
| Seqs.SubseqTrans | pages/Library.tsx:21-36 | filters applied in sequence still preserve catalog order |
| Seqs.FilterKeepsAll | pages/EstimateList.tsx:23-24 | a filter every element passes returns the list unchanged |
| Seqs.FilterCongruent | pages/Library.tsx:29-32 | predicates that agree on every element filter alike |
| Pricing.SubtotalAppend | pages/EstimateForm.tsx:67-69 | the subtotal of appended lists is the sum of their subtotals |
| Pricing.SubtotalCons | pages/EstimateForm.tsx:67-69 | the subtotal can equally be summed from the front |
| Pricing.UnitPrice | pages/EstimateForm.tsx:68 | material plus labor, no smaller than either cost when both are non-negative |
| Pricing.LineTotal | pages/EstimateForm.tsx:68 | never negative for an item with no negative quantity or cost; one unit costs the unit price |
| Pricing.Subtotal | pages/EstimateForm.tsx:67-69 | items with no negative quantity or cost never sum to a negative subtotal; one item sums to its line amount |
| Pricing.Floor1000 | pages/EstimateForm.tsx:72 | the final price is a multiple of 1000, not above the subtotal and less than 1000 below it |
| Pricing.Floor1000Unique | pages/EstimateForm.tsx:72 | those facts determine the final price uniquely |
| Pricing.Floor1000Idempotent | pages/SuccessPage.tsx:20 | flooring an already floored amount changes nothing |
| Pricing.Floor1000OfMultiple | pages/EstimateForm.tsx:72 | a multiple of 1000 is its own floor |
| Pricing.Floor1000Monotone | pages/EstimateForm.tsx:72 | a larger subtotal never gives a smaller final price |
| Pricing.Split | pages/EstimateForm.tsx:73-75 | the three payments sum to the final price exactly; deposit and middle are multiples of 1000 within 1000 below 30 % and 40 %; the deposit never exceeds the balance; for a non-negative price no payment is negative; a multiple of 1000 leaves a balance that is one too |
| Pricing.SplitBalance | pages/EstimateForm.tsx:73-75 | with the first two payments floored to thousands at most 30 % and 40 % of the price, the balance is at least the deposit, and a multiple of 1000 when the final price is |
| Pricing.QuoteOf | pages/EstimateForm.tsx:67-75 | the final price is the floor to 1000 of the amount, and the payments are exactly `Split` of that final price, so they reconcile with deposit ≤ balance |
| Pricing.QuoteOfFinalPrice | pages/EstimateDetail.tsx:29-32 | quoting a final price again reproduces the same final price and payments |
| Pricing.EmptyItemsQuoteZero | pages/EstimateForm.tsx:67-75 | an empty item list gives zero subtotal, final price and payments |
| Pricing.ExampleTwoItems | pages/EstimateForm.tsx:67-75 | two items summing to 130000 split into 39000 / 52000 / 39000 |
| Pricing.ExampleRounding | pages/EstimateForm.tsx:72-75 | 1234567 rounds to 1234000 = 370000 + 493000 + 371000 |
| ItemTable.ItemRows | pages/EstimateForm.tsx:459-477 | one row per item, the i-th row showing the i-th item with its unit price and amount |
| ItemTable.Padding | pages/EstimateForm.tsx:479 | max(0, minimum − n) rows, all blank |
| ItemTable.TableRows | pages/EstimateForm.tsx:459-487 | max(n, minimum) rows: every item in order with unit price material + labor and amount unit price × quantity, then only blank rows |
| ItemTable.RowsTotalAppend | pages/EstimateForm.tsx:459-487 | row totals add over concatenation |
| ItemTable.BlankRowsTotalZero | pages/EstimateForm.tsx:479-485 | blank rows contribute nothing |
| ItemTable.ItemRowsTotal | pages/EstimateForm.tsx:459-477 | the item rows' amounts sum to the subtotal |
| ItemTable.RowsTotalIsSubtotal | pages/EstimateForm.tsx:459-487 | padding never changes the total: the printed amounts sum to the subtotal |
| Storage.LocalStorage.constructor | pages/EstimateList.tsx:13 | the storage starts with the given content of the key |
| Storage.StoredOrSeed | pages/EstimateForm.tsx:260-261 | the stored list when the key exists, otherwise the sample estimates |
| Library.ByCategory | pages/Library.tsx:24-26 | '전체' returns the catalog; any other tab returns, in catalog order, exactly the entries of that category, each as often as it occurs in the catalog |
| Library.FilteredItems | pages/Library.tsx:21-36 | an order-preserving subsequence of the category result; a blank query adds no filter; otherwise exactly the category entries whose lower-cased name or description contains the lower-cased untrimmed query, each as often as in the category result |
| Library.UnmatchedQueryFindsNothing | pages/Library.tsx:28-33 | a non-blank query no entry matches gives an empty list |
| Library.SearchIgnoresQueryCase | pages/Library.tsx:30-31 | the result does not depend on the letter case of the query |
| Library.BulkSelection | pages/Library.tsx:75 | exactly the catalog entries whose id is selected, in catalog order and as often as they occur there |
| Library.BulkSelectionIgnoresUnknownIds | pages/Library.tsx:75 | selected ids that name no catalog entry contribute nothing |
| Library.Toggle | pages/Library.tsx:47-57 | the id's membership flips and every other id keeps its membership |
| Library.ToggleTwice | pages/Library.tsx:47-57 | toggling the same id twice restores the set |
| Library.LibraryPage.constructor | pages/Library.tsx:12-17 | tab '전체', empty query, selection mode off, nothing selected, and the mock catalog as the page's catalog |
| Library.LibraryPage.SelectCategory | pages/Library.tsx:138 | the tab becomes the chosen one of the five tabs |
| Library.LibraryPage.Search | pages/Library.tsx:112 | the query becomes the typed text |
| Library.LibraryPage.ToggleSelection | pages/Library.tsx:47-57 | the selection becomes the toggled set |
| Library.LibraryPage.ToggleSelectionMode | pages/Library.tsx:63-72 | the mode flips; leaving the mode clears the selection, entering it keeps the set |
| Library.LibraryPage.ClearSelection | pages/Library.tsx:226 | the selection becomes empty |
| Library.LibraryPage.TapItem | pages/Library.tsx:38-45 | in selection mode a tap toggles the entry's id; otherwise it opens the form with that entry and changes nothing |
| Library.LibraryPage.BulkAdd | pages/Library.tsx:74-77 | hands over the selected catalog entries in catalog order |
| EstimateForm.NormalizeUnit | pages/EstimateForm.tsx:20-24 | missing or '' gives 'py', 'm²' gives 'm2', anything else is kept; the result is never '' nor 'm²' |
| EstimateForm.NormalizeUnitIdempotent | pages/EstimateForm.tsx:20-24 | normalising twice equals normalising once |
| EstimateForm.TemplateUnitFallbackUnused | pages/EstimateForm.tsx:144 | the `\|\| '식'` fallback after normalising never takes effect |
| EstimateForm.BulkItems | pages/EstimateForm.tsx:81-90 | one item per selected entry: quantity 1, labor 0, material the catalog price, normalised unit, no image, ids pairwise distinct |
| EstimateForm.TemplateItems | pages/EstimateForm.tsx:141-145 | one item per template line with its fields copied, normalised unit and pairwise distinct ids |
| EstimateForm.TemplateIdsFresh | pages/EstimateForm.tsx:143 | template ids clash with no existing item when no earlier template apply used the same timestamp |
| EstimateForm.ApplyFirstTemplateExample | pages/EstimateForm.tsx:140-149 | the first template gives four items with subtotal 1650000 |
| EstimateForm.Suggestions | pages/EstimateForm.tsx:114-129 | nothing for a blank name; otherwise exactly the catalog entries whose lower-cased name or category contains the lower-cased text, in catalog order and as often as they occur there |
| EstimateForm.WithoutId | pages/EstimateForm.tsx:188-190 | every item with the id is dropped; every other item is kept as often as it occurs, in order |
| EstimateForm.RemoveAbsentIdIsNoop | pages/EstimateForm.tsx:188-190 | removing an id no item has changes nothing |
| EstimateForm.NewItem | pages/EstimateForm.tsx:151-170 | refused for a blank name, else refused for an empty or non-positive quantity (each exactly then); otherwise the entered fields with blank costs as 0 and a blank image as none |
| EstimateForm.AddedItemIsPriced | pages/EstimateForm.tsx:156-168 | an accepted item with non-negative costs has a non-negative line amount |
| EstimateForm.NewEstimate | pages/EstimateForm.tsx:234-258 | refused exactly when the title or customer name is blank; otherwise a Draft of category General, priced at the unrounded subtotal, with the items, bank details and the clock's decimal id |
| EstimateForm.MinRows | pages/EstimateForm.tsx:557-638 | layout C pads to five rows, A and B to six |
| EstimateForm.LastSix | pages/EstimateForm.tsx:579 | `slice(-6)`: the last six characters, or the whole of a shorter text |
| EstimateForm.Compose | pages/EstimateForm.tsx:298-660 | the title, customer and place, or for a blank one the fallback '(견적명 미입력)', '고객' or '정보 미기재'; the author, date and bank details; the padded table whose amounts sum to the subtotal; the floored final price; the payment block `Split(finalPrice)` for A and B only; for C instead the serial number cut from the clock |
| EstimateForm.PdfFileName | pages/EstimateForm.tsx:225 | exactly the title (or '견적서' for a blank one) followed by `_<layout>타입.pdf` |
| EstimateForm.Form.constructor | pages/EstimateForm.tsx:27-64 | the fields start from the edited estimate or the picked catalog entry, with the same fallbacks as the source; the catalog is the mock catalog |
| EstimateForm.Form.Totals | pages/EstimateForm.tsx:67-75 | the current items' subtotal, its floor to 1000, and `Split` of that final price |
| EstimateForm.Form.IsFormValid | pages/EstimateForm.tsx:193-195 | review is possible exactly when the list is not empty |
| EstimateForm.Form.LibraryModalItems | pages/EstimateForm.tsx:291-294 | '전체' lists the whole catalog; another tab lists, in catalog order, exactly the catalog entries of that category, each as often as it occurs |
| EstimateForm.Form.ReceiveBulkSelection | pages/EstimateForm.tsx:79-95 | a non-empty hand-over appends its bulk items after the existing ones; otherwise nothing changes |
| EstimateForm.Form.ChangeName | pages/EstimateForm.tsx:114-129 | the name is set, the suggestions are recomputed and shown exactly for a non-blank name |
| EstimateForm.Form.SelectLibraryItem | pages/EstimateForm.tsx:131-138 | the entry fields take the catalog entry's name, description, normalised unit and price; the modal and the suggestions close |
| EstimateForm.Form.ApplyTemplate | pages/EstimateForm.tsx:140-149 | the template items are appended after the existing ones and the modal closes |
| EstimateForm.Form.AddItem | pages/EstimateForm.tsx:151-186 | a refused entry changes nothing; an accepted one is appended as the last item and the entry fields except the unit are cleared |
| EstimateForm.Form.RemoveItem | pages/EstimateForm.tsx:188-190 | the list becomes the list without that id |
| EstimateForm.Form.Review | pages/EstimateForm.tsx:193-200 | the preview opens only when there is at least one item |
| EstimateForm.Form.SelectLibraryCategory | pages/EstimateForm.tsx:1123 | the catalog modal's tab becomes the chosen category |
| EstimateForm.Form.ChoosePrintTemplate | pages/EstimateForm.tsx:1192-1206 | the chosen layout becomes current |
| EstimateForm.Form.FinalSave | pages/EstimateForm.tsx:234-265 | a refused save leaves storage as it was; otherwise the new estimate is stored in front of the stored list (or of the sample list when none exists), which follows unchanged |
| EstimateForm.BulkAddAppends | pages/EstimateForm.tsx:92 | N existing items plus M selected give N + M items with the existing prefix unchanged |
| EstimateDetail.FindIndex | pages/EstimateDetail.tsx:19 | the first position whose estimate has the id, or none exactly when no estimate has it |
| EstimateDetail.Displayed | pages/EstimateDetail.tsx:18-20 | the estimate with the route id, else the first estimate; nothing exactly for an empty list |
| EstimateDetail.FindIndexSameIds | pages/EstimateDetail.tsx:19 | lists that agree on ids agree on the lookup |
| EstimateDetail.SeedIds | constants.ts:3-44 | the sample list has four estimates with ids "1" to "4" |
| EstimateDetail.FirstFourStamps | constants.ts:3-44 | ids "1" to "4" are distinct decimal numbers below 5 |
| EstimateDetail.SeedIdsUnique | pages/EstimateList.tsx:16-19 | the list seeded into empty storage has distinct ids, all below any clock reading from 5 on |
| EstimateDetail.PrependKeepsIdsUnique | pages/EstimateForm.tsx:242-261 | an estimate stamped with the clock in front of a list stamped earlier keeps the ids distinct and the list stamped before the next reading |
| EstimateDetail.SaveKeepsIdsUnique | pages/EstimateForm.tsx:234-263 | the list a save writes back has distinct ids when the stored list had them and the clock is later than every stored id |
| EstimateDetail.NextStatus | pages/EstimateDetail.tsx:218-241 | the offered transition moves exactly one step forward; Completed offers none |
| EstimateDetail.SetStatus | pages/EstimateDetail.tsx:42-44 | estimates with the id change only their status; all others are unchanged; length and order are kept |
| EstimateDetail.SetStatusUnknownId | pages/EstimateDetail.tsx:42-44 | an id no estimate has leaves the list unchanged |
| EstimateDetail.NoticeFor | pages/EstimateDetail.tsx:48-54 | Completed returns to the list; Sent is announced as '전송 완료' |
| EstimateDetail.OfferedNotices | pages/EstimateDetail.tsx:48-54 | after an offered transition the page returns to the list exactly from Sent, and announces '전송 완료' exactly from Draft |
| EstimateDetail.Press | pages/EstimateDetail.tsx:218-235 | no button exactly when nothing is shown or the shown estimate is Completed; a press keeps every id in place |
| EstimateDetail.PressOnlyMovesForward | pages/EstimateDetail.tsx:218-241 | with distinct ids, a press moves only the estimate with the route id, one step forward |
| EstimateDetail.PressWithUnknownRouteId | pages/EstimateDetail.tsx:18-44 | an unknown route id shows the first estimate, and its button changes nothing |
| EstimateDetail.PressTimes | pages/EstimateDetail.tsx:218-241 | repeated presses keep every id in place |
| EstimateDetail.RepeatedPresses | pages/EstimateDetail.tsx:218-241 | n presses move the shown estimate min(n, steps left) steps toward Completed, change only its status, and leave every other estimate alone; the pressed list is returned |
| EstimateDetail.PressStep | pages/EstimateDetail.tsx:218-241 | one press on a shown, unfinished estimate with a unique id moves only that estimate one lifecycle step, keeps the ids unique and the same estimate shown, and the remaining presses continue from there |
| EstimateDetail.PressTimesStops | pages/EstimateDetail.tsx:218-235 | once the shown estimate is Completed (or no press is left) further presses change nothing, since no button is offered |
| EstimateDetail.PressesCompose | pages/EstimateDetail.tsx:218-241 | one step followed by n - 1 capped steps is n capped steps, still touching only the shown estimate's status |
| EstimateDetail.OnlyStatusAtTrans | pages/EstimateDetail.tsx:42-44 | two status-only changes of the same estimate compose into one |
| EstimateDetail.DetailRows | pages/EstimateDetail.tsx:142-158 | max(n, 4) rows of the estimate's items (or the fallback rows), each with unit price and amount, then blank rows; amounts sum to the subtotal |
| EstimateDetail.FallbackTable | pages/EstimateDetail.tsx:23-27 | an estimate without items shows the three fallback rows and one blank row |
| EstimateDetail.DetailQuote | pages/EstimateDetail.tsx:29-32 | the final price floors the stored price, and the payments are exactly `Split` of that final price |
| EstimateDetail.DetailMatchesForm | pages/EstimateDetail.tsx:29-32 | an estimate priced at a subtotal shows the same figures the form showed for it |
| EstimateDetail.BankShown | pages/EstimateDetail.tsx:34-38 | the stored bank details, or the fixed fallback account |
| EstimateDetail.CategoryDisplayName | pages/EstimateDetail.tsx:57-63 | Tile is shown as '타일 공사', Carpentry as '목공 공사', General as '종합 공사', each exactly for its category |
| EstimateDetail.CategoryDisplayNamesDistinct | pages/EstimateDetail.tsx:57-63 | Tile, Carpentry and General get three different headings |
| EstimateDetail.DetailPage.constructor | pages/EstimateDetail.tsx:12-15 | the page starts from the stored list, or the sample list when none is stored |
| EstimateDetail.DetailPage.UpdateStatus | pages/EstimateDetail.tsx:41-55 | the list becomes the status-updated list, is written to storage, and the outcome is announced |
| EstimateDetail.DetailPage.PressButton | pages/EstimateDetail.tsx:218-235 | without a button nothing changes; otherwise the shown estimate's next status is applied and stored |
| EstimateList.Visible | pages/EstimateList.tsx:23-26 | 'All' returns the list unchanged; another tab returns, in order and as often as they occur, exactly the estimates of its category |
| EstimateList.GeneralOnlyUnderAll | pages/EstimateList.tsx:9-26 | a General estimate is listed only under 'All' |
| EstimateList.TabsPartition | pages/EstimateList.tsx:23-26 | every non-General estimate is under exactly one of the two category tabs |
| EstimateList.CategoryLabel | pages/EstimateList.tsx:104 | '타일' exactly for Tile, '목공' exactly for Carpentry, '일반' exactly for General |
| EstimateList.StatusBadge | pages/EstimateList.tsx:28-52 | '결제 완료' exactly for Completed, '전송 완료' exactly for Sent, '작성 중' exactly for Draft |
| EstimateList.CategoryLabelsDistinct | pages/EstimateList.tsx:104 | the three categories get three different labels |
| EstimateList.StatusBadgesDistinct | pages/EstimateList.tsx:28-52 | the three statuses get three different badges |
| EstimateList.SentNoticeMatchesBadge | pages/EstimateList.tsx:37-42 | the detail page's Sent notice uses the Sent badge's text |
| EstimateList.ListPage.constructor | pages/EstimateList.tsx:9-10 | tab 'All' and an empty list |
| EstimateList.ListPage.Mount | pages/EstimateList.tsx:12-21 | empty storage is seeded with the sample list; a stored list is kept; the page then shows what storage holds |
| EstimateList.ListPage.SelectTab | pages/EstimateList.tsx:73-86 | the chosen tab becomes current |
| EstimateList.ListPage.OpenCard | pages/EstimateList.tsx:95 | tapping a listed card opens the detail page on the same storage with the card's id; it shows an estimate carrying that id |
| SuccessPage.SummaryOf | pages/SuccessPage.tsx:12-18 | the saved estimate's fields, or the defaults with price 0 |
| SuccessPage.ShownAmount | pages/SuccessPage.tsx:20 | a multiple of 1000, at most the price and within 1000 of it |
| SuccessPage.DefaultShowsZero | pages/SuccessPage.tsx:12-20 | without a saved estimate the page shows 0 |
| SuccessPage.ShownMatchesFormFinalPrice | pages/SuccessPage.tsx:20 | for an estimate the form saved, the amount shown equals the form's final price in every layout |
| SuccessPage.ShownAmountIdempotent | pages/SuccessPage.tsx:20 | flooring the shown amount again changes nothing |

## Left out

- The markup, styling, icons, modals' open/close buttons and zebra striping of every page are not modelled; they carry no rule.
- The PDF export (html2canvas, jsPDF) is not modelled; only its file name is.
- Sharing through `navigator.share` or the clipboard, the image upload through `FileReader`, `window.scrollTo` and `history.replaceState` are browser calls and are left out.
- `JSON.parse` is taken to succeed; the app does not catch a parse failure of corrupted storage.
- The settings page (a call into a remote model's SDK), the bulk-upload page, the layout shell and the router are not part of this model.
- The price-adjustment modal of the catalog page is inert and left out.
- Fractional costs: the material and labor inputs (pages/EstimateForm.tsx:955-977) accept any number, but the model keeps costs as whole won, so a cost such as 12.5 is not modelled.
- Floating point: `parseFloat`, IEEE-754 rounding of `* 0.3` and `* 0.4`, and `NaN` are not modelled; arithmetic is exact.
- Text.Lower: lowercases ASCII letters only, not the full Unicode mapping of `toLowerCase`.
- `Intl.NumberFormat` currency formatting of the amounts shown is not modelled; the model keeps the numbers.
- The typed-in header fields (author, title, customer, place, bank details) have no handler of their own beyond setting a field, so they are set directly.
- EstimateDetail.Displayed: for an empty stored list the page would crash on `estimate.items`; the model returns none instead.
- EstimateDetail.PressOnlyMovesForward: stated only for lists with distinct ids; with duplicate ids one press sets every estimate with that id to the shown estimate's next status, which can move a duplicate backward. The lists the app builds have distinct ids when the clock is past the stored ids (`EstimateDetail.SeedIdsUnique`, `EstimateDetail.SaveKeepsIdsUnique`).
- EstimateDetail.RepeatedPresses: stated only for lists with distinct ids, for the same reason.
- EstimateDetail.PressStep: stated only for lists with distinct ids, for the same reason.
- The detail page's edit button opens the form with the shown estimate; that is the form's constructor with an initial estimate, and saving then stores a new estimate next to the old one.
- `Date.now()` is read once per mapped item (pages/EstimateForm.tsx:82, 143) and twice in the final save (pages/EstimateForm.tsx:242, 250); the model reads one clock value per handler, so it does not capture readings that differ within one handler.
- The timestamps of `Date.now()` are parameters; the model does not assume two clicks get different timestamps, so `EstimateForm.TemplateIdsFresh` requires a fresh one.
