// The catalog page (pages/Library.tsx): category tabs, a text search, and a
// selection mode that collects catalog ids for a bulk add to the form.

module Library {
  import opened Types
  import opened Text
  import opened Seqs
  import opened Constants

  /** The tab that applies no category filter. */
  const AllCategory := "전체"

  /** The tabs the page offers. */
  const Categories: seq<string> := [AllCategory, "목공", "타일", "자재", "기타"]

  function InCategory(category: string): LibraryItem -> bool {
    (item: LibraryItem) => item.category == category
  }

  /** The category step of `filteredItems`, also used by the form's catalog modal. */
  function ByCategory(catalog: seq<LibraryItem>, category: string): (r: seq<LibraryItem>)
    ensures Subseq(r, catalog)
    ensures category == AllCategory ==> r == catalog
    ensures category != AllCategory ==> forall i :: 0 <= i < |r| ==> r[i].category == category
    ensures category != AllCategory ==>
      forall i :: 0 <= i < |catalog| && catalog[i].category == category ==> catalog[i] in r
    ensures forall i :: 0 <= i < |r| ==> r[i] in catalog
    ensures forall x ::
      multiset(r)[x] == if category == AllCategory || x.category == category then multiset(catalog)[x] else 0
  {
    if category == AllCategory then SubseqRefl(catalog); catalog
    else FilterCounts(catalog, InCategory(category)); Filter(catalog, InCategory(category))
  }

  /** The case-insensitive substring test on name or description. */
  predicate MatchesQuery(item: LibraryItem, query: string) {
    Includes(Lower(item.name), Lower(query)) || Includes(Lower(item.description), Lower(query))
  }

  function Matching(query: string): LibraryItem -> bool {
    (item: LibraryItem) => MatchesQuery(item, query)
  }

  /**
   * `filteredItems`: the category filter, then, unless the query is blank
   * after trimming, the text filter with the untrimmed query.
   */
  function FilteredItems(catalog: seq<LibraryItem>, category: string, query: string): (r: seq<LibraryItem>)
    ensures Subseq(r, ByCategory(catalog, category))
    ensures Subseq(r, catalog)
    ensures IsBlank(query) ==> r == ByCategory(catalog, category)
    ensures !IsBlank(query) ==> forall i :: 0 <= i < |r| ==> MatchesQuery(r[i], query)
    ensures forall i :: 0 <= i < |r| ==> r[i] in ByCategory(catalog, category)
    ensures !IsBlank(query) ==>
      forall x :: x in ByCategory(catalog, category) && MatchesQuery(x, query) ==> x in r
    ensures !IsBlank(query) ==>
      forall x :: multiset(r)[x] == if MatchesQuery(x, query) then multiset(ByCategory(catalog, category))[x] else 0
  {
    var items := ByCategory(catalog, category);
    // `searchQuery.trim()` is non-empty exactly when the query is not blank (Text.TrimIsEmptyIffBlank).
    if !IsBlank(query) then
      FilterCounts(items, Matching(query));
      var found := Filter(items, Matching(query));
      SubseqTrans(found, items, catalog);
      found
    else
      SubseqRefl(items);
      items
  }

  /** A query that no catalog entry matches finds nothing. */
  lemma UnmatchedQueryFindsNothing(catalog: seq<LibraryItem>, category: string, query: string)
    requires !IsBlank(query)
    requires forall i :: 0 <= i < |catalog| ==> !MatchesQuery(catalog[i], query)
    ensures FilteredItems(catalog, category, query) == []
  {
  }

  /** The search ignores the letter case of the query. */
  lemma SearchIgnoresQueryCase(catalog: seq<LibraryItem>, category: string, query: string)
    ensures FilteredItems(catalog, category, Lower(query)) == FilteredItems(catalog, category, query)
  {
    var items := ByCategory(catalog, category);
    LowerIdempotent(query);
    LowerKeepsBlank(query);
    TrimIsEmptyIffBlank(query);
    TrimIsEmptyIffBlank(Lower(query));
    FilterCongruent(items, Matching(Lower(query)), Matching(query));
  }

  /** Entries whose id is in the selected set. */
  function IsSelected(selected: set<string>): LibraryItem -> bool {
    (item: LibraryItem) => item.id in selected
  }

  /** `handleBulkAdd`: the selected catalog entries, in catalog order. */
  function BulkSelection(catalog: seq<LibraryItem>, selected: set<string>): (r: seq<LibraryItem>)
    ensures Subseq(r, catalog)
    ensures forall i :: 0 <= i < |r| ==> r[i] in catalog && r[i].id in selected
    ensures forall i :: 0 <= i < |catalog| && catalog[i].id in selected ==> catalog[i] in r
    ensures forall x :: multiset(r)[x] == if x.id in selected then multiset(catalog)[x] else 0
  {
    FilterCounts(catalog, IsSelected(selected));
    Filter(catalog, IsSelected(selected))
  }

  function IdsOf(catalog: seq<LibraryItem>): set<string> {
    set i | 0 <= i < |catalog| :: catalog[i].id
  }

  /** Selected ids that name no catalog entry contribute nothing. */
  lemma BulkSelectionIgnoresUnknownIds(catalog: seq<LibraryItem>, selected: set<string>)
    ensures BulkSelection(catalog, selected) == BulkSelection(catalog, selected * IdsOf(catalog))
  {
    forall i | 0 <= i < |catalog|
      ensures IsSelected(selected)(catalog[i]) == IsSelected(selected * IdsOf(catalog))(catalog[i])
    {
      assert catalog[i].id in IdsOf(catalog);
    }
    FilterCongruent(catalog, IsSelected(selected), IsSelected(selected * IdsOf(catalog)));
  }

  /** `toggleSelection`: flips the membership of one id. */
  function Toggle(selected: set<string>, id: string): (r: set<string>)
    ensures id in r <==> id !in selected
    ensures forall other :: other != id ==> (other in r <==> other in selected)
  {
    if id in selected then selected - {id} else selected + {id}
  }

  /** Toggling the same id twice restores the set. */
  lemma ToggleTwice(selected: set<string>, id: string)
    ensures Toggle(Toggle(selected, id), id) == selected
  {
  }

  /** What tapping a catalog entry does outside selection mode: open the form with that entry. */
  datatype Tap = Toggled | OpenForm(item: LibraryItem)

  class LibraryPage {
    var activeCategory: string
    var searchQuery: string
    var isSelectionMode: bool
    var selectedIds: set<string>
    /** The catalog the page lists. */
    const catalog: seq<LibraryItem>

    constructor ()
      ensures activeCategory == AllCategory && searchQuery == ""
      ensures !isSelectionMode && selectedIds == {}
      ensures catalog == MockLibrary
    {
      catalog := MockLibrary;
      activeCategory := AllCategory;
      searchQuery := "";
      isSelectionMode := false;
      selectedIds := {};
    }

    /** The entries the page lists. */
    function Shown(): seq<LibraryItem>
      reads this
    {
      FilteredItems(catalog, activeCategory, searchQuery)
    }

    method SelectCategory(category: string)
      requires category in Categories
      modifies this`activeCategory
      ensures activeCategory == category
    {
      activeCategory := category;
    }

    method Search(query: string)
      modifies this`searchQuery
      ensures searchQuery == query
    {
      searchQuery := query;
    }

    method ToggleSelection(id: string)
      modifies this`selectedIds
      ensures selectedIds == Toggle(old(selectedIds), id)
    {
      var next := selectedIds;
      if id in next {
        next := next - {id};
      } else {
        next := next + {id};
      }
      selectedIds := next;
    }

    /** Leaving selection mode drops the selection; entering it keeps the set. */
    method ToggleSelectionMode()
      modifies this`isSelectionMode, this`selectedIds
      ensures isSelectionMode == !old(isSelectionMode)
      ensures selectedIds == if old(isSelectionMode) then {} else old(selectedIds)
    {
      if isSelectionMode {
        isSelectionMode := false;
        selectedIds := {};
      } else {
        isSelectionMode := true;
      }
    }

    /** The "clear" button of the selection bar. */
    method ClearSelection()
      modifies this`selectedIds
      ensures selectedIds == {}
    {
      selectedIds := {};
    }

    /** `handleAddItemToEstimate`. */
    method TapItem(item: LibraryItem) returns (tap: Tap)
      modifies this`selectedIds
      ensures isSelectionMode ==> tap == Toggled && selectedIds == Toggle(old(selectedIds), item.id)
      ensures !isSelectionMode ==> tap == OpenForm(item) && selectedIds == old(selectedIds)
    {
      if isSelectionMode {
        ToggleSelection(item.id);
        tap := Toggled;
      } else {
        tap := OpenForm(item);
      }
    }

    /** `handleBulkAdd`: the entries handed to the form. */
    method BulkAdd() returns (selectedItems: seq<LibraryItem>)
      ensures selectedItems == BulkSelection(catalog, selectedIds)
    {
      selectedItems := Filter(catalog, IsSelected(selectedIds));
    }
  }
}
