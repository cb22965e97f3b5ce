/**
 * The filter panel (frontend/src/components/ProductFilters.tsx). The canonical filters belong to the
 * catalogue hook that owns the panel; the panel stages its own copy of the five non-search fields, edits
 * it, and commits it through the hook's HandleFiltersChange. The search box commits after a pause; the
 * timer is left out and its body is CommitSearch.
 */
module ProductFilterPanel {
  import opened Base
  import opened Text
  import opened FilterTypes
  import opened ProductsWithFilters

  /** The staged (local) copy of the filters: everything but the search. */
  datatype StagedFilters = StagedFilters(
    category: string,
    sortBy: SortKey,
    sortOrder: SortOrder,
    priceMin: PriceField,
    priceMax: PriceField)

  function Staged(f: FilterState): StagedFilters {
    StagedFilters(f.category, f.sortBy, f.sortOrder, f.priceMin, f.priceMax)
  }

  /** One key of FilterState given a new value, as passed to updateFilter and updateLocalFilter. */
  datatype FilterUpdate =
    | SetSearch(search: string)
    | SetCategory(category: string)
    | SetSortBy(sortBy: SortKey)
    | SetSortOrder(sortOrder: SortOrder)
    | SetPriceMin(priceMin: PriceField)
    | SetPriceMax(priceMax: PriceField)

  /** `{...filters, [key]: value}`: the one key takes the value, every other key is kept. */
  function Update(f: FilterState, u: FilterUpdate): (g: FilterState)
    ensures g.search == (if u.SetSearch? then u.search else f.search)
    ensures g.category == (if u.SetCategory? then u.category else f.category)
    ensures g.sortBy == (if u.SetSortBy? then u.sortBy else f.sortBy)
    ensures g.sortOrder == (if u.SetSortOrder? then u.sortOrder else f.sortOrder)
    ensures g.priceMin == (if u.SetPriceMin? then u.priceMin else f.priceMin)
    ensures g.priceMax == (if u.SetPriceMax? then u.priceMax else f.priceMax)
  {
    match u
    case SetSearch(v) => f.(search := v)
    case SetCategory(v) => f.(category := v)
    case SetSortBy(v) => f.(sortBy := v)
    case SetSortOrder(v) => f.(sortOrder := v)
    case SetPriceMin(v) => f.(priceMin := v)
    case SetPriceMax(v) => f.(priceMax := v)
  }

  /**
   * The same update on the staged copy. The staged record has no search field: a search update adds a
   * key nothing reads, so the five staged fields stay as they are.
   */
  function StageUpdate(s: StagedFilters, u: FilterUpdate): (t: StagedFilters)
    ensures u.SetSearch? ==> t == s
    ensures forall f :: Staged(f) == s ==> t == Staged(Update(f, u))
  {
    match u
    case SetSearch(_) => s
    case SetCategory(v) => s.(category := v)
    case SetSortBy(v) => s.(sortBy := v)
    case SetSortOrder(v) => s.(sortOrder := v)
    case SetPriceMin(v) => s.(priceMin := v)
    case SetPriceMax(v) => s.(priceMax := v)
  }

  /** A Partial<FilterState>: the keys present carry their new values. */
  datatype FilterPatch = FilterPatch(
    search: Option<string>,
    category: Option<string>,
    sortBy: Option<SortKey>,
    sortOrder: Option<SortOrder>,
    priceMin: Option<PriceField>,
    priceMax: Option<PriceField>)

  /** `{...filters, ...updates}`: the keys present take their values, the others are kept. */
  function Patch(f: FilterState, p: FilterPatch): (g: FilterState)
    ensures p == FilterPatch(None, None, None, None, None, None) ==> g == f
    ensures p.search.Some? ==> g.search == p.search.value
    ensures p.search.None? ==> g.search == f.search
    ensures p.category.Some? ==> g.category == p.category.value
    ensures p.category.None? ==> g.category == f.category
    ensures p.sortBy.Some? ==> g.sortBy == p.sortBy.value
    ensures p.sortBy.None? ==> g.sortBy == f.sortBy
    ensures p.sortOrder.Some? ==> g.sortOrder == p.sortOrder.value
    ensures p.sortOrder.None? ==> g.sortOrder == f.sortOrder
    ensures p.priceMin.Some? ==> g.priceMin == p.priceMin.value
    ensures p.priceMin.None? ==> g.priceMin == f.priceMin
    ensures p.priceMax.Some? ==> g.priceMax == p.priceMax.value
    ensures p.priceMax.None? ==> g.priceMax == f.priceMax
  {
    FilterState(
      p.search.GetOr(f.search),
      p.category.GetOr(f.category),
      p.sortBy.GetOr(f.sortBy),
      p.sortOrder.GetOr(f.sortOrder),
      p.priceMin.GetOr(f.priceMin),
      p.priceMax.GetOr(f.priceMax))
  }

  /** The staged copy under a patch; a search key in the patch reaches nothing staged. */
  function StagePatch(s: StagedFilters, p: FilterPatch): (t: StagedFilters)
    ensures forall f :: Staged(f) == s ==> t == Staged(Patch(f, p))
  {
    StagedFilters(
      p.category.GetOr(s.category),
      p.sortBy.GetOr(s.sortBy),
      p.sortOrder.GetOr(s.sortOrder),
      p.priceMin.GetOr(s.priceMin),
      p.priceMax.GetOr(s.priceMax))
  }

  /** The four groups the badge counts; the two price fields form one group. */
  datatype FilterGroup = CategoryGroup | PriceGroup | SortKeyGroup | SortOrderGroup

  /** A group is active when some field of it differs from the default filters. */
  predicate GroupActive(f: FilterState, g: FilterGroup) {
    match g
    case CategoryGroup => f.category != DefaultFilters.category
    case PriceGroup => f.priceMin != DefaultFilters.priceMin || f.priceMax != DefaultFilters.priceMax
    case SortKeyGroup => f.sortBy != DefaultFilters.sortBy
    case SortOrderGroup => f.sortOrder != DefaultFilters.sortOrder
  }

  /** `[g]` when `b` holds, otherwise no group. */
  function GroupIf(b: bool, g: FilterGroup): (s: seq<FilterGroup>)
    ensures |s| == if b then 1 else 0
    ensures forall h :: h in s <==> b && h == g
  {
    if b then [g] else []
  }

  /** The groups away from their defaults, in the badge's order; each appears at most once. */
  function ActiveGroups(f: FilterState): (active: seq<FilterGroup>)
    ensures CategoryGroup in active <==> GroupActive(f, CategoryGroup)
    ensures PriceGroup in active <==> GroupActive(f, PriceGroup)
    ensures SortKeyGroup in active <==> GroupActive(f, SortKeyGroup)
    ensures SortOrderGroup in active <==> GroupActive(f, SortOrderGroup)
    ensures |active| ==
      (if GroupActive(f, CategoryGroup) then 1 else 0) + (if GroupActive(f, PriceGroup) then 1 else 0) +
      (if GroupActive(f, SortKeyGroup) then 1 else 0) + (if GroupActive(f, SortOrderGroup) then 1 else 0)
  {
    GroupIf(GroupActive(f, CategoryGroup), CategoryGroup) + GroupIf(GroupActive(f, PriceGroup), PriceGroup) +
    GroupIf(GroupActive(f, SortKeyGroup), SortKeyGroup) + GroupIf(GroupActive(f, SortOrderGroup), SortOrderGroup)
  }

  /**
   * The badge: the truthy entries among the category, a price tag, the sort key unless it is title and
   * the order unless it is asc; that is, the number of groups away from their defaults.
   */
  function ActiveFiltersCount(f: FilterState): (n: nat)
    ensures n == |ActiveGroups(f)|
    ensures n <= 4
    ensures n == 0 <==> Staged(f) == Staged(DefaultFilters)
  {
    (if f.category != "" then 1 else 0)
    + (if f.priceMin.Amount? || f.priceMax.Amount? then 1 else 0)
    + (if f.sortBy != Title then 1 else 0)
    + (if f.sortOrder != Asc then 1 else 0)
  }

  /** The count reads the canonical filters only, and the search is not one of the counted filters. */
  lemma ActiveCountIgnoresSearch(f: FilterState, search: string)
    ensures ActiveFiltersCount(f.(search := search)) == ActiveFiltersCount(f)
    ensures ActiveFiltersCount(DefaultFilters.(search := search)) == 0
  {
  }

  /** The apply button is marked when any staged field differs from its canonical value. */
  function HasPendingChanges(local: StagedFilters, f: FilterState): (pending: bool)
    ensures pending <==> local != Staged(f)
  {
    local.category != f.category
    || local.sortBy != f.sortBy
    || local.sortOrder != f.sortOrder
    || local.priceMin != f.priceMin
    || local.priceMax != f.priceMax
  }

  /** Both price fields hold numbers and the minimum exceeds the maximum: the inputs show an error. */
  predicate ShowsRangeError(s: StagedFilters) {
    s.priceMin.Amount? && s.priceMax.Amount? && s.priceMin.value > s.priceMax.value
  }

  /** The range error is shown exactly when applying the staged prices would send neither bound. */
  lemma RangeErrorMeansBoundsDropped(f: FilterState)
    requires f.priceMin.Amount? && f.priceMax.Amount?
    ensures ShowsRangeError(Staged(f)) <==> ApiFilters(f).priceMin.None?
    ensures ShowsRangeError(Staged(f)) <==> ApiFilters(f).priceMax.None?
  {
  }

  /** The Mantine number input's value: cleared, or a number. */
  datatype NumberInputValue = Cleared | Entered(number: real)

  /** `value === '' ? '' : Number(value) || ''`: a cleared input and a zero both leave the field unset. */
  function CoercePriceInput(v: NumberInputValue): (r: PriceField)
    ensures r.Unset? <==> v == Cleared || v == Entered(0.0)
    ensures r.Amount? ==> v == Entered(r.value) && r.value != 0.0
  {
    match v
    case Cleared => Unset
    case Entered(x) => if x == 0.0 then Unset else Amount(x)
  }

  /** A category slug shown as a label: the first character upper-cased, every later '-' a space. */
  function CategoryLabel(category: string): (shown: string)
    ensures |shown| == |category|
    ensures category != "" ==> shown[0] == ToUpperChar(category[0])
    ensures forall i :: 0 < i < |category| ==> shown[i] == if category[i] == '-' then ' ' else category[i]
  {
    if category == "" then ""
    else
      var rest := seq(|category| - 1, i requires 0 <= i < |category| - 1 =>
        if category[i + 1] == '-' then ' ' else category[i + 1]);
      [ToUpperChar(category[0])] + rest
  }

  /** Past its first character a label has no dashes, and a lower-case slug's label starts upper-case. */
  lemma LabelShape(category: string)
    ensures forall i :: 0 < i < |category| ==> CategoryLabel(category)[i] != '-'
    ensures category != "" && 'a' <= category[0] <= 'z' ==> 'A' <= CategoryLabel(category)[0] <= 'Z'
  {
  }

  /** The category choices: "All Categories" for '', then one labelled entry per category, in order. */
  function CategoryOptions(categories: seq<string>): (options: seq<(string, string)>)
    ensures |options| == |categories| + 1
    ensures options[0] == ("", "All Categories")
    ensures forall i :: 0 <= i < |categories| ==> options[i + 1] == (categories[i], CategoryLabel(categories[i]))
  {
    [("", "All Categories")] + seq(|categories|, i requires 0 <= i < |categories| =>
      (categories[i], CategoryLabel(categories[i])))
  }

  class FilterPanel {
    const owner: ProductsWithFilters
    var local: StagedFilters
    var modalOpened: bool
    var searchInput: string

    /** The panel starts closed, with the search box and the staged copy taken from the canonical filters. */
    constructor (owner: ProductsWithFilters)
      ensures this.owner == owner
      ensures local == Staged(owner.filters) && searchInput == owner.filters.search && !modalOpened
    {
      this.owner := owner;
      local := Staged(owner.filters);
      searchInput := owner.filters.search;
      modalOpened := false;
    }

    /**
     * Commits the staged fields: the canonical filters become the staged ones with the search kept, the
     * listing goes back to page 1, nothing is left pending, and the modal closes.
     */
    method ApplyFilters()
      modifies this, owner
      ensures Staged(owner.filters) == local && owner.filters.search == old(owner.filters.search)
      ensures owner.currentPage == 1 && owner.limit == old(owner.limit)
      ensures !HasPendingChanges(local, owner.filters)
      ensures local == old(local) && searchInput == old(searchInput) && !modalOpened
      ensures owner.products == old(owner.products) && owner.total == old(owner.total)
      ensures owner.categories == old(owner.categories) && owner.loading == old(owner.loading)
      ensures owner.error == old(owner.error)
    {
      var f := owner.filters;
      owner.HandleFiltersChange(FilterState(f.search, local.category, local.sortBy, local.sortOrder,
                                            local.priceMin, local.priceMax));
      modalOpened := false;
    }

    /** A staged edit: one staged key changes and the canonical filters do not. */
    method UpdateLocalFilter(u: FilterUpdate)
      modifies this
      ensures local == StageUpdate(old(local), u)
      ensures modalOpened == old(modalOpened) && searchInput == old(searchInput)
    {
      local := StageUpdate(local, u);
    }

    /** A direct edit: the key changes in both the staged copy and the canonical filters, back to page 1. */
    method UpdateFilter(u: FilterUpdate)
      modifies this, owner
      ensures local == StageUpdate(old(local), u)
      ensures owner.filters == Update(old(owner.filters), u)
      ensures owner.currentPage == 1 && owner.limit == old(owner.limit)
      ensures owner.products == old(owner.products) && owner.total == old(owner.total)
      ensures owner.categories == old(owner.categories) && owner.loading == old(owner.loading)
      ensures owner.error == old(owner.error)
      ensures modalOpened == old(modalOpened) && searchInput == old(searchInput)
    {
      local := StageUpdate(local, u);
      owner.HandleFiltersChange(Update(owner.filters, u));
    }

    /** Several keys at once, in both copies. */
    method UpdateMultipleFilters(p: FilterPatch)
      modifies this, owner
      ensures local == StagePatch(old(local), p)
      ensures owner.filters == Patch(old(owner.filters), p)
      ensures owner.currentPage == 1 && owner.limit == old(owner.limit)
      ensures owner.products == old(owner.products) && owner.total == old(owner.total)
      ensures owner.categories == old(owner.categories) && owner.loading == old(owner.loading)
      ensures owner.error == old(owner.error)
      ensures modalOpened == old(modalOpened) && searchInput == old(searchInput)
    {
      local := StagePatch(local, p);
      owner.HandleFiltersChange(Patch(owner.filters, p));
    }

    /** Both copies go back to the defaults, whatever they held. */
    method ClearFilters()
      modifies this, owner
      ensures owner.filters == DefaultFilters && local == Staged(DefaultFilters)
      ensures ActiveFiltersCount(owner.filters) == 0 && !HasPendingChanges(local, owner.filters)
      ensures owner.currentPage == 1 && owner.limit == old(owner.limit)
      ensures owner.products == old(owner.products) && owner.total == old(owner.total)
      ensures owner.categories == old(owner.categories) && owner.loading == old(owner.loading)
      ensures owner.error == old(owner.error)
      ensures modalOpened == old(modalOpened) && searchInput == old(searchInput)
    {
      owner.HandleFiltersChange(DefaultFilters);
      local := Staged(DefaultFilters);
    }

    /** Typing in (or clearing) the search box. */
    method EditSearch(text: string)
      modifies this
      ensures searchInput == text && local == old(local) && modalOpened == old(modalOpened)
    {
      searchInput := text;
    }

    /** The debounced commit: the typed search replaces the canonical one only when it differs. */
    method CommitSearch()
      modifies owner
      ensures old(searchInput) != old(owner.filters.search) ==>
        owner.filters == old(owner.filters).(search := searchInput) && owner.currentPage == 1
      ensures old(searchInput) == old(owner.filters.search) ==>
        owner.filters == old(owner.filters) && owner.currentPage == old(owner.currentPage)
      ensures owner.limit == old(owner.limit)
      ensures owner.products == old(owner.products) && owner.total == old(owner.total)
      ensures owner.categories == old(owner.categories) && owner.loading == old(owner.loading)
      ensures owner.error == old(owner.error)
    {
      if searchInput != owner.filters.search {
        owner.HandleFiltersChange(owner.filters.(search := searchInput));
      }
    }

    /**
     * The effect that depends on the committed search alone: when it differs from the previous render's,
     * the search box is reset to it; otherwise the box keeps what was typed.
     */
    method SyncSearch(previous: FilterState)
      modifies this
      ensures searchInput == if owner.filters.search != previous.search then owner.filters.search else old(searchInput)
      ensures local == old(local) && modalOpened == old(modalOpened)
    {
      if owner.filters.search != previous.search {
        searchInput := owner.filters.search;
      }
    }

    /**
     * The effect that depends on the five staged fields: when any of them differs from the previous
     * render's, the staged copy is reset to them; otherwise staged edits are kept.
     */
    method SyncStaged(previous: FilterState)
      modifies this
      ensures local == if Staged(owner.filters) != Staged(previous) then Staged(owner.filters) else old(local)
      ensures searchInput == old(searchInput) && modalOpened == old(modalOpened)
    {
      if Staged(owner.filters) != Staged(previous) {
        local := Staged(owner.filters);
      }
    }
  }

  /**
   * Applying the modal, then the effects of the render that follows: search text typed but not yet
   * committed stays in the box, and nothing is left pending.
   */
  method ApplyAndRerender(panel: FilterPanel)
    modifies panel, panel.owner
    ensures panel.searchInput == old(panel.searchInput) && panel.local == old(panel.local)
    ensures !HasPendingChanges(panel.local, panel.owner.filters)
  {
    var previous := panel.owner.filters;
    panel.ApplyFilters();
    panel.SyncSearch(previous);
    panel.SyncStaged(previous);
  }

  /**
   * Committing the typed search, then the effects of the render that follows: the box keeps the text and
   * staged edits that were not applied survive.
   */
  method CommitAndRerender(panel: FilterPanel)
    modifies panel, panel.owner
    ensures panel.searchInput == old(panel.searchInput) && panel.local == old(panel.local)
    ensures panel.owner.filters.search == old(panel.searchInput)
    ensures Staged(panel.owner.filters) == old(Staged(panel.owner.filters))
  {
    var previous := panel.owner.filters;
    panel.CommitSearch();
    panel.SyncSearch(previous);
    panel.SyncStaged(previous);
  }
}
