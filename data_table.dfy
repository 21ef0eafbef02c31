/**
 * The trend table's controller: its view state (sort field, sort direction,
 * item count), the filter it composes from the search box and the two
 * selectors, the sorter it applies, and the lookup of a row by tool name.
 * The table binding's filter and sorter are kept as values on the controller.
 */
module DataTable {
  import opened Wrappers
  import opened Text

  const ConfidenceField := "confidence_score"
  const NameField := "tool_name"
  /** The selector key that means "no restriction". */
  const AllKey := "all"

  /** The fields of a table row the controller reads. */
  datatype Trend = Trend(toolName: string, technicalInsight: string, focusArea: string, classification: string, confidenceScore: int)

  /**
   * One clause of the table filter. The search clause matches the tool name
   * or the insight by substring; the selector clauses match their field as a
   * whole. Both comparisons ignore case, as the table binding does by default.
   */
  datatype Clause = Search(query: string) | FocusAreaIs(focusArea: string) | ClassificationIs(classification: string)

  datatype Sorter = Sorter(path: string, descending: bool)

  predicate Holds(row: Trend, clause: Clause)
  {
    match clause
    case Search(q) => ContainsIgnoringCase(row.toolName, q) || ContainsIgnoringCase(row.technicalInsight, q)
    case FocusAreaIs(f) => Lower(row.focusArea) == Lower(f)
    case ClassificationIs(c) => Lower(row.classification) == Lower(c)
  }

  /** The combined filter is the conjunction of its clauses; with no clause every row passes. */
  predicate Admits(row: Trend, clauses: seq<Clause>)
  {
    forall c :: c in clauses ==> Holds(row, c)
  }

  /** A selector restricts the table unless it is empty or "all". */
  predicate Selected(key: string)
  {
    key != "" && key != AllKey
  }

  /**
   * The clauses `_applyFilters` pushes: the search when the query is
   * non-empty, then each selector that is set to something other than "all".
   */
  function FilterClauses(search: string, focusKey: string, classKey: string): (r: seq<Clause>)
    ensures Search(search) in r <==> search != ""
    ensures FocusAreaIs(focusKey) in r <==> Selected(focusKey)
    ensures ClassificationIs(classKey) in r <==> Selected(classKey)
    ensures |r| <= 3
    ensures forall row :: Admits(row, r) <==>
      && (search == "" || Holds(row, Search(search)))
      && (!Selected(focusKey) || Holds(row, FocusAreaIs(focusKey)))
      && (!Selected(classKey) || Holds(row, ClassificationIs(classKey)))
  {
    (if search != "" then [Search(search)] else [])
    + (if Selected(focusKey) then [FocusAreaIs(focusKey)] else [])
    + (if Selected(classKey) then [ClassificationIs(classKey)] else [])
  }

  /** With no query and both selectors on "all", nothing is filtered out. */
  lemma NoSelectionFiltersNothing(row: Trend)
    ensures FilterClauses("", AllKey, AllKey) == []
    ensures Admits(row, FilterClauses("", AllKey, AllKey))
  {
  }

  /** `onSearch`: the `query` parameter, else `newValue`, else the empty string. */
  function SearchQuery(query: Option<string>, newValue: Option<string>): (r: string)
    ensures query.Some? && query.value != "" ==> r == query.value
    ensures (query.None? || query.value == "") && newValue.Some? ==> r == newValue.value
    ensures (query.None? || query.value == "") && newValue.None? ==> r == ""
  {
    if query.Some? && query.value != "" then query.value
    else if newValue.Some? then newValue.value
    else ""
  }

  /** The direction `_sortTable` chooses: toggle on the same field, else descending only for the confidence. */
  function NextDescending(currentField: string, descending: bool, field: string): (r: bool)
    ensures currentField == field ==> r == !descending
    ensures currentField != field ==> (r <==> field == ConfidenceField)
  {
    if currentField == field then !descending else field == ConfidenceField
  }

  /** Sorting twice by the current field restores the direction. */
  lemma SortTwiceRestores(field: string, descending: bool)
    ensures NextDescending(field, NextDescending(field, descending, field), field) == descending
  {
  }

  /** From the initial view state, sorting by confidence turns to ascending. */
  lemma InitialConfidenceSortAscends()
    ensures !NextDescending(ConfidenceField, true, ConfidenceField)
  {
  }

  /** Switching to the name column starts ascending, whatever the previous direction. */
  lemma NameSortStartsAscending(descending: bool)
    ensures !NextDescending(ConfidenceField, descending, NameField)
  {
  }

  class DataTableController {
    var itemCount: int
    var sortDescending: bool
    var currentSortField: string
    /** The radar model's `/trends` (an absent list reads as empty). */
    var trends: seq<Trend>
    /** The filter last applied to the table binding. */
    var filter: seq<Clause>
    /** The sorter last applied to the table binding. */
    var sorter: Option<Sorter>

    /** `onInit`: no items, sorted by confidence, descending. */
    constructor (trends: seq<Trend>)
      ensures itemCount == 0 && sortDescending && currentSortField == ConfidenceField
      ensures this.trends == trends && filter == [] && sorter == None
    {
      itemCount := 0;
      sortDescending := true;
      currentSortField := ConfidenceField;
      this.trends := trends;
      filter := [];
      sorter := None;
    }

    /** `_sortTable`: the new direction and field are stored, and the sorter uses exactly them. */
    method SortTable(field: string) returns (s: Sorter)
      modifies this
      ensures currentSortField == field
      ensures sortDescending == NextDescending(old(currentSortField), old(sortDescending), field)
      ensures s == Sorter(field, sortDescending) && sorter == Some(s)
      ensures itemCount == old(itemCount) && trends == old(trends) && filter == old(filter)
    {
      var current := currentSortField;
      var descending := sortDescending;
      if current == field {
        descending := !descending;
      } else {
        descending := field == ConfidenceField;
      }
      sortDescending := descending;
      currentSortField := field;
      s := Sorter(field, descending);
      sorter := Some(s);
    }

    /** `_applyFilters`: the clauses are pushed one by one and applied as one conjunction. */
    method ApplyFilters(search: string, focusKey: string, classKey: string)
      modifies this
      ensures filter == FilterClauses(search, focusKey, classKey)
      ensures itemCount == old(itemCount) && sortDescending == old(sortDescending)
      ensures currentSortField == old(currentSortField) && trends == old(trends) && sorter == old(sorter)
    {
      var clauses: seq<Clause> := [];
      if search != "" {
        clauses := clauses + [Search(search)];
      }
      if focusKey != "" && focusKey != AllKey {
        clauses := clauses + [FocusAreaIs(focusKey)];
      }
      if classKey != "" && classKey != AllKey {
        clauses := clauses + [ClassificationIs(classKey)];
      }
      filter := clauses;
    }

    /** `onSearch`: filters by the event's query, falling back to its new value. */
    method OnSearch(query: Option<string>, newValue: Option<string>, focusKey: string, classKey: string)
      modifies this
      ensures filter == FilterClauses(SearchQuery(query, newValue), focusKey, classKey)
      ensures itemCount == old(itemCount) && sortDescending == old(sortDescending)
      ensures currentSortField == old(currentSortField) && trends == old(trends) && sorter == old(sorter)
    {
      var q := if query.Some? && query.value != "" then query.value
        else if newValue.Some? && newValue.value != "" then newValue.value
        else "";
      ApplyFilters(q, focusKey, classKey);
    }

    /** `_findTrendIndex`: the first row with the given tool name, or -1 when there is none. */
    method FindTrendIndex(toolName: string) returns (index: int)
      ensures -1 <= index < |trends|
      ensures 0 <= index ==> trends[index].toolName == toolName
      ensures forall j :: 0 <= j < |trends| && (index == -1 || j < index) ==> trends[j].toolName != toolName
    {
      var i := 0;
      while i < |trends|
        invariant 0 <= i <= |trends|
        invariant forall j :: 0 <= j < i ==> trends[j].toolName != toolName
      {
        if trends[i].toolName == toolName {
          return i;
        }
        i := i + 1;
      }
      return -1;
    }
  }
}
