/** The filters management page: a fixed list of optimization filters, each
    switched on and off by its own toggle. */
module Filters {

  datatype FilterStatus = Active | Inactive

  datatype Filter = Filter(
    id: string, name: string, filterType: string, status: FilterStatus,
    reduction: string, savings: string, enabled: bool)

  function InitialFilters(): (filters: seq<Filter>)
    ensures |filters| == 3
  {
    [ Filter("1", "Remove Debug Logs", "Windows Event Logs", Active, "25% reduction", "$2,250/month", true),
      Filter("2", "Turn logs into a metric", "All Log Sources", Active, "80% reduction", "$42,675/month", true),
      Filter("3", "Smart Compression", "Linux Syslogs", Inactive, "65% reduction", "$48,705/month", false) ]
  }

  /** A filter's status and its switch agree. */
  predicate Consistent(f: Filter) {
    f.enabled <==> f.status == Active
  }

  predicate AllConsistent(filters: seq<Filter>) {
    forall i :: 0 <= i < |filters| ==> Consistent(filters[i])
  }

  /** One filter's switch flipped: the new status follows the old switch. */
  function Flip(f: Filter): (r: Filter)
    ensures r.enabled == !f.enabled
    ensures r.status == (if f.enabled then Inactive else Active)
    ensures r.(enabled := f.enabled, status := f.status) == f
  {
    f.(enabled := !f.enabled, status := if f.enabled then Inactive else Active)
  }

  /** `toggleFilter`: every filter with the id is flipped, every other filter
      stays as it is, in place. */
  function ToggleFilter(filters: seq<Filter>, id: string): (r: seq<Filter>)
    ensures |r| == |filters|
    ensures forall i :: 0 <= i < |filters| && filters[i].id == id ==> r[i] == Flip(filters[i])
    ensures forall i :: 0 <= i < |filters| && filters[i].id != id ==> r[i] == filters[i]
    ensures forall i :: 0 <= i < |filters| ==> r[i].id == filters[i].id
  {
    seq(|filters|, i requires 0 <= i < |filters| =>
      if filters[i].id == id then Flip(filters[i]) else filters[i])
  }

  /** A flipped filter always has the status that matches its new switch. */
  lemma FlipIsConsistent(f: Filter)
    ensures Consistent(Flip(f))
  {
  }

  /** Flipping twice restores a filter whose status agrees with its switch;
      of a disagreeing one it repairs the status instead. */
  lemma FlipTwice(f: Filter)
    ensures Consistent(f) ==> Flip(Flip(f)) == f
    ensures !Consistent(f) ==> Flip(Flip(f)) == f.(status := if f.enabled then Active else Inactive)
  {
  }

  lemma InitialConsistent()
    ensures AllConsistent(InitialFilters())
  {
  }

  /** The toggle keeps every filter's status in agreement with its switch. */
  lemma ToggleKeepsConsistent(filters: seq<Filter>, id: string)
    requires AllConsistent(filters)
    ensures AllConsistent(ToggleFilter(filters, id))
  {
    var r := ToggleFilter(filters, id);
    forall i | 0 <= i < |r| ensures Consistent(r[i]) {
      FlipIsConsistent(filters[i]);
    }
  }

  /** Toggling the same id twice restores a consistent list. */
  lemma ToggleTwice(filters: seq<Filter>, id: string)
    requires AllConsistent(filters)
    ensures ToggleFilter(ToggleFilter(filters, id), id) == filters
  {
    var r := ToggleFilter(ToggleFilter(filters, id), id);
    forall i | 0 <= i < |filters| ensures r[i] == filters[i] {
      FlipTwice(filters[i]);
    }
  }

  /** An id no filter has changes nothing. */
  lemma ToggleUnknownId(filters: seq<Filter>, id: string)
    requires forall i :: 0 <= i < |filters| ==> filters[i].id != id
    ensures ToggleFilter(filters, id) == filters
  {
  }

  /** In the initial list each id names one filter, so a toggle changes one
      row: the second filter's switch turns off and its status with it. */
  lemma ToggleSecondInitial()
    ensures var r := ToggleFilter(InitialFilters(), "2");
      r[0] == InitialFilters()[0] && r[2] == InitialFilters()[2] &&
      !r[1].enabled && r[1].status == Inactive
  {
  }

  class FiltersManagement {
    var filters: seq<Filter>

    constructor ()
      ensures filters == InitialFilters() && AllConsistent(filters)
    {
      filters := InitialFilters();
      new;
      InitialConsistent();
    }

    /** The filter's switch. */
    method ToggleFilterSwitch(id: string)
      modifies this
      ensures filters == ToggleFilter(old(filters), id)
      ensures old(AllConsistent(filters)) ==> AllConsistent(filters)
    {
      if AllConsistent(filters) {
        ToggleKeepsConsistent(filters, id);
      }
      filters := ToggleFilter(filters, id);
    }
  }
}
