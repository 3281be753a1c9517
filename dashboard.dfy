/**
 * The sightings overview page, app/page.tsx: the rows kept at load, the filter effect over the
 * state and apparition selections, the stats it recomputes, the option lists and the table.
 */
module Dashboard {
  import opened SightingTypes
  import opened Seqs
  import opened Strings
  import opened Statistics

  /** The value of the "All States" / "All Types" option, which switches a filter off. */
  const All: string := "all"

  /** Rows the table shows. */
  const TableLimit: nat := 50

  /** The load-time test: both coordinates truthy, so 0, null and '' are dropped. */
  predicate HasCoordinates(s: Sighting) {
    Truthy(s.latitude) && Truthy(s.longitude)
  }

  function StateIs(v: string): Sighting -> bool { (s: Sighting) => s.state == v }
  function TagIs(v: string): Sighting -> bool { (s: Sighting) => s.tag == v }

  /** The rows kept from the parsed CSV. */
  function Located(rows: seq<Sighting>): seq<Sighting> {
    Filter(rows, HasCoordinates)
  }

  /** What the filter effect leaves in `filteredSightings`. */
  function View(sightings: seq<Sighting>, selectedState: string, selectedType: string): seq<Sighting> {
    var byState := if selectedState != All then Filter(sightings, StateIs(selectedState)) else sightings;
    if selectedType != All then Filter(byState, TagIs(selectedType)) else byState
  }

  /** The record passes both selections, a selection of "all" passing everything. */
  predicate Matches(s: Sighting, selectedState: string, selectedType: string) {
    (selectedState == All || s.state == selectedState) && (selectedType == All || s.tag == selectedType)
  }

  /** Load keeps exactly the rows with both coordinates truthy, in their order. */
  lemma LocatedSpec(rows: seq<Sighting>)
    ensures IsSubsequence(Located(rows), rows)
    ensures forall s :: s in Located(rows) <==> s in rows && HasCoordinates(s)
    ensures forall s :: multiset(Located(rows))[s] == if HasCoordinates(s) then multiset(rows)[s] else 0
  {
    FilterIsSubsequence(rows, HasCoordinates);
    forall s ensures s in Located(rows) <==> s in rows && HasCoordinates(s) {
      FilterMembership(rows, HasCoordinates, s);
    }
    forall s ensures multiset(Located(rows))[s] == if HasCoordinates(s) then multiset(rows)[s] else 0 {
      FilterCounts(rows, HasCoordinates, s);
    }
  }

  /** With both selections "all" the view is the whole store. */
  lemma ViewAll(sightings: seq<Sighting>)
    ensures View(sightings, All, All) == sightings
  {
  }

  /**
   * The view keeps every occurrence of every matching record and nothing else, in the store's
   * order.
   */
  lemma ViewSpec(sightings: seq<Sighting>, selectedState: string, selectedType: string)
    ensures IsSubsequence(View(sightings, selectedState, selectedType), sightings)
    ensures forall s :: (multiset(View(sightings, selectedState, selectedType))[s] ==
      if Matches(s, selectedState, selectedType) then multiset(sightings)[s] else 0)
  {
    var byState := if selectedState != All then Filter(sightings, StateIs(selectedState)) else sightings;
    var view := View(sightings, selectedState, selectedType);
    if selectedState != All {
      FilterIsSubsequence(sightings, StateIs(selectedState));
    } else {
      SubsequenceReflexive(sightings);
    }
    if selectedType != All {
      FilterIsSubsequence(byState, TagIs(selectedType));
      SubsequenceTransitive(view, byState, sightings);
    }
    forall s ensures multiset(view)[s] == if Matches(s, selectedState, selectedType) then multiset(sightings)[s] else 0 {
      if selectedState != All {
        FilterCounts(sightings, StateIs(selectedState), s);
      }
      if selectedType != All {
        FilterCounts(byState, TagIs(selectedType), s);
      }
    }
  }

  lemma {:induction false} SubsequenceTransitive(a: seq<Sighting>, b: seq<Sighting>, c: seq<Sighting>)
    requires IsSubsequence(a, b) && IsSubsequence(b, c)
    ensures IsSubsequence(a, c)
    decreases |c|
  {
    if a != [] && c != [] {
      if b[0] == c[0] && IsSubsequence(b[1..], c[1..]) {
        if a[0] == b[0] && IsSubsequence(a[1..], b[1..]) {
          SubsequenceTransitive(a[1..], b[1..], c[1..]);
        } else {
          SubsequenceTransitive(a, b[1..], c[1..]);
          SkipHead(a, c);
        }
      } else {
        SubsequenceTransitive(a, b, c[1..]);
        SkipHead(a, c);
      }
    }
  }

  /** `uniqueStates`: the distinct states of the whole store, ascending. */
  function StateOptions(sightings: seq<Sighting>): (r: seq<string>)
    ensures StrictlySorted(r)
    ensures forall v :: v in r <==> exists i :: 0 <= i < |sightings| && sightings[i].state == v
  {
    var states := seq(|sightings|, i requires 0 <= i < |sightings| => sightings[i].state);
    forall v ensures v in states <==> exists i :: 0 <= i < |sightings| && sightings[i].state == v {
      if v in states {
        var i :| 0 <= i < |states| && states[i] == v;
        assert sightings[i].state == v;
      }
      if exists i :: 0 <= i < |sightings| && sightings[i].state == v {
        var i :| 0 <= i < |sightings| && sightings[i].state == v;
        assert states[i] == v;
      }
    }
    SortedUnique(states)
  }

  /** `uniqueTypes`: the distinct apparition tags of the whole store, ascending. */
  function TypeOptions(sightings: seq<Sighting>): (r: seq<string>)
    ensures StrictlySorted(r)
    ensures forall v :: v in r <==> exists i :: 0 <= i < |sightings| && sightings[i].tag == v
  {
    var tags := seq(|sightings|, i requires 0 <= i < |sightings| => sightings[i].tag);
    forall v ensures v in tags <==> exists i :: 0 <= i < |sightings| && sightings[i].tag == v {
      if v in tags {
        var i :| 0 <= i < |tags| && tags[i] == v;
        assert sightings[i].tag == v;
      }
      if exists i :: 0 <= i < |sightings| && sightings[i].tag == v {
        var i :| 0 <= i < |sightings| && sightings[i].tag == v;
        assert tags[i] == v;
      }
    }
    SortedUnique(tags)
  }

  /** `filteredSightings.slice(0, 50)`. */
  function TableRows(view: seq<Sighting>): seq<Sighting> {
    Prefix(view, TableLimit)
  }

  /** The "Showing 50 of n sightings" line: the n it reports, when it is shown. */
  function TableNotice(view: seq<Sighting>): Option<nat> {
    if |view| > TableLimit then Some(|view|) else None
  }

  /**
   * The table shows the first min(50, n) records of the view in order, and the notice appears
   * exactly when rows were left out, reporting the view's length.
   */
  lemma TableSpec(view: seq<Sighting>)
    ensures |TableRows(view)| == Min(TableLimit, |view|)
    ensures forall i :: 0 <= i < |TableRows(view)| ==> TableRows(view)[i] == view[i]
    ensures TableNotice(view).Some? <==> |TableRows(view)| < |view|
    ensures TableNotice(view).Some? ==> TableNotice(view).value == |view|
  {
  }

  /** The page component's state. */
  class Home {
    var sightings: seq<Sighting>
    var filteredSightings: seq<Sighting>
    var stats: Option<Stats>
    var loading: bool
    var selectedState: string
    var selectedType: string

    /** The initial `useState` values: nothing loaded, no stats, both selections "all". */
    constructor ()
      ensures sightings == [] && filteredSightings == [] && stats == None
      ensures loading && selectedState == All && selectedType == All
    {
      sightings := [];
      filteredSightings := [];
      stats := None;
      loading := true;
      selectedState := All;
      selectedType := All;
    }

    /**
     * The parse `complete` callback with the parsed rows: keep the located rows, show them all,
     * and compute their stats. Setting `sightings` then re-runs the filter effect.
     */
    method LoadComplete(rows: seq<Sighting>, now: int)
      modifies this
      ensures sightings == Located(rows) && !loading
      ensures selectedState == old(selectedState) && selectedType == old(selectedType)
      ensures filteredSightings == View(sightings, selectedState, selectedType)
      ensures stats == StatsOf(filteredSightings, now)
    {
      var data := Filter(rows, HasCoordinates);
      sightings := data;
      filteredSightings := data;
      stats := CalculateStats(data, now);
      loading := false;
      FilterEffect(now);
    }

    /** The effect on [selectedState, selectedType, sightings]. */
    method FilterEffect(now: int)
      modifies this
      ensures filteredSightings == View(sightings, selectedState, selectedType)
      ensures stats == StatsOf(filteredSightings, now)
      ensures sightings == old(sightings) && loading == old(loading)
      ensures selectedState == old(selectedState) && selectedType == old(selectedType)
    {
      var filtered := sightings;
      if selectedState != All {
        filtered := Filter(filtered, StateIs(selectedState));
      }
      if selectedType != All {
        filtered := Filter(filtered, TagIs(selectedType));
      }
      filteredSightings := filtered;
      stats := CalculateStats(filtered, now);
    }

    /** The state select's onChange, followed by the effect it triggers. */
    method SelectState(value: string, now: int)
      modifies this
      ensures selectedState == value && selectedType == old(selectedType)
      ensures sightings == old(sightings) && loading == old(loading)
      ensures filteredSightings == View(sightings, value, selectedType)
      ensures stats == StatsOf(filteredSightings, now)
    {
      selectedState := value;
      FilterEffect(now);
    }

    /** The type select's onChange, followed by the effect it triggers. */
    method SelectType(value: string, now: int)
      modifies this
      ensures selectedType == value && selectedState == old(selectedState)
      ensures sightings == old(sightings) && loading == old(loading)
      ensures filteredSightings == View(sightings, selectedState, value)
      ensures stats == StatsOf(filteredSightings, now)
    {
      selectedType := value;
      FilterEffect(now);
    }

    /** The options under "All States": from the whole store, whatever is selected. */
    function UniqueStates(): (r: seq<string>)
      reads this
      ensures StrictlySorted(r)
      ensures forall v :: v in r <==> exists i :: 0 <= i < |sightings| && sightings[i].state == v
    {
      StateOptions(sightings)
    }

    /** The options under "All Types": from the whole store, whatever is selected. */
    function UniqueTypes(): (r: seq<string>)
      reads this
      ensures StrictlySorted(r)
      ensures forall v :: v in r <==> exists i :: 0 <= i < |sightings| && sightings[i].tag == v
    {
      TypeOptions(sightings)
    }
  }
}
