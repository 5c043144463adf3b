/**
 * The location search box and floor buttons of the overlay page (js/app.js).
 * Typing filters the loaded locations by a case-insensitive substring match
 * on their Thai or English name and lists the matches, or a single
 * "not found" row; a floor button marks exactly the buttons of its floor.
 *
 * `String.prototype.toLowerCase` is a parameter `lower`, since case mapping
 * is outside this model. The results list is modelled as its `display` style
 * and its sequence of rows, and each floor button as its number and whether
 * it has the `active` class.
 */
module SearchPanel {
  import opened Wrappers

  /** A location record as fetched; either name may be missing. */
  datatype Location = Location(nameTh: Option<string>, nameEn: Option<string>)

  /** A row of the results list: a selectable location, or the "not found" notice. */
  datatype Row = ResultRow(loc: Location) | NotFoundRow

  /** `q` occurs in `s` starting at index `i`. */
  predicate OccursAt(s: string, q: string, i: int)
    ensures OccursAt(s, q, i) <==>
      0 <= i && i + |q| <= |s| && forall k :: 0 <= k < |q| ==> s[i + k] == q[k]
  {
    0 <= i <= |s| - |q| && s[i..i + |q|] == q
  }

  /** `s.includes(q)`: `q` occurs somewhere in `s` as a contiguous substring. */
  predicate Contains(s: string, q: string)
    ensures Contains(s, q) ==> |q| <= |s|
    ensures q == [] || q == s ==> Contains(s, q)
  {
    assert q == [] || q == s ==> OccursAt(s, q, 0);
    exists i | 0 <= i <= |s| :: OccursAt(s, q, i)
  }

  /** The empty query occurs in every string, and nothing else occurs in the empty string. */
  lemma ContainsEmpty(s: string, q: string)
    ensures Contains(s, [])
    ensures Contains([], q) <==> q == []
  {
    assert OccursAt(s, [], 0);
    if q == [] {
      assert OccursAt([], q, 0);
    }
  }

  /** Every string contains itself and each of its own slices. */
  lemma ContainsSlice(s: string, i: int, j: int)
    requires 0 <= i <= j <= |s|
    ensures Contains(s, s[i..j])
  {
    assert OccursAt(s, s[i..j], i);
  }

  /**
   * `loc.name ? loc.name.toLowerCase() : ""`: a missing or empty name
   * searches as the empty string, any other name in lower case.
   */
  function SearchName(name: Option<string>, lower: string -> string): (r: string)
    ensures name.None? || name.value == [] ==> r == []
    ensures name.Some? && name.value != [] ==> r == lower(name.value)
  {
    if name.Some? && name.value != [] then lower(name.value) else []
  }

  /** The filter predicate: the lower-cased query occurs in the Thai or the English name. */
  predicate Matches(loc: Location, query: string, lower: string -> string)
    ensures query == [] ==> Matches(loc, query, lower)
    ensures Matches(loc, query, lower) ==>
      |query| <= |SearchName(loc.nameTh, lower)| || |query| <= |SearchName(loc.nameEn, lower)|
  {
    Contains(SearchName(loc.nameTh, lower), query) || Contains(SearchName(loc.nameEn, lower), query)
  }

  /**
   * A location with no Thai name matches a nonempty query exactly through its
   * English name, and the other way round.
   */
  lemma MissingNameMatchesThroughOther(loc: Location, query: string, lower: string -> string)
    requires query != []
    ensures loc.nameTh.None? ==> (Matches(loc, query, lower) <==> Contains(SearchName(loc.nameEn, lower), query))
    ensures loc.nameEn.None? ==> (Matches(loc, query, lower) <==> Contains(SearchName(loc.nameTh, lower), query))
  {
    ContainsEmpty([], query);
  }

  /**
   * `allLocations.filter(...)`: the locations that match, in their original
   * order. Every kept location matches and comes from the input.
   */
  function Filter(locs: seq<Location>, query: string, lower: string -> string): (r: seq<Location>)
    ensures |r| <= |locs|
    ensures forall i :: 0 <= i < |r| ==> r[i] in locs && Matches(r[i], query, lower)
    decreases |locs|
  {
    if locs == [] then []
    else
      var rest := Filter(locs[1..], query, lower);
      assert forall i :: 0 <= i < |rest| ==> rest[i] in locs by {
        forall i | 0 <= i < |rest|
          ensures rest[i] in locs
        {
          assert rest[i] in locs[1..];
        }
      }
      if Matches(locs[0], query, lower) then [locs[0]] + rest else rest
  }

  /** No matching location is dropped. */
  lemma {:induction false} FilterComplete(locs: seq<Location>, query: string, lower: string -> string, loc: Location)
    requires loc in locs && Matches(loc, query, lower)
    ensures loc in Filter(locs, query, lower)
    decreases |locs|
  {
    if locs[0] != loc {
      assert loc in locs[1..];
      FilterComplete(locs[1..], query, lower, loc);
    }
  }

  /** Filtering a concatenation filters each part in turn, which is the order the results keep. */
  lemma {:induction false} FilterAppend(a: seq<Location>, b: seq<Location>, query: string, lower: string -> string)
    ensures Filter(a + b, query, lower) == Filter(a, query, lower) + Filter(b, query, lower)
    decreases |a|
  {
    if a == [] {
      assert a + b == b;
    } else {
      assert (a + b)[1..] == a[1..] + b;
      FilterAppend(a[1..], b, query, lower);
    }
  }

  /** Typing a location's whole name, in any case `lower` folds away, finds it. */
  lemma WholeNameFound(locs: seq<Location>, lower: string -> string, loc: Location, value: string)
    requires loc in locs
    requires lower(value) == SearchName(loc.nameTh, lower) || lower(value) == SearchName(loc.nameEn, lower)
    ensures loc in Filter(locs, lower(value), lower)
  {
    var th, en := SearchName(loc.nameTh, lower), SearchName(loc.nameEn, lower);
    if lower(value) == th {
      ContainsSlice(th, 0, |th|);
      assert th[0..|th|] == th;
    } else {
      ContainsSlice(en, 0, |en|);
      assert en[0..|en|] == en;
    }
    FilterComplete(locs, lower(value), lower, loc);
  }

  /** The result rows for `items`: one selectable row per item, in order. */
  function RowsOf(items: seq<Location>): (rows: seq<Row>)
    ensures |rows| == |items|
    ensures forall i :: 0 <= i < |rows| ==> rows[i] == ResultRow(items[i])
    decreases |items|
  {
    if items == [] then [] else RowsOf(items[..|items| - 1]) + [ResultRow(items[|items| - 1])]
  }

  /** The search page: its loaded locations, the floor chosen, the results list and the floor buttons. */
  class Page {
    var allLocations: seq<Location>
    var currentFloor: Option<int>
    /** `resultsList.style.display`. */
    var display: string
    /** The children of `resultsList`. */
    var rows: seq<Row>
    /** `Number(btn.textContent)` of each `.floor-btn`, in document order. */
    const buttonFloors: seq<int>
    /** Whether each `.floor-btn` has the `active` class. */
    const active: array<bool>

    /** Before `initApp` finishes: no locations, no floor, an empty results list. */
    constructor (buttonFloors: seq<int>, display: string)
      ensures allLocations == [] && currentFloor == None
      ensures this.display == display && rows == []
      ensures this.buttonFloors == buttonFloors
      ensures active.Length == |buttonFloors| && fresh(active)
      ensures forall i :: 0 <= i < active.Length ==> !active[i]
    {
      allLocations := [];
      currentFloor := None;
      this.display := display;
      rows := [];
      this.buttonFloors := buttonFloors;
      active := new bool[|buttonFloors|](_ => false);
    }

    /** `initApp`: the fetched locations become the ones searched. */
    method Load(locations: seq<Location>)
      modifies this
      ensures allLocations == locations
      ensures currentFloor == old(currentFloor) && display == old(display) && rows == old(rows)
    {
      allLocations := locations;
    }

    /**
     * `renderResults(items)`: shows the list; with items it appends one row per
     * item, in order, and otherwise replaces the list by a single "not found" row.
     */
    method RenderResults(items: seq<Location>)
      modifies this
      ensures display == "block"
      ensures items != [] ==> rows == old(rows) + RowsOf(items)
      ensures items == [] ==> rows == [NotFoundRow]
      ensures allLocations == old(allLocations) && currentFloor == old(currentFloor)
    {
      if |items| > 0 {
        display := "block";
        for i := 0 to |items|
          invariant rows == old(rows) + RowsOf(items[..i])
          invariant display == "block"
          invariant allLocations == old(allLocations) && currentFloor == old(currentFloor)
        {
          assert items[..i + 1][..i] == items[..i];
          rows := rows + [ResultRow(items[i])];
        }
        assert items[..|items|] == items;
      } else {
        display := "block";
        rows := [NotFoundRow];
      }
    }

    /**
     * The search box's `keyup` handler with the box holding `value`. The list
     * is cleared; an empty lower-cased query hides it, any other lists the
     * matching locations in order, or a single "not found" row when none match.
     */
    method OnKeyup(value: string, lower: string -> string)
      modifies this
      ensures lower(value) == [] ==> display == "none" && rows == []
      ensures lower(value) != [] ==>
                display == "block"
                && var found := Filter(allLocations, lower(value), lower);
                   rows == (if found == [] then [NotFoundRow] else RowsOf(found))
      ensures allLocations == old(allLocations) && currentFloor == old(currentFloor)
    {
      var query := lower(value);
      rows := [];
      if |query| == 0 {
        display := "none";
        return;
      }
      var filtered := Filter(allLocations, query, lower);
      RenderResults(filtered);
    }

    /**
     * `setFloor(floor)`: the floor becomes the chosen one, and a button is
     * marked active exactly when its number is that floor.
     */
    method SetFloor(floor: int)
      requires active.Length == |buttonFloors|
      modifies this, active
      ensures currentFloor == Some(floor)
      ensures forall i :: 0 <= i < active.Length ==> (active[i] <==> buttonFloors[i] == floor)
      ensures allLocations == old(allLocations) && display == old(display) && rows == old(rows)
    {
      currentFloor := Some(floor);
      for i := 0 to active.Length
        invariant forall j :: 0 <= j < i ==> (active[j] <==> buttonFloors[j] == floor)
        invariant currentFloor == Some(floor)
        invariant allLocations == old(allLocations) && display == old(display) && rows == old(rows)
      {
        active[i] := buttonFloors[i] == floor;
      }
    }
  }

  /**
   * Every row the search shows is the "not found" notice or a location
   * whose name matches, and every matching location gets a row.
   */
  lemma SearchRowsSoundAndComplete(locs: seq<Location>, query: string, lower: string -> string, loc: Location)
    ensures var found := Filter(locs, query, lower);
      && (forall i :: 0 <= i < |RowsOf(found)| ==> RowsOf(found)[i].loc in locs && Matches(RowsOf(found)[i].loc, query, lower))
      && (loc in locs && Matches(loc, query, lower) ==> ResultRow(loc) in RowsOf(found))
  {
    var found := Filter(locs, query, lower);
    if loc in locs && Matches(loc, query, lower) {
      FilterComplete(locs, query, lower, loc);
      var k :| 0 <= k < |found| && found[k] == loc;
      assert RowsOf(found)[k] == ResultRow(loc);
    }
  }
}
