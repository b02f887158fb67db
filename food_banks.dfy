/** The nearby-food-bank search behind `/redirect_to_food_banks`: every
    loaded row is measured against the requester's position, rows whose
    processing faults are skipped, rows within 50 km are annotated with their
    distance and collected in table order, and the collection is then sorted
    in place by distance. */
module FoodBanks {
  import opened Facilities
  import opened Ranking

  datatype Option<T> = None | Some(value: T)

  /** The inclusive search radius in kilometres. */
  const RadiusKm: real := 50.0

  const LocationMissing: string := "Location not provided. Please try again."

  /** What the handler renders: the error page with a message, the list
      page with the ranked food banks, or an unhandled exception (a
      coordinate that does not convert to a float, outside the per-row
      exception handler). */
  datatype Page = ErrorPage(message: string) | FoodBanksList(foodBanks: seq<map<string, Cell>>) | Unhandled

  /** Every dictionary has a numeric distance column of at most 50 km, and
      the dictionaries are in non-decreasing order of it. */
  predicate RankedDicts(ds: seq<map<string, Cell>>) {
    && (forall j :: 0 <= j < |ds| ==>
          DistanceColumn in ds[j] && ds[j][DistanceColumn].Number? && ds[j][DistanceColumn].value <= RadiusKm)
    && (forall i, j :: 0 <= i < j < |ds| ==> ds[i][DistanceColumn].value <= ds[j][DistanceColumn].value)
  }

  /** A measured row is kept when it has a distance of at most 50 km. */
  predicate Keeps(m: Measured) {
    m.Km? && m.km <= RadiusKm
  }

  /** The rows kept, in table order, annotated with their distance: the
      list as it stands before sorting. */
  function Filtered(user: Coordinate, rows: seq<Row>, geodesic: (Coordinate, Row) -> Measured): (found: seq<Entry>)
    ensures |found| <= |rows|
    ensures forall e :: e in found ==> e.row in rows && geodesic(user, e.row) == Km(e.distance)
  {
    if rows == [] then []
    else
      var last := rows[|rows| - 1];
      var m := geodesic(user, last);
      Filtered(user, rows[..|rows| - 1], geodesic) + (if Keeps(m) then [Entry(last, m.km)] else [])
  }

  /** The table positions of the kept rows, in increasing order. */
  function KeptIndices(user: Coordinate, rows: seq<Row>, geodesic: (Coordinate, Row) -> Measured): seq<nat> {
    if rows == [] then []
    else
      KeptIndices(user, rows[..|rows| - 1], geodesic) + (if Keeps(geodesic(user, rows[|rows| - 1])) then [|rows| - 1] else [])
  }

  /** The search result: the kept rows ranked by distance. */
  function Nearby(user: Coordinate, rows: seq<Row>, geodesic: (Coordinate, Row) -> Measured): seq<Entry> {
    Rank(Filtered(user, rows, geodesic))
  }

  // ---------------------------------------------------------------------
  // What is kept

  /** Exactly the rows that measure within the radius are kept, each once,
      in table order: the kept positions are strictly increasing and
      contain a position precisely when its row is within the radius. */
  lemma {:induction false} KeptIndicesExact(user: Coordinate, rows: seq<Row>, geodesic: (Coordinate, Row) -> Measured)
    ensures forall j :: 0 <= j < |KeptIndices(user, rows, geodesic)| ==> KeptIndices(user, rows, geodesic)[j] < |rows|
    ensures forall i, j :: 0 <= i < j < |KeptIndices(user, rows, geodesic)| ==>
              KeptIndices(user, rows, geodesic)[i] < KeptIndices(user, rows, geodesic)[j]
    ensures forall k :: 0 <= k < |rows| ==> (k in KeptIndices(user, rows, geodesic) <==> Keeps(geodesic(user, rows[k])))
  {
    if rows != [] {
      var rows' := rows[..|rows| - 1];
      KeptIndicesExact(user, rows', geodesic);
      forall k | 0 <= k < |rows'| ensures rows'[k] == rows[k] { }
    }
  }

  /** The list before sorting is the kept rows, position by position, each
      carrying its own columns unchanged and its own computed distance. */
  lemma {:induction false} FilteredIsKeptRows(user: Coordinate, rows: seq<Row>, geodesic: (Coordinate, Row) -> Measured)
    ensures |Filtered(user, rows, geodesic)| == |KeptIndices(user, rows, geodesic)|
    ensures forall j :: 0 <= j < |Filtered(user, rows, geodesic)| ==>
              var k := KeptIndices(user, rows, geodesic)[j];
              k < |rows| && Keeps(geodesic(user, rows[k])) &&
              Filtered(user, rows, geodesic)[j] == Entry(rows[k], geodesic(user, rows[k]).km)
  {
    if rows != [] {
      var rows' := rows[..|rows| - 1];
      FilteredIsKeptRows(user, rows', geodesic);
      KeptIndicesExact(user, rows', geodesic);
    }
  }

  /** Every entry of the list is within the radius. */
  lemma {:induction false} FilteredWithinRadius(user: Coordinate, rows: seq<Row>, geodesic: (Coordinate, Row) -> Measured)
    ensures forall e :: e in Filtered(user, rows, geodesic) ==> e.distance <= RadiusKm
  {
    if rows != [] {
      FilteredWithinRadius(user, rows[..|rows| - 1], geodesic);
    }
  }

  /** A row that faults, or one that lies beyond the radius, leaves the
      search exactly as it would be without that row: one bad row never
      aborts or otherwise disturbs the search over the rest. */
  lemma {:induction false} SkippedRowIsTransparent(user: Coordinate, before: seq<Row>, row: Row, after: seq<Row>, geodesic: (Coordinate, Row) -> Measured)
    requires !Keeps(geodesic(user, row))
    ensures Filtered(user, before + [row] + after, geodesic) == Filtered(user, before + after, geodesic)
  {
    FilteredAppend(user, before + [row], after, geodesic);
    FilteredAppend(user, before, after, geodesic);
    assert (before + [row])[..|before + [row]| - 1] == before;
  }

  lemma {:induction false} FilteredAppend(user: Coordinate, a: seq<Row>, b: seq<Row>, geodesic: (Coordinate, Row) -> Measured)
    ensures Filtered(user, a + b, geodesic) == Filtered(user, a, geodesic) + Filtered(user, b, geodesic)
    decreases |b|
  {
    if b == [] {
      assert a + b == a;
    } else {
      assert (a + b)[..|a + b| - 1] == a + b[..|b| - 1];
      FilteredAppend(user, a, b[..|b| - 1], geodesic);
    }
  }

  /** The boundary is inclusive: a row at exactly 50 km is in the result,
      wherever it stands in the table. */
  lemma {:induction false} BoundaryIncluded(user: Coordinate, rows: seq<Row>, k: nat, geodesic: (Coordinate, Row) -> Measured)
    requires k < |rows| && geodesic(user, rows[k]) == Km(RadiusKm)
    ensures Entry(rows[k], RadiusKm) in Nearby(user, rows, geodesic)
  {
    KeptIndicesExact(user, rows, geodesic);
    FilteredIsKeptRows(user, rows, geodesic);
    RankSortedPermutation(Filtered(user, rows, geodesic));
    var idx := KeptIndices(user, rows, geodesic);
    var j :| 0 <= j < |idx| && idx[j] == k;
    assert Filtered(user, rows, geodesic)[j] == Entry(rows[k], RadiusKm);
    assert Entry(rows[k], RadiusKm) in multiset(Filtered(user, rows, geodesic));
  }

  // ---------------------------------------------------------------------
  // The search and the handler

  /** The loop over the table followed by the in-place sort. */
  method FindNearby(user: Coordinate, rows: seq<Row>, geodesic: (Coordinate, Row) -> Measured)
    returns (nearby: seq<Entry>)
    ensures nearby == Nearby(user, rows, geodesic)
    ensures Sorted(nearby)
    ensures forall e :: e in nearby ==> e.distance <= RadiusKm
    ensures multiset(nearby) == multiset(Filtered(user, rows, geodesic))
    ensures forall d :: AtDistance(nearby, d) == AtDistance(Filtered(user, rows, geodesic), d)
  {
    var found: seq<Entry> := [];
    var i := 0;
    while i < |rows|
      invariant 0 <= i <= |rows|
      invariant found == Filtered(user, rows[..i], geodesic)
    {
      var row := rows[i];
      match geodesic(user, row) {
        case Fault =>
        case Km(distance) =>
          if distance <= RadiusKm {
            found := found + [Entry(row, distance)];
          }
      }
      assert rows[..i + 1][..i] == rows[..i];
      i := i + 1;
    }
    assert rows[..i] == rows;
    var a := new Entry[|found|](k requires 0 <= k < |found| => found[k]);
    assert a[..] == found;
    SortByDistance(a);
    nearby := a[..];
    RankSortedPermutation(found);
    FilteredWithinRadius(user, rows, geodesic);
    forall e | e in nearby ensures e.distance <= RadiusKm {
      assert e in multiset(found);
    }
    forall d ensures AtDistance(nearby, d) == AtDistance(found, d) {
      RankStable(found, d);
    }
  }

  /** The `/redirect_to_food_banks` handler on its two query arguments;
      `toFloat` stands for Python's float conversion of an argument. */
  method RedirectToFoodBanks(latitude: Option<string>, longitude: Option<string>,
                             toFloat: string -> Option<real>, rows: seq<Row>,
                             geodesic: (Coordinate, Row) -> Measured)
    returns (page: Page)
    ensures latitude.None? || longitude.None? ==> page == ErrorPage(LocationMissing)
    ensures latitude.Some? && longitude.Some? ==>
              match (toFloat(latitude.value), toFloat(longitude.value))
              case (Some(lat), Some(lon)) => page == FoodBanksList(Dicts(Nearby(Coordinate(lat, lon), rows, geodesic)))
              case _ => page == Unhandled
    ensures page.FoodBanksList? ==> RankedDicts(page.foodBanks)
  {
    if latitude.None? || longitude.None? {
      return ErrorPage(LocationMissing);
    }
    var lat := toFloat(latitude.value);
    var lon := toFloat(longitude.value);
    if lat.None? || lon.None? {
      return Unhandled;
    }
    var nearby := FindNearby(Coordinate(lat.value, lon.value), rows, geodesic);
    var dicts := Dicts(nearby);
    forall j | 0 <= j < |dicts| ensures dicts[j] == AsDict(nearby[j]) && nearby[j] in nearby { }
    page := FoodBanksList(dicts);
  }

  /** No row within the radius gives the list page an empty list. */
  lemma {:induction false} NoneWithinRadius(user: Coordinate, rows: seq<Row>, geodesic: (Coordinate, Row) -> Measured)
    requires forall k :: 0 <= k < |rows| ==> !Keeps(geodesic(user, rows[k]))
    ensures Nearby(user, rows, geodesic) == []
    ensures Dicts(Nearby(user, rows, geodesic)) == []
  {
    if rows != [] {
      var rows' := rows[..|rows| - 1];
      assert forall k :: 0 <= k < |rows'| ==> rows'[k] == rows[k];
      NoneWithinRadius(user, rows', geodesic);
      assert !Keeps(geodesic(user, rows[|rows| - 1]));
    }
  }
}
