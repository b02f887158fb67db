/** The data the food-bank locator works on: facility rows loaded from the
    food-bank table, the requester's position, the outcome of measuring the
    distance to one row, and a nearby match (a row annotated with its
    distance). */
module Facilities {

  /** One cell of a loaded table row: the table mixes text columns (name,
      address, contact) and numeric columns (latitude, longitude, ...). */
  datatype Cell = Text(text: string) | Number(value: real)

  /** A facility row as a column-name -> cell dictionary; every column is
      carried through to the result unchanged. */
  datatype Row = Row(fields: map<string, Cell>)

  /** The requester's position in decimal degrees. */
  datatype Coordinate = Coordinate(latitude: real, longitude: real)

  /** What processing one row yields: a distance in kilometres, or a fault
      (a missing or bad coordinate column, or the distance computation
      raising); a faulting row is skipped. */
  datatype Measured = Km(km: real) | Fault

  /** A nearby food bank: the row it came from and its computed distance. */
  datatype Entry = Entry(row: Row, distance: real)

  /** The column under which the distance is stored in the result. */
  const DistanceColumn: string := "distance"

  /** The dictionary the list page receives for an entry: the row's own
      columns with the "distance" column set to the computed distance. */
  function AsDict(e: Entry): (d: map<string, Cell>)
    ensures d.Keys == e.row.fields.Keys + {DistanceColumn}
    ensures d[DistanceColumn] == Number(e.distance)
    ensures forall k :: k in e.row.fields && k != DistanceColumn ==> d[k] == e.row.fields[k]
  {
    e.row.fields[DistanceColumn := Number(e.distance)]
  }

  /** The list of dictionaries the list page receives. */
  function Dicts(es: seq<Entry>): (ds: seq<map<string, Cell>>)
    ensures |ds| == |es|
  {
    seq(|es|, j requires 0 <= j < |es| => AsDict(es[j]))
  }
}
