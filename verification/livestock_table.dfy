/** The livestock table: one row per animal, with the name of its pen. */
module LivestockTable {
  import opened Collections
  import opened Types

  /** The pen cell: "N/A" without a pen reference (absent or empty), the
      name of the first pen with that id, or "Unknown Pen" when none has it. */
  function GetPenName(pens: seq<Pen>, penId: Option<string>): (name: string)
    ensures penId.None? || penId == Some("") ==> name == "N/A"
    ensures penId.Some? && penId.value != "" && (forall i :: 0 <= i < |pens| ==> pens[i].id != penId.value)
            ==> name == "Unknown Pen"
    ensures forall i :: penId.Some? && penId.value != "" && 0 <= i < |pens| && pens[i].id == penId.value
                        && (forall j :: 0 <= j < i ==> pens[j].id != penId.value)
                        ==> name == pens[i].name
  {
    if penId.None? || penId.value == "" then "N/A"
    else
      match Find(pens, (p: Pen) => p.id == penId.value)
      case None => "Unknown Pen"
      case Some(p) => p.name
  }

  /** A table row: an animal's cells, or the placeholder shown for an empty list. */
  datatype Row =
    | AnimalRow(key: string, animalId: string, livestockType: Option<LivestockType>,
                breed: string, birthDate: Option<Timestamp>, pen: string)
    | MessageRow(message: string)

  function RowFor(a: Livestock, pens: seq<Pen>): Row {
    AnimalRow(a.id, a.animalId, a.livestockType, a.breed, a.birthDate, GetPenName(pens, a.penId))
  }

  /** The rows of a non-empty list, one per animal, in list order. */
  function AnimalRows(xs: seq<Livestock>, pens: seq<Pen>): (rows: seq<Row>)
    ensures |rows| == |xs|
    ensures forall i :: 0 <= i < |xs| ==> rows[i] == RowFor(xs[i], pens)
  {
    if xs == [] then [] else [RowFor(xs[0], pens)] + AnimalRows(xs[1..], pens)
  }

  /** The table body: one row per animal in input order, or the single
      "No livestock found." row for an empty list. */
  function Rows(xs: seq<Livestock>, pens: seq<Pen>): (rows: seq<Row>)
    ensures xs == [] ==> rows == [MessageRow("No livestock found.")]
    ensures xs != [] ==> |rows| == |xs| && forall i :: 0 <= i < |xs| ==> rows[i].AnimalRow? && rows[i].key == xs[i].id
    ensures xs != [] ==> forall i :: 0 <= i < |xs| ==> rows[i].pen == GetPenName(pens, xs[i].penId)
    ensures xs != [] ==> rows == AnimalRows(xs, pens)
  {
    if xs == [] then [MessageRow("No livestock found.")] else AnimalRows(xs, pens)
  }
}
