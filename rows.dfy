/** The row builder: one summary item and its detail record become one row of the result
    table. The try block assigns the row's fields one after another; the first lookup
    that raises ends the block, and the handler then overwrites `id` with the sentinel
    'Data error' without clearing what was assigned before. */
module Rows {
  import opened Options
  import opened PyJson

  /** The twelve columns of the result table. */
  datatype Column =
    | Id | Number | Title | Notation | Manufacturer | Part
    | FactoryNum | ValidFor | Procedure | Interval | Period | Status

  /** The column order of the table and of the spreadsheet; the try block assigns the
      fields in this same order. */
  const Columns: seq<Column> :=
    [Id, Number, Title, Notation, Manufacturer, Part, FactoryNum, ValidFor, Procedure, Interval, Period, Status]

  /** The header text of each column. */
  function Name(c: Column): string
  {
    match c
    case Id => "id"
    case Number => "number"
    case Title => "title"
    case Notation => "notation"
    case Manufacturer => "manufacturer"
    case Part => "part"
    case FactoryNum => "factory_num"
    case ValidFor => "valid_for"
    case Procedure => "procedure"
    case Interval => "interval"
    case Period => "period"
    case Status => "status"
  }

  /** The header list of the result table, in the order the spreadsheet writes it. */
  const Header: seq<string> :=
    ["id", "number", "title", "notation", "manufacturer", "part", "factory_num", "valid_for", "procedure", "interval", "period", "status"]

  /** The columns, in order, carry the names of the header list, and no two columns share
      a name: each dict key of a row lands in exactly one column of the table. */
  lemma ColumnNames()
    ensures |Columns| == |Header|
    ensures forall k :: 0 <= k < |Columns| ==> Name(Columns[k]) == Header[k]
    ensures forall c, d :: Name(c) == Name(d) ==> c == d
  {
  }

  /** The id a row gets when a lookup in the try block raises. */
  const DataError := "Data error"

  /** A row: the fields assigned so far (a dict in the source). */
  type Row = map<Column, Json>

  /** What one statement of the try block does: assign a value, assign nothing (the
      `notation` statement when the value is None), or raise. */
  datatype Assignment = Assign(value: Json) | Skip | Raise

  function FromLookup(r: Option<Json>): Assignment
  {
    match r
    case Some(v) => Assign(v)
    case None => Raise
  }

  /** `detail[group].get(key)`. */
  function GroupField(detail: Json, group: string, key: string): Option<Json>
  {
    match Subscript(detail, group)
    case None => None
    case Some(g) => Get(g, key)
  }

  /** Where the try block reads a column: a key of the summary item, a key of the detail
      record, or a key of one of the detail record's groups. */
  datatype Origin = ItemKey(key: string) | DetailKey(key: string) | GroupKey(group: string, key: string)

  /** `id` and `manufacturer` read the summary item (the latter under the API's own
      spelling `manufactorer`), `status` the detail record, the rest its `general` and
      `mit` groups. */
  function OriginOf(c: Column): Origin
  {
    match c
    case Id => ItemKey("mit_id")
    case Number => GroupKey("general", "number")
    case Title => GroupKey("general", "title")
    case Notation => GroupKey("general", "notation")
    case Manufacturer => ItemKey("manufactorer")
    case Part => GroupKey("mit", "part")
    case FactoryNum => GroupKey("mit", "factory_num")
    case ValidFor => GroupKey("mit", "valid_for")
    case Procedure => GroupKey("mit", "procedure")
    case Interval => GroupKey("mit", "interval")
    case Period => GroupKey("mit", "period")
    case Status => DetailKey("status")
  }

  /** The lookup the try block performs for column `c`: `item[key]`, `detail[key]` or
      `detail[group].get(key)`. */
  function Source(c: Column, item: Json, detail: Json): Option<Json>
  {
    match OriginOf(c)
    case ItemKey(key) => Subscript(item, key)
    case DetailKey(key) => Subscript(detail, key)
    case GroupKey(group, key) => GroupField(detail, group, key)
  }

  /** The statement of the try block that assigns column `c`: a plain assignment of the
      lookup, except for `notation`, which is assigned the `;`-join of the lookup and only
      when the lookup is not None. */
  function Extract(c: Column, item: Json, detail: Json): Assignment
  {
    if c != Notation then FromLookup(Source(c, item, detail))
    else
      match Source(c, item, detail)
      case None => Raise
      case Some(Null) => Skip
      case Some(v) =>
        match JoinValue(";", v)
        case None => Raise
        case Some(s) => Assign(Str(s))
  }

  /** The try block's statements for one item and its detail record, by column. */
  function Statement(item: Json, detail: Json): Column -> Assignment
  {
    c => Extract(c, item, detail)
  }

  /** Runs the statements `stmt(c)` for the columns `cols` in order on `row` and stops at
      the first that raises; the flag tells whether the block ran to its end. */
  function Fill(stmt: Column -> Assignment, cols: seq<Column>, row: Row): (Row, bool)
    decreases |cols|
  {
    if cols == [] then (row, true)
    else
      match stmt(cols[0])
      case Raise => (row, false)
      case Skip => Fill(stmt, cols[1..], row)
      case Assign(v) => Fill(stmt, cols[1..], row[cols[0] := v])
  }

  /** The row the script appends for `item` and its detail record. */
  function BuildRow(item: Json, detail: Json): Row
  {
    var (row, completed) := Fill(Statement(item, detail), Columns, map[]);
    if completed then row else row[Id := Str(DataError)]
  }

  /** The position of the first statement among `cols` that raises, or |cols| if none does. */
  function FirstRaise(stmt: Column -> Assignment, cols: seq<Column>): (p: nat)
    ensures p <= |cols|
    ensures forall k :: 0 <= k < p ==> !stmt(cols[k]).Raise?
    ensures p < |cols| ==> stmt(cols[p]).Raise?
  {
    if cols == [] || stmt(cols[0]).Raise? then 0
    else 1 + FirstRaise(stmt, cols[1..])
  }

  /** No statement of the try block raises for this item and detail record. */
  predicate Extracts(item: Json, detail: Json)
  {
    forall c :: !Extract(c, item, detail).Raise?
  }

  /** Fill keeps the statements before the first that raises, and nothing after it: a
      column gains a value exactly when one of those statements assigns it. */
  lemma {:induction false} FillEffect(stmt: Column -> Assignment, cols: seq<Column>, row: Row)
    ensures var p := FirstRaise(stmt, cols);
      var (r, completed) := Fill(stmt, cols, row);
      && (completed <==> p == |cols|)
      && (forall c :: c in r <==> c in row || (c in cols[..p] && stmt(c).Assign?))
      && (forall c :: c in r ==> r[c] == if c in cols[..p] && stmt(c).Assign? then stmt(c).value else row[c])
    decreases |cols|
  {
    if cols != [] {
      var p := FirstRaise(stmt, cols);
      var a := stmt(cols[0]);
      if !a.Raise? {
        var next := if a.Assign? then row[cols[0] := a.value] else row;
        FillEffect(stmt, cols[1..], next);
        assert cols[..p] == [cols[0]] + cols[1..][..p - 1];
      }
    }
  }

  lemma EveryColumnListed(c: Column)
    ensures c in Columns
  {
    match c
    case Id => assert Columns[0] == c;
    case Number => assert Columns[1] == c;
    case Title => assert Columns[2] == c;
    case Notation => assert Columns[3] == c;
    case Manufacturer => assert Columns[4] == c;
    case Part => assert Columns[5] == c;
    case FactoryNum => assert Columns[6] == c;
    case ValidFor => assert Columns[7] == c;
    case Procedure => assert Columns[8] == c;
    case Interval => assert Columns[9] == c;
    case Period => assert Columns[10] == c;
    case Status => assert Columns[11] == c;
  }

  /** When no statement raises, the block runs to its end and every column it assigns
      holds the value assigned. */
  lemma FillWithoutRaise(stmt: Column -> Assignment, row: Row)
    requires forall c :: !stmt(c).Raise?
    ensures Fill(stmt, Columns, row).1
    ensures forall c :: c in Fill(stmt, Columns, row).0 <==> c in row || stmt(c).Assign?
    ensures forall c :: c in Fill(stmt, Columns, row).0 ==>
      Fill(stmt, Columns, row).0[c] == if stmt(c).Assign? then stmt(c).value else row[c]
  {
    FillEffect(stmt, Columns, row);
    assert Columns[..|Columns|] == Columns;
    forall c ensures c in Columns {
      EveryColumnListed(c);
    }
  }

  /** When no statement raises, a column is in the row exactly when its statement assigns
      it, and holds the value assigned. */
  lemma BuildRowAssignsAll(item: Json, detail: Json)
    requires Extracts(item, detail)
    ensures var r := BuildRow(item, detail);
      && (forall c :: c in r <==> Extract(c, item, detail).Assign?)
      && (forall c :: c in r ==> r[c] == Extract(c, item, detail).value)
  {
    FillWithoutRaise(Statement(item, detail), map[]);
  }

  /** When no lookup raises, every column but `notation` holds its lookup: the item's
      `mit_id` and `manufactorer`, `number` and `title` from `general`, the six fields of
      `mit` and the top-level `status`. */
  lemma BuildRowComplete(item: Json, detail: Json)
    requires Extracts(item, detail)
    ensures forall c :: c != Notation ==> c in BuildRow(item, detail) && Some(BuildRow(item, detail)[c]) == Source(c, item, detail)
  {
    BuildRowAssignsAll(item, detail);
    forall c | c != Notation
      ensures c in BuildRow(item, detail) && Some(BuildRow(item, detail)[c]) == Source(c, item, detail)
    {
      assert !Extract(c, item, detail).Raise?;
    }
  }

  /** When no lookup raises, `notation` is present exactly when `general.notation` is not
      None, and then holds the `;`-join of its strings. */
  lemma BuildRowNotation(item: Json, detail: Json)
    requires Extracts(item, detail)
    ensures Source(Notation, item, detail).Some?
    ensures Notation in BuildRow(item, detail) <==> Source(Notation, item, detail).value != Null
    ensures Notation in BuildRow(item, detail) ==>
      BuildRow(item, detail)[Notation].Str? &&
      Some(BuildRow(item, detail)[Notation].s) == JoinValue(";", Source(Notation, item, detail).value)
  {
    BuildRowAssignsAll(item, detail);
    assert !Extract(Notation, item, detail).Raise?;
  }

  /** A notation list of one or more strings, none holding `;`, can be read back from the
      row by splitting at `;`. */
  lemma NotationRoundTrip(item: Json, detail: Json, xs: seq<Json>, parts: seq<string>)
    requires Extracts(item, detail)
    requires Source(Notation, item, detail) == Some(Arr(xs)) && Texts(xs) == Some(parts)
    requires |parts| >= 1 && forall k :: 0 <= k < |parts| ==> ';' !in parts[k]
    ensures Notation in BuildRow(item, detail) && BuildRow(item, detail)[Notation].Str?
    ensures Split(BuildRow(item, detail)[Notation].s, ';') == parts
  {
    BuildRowNotation(item, detail);
    SplitJoin(parts, ';');
  }

  /** When the statement for `Columns[k]` is the first that raises, the block stops there
      and keeps exactly what the statements before it assigned. */
  lemma FillStopsAt(stmt: Column -> Assignment, k: nat)
    requires k < |Columns| && FirstRaise(stmt, Columns) == k
    ensures !Fill(stmt, Columns, map[]).1
    ensures forall c :: c in Fill(stmt, Columns, map[]).0 <==> c in Columns[..k] && stmt(c).Assign?
    ensures forall c :: c in Fill(stmt, Columns, map[]).0 ==> Fill(stmt, Columns, map[]).0[c] == stmt(c).value
  {
    FillEffect(stmt, Columns, map[]);
  }

  /** When the statement for `Columns[k]` is the first that raises, the row's id is
      'Data error', every other field assigned before it keeps its value and no field
      after it is set. */
  lemma BuildRowOnError(item: Json, detail: Json, k: nat)
    requires k < |Columns| && FirstRaise(Statement(item, detail), Columns) == k
    ensures var r := BuildRow(item, detail);
      && Id in r && r[Id] == Str(DataError)
      && (forall c :: c != Id ==> (c in r <==> c in Columns[..k] && Extract(c, item, detail).Assign?))
      && (forall c :: c != Id && c in r ==> r[c] == Extract(c, item, detail).value)
  {
    FillStopsAt(Statement(item, detail), k);
  }

  /** A first statement that assigns puts its value into the row, whatever follows. */
  lemma FillKeepsFirst(stmt: Column -> Assignment, v: Json)
    requires stmt(Columns[0]) == Assign(v)
    ensures Columns[0] in Fill(stmt, Columns, map[]).0 && Fill(stmt, Columns, map[]).0[Columns[0]] == v
  {
    FillEffect(stmt, Columns, map[]);
    assert Columns[0] in Columns[..FirstRaise(stmt, Columns)];
  }

  /** Every row has an id: the item's `mit_id`, or 'Data error' when extraction failed. */
  lemma BuildRowHasId(item: Json, detail: Json)
    ensures Id in BuildRow(item, detail)
    ensures var r := BuildRow(item, detail);
      r[Id] == Str(DataError) || Some(r[Id]) == Subscript(item, "mit_id")
  {
    var stmt := Statement(item, detail);
    assert stmt(Id) == FromLookup(Subscript(item, "mit_id"));
    if stmt(Id).Assign? {
      FillKeepsFirst(stmt, stmt(Id).value);
    }
  }
}
