/**
 * The spreadsheet web app that receives each registration: it picks a sheet from
 * the contest, creates the sheet with a header row when it is missing, and appends
 * one row of eleven cells.
 */
module Sheets {
  import opened Wrappers
  import opened Text

  /** The JSON body the web app reads; any field may be absent. */
  datatype Payload = Payload(
    name: Option<string>,
    age: Option<int>,
    whatsapp: Option<string>,
    email: Option<string>,
    contest: Option<string>,
    message: Option<string>,
    numberOfChildren: Option<int>,
    photoUrl: Option<string>,
    videoUrl: Option<string>,
    timestamp: Option<string>,
    ipAddress: Option<string>,
    id: Option<string>)

  /** A spreadsheet cell: text, a number, or a date built from a date string. */
  datatype Cell = TextCell(text: string) | NumberCell(number: int) | DateCell(source: string)

  const SuperMomSheet := "SuperMom"
  const CutestBabySheet := "CutestBaby"
  const SeniorCitizensSheet := "SeniorCitizens"
  const GeneralJoinersSheet := "GeneralJoiners"

  /** The `switch` on `data.contest`: three contests have their own sheet, everything else is a general joiner. */
  function SheetName(contest: Option<string>): (name: string)
    ensures name in {SuperMomSheet, CutestBabySheet, SeniorCitizensSheet, GeneralJoinersSheet}
    ensures name == SuperMomSheet <==> contest == Some("SUPERMOM")
    ensures name == CutestBabySheet <==> contest == Some("CUTESTBABY")
    ensures name == SeniorCitizensSheet <==> contest == Some("SENIORCITIZEN")
  {
    match contest
    case Some("SUPERMOM") => SuperMomSheet
    case Some("CUTESTBABY") => CutestBabySheet
    case Some("SENIORCITIZEN") => SeniorCitizensSheet
    case _ => GeneralJoinersSheet
  }

  const SheetHeader: seq<string> := [
    "Timestamp", "Name", "Age", "WhatsApp", "Email", "Contest", "Message",
    "Photo URL", "Video URL", "IP Address", "Registration ID"]

  function HeaderRow(): (row: seq<Cell>)
    ensures |row| == |SheetHeader| == 11
    ensures forall i :: 0 <= i < |row| ==> row[i] == TextCell(SheetHeader[i])
  {
    seq(|SheetHeader|, i requires 0 <= i < |SheetHeader| => TextCell(SheetHeader[i]))
  }

  /** `x || ''` for a text field: absent and empty both give the empty string. */
  function TextOrBlank(x: Option<string>): Cell
  {
    TextCell(x.GetOr(""))
  }

  /** `x || ''` for a number field: absent and 0 both give the empty string. */
  function NumberOrBlank(x: Option<int>): Cell
  {
    if x.Some? && x.value != 0 then NumberCell(x.value) else TextCell("")
  }

  /** `new Date(data.timestamp || new Date())`, with `now` the current time's text. */
  function TimestampCell(timestamp: Option<string>, now: string): Cell
  {
    if timestamp.Some? && timestamp.value != "" then DateCell(timestamp.value) else DateCell(now)
  }

  /** `data.contest || 'NONE'` */
  function ContestCell(contest: Option<string>): Cell
  {
    if contest.Some? && contest.value != "" then TextCell(contest.value) else TextCell("NONE")
  }

  /** The row `doPost` appends, in column order. */
  function RowData(data: Payload, now: string): (row: seq<Cell>)
    ensures |row| == |SheetHeader|
  {
    [ TimestampCell(data.timestamp, now),
      TextOrBlank(data.name),
      NumberOrBlank(data.age),
      TextOrBlank(data.whatsapp),
      TextOrBlank(data.email),
      ContestCell(data.contest),
      TextOrBlank(data.message),
      TextOrBlank(data.photoUrl),
      TextOrBlank(data.videoUrl),
      TextOrBlank(data.ipAddress),
      TextOrBlank(data.id) ]
  }

  /** The cell that belongs under a header name, looked up by the name. */
  function CellUnder(header: string, data: Payload, now: string): Cell
  {
    match header
    case "Timestamp" => TimestampCell(data.timestamp, now)
    case "Name" => TextOrBlank(data.name)
    case "Age" => NumberOrBlank(data.age)
    case "WhatsApp" => TextOrBlank(data.whatsapp)
    case "Email" => TextOrBlank(data.email)
    case "Contest" => ContestCell(data.contest)
    case "Message" => TextOrBlank(data.message)
    case "Photo URL" => TextOrBlank(data.photoUrl)
    case "Video URL" => TextOrBlank(data.videoUrl)
    case "IP Address" => TextOrBlank(data.ipAddress)
    case "Registration ID" => TextOrBlank(data.id)
    case _ => TextCell("")
  }

  /** Every cell of a row sits under the header that names it. */
  lemma {:induction false} RowFollowsHeader(data: Payload, now: string)
    ensures forall i :: 0 <= i < |SheetHeader| ==> RowData(data, now)[i] == CellUnder(SheetHeader[i], data, now)
  {
  }

  /** The number of children is not a column: it never changes the row. */
  lemma {:induction false} ChildrenNotWritten(data: Payload, now: string, n: Option<int>)
    ensures RowData(data.(numberOfChildren := n), now) == RowData(data, now)
  {
  }

  /** Every sheet of the spreadsheet holds rows of the header's width. */
  predicate WellFormed(sheets: map<string, seq<seq<Cell>>>)
  {
    forall name :: name in sheets ==> forall k :: 0 <= k < |sheets[name]| ==> |sheets[name][k]| == |SheetHeader|
  }

  /** The spreadsheet the web app writes to, as a map from sheet name to rows. */
  class Spreadsheet {
    var sheets: map<string, seq<seq<Cell>>>

    ghost predicate Valid()
      reads this
    {
      WellFormed(sheets)
    }

    /** A spreadsheet with the given empty sheets, as the operator prepares it. */
    constructor (names: set<string>)
      ensures Valid()
      ensures sheets == map name | name in names :: []
    {
      sheets := map name | name in names :: [];
    }

    /** `doPost`: routes the payload to its sheet, adding the header row if the sheet is new. */
    method DoPost(data: Payload, now: string) returns (sheetName: string)
      requires Valid()
      modifies this
      ensures Valid()
      ensures sheetName == SheetName(data.contest)
      ensures sheetName in old(sheets) ==>
        sheets == old(sheets)[sheetName := old(sheets)[sheetName] + [RowData(data, now)]]
      ensures sheetName !in old(sheets) ==>
        sheets == old(sheets)[sheetName := [HeaderRow(), RowData(data, now)]]
    {
      sheetName := SheetName(data.contest);
      var rows: seq<seq<Cell>>;
      if sheetName in sheets {
        rows := sheets[sheetName];
      } else {
        rows := [HeaderRow()];
      }
      rows := rows + [RowData(data, now)];
      assert sheetName !in sheets ==> rows == [HeaderRow(), RowData(data, now)];
      sheets := sheets[sheetName := rows];
    }
  }
}
