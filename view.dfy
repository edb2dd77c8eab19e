/**
  What the two frontend scripts share: the displayed temperature with its
  `||` fallback, the chart labels, the metadata fallbacks, the alert count
  behind `updateStatus`, the fetch outcomes, status lines, button states,
  table lines, and the row detail view opened by clicking a table row.
  Rendering (HTML, CSS, number and date formatting) is abstract: a cell
  holds the value it shows.
 */
module View {
  import opened Wrappers
  import opened Text
  import opened Temperature
  import opened Records
  import Api

  // ---------------------------------------------------------------------------
  // Temperatures and labels
  // ---------------------------------------------------------------------------

  /** The `Math.random()` draws one record's `generateTemperature` call consumes, in call order. */
  datatype Draw = Draw(r1: real, r2: real)

  predicate ValidDraw(d: Draw)
  {
    InUnit(d.r1) && InUnit(d.r2)
  }

  /** A JSON temperature JavaScript treats as falsy: missing, null or 0. */
  predicate MissingReading(b: BlockJson)
  {
    b.temperature.None? || b.temperature.value == 0.0
  }

  /** `d.temperature || generateTemperature(d.alert)`. */
  function DisplayTemperature(b: BlockJson, d: Draw): (t: real)
    // a present, non-zero reading is shown verbatim
    ensures !MissingReading(b) ==> t == b.temperature.value
    // a missing or zero reading is replaced by a synthesised one that matches the alert flag
    ensures MissingReading(b) ==> t == GenerateTemperature(b.alert, d.r1, d.r2)
    ensures MissingReading(b) && ValidDraw(d) && !b.alert ==> !IsAlertTemp(t)
    ensures MissingReading(b) && ValidDraw(d) && b.alert ==> (IsAlertTemp(t) <==> t != MaxSafeTemp)
  {
    match b.temperature
    case Some(v) => if v != 0.0 then v else GenerateTemperature(b.alert, d.r1, d.r2)
    case None => GenerateTemperature(b.alert, d.r1, d.r2)
  }

  /** `data.map(d => d.temperature || generateTemperature(d.alert))`; record `i` uses draws `rand(i)`. */
  function Temperatures(data: seq<BlockJson>, rand: nat -> Draw): (ts: seq<real>)
    ensures |ts| == |data|
    ensures forall i :: 0 <= i < |data| ==> ts[i] == DisplayTemperature(data[i], rand(i))
  {
    seq(|data|, i requires 0 <= i < |data| => DisplayTemperature(data[i], rand(i)))
  }

  /** The chart label of a record. */
  function Label(b: BlockJson): string
  {
    "Block #" + IntToString(b.indexNum)
  }

  /** Labels name blocks uniquely: two records share a label exactly when they share an index. */
  lemma LabelIdentifiesIndex(a: BlockJson, b: BlockJson)
    ensures Label(a) == Label(b) <==> a.indexNum == b.indexNum
  {
    if Label(a) == Label(b) {
      var p := "Block #";
      assert Label(a)[|p|..] == IntToString(a.indexNum);
      assert Label(b)[|p|..] == IntToString(b.indexNum);
      IntToStringInjective(a.indexNum, b.indexNum);
    }
  }

  /** `data.map(d => `Block #${d.index_num}`)`. */
  function Labels(data: seq<BlockJson>): (ls: seq<string>)
    ensures |ls| == |data|
    ensures forall i :: 0 <= i < |data| ==> ls[i] == Label(data[i])
  {
    seq(|data|, i requires 0 <= i < |data| => Label(data[i]))
  }

  /** The `#N` text of a table's block cell. */
  function IndexCell(b: BlockJson): string
  {
    "#" + IntToString(b.indexNum)
  }

  /** A chart label is the table's block cell after the word `Block `. */
  lemma LabelExtendsIndexCell(b: BlockJson)
    ensures Label(b) == "Block " + IndexCell(b)
  {
  }

  /** JavaScript `v || fallback` on a string field: null, missing and "" fall back. */
  function OrDefault(v: Option<string>, fallback: string): (s: string)
    ensures v.Some? && v.value != "" ==> s == v.value
    ensures v.None? || v.value == "" ==> s == fallback
    ensures fallback != "" ==> s != ""
  {
    match v
    case Some(x) => if x != "" then x else fallback
    case None => fallback
  }

  // ---------------------------------------------------------------------------
  // Status
  // ---------------------------------------------------------------------------

  /** `data.filter(d => d.alert).length`. */
  function AlertCount(data: seq<BlockJson>): (n: nat)
    ensures n <= |data|
    ensures n == 0 <==> forall i :: 0 <= i < |data| ==> !data[i].alert
    ensures n == |data| <==> forall i :: 0 <= i < |data| ==> data[i].alert
  {
    if data == [] then 0
    else (if data[0].alert then 1 else 0) + AlertCount(data[1..])
  }

  /** What the status element says; the exact wording of each line is rendering. */
  datatype StatusLine =
    | Initial
    | Readings(severity: Severity, alertCount: nat, total: nat)   // updateStatus
    | NoRecords(batch: string)                                    // an empty result
    | Unreachable                                                 // fetch rejected (server offline)
    | ServerReturned(httpStatus: int)                             // a non-2xx response
    | BadResponse                                                 // the body is not JSON
    | AutoRefreshStopped(blocks: nat)                             // toggled off

  /** `updateStatus(data)`. */
  function StatusOf(data: seq<BlockJson>): (line: StatusLine)
    ensures line.Readings? && line.total == |data| && line.alertCount == AlertCount(data)
    ensures line.severity == Success <==> forall i :: 0 <= i < |data| ==> !data[i].alert
    ensures line.severity == Danger <==> 0 < AlertCount(data) && |data| <= 4 * AlertCount(data)
    ensures |data| == 0 ==> line.severity == Success
  {
    var n := AlertCount(data);
    Readings(StatusSeverity(n, |data|), n, |data|)
  }

  // ---------------------------------------------------------------------------
  // Fetch outcomes, button, table lines
  // ---------------------------------------------------------------------------

  /** How `fetch(.../blocks/${batchNo})` and `res.json()` come back. */
  datatype FetchOutcome =
    | Records(data: seq<BlockJson>)   // res.ok and a JSON array (possibly empty)
    | HttpError(status: int)          // !res.ok: the script throws `Server returned ${status}`
    | BadBody                         // res.ok but res.json() throws
    | NetworkError                    // fetch rejects with a TypeError

  /** The status line the catch block writes for a failed outcome. */
  function FailureStatus(outcome: FetchOutcome): (line: StatusLine)
    requires !outcome.Records?
    ensures outcome.NetworkError? <==> line == Unreachable
    ensures outcome.HttpError? ==> line == ServerReturned(outcome.status)
    ensures outcome.BadBody? ==> line == BadResponse
  {
    match outcome
    case HttpError(code) => ServerReturned(code)
    case BadBody => BadResponse
    case NetworkError => Unreachable
  }

  datatype ButtonLabel = StartAutoRefresh | StopAutoRefresh | Loading | FetchData

  datatype Button = Button(enabled: bool, caption: ButtonLabel)

  /** A line of the table body: a data row, or the one-cell placeholder message. */
  datatype TableLine<R> = DataRow(row: R) | Placeholder(message: string)

  const NoRecordsMessage: string := "No records found for this batch"

  // ---------------------------------------------------------------------------
  // Served records
  // ---------------------------------------------------------------------------

  /**
    Against this backend the fallbacks never fire: every served record has a
    non-zero temperature and the four metadata fields, so the page shows the
    served reading and the generator's metadata.
   */
  lemma ServedRecordsNeedNoFallback(rows: seq<BlockRow>, seedOf: int -> nat, rand: nat -> Draw, i: nat)
    requires i < |rows|
    ensures var data := Api.GetBlocks(Ok(rows), seedOf).blocks;
      && |data| == |rows|
      && Temperatures(data, rand)[i] == Api.TemperatureFromBlock(rows[i].alert == Some(true), rows[i].indexNum, seedOf)
      && OrDefault(data[i].vaccineName, "Covishield") == FixedVaccineName
      && OrDefault(data[i].manufactureName, "Serum Institute") == FixedManufactureName
      && OrDefault(data[i].shipmentName, "BlueDart") == FixedShipmentName
      && OrDefault(data[i].currentLocation, "Mumbai") == FixedCurrentLocation
  {
  }

  // ---------------------------------------------------------------------------
  // Row detail view (showPayloadDetails)
  // ---------------------------------------------------------------------------

  /** The JavaScript values a row's click handler can pass as the temperature. */
  datatype JsValue = Number(n: real) | Text(s: string)

  /** The fields the detail view shows besides the raw block and hashes. */
  datatype Details = Details(
    temperature: real,
    vaccine: string,
    manufacturer: string,
    shipment: string,
    location: string,
    alertText: string,
    payload: Option<PayloadData>)

  /** `showPayloadDetails(block, temperature)`: `temperature.toFixed(1)` throws unless it is a number. */
  function ShowPayloadDetails(block: BlockJson, temperature: JsValue): (r: Result<Details, string>)
    ensures temperature.Text? <==> r.Err?
    ensures temperature.Number? ==> r.Ok? && r.value.temperature == temperature.n
    ensures r.Ok? ==>
              && r.value.vaccine == OrDefault(block.vaccineName, "Covishield")
              && r.value.manufacturer == OrDefault(block.manufactureName, "Serum Institute")
              && r.value.shipment == OrDefault(block.shipmentName, "BlueDart")
              && r.value.location == OrDefault(block.currentLocation, "Mumbai")
              && (r.value.alertText == "TEMPERATURE ALERT" <==> block.alert)
              && r.value.payload == block.payloadData
  {
    match temperature
    case Text(_) => Err("TypeError: temperature.toFixed is not a function")
    case Number(t) =>
      Ok(Details(t,
                 OrDefault(block.vaccineName, "Covishield"),
                 OrDefault(block.manufactureName, "Serum Institute"),
                 OrDefault(block.shipmentName, "BlueDart"),
                 OrDefault(block.currentLocation, "Mumbai"),
                 if block.alert then "TEMPERATURE ALERT" else "Normal Range",
                 block.payloadData))
  }

  /**
    The row click handler as written: `temp` is the cell's text,
    `temperatures[index].toFixed(1)`, a string; `cellText` is that text.
   */
  function RowClickAsWritten(block: BlockJson, cellText: string): Result<Details, string>
  {
    ShowPayloadDetails(block, Text(cellText))
  }

  /** Clicking a row as written always throws: the detail view never opens. */
  lemma RowClickAsWrittenAlwaysFails(block: BlockJson, cellText: string)
    ensures RowClickAsWritten(block, cellText).Err?
  {
  }

  /** The row click handler passing the number `temperatures[index]`, as evidently intended. */
  function RowClick(block: BlockJson, temperature: real): (r: Result<Details, string>)
    ensures r.Ok? && r.value.temperature == temperature
    ensures r.value.shipment == OrDefault(block.shipmentName, "BlueDart")
    ensures r.value.vaccine == OrDefault(block.vaccineName, "Covishield")
    ensures r.value.manufacturer == OrDefault(block.manufactureName, "Serum Institute")
    ensures r.value.location == OrDefault(block.currentLocation, "Mumbai")
    ensures r.value.alertText == "TEMPERATURE ALERT" <==> block.alert
  {
    ShowPayloadDetails(block, Number(temperature))
  }
}
