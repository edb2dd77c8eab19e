/**
  The one-shot viewer of frontend/script.js: clicking "Fetch Data" trims
  the batch field, shows the loading state, clears the chart and table, and
  then shows the batch's records, the empty-result placeholder or the
  connection-failure placeholder; the button is re-enabled on every path.

  `Page` and `Click` state what a click does; the class `Viewer` holds the
  script's global `chart` and the DOM it writes, and its click handler is
  proved to follow `Click`. The awaited fetch resolves to a `FetchOutcome`
  given as input.
 */
module FetchPage {
  import opened Wrappers
  import opened Text
  import opened Temperature
  import opened Records
  import opened View

  // ---------------------------------------------------------------------------
  // What the page shows
  // ---------------------------------------------------------------------------

  /** One row of the seven-column table. */
  datatype Row = Row(
    indexCell: string,
    createdAt: string,
    temperature: real,
    alert: bool,
    vaccine: string,
    manufacturer: string,
    location: string,
    statusText: string)

  function ProjectRow(b: BlockJson, t: real): Row
  {
    Row(IndexCell(b), b.createdAt, t, b.alert,
        OrDefault(b.vaccineName, "Covishield"),
        OrDefault(b.manufactureName, "Serum Institute"),
        OrDefault(b.currentLocation, "Mumbai"),
        if b.alert then "ALERT" else "Normal")
  }

  /** One row per record, in the order received. */
  function RowsOf(data: seq<BlockJson>, temperatures: seq<real>): (table: seq<TableLine<Row>>)
    requires |temperatures| == |data|
    ensures |table| == |data|
    ensures forall i :: 0 <= i < |data| ==> table[i] == DataRow(ProjectRow(data[i], temperatures[i]))
  {
    seq(|data|, i requires 0 <= i < |data| => DataRow(ProjectRow(data[i], temperatures[i])))
  }

  /** Each row shows its record's `#index`, reading and fallbacks, and `ALERT` exactly for alert records. */
  lemma RowShowsRecord(b: BlockJson, t: real)
    ensures var row := ProjectRow(b, t);
      && row.indexCell == "#" + IntToString(b.indexNum)
      && row.temperature == t && row.createdAt == b.createdAt
      && (row.statusText == "ALERT" <==> b.alert) && (row.alert <==> b.alert)
      && row.vaccine != "" && row.manufacturer != "" && row.location != ""
      && (b.vaccineName.None? || b.vaccineName.value == "" ==> row.vaccine == "Covishield")
      && (b.manufactureName.None? || b.manufactureName.value == "" ==> row.manufacturer == "Serum Institute")
      && (b.currentLocation.None? || b.currentLocation.value == "" ==> row.location == "Mumbai")
  {
  }

  /** The dataset's point colours, from the alert flags rather than the readings. */
  datatype AlertColour = AlertRed | NormalGreen

  function AlertColours(data: seq<BlockJson>): (cs: seq<AlertColour>)
    ensures |cs| == |data|
    ensures forall i :: 0 <= i < |data| ==> (cs[i] == AlertRed <==> data[i].alert)
  {
    seq(|data|, i requires 0 <= i < |data| => if data[i].alert then AlertRed else NormalGreen)
  }

  datatype ChartView = ChartView(labels: seq<string>, values: seq<real>, colours: seq<AlertColour>, blockCount: nat)

  /** The dataset of `new Chart(ctx, { data: dataset, ... })`. */
  function ChartOf(data: seq<BlockJson>, temperatures: seq<real>): (c: ChartView)
    requires |temperatures| == |data|
    ensures |c.labels| == |data| && |c.colours| == |data| && c.values == temperatures
    ensures c.blockCount == |data|
    ensures forall i :: 0 <= i < |data| ==> c.labels[i] == "Block #" + IntToString(data[i].indexNum)
  {
    ChartView(Labels(data), temperatures, AlertColours(data), |data|)
  }

  // ---------------------------------------------------------------------------
  // The page state and a click
  // ---------------------------------------------------------------------------

  datatype Page = Page(
    chart: Option<ChartView>,
    table: seq<TableLine<Row>>,
    status: StatusLine,
    button: Button)

  const InitialPage: Page := Page(None, [], Initial, Button(true, FetchData))

  const ConnectionFailedMessage: string := "No data - server connection failed"

  /** Up to the await: the button shows `Loading...` disabled, the chart is destroyed, the table emptied. */
  function Begin(s: Page): (p: Page)
    ensures p.table == [] && p.chart.None? && p.status == s.status
    ensures !p.button.enabled && p.button.caption == Loading
  {
    s.(button := Button(false, Loading), chart := None, table := [])
  }

  /** After the await resolves to `outcome`, including the `finally` block. */
  function Complete(s: Page, batch: string, outcome: FetchOutcome, rand: nat -> Draw): (p: Page)
    // the `finally` block always restores the button
    ensures p.button == Button(true, FetchData)
    // a chart exists exactly after a non-empty array
    ensures p.chart.Some? <==> outcome.Records? && |outcome.data| > 0
    ensures !outcome.Records? ==> p.status == FailureStatus(outcome) && p.table == [Placeholder(ConnectionFailedMessage)]
  {
    var settled :=
      match outcome
      case Records(data) =>
        if |data| == 0 then
          s.(status := NoRecords(batch), table := [Placeholder(NoRecordsMessage)], chart := None)
        else
          var temperatures := Temperatures(data, rand);
          s.(status := StatusOf(data), table := RowsOf(data, temperatures), chart := Some(ChartOf(data, temperatures)))
      case _ =>
        s.(status := FailureStatus(outcome), table := [Placeholder(ConnectionFailedMessage)], chart := None);
    settled.(button := Button(true, FetchData))
  }

  /** A click on "Fetch Data" with `input` in the batch field. */
  function Click(s: Page, input: string, outcome: FetchOutcome, rand: nat -> Draw): (p: Page)
    ensures Trim(input) == "" ==> p == s
    ensures Trim(input) != "" ==> p.button == Button(true, FetchData)
  {
    var batch := Trim(input);
    if batch == "" then s else Complete(Begin(s), batch, outcome, rand)
  }

  // ---------------------------------------------------------------------------
  // Properties of a click
  // ---------------------------------------------------------------------------

  /** A blank batch field returns before any state change. */
  lemma BlankClickIsNoOp(s: Page, input: string, outcome: FetchOutcome, rand: nat -> Draw)
    requires AllWhitespace(input)
    ensures Click(s, input, outcome, rand) == s
  {
    TrimBlankIff(input);
  }

  /**
    Any other click re-enables the button, and replaces the whole view: the
    page after it does not depend on the page before it.
   */
  lemma ClickReplacesView(s1: Page, s2: Page, input: string, outcome: FetchOutcome, rand: nat -> Draw)
    requires !AllWhitespace(input)
    ensures Click(s1, input, outcome, rand).button == Button(true, FetchData)
    ensures Click(s1, input, outcome, rand) == Click(s2, input, outcome, rand)
  {
    TrimBlankIff(input);
  }

  /** An empty result or a failure leaves no chart and a single placeholder row. */
  lemma ClickWithoutRecords(s: Page, input: string, outcome: FetchOutcome, rand: nat -> Draw)
    requires !AllWhitespace(input)
    requires !(outcome.Records? && |outcome.data| > 0)
    ensures var p := Click(s, input, outcome, rand);
      && p.chart.None? && |p.table| == 1 && p.table[0].Placeholder?
      && (outcome.Records? ==> p.table[0].message == NoRecordsMessage && p.status == NoRecords(Trim(input)))
      && (!outcome.Records? ==> p.table[0].message == ConnectionFailedMessage && p.status == FailureStatus(outcome))
  {
    TrimBlankIff(input);
  }

  /**
    A non-empty result shows one row and one point per record in the order
    received, labelled `Block #N`, red exactly for alert records.
   */
  lemma ClickWithRecords(s: Page, input: string, data: seq<BlockJson>, rand: nat -> Draw)
    requires !AllWhitespace(input) && |data| > 0
    ensures var p := Click(s, input, Records(data), rand);
      var temperatures := Temperatures(data, rand);
      && p.table == RowsOf(data, temperatures)
      && p.status == StatusOf(data)
      && p.chart.Some?
      && |p.chart.value.labels| == |data| && |p.chart.value.values| == |data| && |p.chart.value.colours| == |data|
      && (forall i :: 0 <= i < |data| ==>
            && p.chart.value.labels[i] == Label(data[i])
            && p.chart.value.values[i] == DisplayTemperature(data[i], rand(i))
            && (p.chart.value.colours[i] == AlertRed <==> data[i].alert))
  {
    TrimBlankIff(input);
  }

  /**
    The page's invariant: a chart exists exactly when the table holds data
    rows, and then it plots the table's rows point for point.
   */
  ghost predicate Consistent(p: Page)
  {
    && (p.chart.None? ==> forall i :: 0 <= i < |p.table| ==> p.table[i].Placeholder?)
    && (p.chart.Some? ==>
          var c := p.chart.value;
          && c.blockCount == |p.table| && |c.labels| == |p.table|
          && |c.values| == |p.table| && |c.colours| == |p.table|
          && forall i :: 0 <= i < |p.table| ==>
               && p.table[i].DataRow?
               && c.labels[i] == "Block " + p.table[i].row.indexCell
               && c.values[i] == p.table[i].row.temperature
               && (c.colours[i] == AlertRed <==> p.table[i].row.alert))
  }

  /** A view drawn from records has its chart and table in step. */
  lemma RecordsViewConsistent(data: seq<BlockJson>, temperatures: seq<real>, status: StatusLine, button: Button)
    requires |temperatures| == |data|
    ensures Consistent(Page(Some(ChartOf(data, temperatures)), RowsOf(data, temperatures), status, button))
  {
    var table := RowsOf(data, temperatures);
    forall i | 0 <= i < |data| ensures Labels(data)[i] == "Block " + table[i].row.indexCell {
      LabelExtendsIndexCell(data[i]);
    }
  }

  lemma ClickKeepsConsistent(s: Page, input: string, outcome: FetchOutcome, rand: nat -> Draw)
    requires Consistent(s)
    ensures Consistent(Click(s, input, outcome, rand))
  {
    if Trim(input) != "" && outcome.Records? && |outcome.data| > 0 {
      var data := outcome.data;
      var temperatures := Temperatures(data, rand);
      RecordsViewConsistent(data, temperatures, StatusOf(data), Button(true, FetchData));
      assert Click(s, input, outcome, rand)
          == Page(Some(ChartOf(data, temperatures)), RowsOf(data, temperatures), StatusOf(data), Button(true, FetchData));
    }
  }

  // ---------------------------------------------------------------------------
  // The page
  // ---------------------------------------------------------------------------

  /** A Chart.js chart: created whole, never updated, only destroyed. */
  class StaticChart {
    const view: ChartView

    constructor (v: ChartView)
      ensures view == v
    {
      view := v;
    }
  }

  class Viewer {
    var chart: StaticChart?
    var table: seq<TableLine<Row>>
    var status: StatusLine
    var button: Button

    ghost function State(): Page
      reads this
    {
      Page(if chart == null then None else Some(chart.view), table, status, button)
    }

    ghost predicate Valid()
      reads this
    {
      Consistent(State())
    }

    constructor ()
      ensures State() == InitialPage && Valid()
    {
      chart := null;
      table := [];
      status := Initial;
      button := Button(true, FetchData);
    }

    /** `while (dataTable.firstChild) dataTable.removeChild(dataTable.firstChild)`. */
    method ClearTable()
      modifies this`table
      ensures table == []
    {
      while |table| > 0
        decreases |table|
      {
        table := table[1..];
      }
    }

    /** `populateTable(data, temperatures)`: clear the body, then one row per record. */
    method PopulateTable(data: seq<BlockJson>, temperatures: seq<real>)
      requires |temperatures| == |data|
      modifies this`table
      ensures table == RowsOf(data, temperatures)
    {
      ClearTable();
      for i := 0 to |data|
        invariant |table| == i
        invariant forall k :: 0 <= k < i ==> table[k] == DataRow(ProjectRow(data[k], temperatures[k]))
      {
        table := table + [DataRow(ProjectRow(data[i], temperatures[i]))];
      }
    }

    /** The success branch: status, table, and a newly created chart. */
    method ShowRecords(data: seq<BlockJson>, rand: nat -> Draw)
      requires |data| > 0
      modifies this
      ensures var temperatures := Temperatures(data, rand);
        State() == old(State()).(status := StatusOf(data), table := RowsOf(data, temperatures),
                                 chart := Some(ChartOf(data, temperatures)))
      ensures fresh(chart)
    {
      var labels := Labels(data);
      var temperatures := Temperatures(data, rand);
      status := StatusOf(data);
      PopulateTable(data, temperatures);
      var dataset := ChartView(labels, temperatures, AlertColours(data), |data|);
      assert dataset == ChartOf(data, temperatures);
      if chart != null {
        chart := null;
      }
      chart := new StaticChart(dataset);
    }

    /** Before the await: `Loading...` on a disabled button, the chart destroyed, the table emptied. */
    method BeginFetch()
      modifies this
      ensures State() == Begin(old(State()))
    {
      button := Button(false, Loading);
      if chart != null {
        chart := null;
      }
      ClearTable();
    }

    /** After the await: the try/catch branches, then the `finally` block. */
    method CompleteFetch(batch: string, outcome: FetchOutcome, rand: nat -> Draw)
      modifies this
      ensures State() == Complete(old(State()), batch, outcome, rand)
      ensures outcome.Records? && |outcome.data| > 0 ==> fresh(chart)
    {
      match outcome {
        case Records(data) =>
          if |data| == 0 {
            status := NoRecords(batch);
            table := [Placeholder(NoRecordsMessage)];
            if chart != null {
              chart := null;
            }
          } else {
            ShowRecords(data, rand);
          }
        case _ =>
          status := FailureStatus(outcome);
          if chart != null {
            chart := null;
          }
          table := [Placeholder(ConnectionFailedMessage)];
      }
      button := Button(true, FetchData);
    }

    /** The click handler of `fetchBtn`, its await resolving to `outcome`. */
    method OnFetchClick(input: string, outcome: FetchOutcome, rand: nat -> Draw)
      requires Valid()
      modifies this
      ensures Valid()
      ensures State() == Click(old(State()), input, outcome, rand)
      // a successful fetch draws on a new chart object
      ensures Trim(input) != "" && outcome.Records? && |outcome.data| > 0 ==> fresh(chart)
    {
      ghost var after := Click(State(), input, outcome, rand);
      ClickKeepsConsistent(State(), input, outcome, rand);
      var batchNo := Trim(input);
      if batchNo == "" {
        return;
      }
      BeginFetch();
      CompleteFetch(batchNo, outcome, rand);
      assert State() == after;
    }
  }
}
