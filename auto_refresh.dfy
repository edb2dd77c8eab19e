/**
  The live dashboard of frontend/script_old.js: a poll (`fetchAndUpdateData`)
  that repaints the nine-column table and the chart only when the number of
  records changed or the caller forces it, and the auto-refresh toggle that
  starts and stops a polling interval.

  The page's module-level state and DOM targets are the fields of
  `LivePage`; the chart is a `LiveChart` object, updated in place when one
  exists. `Page` and the functions `Fetch`, `Toggle` and `Tick` state what
  each operation does to that state; the page's methods are proved to
  follow them. The interval is the `armed` flag and the batch it polls; each
  await point resolves to a `FetchOutcome` given as input.
 */
module AutoRefresh {
  import opened Wrappers
  import opened Text
  import opened Temperature
  import opened Records
  import opened View

  // ---------------------------------------------------------------------------
  // What the page shows
  // ---------------------------------------------------------------------------

  /** One row of the nine-column table (`populateTable`); `blockId` is the row's `data-block-id`. */
  datatype LiveRow = LiveRow(
    blockId: int,
    indexCell: string,
    createdAt: string,
    temperature: real,
    alert: bool,
    vaccine: string,
    manufacturer: string,
    shipment: string,
    location: string,
    container: string,
    statusText: string)

  function ProjectRow(b: BlockJson, t: real): LiveRow
  {
    LiveRow(b.id, IndexCell(b), b.createdAt, t, b.alert,
            OrDefault(b.vaccineName, "Covishield"),
            OrDefault(b.manufactureName, "Serum Institute"),
            OrDefault(b.shipmentName, "BlueDart"),
            OrDefault(b.currentLocation, "Mumbai"),
            b.containerNo,
            if b.alert then "ALERT" else "Normal")
  }

  /** A fresh table body with one row per record, in the order received. */
  function LiveTable(data: seq<BlockJson>, temperatures: seq<real>): (table: seq<TableLine<LiveRow>>)
    requires |temperatures| == |data|
    ensures |table| == |data|
    ensures forall i :: 0 <= i < |data| ==> table[i] == DataRow(ProjectRow(data[i], temperatures[i]))
  {
    seq(|data|, i requires 0 <= i < |data| => DataRow(ProjectRow(data[i], temperatures[i])))
  }

  /** Each row shows its record: id, `#index`, reading, fallbacks, and `ALERT` exactly for alert records. */
  lemma LiveRowShowsRecord(b: BlockJson, t: real)
    ensures var row := ProjectRow(b, t);
      && row.blockId == b.id && row.indexCell == "#" + IntToString(b.indexNum)
      && row.temperature == t && row.container == b.containerNo && row.createdAt == b.createdAt
      && (row.statusText == "ALERT" <==> b.alert) && (row.alert <==> b.alert)
      && row.vaccine != "" && row.manufacturer != "" && row.shipment != "" && row.location != ""
      && (b.vaccineName.Some? && b.vaccineName.value != "" ==> row.vaccine == b.vaccineName.value)
      && (b.shipmentName.Some? && b.shipmentName.value != "" ==> row.shipment == b.shipmentName.value)
  {
  }

  function PointColours(temperatures: seq<real>): (cs: seq<PointColour>)
    ensures |cs| == |temperatures|
    ensures forall i :: 0 <= i < |cs| ==> cs[i] == PointColourOf(temperatures[i])
  {
    seq(|temperatures|, i requires 0 <= i < |temperatures| => PointColourOf(temperatures[i]))
  }

  /** The chart's content: labels, points, point colours and the `(N blocks)` count in its title. */
  datatype ChartView = ChartView(labels: seq<string>, values: seq<real>, colours: seq<PointColour>, blockCount: nat)

  /** What `updateChart(labels, temperatures, alertFlags, data)` puts on the chart. */
  function ChartOf(data: seq<BlockJson>, temperatures: seq<real>): (c: ChartView)
    requires |temperatures| == |data|
    ensures |c.labels| == |data| && c.values == temperatures && |c.colours| == |data|
    ensures c.blockCount == |data|
    // red points are exactly the readings outside the band
    ensures forall i :: 0 <= i < |data| ==> (c.colours[i] == Red <==> IsAlertTemp(temperatures[i]))
  {
    ChartView(Labels(data), temperatures, PointColours(temperatures), |data|)
  }

  // ---------------------------------------------------------------------------
  // The page state and its transitions
  // ---------------------------------------------------------------------------

  datatype Page = Page(
    lastDataLength: nat,
    autoRefresh: bool,
    armed: bool,
    pollBatch: string,
    chart: Option<ChartView>,
    table: seq<TableLine<LiveRow>>,
    status: StatusLine,
    button: Button)

  const InitialPage: Page := Page(0, false, false, "", None, [], Initial, Button(true, StartAutoRefresh))

  /** A poll's new state and its return value. */
  datatype Fetched = Fetched(page: Page, ok: bool)

  /** A non-empty result is repainted when its length differs from the last one, or when forced. */
  predicate Repaints(s: Page, showLoading: bool, data: seq<BlockJson>)
  {
    |data| > 0 && (|data| != s.lastDataLength || showLoading)
  }

  /** The try/catch of `fetchAndUpdateData`, before its `finally`. */
  function Settle(s: Page, batch: string, showLoading: bool, outcome: FetchOutcome, rand: nat -> Draw): (f: Fetched)
    // the branches never touch the flag, the interval or the button
    ensures f.page.autoRefresh == s.autoRefresh && f.page.armed == s.armed && f.page.pollBatch == s.pollBatch
    ensures f.page.button == s.button
    // `return true` exactly on a non-empty array
    ensures f.ok <==> outcome.Records? && |outcome.data| > 0
    // only a repaint moves `lastDataLength`, and it moves it to the new length
    ensures f.page.lastDataLength == s.lastDataLength || (outcome.Records? && f.page.lastDataLength == |outcome.data|)
  {
    match outcome
    case Records(data) =>
      if |data| == 0 then
        Fetched(s.(status := NoRecords(batch), table := [Placeholder(NoRecordsMessage)], chart := None), false)
      else if Repaints(s, showLoading, data) then
        var temperatures := Temperatures(data, rand);
        Fetched(s.(lastDataLength := |data|, status := StatusOf(data),
                   table := LiveTable(data, temperatures), chart := Some(ChartOf(data, temperatures))), true)
      else
        Fetched(s.(lastDataLength := |data|), true)
    case _ =>
      Fetched(s.(status := FailureStatus(outcome)), false)
  }

  /** A forced poll first disables the button and shows `Loading...`. */
  function BeginFetch(s: Page, showLoading: bool): (p: Page)
    ensures p.(button := s.button) == s
    ensures showLoading ==> !p.button.enabled && p.button.caption == Loading
    ensures !showLoading ==> p == s
  {
    if showLoading then s.(button := Button(false, Loading)) else s
  }

  /** The `finally` block: a forced poll re-enables the button with the label the flag calls for. */
  function EndFetch(f: Fetched, showLoading: bool): (g: Fetched)
    ensures g.ok == f.ok && g.page.(button := f.page.button) == f.page
    ensures showLoading ==> g.page.button.enabled
    ensures showLoading ==> (g.page.button.caption == StopAutoRefresh <==> f.page.autoRefresh)
    ensures !showLoading ==> g == f
  {
    if showLoading then
      f.(page := f.page.(button := Button(true, if f.page.autoRefresh then StopAutoRefresh else StartAutoRefresh)))
    else f
  }

  /** `fetchAndUpdateData(batch, showLoading)` once its awaits resolve to `outcome`. */
  function Fetch(s: Page, batch: string, showLoading: bool, outcome: FetchOutcome, rand: nat -> Draw): (f: Fetched)
    // a poll never touches the auto-refresh flag or the interval
    ensures f.page.autoRefresh == s.autoRefresh && f.page.armed == s.armed && f.page.pollBatch == s.pollBatch
    ensures f.ok <==> outcome.Records? && |outcome.data| > 0
    // the button ends enabled after a forced poll, and an unforced one leaves it alone
    ensures showLoading ==> f.page.button == Button(true, if s.autoRefresh then StopAutoRefresh else StartAutoRefresh)
    ensures !showLoading ==> f.page.button == s.button
  {
    EndFetch(Settle(BeginFetch(s, showLoading), batch, showLoading, outcome, rand), showLoading)
  }

  /** `toggleAutoRefresh()` with `input` in the batch field; a start's forced poll resolves to `outcome`. */
  function Toggle(s: Page, input: string, outcome: FetchOutcome, rand: nat -> Draw): (p: Page)
    ensures Trim(input) == "" ==> p == s
    ensures Trim(input) != "" ==> p.autoRefresh == !s.autoRefresh && p.armed == p.autoRefresh
    ensures Trim(input) != "" && p.autoRefresh ==> p.pollBatch == Trim(input)
  {
    var batch := Trim(input);
    if batch == "" then s
    else if s.autoRefresh then Stop(s)
    else Start(s, batch, outcome, rand)
  }

  /** Stopping: clear the interval, lower the flag, and report the blocks loaded so far. */
  function Stop(s: Page): (p: Page)
    ensures !p.autoRefresh && !p.armed && p.button.caption == StartAutoRefresh
    // nothing is reset: the table, the chart and `lastDataLength` stay
    ensures p.table == s.table && p.chart == s.chart && p.lastDataLength == s.lastDataLength
    ensures p.status == AutoRefreshStopped(s.lastDataLength)
  {
    s.(autoRefresh := false, armed := false, button := s.button.(caption := StartAutoRefresh),
       status := AutoRefreshStopped(s.lastDataLength))
  }

  /** Starting: raise the flag, poll once with `showLoading`, and arm the interval on `batch`. */
  function Start(s: Page, batch: string, outcome: FetchOutcome, rand: nat -> Draw): (p: Page)
    ensures p.autoRefresh && p.armed && p.pollBatch == batch
    ensures p.button == Button(true, StopAutoRefresh)
  {
    var started := s.(autoRefresh := true, armed := true, button := s.button.(caption := StopAutoRefresh));
    Fetch(started, batch, true, outcome, rand).page.(pollBatch := batch)
  }

  /** The interval firing: an unforced poll of the batch it was started with. */
  function Tick(s: Page, outcome: FetchOutcome, rand: nat -> Draw): (p: Page)
    ensures !s.armed ==> p == s
    ensures p.autoRefresh == s.autoRefresh && p.armed == s.armed && p.pollBatch == s.pollBatch
    ensures p.button == s.button
  {
    if s.armed then Fetch(s, s.pollBatch, false, outcome, rand).page else s
  }

  // ---------------------------------------------------------------------------
  // Properties of the transitions
  // ---------------------------------------------------------------------------

  /** A non-empty result records its length and returns true; it repaints exactly when `Repaints` says. */
  lemma FetchNonEmpty(s: Page, batch: string, showLoading: bool, data: seq<BlockJson>, rand: nat -> Draw)
    requires |data| > 0
    ensures var f := Fetch(s, batch, showLoading, Records(data), rand);
      && f.ok && f.page.lastDataLength == |data|
      && (Repaints(s, showLoading, data) ==>
            var temperatures := Temperatures(data, rand);
            && f.page.table == LiveTable(data, temperatures)
            && f.page.chart == Some(ChartOf(data, temperatures))
            && f.page.status == StatusOf(data))
      && (!Repaints(s, showLoading, data) ==> f.page == s)
  {
  }

  /**
    An unforced poll that returns as many records as last time changes
    nothing at all, even when the records themselves differ.
   */
  lemma SameLengthPollIsInvisible(s: Page, batch: string, data: seq<BlockJson>, rand: nat -> Draw)
    requires |data| > 0 && |data| == s.lastDataLength
    ensures Fetch(s, batch, false, Records(data), rand) == Fetched(s, true)
  {
  }

  /** An empty result shows the placeholder, drops the chart, returns false and keeps `lastDataLength`. */
  lemma FetchEmpty(s: Page, batch: string, showLoading: bool, rand: nat -> Draw)
    ensures var f := Fetch(s, batch, showLoading, Records([]), rand);
      && !f.ok && f.page.lastDataLength == s.lastDataLength
      && f.page.table == [Placeholder(NoRecordsMessage)] && f.page.chart.None?
      && f.page.status == NoRecords(batch)
  {
  }

  /**
    An empty result does not reset `lastDataLength`: when the records come
    back at their old count, the next unforced poll changes nothing, so the
    "No records" placeholder stays although the batch has records again.
   */
  lemma PlaceholderOutlivesEmptyPoll(s: Page, batch: string, data: seq<BlockJson>, r1: nat -> Draw, r2: nat -> Draw)
    requires |data| > 0 && |data| == s.lastDataLength
    ensures var blank := Fetch(s, batch, false, Records([]), r1).page;
      && blank.table == [Placeholder(NoRecordsMessage)] && blank.chart.None?
      && Fetch(blank, batch, false, Records(data), r2) == Fetched(blank, true)
  {
    FetchEmpty(s, batch, false, r1);
    SameLengthPollIsInvisible(Fetch(s, batch, false, Records([]), r1).page, batch, data, r2);
  }

  /**
    A failed poll returns false and only rewrites the status (and a forced
    poll's button): the table, chart, recorded length and interval stay.
   */
  lemma FetchFailure(s: Page, batch: string, showLoading: bool, outcome: FetchOutcome, rand: nat -> Draw)
    requires !outcome.Records?
    ensures var f := Fetch(s, batch, showLoading, outcome, rand);
      && !f.ok
      && f.page == s.(status := FailureStatus(outcome), button := f.page.button)
  {
  }

  /** Polling continues after a failure, although the status says auto-refresh is paused. */
  lemma FailedPollKeepsPolling(s: Page, outcome: FetchOutcome, rand: nat -> Draw)
    requires s.armed && !outcome.Records?
    ensures var t := Tick(s, outcome, rand);
      t.armed && t.pollBatch == s.pollBatch && t.lastDataLength == s.lastDataLength
  {
  }

  /** With a blank batch field the toggle does nothing: it cannot even stop a running refresh. */
  lemma ToggleBlankIsNoOp(s: Page, input: string, outcome: FetchOutcome, rand: nat -> Draw)
    requires AllWhitespace(input)
    ensures Toggle(s, input, outcome, rand) == s
  {
    TrimBlankIff(input);
  }

  /**
    Otherwise it flips the flag; starting arms the interval on the trimmed
    batch after a forced poll, stopping disarms it, whatever the batch.
   */
  lemma ToggleFlips(s: Page, input: string, outcome: FetchOutcome, rand: nat -> Draw)
    requires !AllWhitespace(input)
    ensures var p := Toggle(s, input, outcome, rand);
      && p.autoRefresh == !s.autoRefresh
      && p.armed == p.autoRefresh
      && (p.autoRefresh ==>
            && p.pollBatch == Trim(input)
            && p.button == Button(true, StopAutoRefresh)
            && p == Fetch(s.(autoRefresh := true, armed := true), Trim(input), true, outcome, rand)
                      .page.(pollBatch := Trim(input)))
      && (!p.autoRefresh ==>
            p == s.(autoRefresh := false, armed := false, button := s.button.(caption := StartAutoRefresh),
                    status := AutoRefreshStopped(s.lastDataLength)))
  {
    TrimBlankIff(input);
  }

  /** Two toggles with non-blank input restore the flag and the interval's state. */
  lemma ToggleTwiceRestoresFlag(s: Page, in1: string, in2: string, o1: FetchOutcome, o2: FetchOutcome,
                                r1: nat -> Draw, r2: nat -> Draw)
    requires !AllWhitespace(in1) && !AllWhitespace(in2)
    requires s.armed == s.autoRefresh
    ensures var p := Toggle(Toggle(s, in1, o1, r1), in2, o2, r2);
      p.autoRefresh == s.autoRefresh && p.armed == s.armed
  {
    ToggleFlips(s, in1, o1, r1);
    ToggleFlips(Toggle(s, in1, o1, r1), in2, o2, r2);
  }

  /** The interval does nothing once stopped. */
  lemma TickWhenStoppedIsNoOp(s: Page, outcome: FetchOutcome, rand: nat -> Draw)
    requires !s.armed
    ensures Tick(s, outcome, rand) == s
  {
  }

  /**
    The page's invariant: an interval runs exactly while auto-refresh is on;
    the table holds data rows exactly when a chart exists; and then the chart
    shows the table's records, `lastDataLength` of them, point for point.
   */
  ghost predicate Consistent(p: Page)
  {
    && p.armed == p.autoRefresh
    && (p.chart.None? ==> forall i :: 0 <= i < |p.table| ==> p.table[i].Placeholder?)
    && (p.chart.Some? ==>
          var c := p.chart.value;
          && |p.table| == p.lastDataLength == c.blockCount
          && |c.labels| == |p.table| && |c.values| == |p.table| && |c.colours| == |p.table|
          && forall i :: 0 <= i < |p.table| ==>
               && p.table[i].DataRow?
               && c.labels[i] == "Block " + p.table[i].row.indexCell
               && c.values[i] == p.table[i].row.temperature
               && c.colours[i] == PointColourOf(p.table[i].row.temperature))
  }

  lemma InitialConsistent()
    ensures Consistent(InitialPage)
  {
  }

  /** A repaint puts the chart and table in step, whatever else the page holds. */
  lemma RepaintConsistent(s: Page, data: seq<BlockJson>, temperatures: seq<real>, status: StatusLine, button: Button)
    requires |temperatures| == |data| && s.armed == s.autoRefresh
    ensures Consistent(s.(lastDataLength := |data|, status := status, table := LiveTable(data, temperatures),
                          chart := Some(ChartOf(data, temperatures)), button := button))
  {
    var table := LiveTable(data, temperatures);
    forall i | 0 <= i < |data| ensures Labels(data)[i] == "Block " + table[i].row.indexCell {
      LabelExtendsIndexCell(data[i]);
    }
  }

  lemma FetchKeepsConsistent(s: Page, batch: string, showLoading: bool, outcome: FetchOutcome, rand: nat -> Draw)
    requires Consistent(s)
    ensures Consistent(Fetch(s, batch, showLoading, outcome, rand).page)
  {
    if outcome.Records? && Repaints(s, showLoading, outcome.data) {
      var data := outcome.data;
      var temperatures := Temperatures(data, rand);
      var f := Fetch(s, batch, showLoading, outcome, rand);
      RepaintConsistent(s, data, temperatures, StatusOf(data), f.page.button);
      assert f.page == s.(lastDataLength := |data|, status := StatusOf(data), table := LiveTable(data, temperatures),
                          chart := Some(ChartOf(data, temperatures)), button := f.page.button);
    }
  }

  /** Raising the flag together with arming the interval keeps the invariant. */
  lemma ArmingKeepsConsistent(s: Page, button: Button)
    requires Consistent(s)
    ensures Consistent(s.(autoRefresh := true, armed := true, button := button))
  {
  }

  lemma ToggleKeepsConsistent(s: Page, input: string, outcome: FetchOutcome, rand: nat -> Draw)
    requires Consistent(s)
    ensures Consistent(Toggle(s, input, outcome, rand))
  {
    if Trim(input) != "" && !s.autoRefresh {
      var started := s.(autoRefresh := true, armed := true, button := s.button.(caption := StopAutoRefresh));
      FetchKeepsConsistent(started, Trim(input), true, outcome, rand);
    }
  }

  lemma TickKeepsConsistent(s: Page, outcome: FetchOutcome, rand: nat -> Draw)
    requires Consistent(s)
    ensures Consistent(Tick(s, outcome, rand))
  {
    if s.armed {
      FetchKeepsConsistent(s, s.pollBatch, false, outcome, rand);
    }
  }

  // ---------------------------------------------------------------------------
  // The page
  // ---------------------------------------------------------------------------

  /** The Chart.js object: the fields `updateChart` rewrites. */
  class LiveChart {
    var labels: seq<string>
    var values: seq<real>
    var colours: seq<PointColour>
    var blockCount: nat

    function View(): ChartView
      reads this
    {
      ChartView(labels, values, colours, blockCount)
    }

    constructor (v: ChartView)
      ensures View() == v
    {
      labels, values, colours, blockCount := v.labels, v.values, v.colours, v.blockCount;
    }

    /** `chart.data.labels = ...; chart.data.datasets[0].data = ...; ...; chart.update('none')`. */
    method Update(v: ChartView)
      modifies this
      ensures View() == v
    {
      labels := v.labels;
      values := v.values;
      colours := v.colours;
      blockCount := v.blockCount;
    }
  }

  class LivePage {
    var lastDataLength: nat
    var autoRefresh: bool
    var armed: bool
    var pollBatch: string
    var chart: LiveChart?
    var table: seq<TableLine<LiveRow>>
    var status: StatusLine
    var button: Button

    ghost function State(): Page
      reads this, chart
    {
      Page(lastDataLength, autoRefresh, armed, pollBatch,
           if chart == null then None else Some(chart.View()),
           table, status, button)
    }

    ghost predicate Valid()
      reads this, chart
    {
      Consistent(State())
    }

    constructor ()
      ensures State() == InitialPage && Valid()
    {
      lastDataLength, autoRefresh, armed, pollBatch := 0, false, false, "";
      chart := null;
      table := [];
      status := Initial;
      button := Button(true, StartAutoRefresh);
    }

    /** `populateTable(data, temperatures)`: a fresh tbody, then one row per record. */
    method PopulateTable(data: seq<BlockJson>, temperatures: seq<real>)
      requires |temperatures| == |data|
      modifies this`table
      ensures table == LiveTable(data, temperatures)
    {
      table := [];
      for i := 0 to |data|
        invariant |table| == i
        invariant forall k :: 0 <= k < i ==> table[k] == DataRow(ProjectRow(data[k], temperatures[k]))
      {
        table := table + [DataRow(ProjectRow(data[i], temperatures[i]))];
      }
    }

    /** `updateChart`: an existing chart is updated in place, otherwise a new one is created. */
    method UpdateChart(labels: seq<string>, temperatures: seq<real>, data: seq<BlockJson>)
      modifies this`chart, chart
      ensures chart != null && chart.View() == ChartView(labels, temperatures, PointColours(temperatures), |data|)
      ensures old(chart) != null ==> chart == old(chart)
      ensures old(chart) == null ==> fresh(chart)
    {
      var v := ChartView(labels, temperatures, PointColours(temperatures), |data|);
      if chart != null {
        chart.Update(v);
      } else {
        chart := new LiveChart(v);
      }
    }

    /** The empty-result branch: placeholder row, chart destroyed. */
    method ShowNoRecords(batch: string) returns (ok: bool)
      modifies this
      ensures State() == old(State()).(status := NoRecords(batch), table := [Placeholder(NoRecordsMessage)], chart := None)
      ensures !ok
    {
      status := NoRecords(batch);
      table := [Placeholder(NoRecordsMessage)];
      if chart != null {
        chart := null;
      }
      ok := false;
    }

    /** Repainting: status, a fresh table body and the chart, from the records and their readings. */
    method Repaint(data: seq<BlockJson>, temperatures: seq<real>)
      requires |temperatures| == |data|
      modifies this, chart
      ensures State() == old(State()).(status := StatusOf(data), table := LiveTable(data, temperatures),
                                       chart := Some(ChartOf(data, temperatures)))
      ensures old(chart) != null ==> chart == old(chart)
    {
      ghost var s0 := State();
      status := StatusOf(data);
      PopulateTable(data, temperatures);
      UpdateChart(Labels(data), temperatures, data);
      assert chart.View() == ChartOf(data, temperatures);
      assert State() == s0.(status := StatusOf(data), table := LiveTable(data, temperatures), chart := Some(chart.View()));
    }

    /** The branch for a non-empty result: record its length, repaint when new or forced. */
    method ShowRecords(batch: string, data: seq<BlockJson>, showLoading: bool, rand: nat -> Draw) returns (ok: bool)
      requires |data| > 0
      modifies this, chart
      ensures Fetched(State(), ok) == Settle(old(State()), batch, showLoading, Records(data), rand)
      ensures old(chart) != null ==> chart == old(chart)
    {
      var isNewData := |data| != lastDataLength;
      lastDataLength := |data|;
      if isNewData || showLoading {
        Repaint(data, Temperatures(data, rand));
      }
      ok := true;
    }

    /** The catch block. */
    method ShowFailure(outcome: FetchOutcome) returns (ok: bool)
      requires !outcome.Records?
      modifies this`status
      ensures State() == old(State()).(status := FailureStatus(outcome))
      ensures !ok
    {
      status := FailureStatus(outcome);
      ok := false;
    }

    /** The try/catch of `fetchAndUpdateData` once its awaits resolve to `outcome`. */
    method SettleFetch(batch: string, showLoading: bool, outcome: FetchOutcome, rand: nat -> Draw)
      returns (ok: bool)
      modifies this, chart
      ensures Fetched(State(), ok) == Settle(old(State()), batch, showLoading, outcome, rand)
      ensures old(chart) != null && chart != null ==> chart == old(chart)
    {
      match outcome {
        case Records(data) =>
          if |data| == 0 {
            ok := ShowNoRecords(batch);
          } else {
            ok := ShowRecords(batch, data, showLoading, rand);
          }
        case _ =>
          ok := ShowFailure(outcome);
      }
    }

    /** `fetchAndUpdateData(batch, showLoading)`, its awaits resolving to `outcome`. */
    method FetchAndUpdateData(batch: string, showLoading: bool, outcome: FetchOutcome, rand: nat -> Draw)
      returns (ok: bool)
      requires Valid()
      modifies this, chart
      ensures Valid()
      ensures Fetched(State(), ok) == Fetch(old(State()), batch, showLoading, outcome, rand)
      // the chart object survives a repaint; it is only dropped by an empty result
      ensures old(chart) != null && chart != null ==> chart == old(chart)
    {
      ghost var after := Fetch(State(), batch, showLoading, outcome, rand);
      FetchKeepsConsistent(State(), batch, showLoading, outcome, rand);
      if showLoading {
        button := Button(false, Loading);
      }
      ok := SettleFetch(batch, showLoading, outcome, rand);
      if showLoading {
        button := Button(true, if autoRefresh then StopAutoRefresh else StartAutoRefresh);
      }
      assert Fetched(State(), ok) == after;
    }

    /** Stopping: `clearInterval`, the flag, the button's label and the status line. */
    method StopRefresh()
      modifies this`armed, this`autoRefresh, this`button, this`status
      ensures State() == Stop(old(State()))
    {
      armed := false;
      autoRefresh := false;
      button := button.(caption := StartAutoRefresh);
      status := AutoRefreshStopped(lastDataLength);
    }

    /** Starting: the flag, the button's label, a forced poll and `setInterval` on the batch. */
    method StartRefresh(batch: string, outcome: FetchOutcome, rand: nat -> Draw)
      requires Valid()
      modifies this, chart
      ensures State() == Start(old(State()), batch, outcome, rand)
    {
      ghost var started := Arm();
      var _ := FetchAndUpdateData(batch, true, outcome, rand);
      ghost var fetched := State();
      assert fetched == Fetch(started, batch, true, outcome, rand).page;
      pollBatch := batch;
      assert State() == fetched.(pollBatch := batch);
    }

    /** Raising the flag and relabelling the button; the interval is armed with them. */
    method Arm() returns (ghost started: Page)
      requires Valid()
      modifies this`autoRefresh, this`armed, this`button
      ensures started == old(State()).(autoRefresh := true, armed := true,
                                       button := old(button).(caption := StopAutoRefresh))
      ensures State() == started && Valid()
    {
      started := State().(autoRefresh := true, armed := true, button := button.(caption := StopAutoRefresh));
      ArmingKeepsConsistent(State(), started.button);
      autoRefresh := true;
      button := button.(caption := StopAutoRefresh);
      armed := true;
    }

    /** `toggleAutoRefresh()` with `input` in the batch field. */
    method ToggleAutoRefresh(input: string, outcome: FetchOutcome, rand: nat -> Draw)
      requires Valid()
      modifies this, chart
      ensures Valid()
      ensures State() == Toggle(old(State()), input, outcome, rand)
    {
      ToggleKeepsConsistent(State(), input, outcome, rand);
      var batchNo := Trim(input);
      if batchNo == "" {
        return;
      }
      if autoRefresh {
        StopRefresh();
      } else {
        StartRefresh(batchNo, outcome, rand);
      }
    }

    /** The interval's callback: `fetchAndUpdateData(batchNo, false)`. */
    method TimerFires(outcome: FetchOutcome, rand: nat -> Draw)
      requires Valid()
      modifies this, chart
      ensures Valid()
      ensures State() == Tick(old(State()), outcome, rand)
    {
      TickKeepsConsistent(State(), outcome, rand);
      if armed {
        var _ := FetchAndUpdateData(pollBatch, false, outcome, rand);
      }
    }
  }
}
