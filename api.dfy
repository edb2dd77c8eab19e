/**
  The response mapping of `GET /blocks/{batch_no}` (src/api.rs): the
  deterministic fallback temperature derived from the block index, the
  reconstructed payload, and the per-row JSON object. `DefaultHasher` is
  the parameter `seedOf`; the query's rows come in as the result of the
  database call.
 */
module Api {
  import opened Wrappers
  import opened Temperature
  import opened Records

  /** `(seed % 1000) as f32 / 1000.0`, a value in thousandths from 0.000 to 0.999. */
  function Normalized(seed: nat): (n: real)
    ensures 0.0 <= n <= 0.999
    ensures n == 0.0 <==> seed % 1000 == 0
    ensures n > 0.5 <==> seed % 1000 > 500
    ensures n > 0.5 ==> n >= 0.501
  {
    ((seed % 1000) as real) / 1000.0
  }

  /**
    `generate_temperature_from_block(alert, index)`: the seed is the hash of
    the index alone, so the value depends on `(alert, index)` only.
   */
  function TemperatureFromBlock(alert: bool, index: int, seedOf: int -> nat): (t: real)
    // a safe block is served a reading inside the band
    ensures !alert ==> 2.0 <= t <= 7.994 && !IsAlertTemp(t)
    // an alert block is served a reading below the band ...
    ensures alert && Normalized(seedOf(index)) > 0.5 ==> 1.002 <= t <= 1.998 && IsAlertTemp(t)
    // ... or at or above its upper bound
    ensures alert && Normalized(seedOf(index)) <= 0.5 ==> 8.0 <= t <= 10.0
    // an alert block's reading is an alert unless the seed is a multiple of 1000 (then it is exactly 8.0)
    ensures alert ==> (IsAlertTemp(t) <==> seedOf(index) % 1000 != 0)
    ensures alert && seedOf(index) % 1000 == 0 ==> t == MaxSafeTemp
    // the frontend's `||` fallback never replaces a served reading
    ensures t != 0.0
  {
    var normalized := Normalized(seedOf(index));
    if alert then
      if normalized > 0.5 then normalized * 2.0 else 8.0 + normalized * 4.0
    else
      2.0 + normalized * 6.0
  }

  /** `reconstruct_payload_data`: the four fixed metadata strings beside the block's own fields. */
  function ReconstructPayloadData(block: VaccineBlock, temperature: real): (p: PayloadData)
    ensures p.vaccineName == FixedVaccineName && p.manufactureName == FixedManufactureName
    ensures p.shipmentName == FixedShipmentName && p.currentLocation == FixedCurrentLocation
    ensures p.temperature == temperature
    ensures p.batchNo == block.batchNo && p.containerNo == block.containerNo
    ensures p.alert == block.alert && p.timestamp == block.createdAt
  {
    PayloadData(
      FixedVaccineName, FixedManufactureName, FixedShipmentName, FixedCurrentLocation,
      temperature, block.batchNo, block.containerNo, block.alert, block.createdAt)
  }

  /** The closure `get_blocks` maps over the rows: one JSON object per row. */
  function RowToJson(r: BlockRow, seedOf: int -> nat): (j: BlockJson)
    // the row's own columns are copied verbatim
    ensures j.id == r.id && j.indexNum == r.indexNum
    ensures j.batchNo == r.batchNo && j.containerNo == r.containerNo
    ensures j.payloadHash == r.payloadHash && j.prevHash == r.prevHash && j.hash == r.hash
    ensures j.createdAt == r.createdAt
    // a NULL alert is served as false
    ensures j.alert <==> r.alert == Some(true)
    // the temperature is always present, derived from the served alert flag and the index
    ensures j.temperature == Some(TemperatureFromBlock(j.alert, r.indexNum, seedOf))
    // the payload is present and the top-level metadata repeats its fields
    ensures j.payloadData.Some?
    ensures j.payloadData.value
      == PayloadData(FixedVaccineName, FixedManufactureName, FixedShipmentName, FixedCurrentLocation,
                     j.temperature.value, r.batchNo, r.containerNo, j.alert, r.createdAt)
    ensures j.vaccineName == Some(j.payloadData.value.vaccineName)
    ensures j.manufactureName == Some(j.payloadData.value.manufactureName)
    ensures j.shipmentName == Some(j.payloadData.value.shipmentName)
    ensures j.currentLocation == Some(j.payloadData.value.currentLocation)
  {
    var alert := match r.alert case Some(a) => a case None => false;
    var temperature := TemperatureFromBlock(alert, r.indexNum, seedOf);
    var block := VaccineBlock(
      r.id, r.indexNum, r.batchNo, r.containerNo, r.payloadHash, r.prevHash, r.hash,
      alert, r.createdAt, Some(temperature));
    var payload := ReconstructPayloadData(block, temperature);
    BlockJson(
      block.id, block.indexNum, block.batchNo, block.containerNo,
      block.payloadHash, block.prevHash, block.hash, block.alert, block.createdAt,
      Some(temperature),
      Some(payload.vaccineName), Some(payload.manufactureName),
      Some(payload.shipmentName), Some(payload.currentLocation),
      Some(payload))
  }

  /** What `get_blocks` answers: 200 with the JSON array, or 500 with a fixed error body. */
  datatype Response =
    | OkJson(blocks: seq<BlockJson>)
    | InternalServerError(error: string, message: string)
  {
    function Status(): int
    {
      if OkJson? then 200 else 500
    }
  }

  /** `get_blocks` after its query returned `query`. */
  function GetBlocks(query: Result<seq<BlockRow>, DbError>, seedOf: int -> nat): (resp: Response)
    // one object per row, in the order the query returned them
    ensures query.Ok? ==> resp.OkJson? && resp.Status() == 200
    ensures query.Ok? ==> (|resp.blocks| == |query.value|
      && forall k :: 0 <= k < |query.value| ==> resp.blocks[k] == RowToJson(query.value[k], seedOf))
    // a database error is a 500 with the fixed body
    ensures query.Err? ==> (resp.Status() == 500
      && resp == InternalServerError("Database error", "Failed to fetch blockchain data"))
  {
    match query
    case Ok(rows) => OkJson(seq(|rows|, k requires 0 <= k < |rows| => RowToJson(rows[k], seedOf)))
    case Err(_) => InternalServerError("Database error", "Failed to fetch blockchain data")
  }

  /**
    What `SELECT ... WHERE batch_no = $1 ORDER BY index_num` may return:
    exactly the batch's rows, ascending by `index_num` (ties in any order).
   */
  ghost predicate IsBatchQueryResult(table: seq<BlockRow>, batch: string, rows: seq<BlockRow>)
  {
    && multiset(rows) == multiset(OfBatch(table, batch))
    && forall j, k :: 0 <= j < k < |rows| ==> rows[j].indexNum <= rows[k].indexNum
  }

  /** The served array is the batch's blocks in ascending `index_num`: no client-side sort is needed. */
  lemma ServedInIndexOrder(table: seq<BlockRow>, batch: string, rows: seq<BlockRow>, seedOf: int -> nat)
    requires IsBatchQueryResult(table, batch, rows)
    ensures var resp := GetBlocks(Ok(rows), seedOf);
      && resp.OkJson?
      && (forall k :: 0 <= k < |resp.blocks| ==> resp.blocks[k].batchNo == batch)
      && (forall j, k :: 0 <= j < k < |resp.blocks| ==> resp.blocks[j].indexNum <= resp.blocks[k].indexNum)
  {
    var resp := GetBlocks(Ok(rows), seedOf);
    forall k | 0 <= k < |resp.blocks| ensures resp.blocks[k].batchNo == batch {
      assert rows[k] in multiset(rows);
      assert rows[k] in OfBatch(table, batch);
    }
  }

  /** Two rows with the same index and served alert flag are served the same temperature. */
  lemma TemperatureDependsOnIndexAndAlert(rows: seq<BlockRow>, seedOf: int -> nat, j: nat, k: nat)
    requires j < |rows| && k < |rows|
    requires rows[j].indexNum == rows[k].indexNum
    requires (rows[j].alert == Some(true)) == (rows[k].alert == Some(true))
    ensures var resp := GetBlocks(Ok(rows), seedOf);
      resp.OkJson? && resp.blocks[j].temperature == resp.blocks[k].temperature
  {
  }
}
