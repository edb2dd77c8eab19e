/**
  The data the system passes around: the generator's payload
  (`VaccineData`), a row of the `vaccine_blocks` table, the typed block of
  `get_blocks` (`VaccineBlock`), its reconstructed payload, and the JSON
  object the frontend receives for each block.
 */
module Records {
  import opened Wrappers

  /** The four metadata values the generator writes and the frontend falls back to. */
  const FixedVaccineName: string := "Covishield"
  const FixedManufactureName: string := "Serum Institute"
  const FixedShipmentName: string := "BlueDart"
  const FixedCurrentLocation: string := "Mumbai"

  /** The payload the generator serialises and hashes (src/models.rs, VaccineData). */
  datatype VaccineData = VaccineData(
    temperature: real,
    containerNo: string,
    batchNo: string,
    vaccineName: string,
    manufactureName: string,
    shipmentName: string,
    currentLocation: string,
    timestamp: string)

  /**
    A row of `vaccine_blocks`: `id` is the serial primary key, `alert` may be
    NULL, `createdAt` is the column's default timestamp as text.
   */
  datatype BlockRow = BlockRow(
    id: int,
    indexNum: int,
    batchNo: string,
    containerNo: string,
    payloadHash: string,
    prevHash: string,
    hash: string,
    alert: Option<bool>,
    createdAt: string)

  /** The typed block `get_blocks` builds for each row (src/models.rs, VaccineBlock). */
  datatype VaccineBlock = VaccineBlock(
    id: int,
    indexNum: int,
    batchNo: string,
    containerNo: string,
    payloadHash: string,
    prevHash: string,
    hash: string,
    alert: bool,
    createdAt: string,
    temperature: Option<real>)

  /** The `payload_data` object of the response. */
  datatype PayloadData = PayloadData(
    vaccineName: string,
    manufactureName: string,
    shipmentName: string,
    currentLocation: string,
    temperature: real,
    batchNo: string,
    containerNo: string,
    alert: bool,
    timestamp: string)

  /**
    One element of the JSON array of `GET /blocks/{batch_no}` as the frontend
    reads it. The fields the frontend treats as optional (`d.temperature ||`,
    `block.vaccine_name ||`, `block.payload_data ||`) are `Option`s: `None`
    is a missing or null field.
   */
  datatype BlockJson = BlockJson(
    id: int,
    indexNum: int,
    batchNo: string,
    containerNo: string,
    payloadHash: string,
    prevHash: string,
    hash: string,
    alert: bool,
    createdAt: string,
    temperature: Option<real>,
    vaccineName: Option<string>,
    manufactureName: Option<string>,
    shipmentName: Option<string>,
    currentLocation: Option<string>,
    payloadData: Option<PayloadData>)

  /** A failed query or statement (`sqlx::Error`); its text is only logged. */
  datatype DbError = DbError(message: string)

  /** The rows of one batch, in table order (`WHERE batch_no = $1`). */
  function OfBatch(rows: seq<BlockRow>, batch: string): (r: seq<BlockRow>)
    ensures forall x :: x in r <==> x in rows && x.batchNo == batch
    ensures |r| <= |rows|
  {
    if rows == [] then []
    else (if rows[0].batchNo == batch then [rows[0]] else []) + OfBatch(rows[1..], batch)
  }

  /** The rows of every other batch, in table order. */
  function NotOfBatch(rows: seq<BlockRow>, batch: string): (r: seq<BlockRow>)
    ensures forall x :: x in r <==> x in rows && x.batchNo != batch
    ensures |r| <= |rows|
  {
    if rows == [] then []
    else (if rows[0].batchNo != batch then [rows[0]] else []) + NotOfBatch(rows[1..], batch)
  }

  /** Ids are a primary key. */
  predicate DistinctIds(rows: seq<BlockRow>)
  {
    forall j, k :: 0 <= j < k < |rows| ==> rows[j].id != rows[k].id
  }

  /** No two rows of `batch` share an `index_num`. */
  predicate UniqueIndices(rows: seq<BlockRow>, batch: string)
  {
    forall j, k :: 0 <= j < k < |rows| && rows[j].batchNo == batch && rows[k].batchNo == batch
      ==> rows[j].indexNum != rows[k].indexNum
  }
}
