/**
  The backend block generator (src/blockchain.rs): resume-or-genesis, the
  hash chain over `index|payload_hash|prev_hash`, insert-if-absent into the
  `vaccine_blocks` table, the last-block query and the duplicate cleanup.

  The table is a sequence of rows in insertion order, each with its serial
  `id`. SHA-256 is the parameter `sha`, serde's JSON serialisation of the
  payload is `serialise`. Every database call may fail; a failure is an
  input flag. The endless loop runs over a finite sequence of steps.
 */
module Blockchain {
  import opened Wrappers
  import opened Text
  import opened Temperature
  import opened Records

  const FixedBatch: string := "VAC-000123"
  const FixedContainer: string := "CONT-0001"
  const GenesisPrevHash: string := "0"
  const GenesisIndex: int := 1
  const LowTemp: real := 0.0
  const HighTemp: real := 12.0

  // ---------------------------------------------------------------------------
  // Queries over the table
  // ---------------------------------------------------------------------------

  /**
    `get_last_block`: `(index_num, hash)` of a row of `batch` with the largest
    `index_num`, or `None` when the batch has no rows. Among rows tied at the
    largest index the query may return any; this one returns the earliest.
   */
  function LastBlock(rows: seq<BlockRow>, batch: string): (last: Option<(int, string)>)
    ensures last.None? <==> forall k :: 0 <= k < |rows| ==> rows[k].batchNo != batch
    ensures last.Some? ==>
              exists k :: 0 <= k < |rows| && rows[k].batchNo == batch &&
                          rows[k].indexNum == last.value.0 && rows[k].hash == last.value.1
    ensures last.Some? ==>
              forall k :: 0 <= k < |rows| && rows[k].batchNo == batch ==> rows[k].indexNum <= last.value.0
    decreases |rows|
  {
    if rows == [] then None
    else
      var r := rows[|rows| - 1];
      var before := LastBlock(rows[..|rows| - 1], batch);
      assert forall k :: 0 <= k < |rows| - 1 ==> rows[..|rows| - 1][k] == rows[k];
      if r.batchNo != batch then before
      else if before.Some? && before.value.0 >= r.indexNum then before
      else Some((r.indexNum, r.hash))
  }

  /** The query's `COUNT(*)`: how many rows of `batch` have this `index_num`. */
  function CountAt(rows: seq<BlockRow>, index: int, batch: string): (n: nat)
    ensures n <= |rows|
    ensures n > 0 <==> exists k :: 0 <= k < |rows| && rows[k].indexNum == index && rows[k].batchNo == batch
    decreases |rows|
  {
    if rows == [] then 0
    else
      var rest := CountAt(rows[1..], index, batch);
      assert forall k :: 0 <= k < |rows| - 1 ==> rows[1..][k] == rows[k + 1];
      (if rows[0].indexNum == index && rows[0].batchNo == batch then 1 else 0) + rest
  }

  /** `check_block_exists`: some row has this `index_num` in this batch, that is `COUNT(*) > 0`. */
  predicate BlockExists(rows: seq<BlockRow>, index: int, batch: string)
    ensures BlockExists(rows, index, batch) <==> CountAt(rows, index, batch) > 0
  {
    exists k :: 0 <= k < |rows| && rows[k].indexNum == index && rows[k].batchNo == batch
  }

  // ---------------------------------------------------------------------------
  // Resume
  // ---------------------------------------------------------------------------

  /** The starting `(prev_hash, index)`: on top of the last block, else the genesis state. */
  function ResumePoint(last: Result<Option<(int, string)>, DbError>): (start: (string, int))
    ensures last.Ok? && last.value.Some? ==> start == (last.value.value.1, last.value.value.0 + 1)
    ensures last.Ok? && last.value.None? ==> start == (GenesisPrevHash, GenesisIndex)
    ensures last.Err? ==> start == (GenesisPrevHash, GenesisIndex)
  {
    match last
    case Ok(Some((lastIndex, lastHash))) => (lastHash, lastIndex + 1)
    case Ok(None) => (GenesisPrevHash, GenesisIndex)
    case Err(_) => (GenesisPrevHash, GenesisIndex)
  }

  /** The start the generator computes from the table before cleanup. */
  function StartOf(rows: seq<BlockRow>, lookupFails: bool): (string, int)
  {
    ResumePoint(if lookupFails then Err(DbError("get_last_block")) else Ok(LastBlock(rows, FixedBatch)))
  }

  /**
    A successful lookup resumes above every index the batch already has, and
    chains onto the hash of a block at the largest one.
   */
  lemma ResumeAboveExisting(rows: seq<BlockRow>, batch: string)
    ensures var start := ResumePoint(Ok(LastBlock(rows, batch)));
      forall k :: 0 <= k < |rows| && rows[k].batchNo == batch ==> rows[k].indexNum < start.1
    ensures var start := ResumePoint(Ok(LastBlock(rows, batch)));
      LastBlock(rows, batch).Some? ==>
        exists k :: 0 <= k < |rows| && rows[k].batchNo == batch &&
                    rows[k].indexNum + 1 == start.1 && rows[k].hash == start.0
    ensures LastBlock(rows, batch).None? ==> ResumePoint(Ok(LastBlock(rows, batch))) == ("0", 1)
  {
  }

  // ---------------------------------------------------------------------------
  // One block
  // ---------------------------------------------------------------------------

  /** `rng.random_range(0.0..=12.0)` for a uniform draw `u` in [0, 1]. */
  function SampleTemperature(u: real): (t: real)
    ensures 0.0 <= u <= 1.0 ==> LowTemp <= t <= HighTemp
  {
    LowTemp + u * (HighTemp - LowTemp)
  }

  /** The text hashed into a block hash: `format!("{}|{}|{}", index, payload_hash, prev_hash)`. */
  function HashInput(index: int, payloadHash: string, prevHash: string): string
  {
    IntToString(index) + "|" + payloadHash + "|" + prevHash
  }

  lemma SplitAtFirstBar(a: string, b: string, c: string, d: string)
    requires '|' !in a && '|' !in c
    requires a + "|" + b == c + "|" + d
    ensures a == c && b == d
  {
    var s := a + "|" + b;
    assert s[|a|] == '|' && s[|c|] == '|';
    assert a == s[..|a|] == c;
    assert b == s[|a| + 1..] == d;
  }

  /**
    The hash input parses back uniquely: while payload hashes contain no `|`
    (hex digests do not), two blocks hash the same text only if they agree on
    index, payload hash and previous hash.
   */
  lemma HashInputDetermines(i1: int, p1: string, q1: string, i2: int, p2: string, q2: string)
    requires '|' !in p1 && '|' !in p2
    requires HashInput(i1, p1, q1) == HashInput(i2, p2, q2)
    ensures i1 == i2 && p1 == p2 && q1 == q2
  {
    var n1, n2 := IntToString(i1), IntToString(i2);
    assert HashInput(i1, p1, q1) == n1 + "|" + (p1 + "|" + q1);
    assert HashInput(i2, p2, q2) == n2 + "|" + (p2 + "|" + q2);
    SplitAtFirstBar(n1, p1 + "|" + q1, n2, p2 + "|" + q2);
    IntToStringInjective(i1, i2);
    SplitAtFirstBar(p1, q1, p2, q2);
  }

  /** One iteration's candidate block, before the existence check. */
  datatype Block = Block(
    index: int,
    data: VaccineData,
    payloadHash: string,
    prevHash: string,
    hash: string,
    alert: bool)

  /** One generator iteration's inputs: the temperature draw, the clock, and how the database answers. */
  datatype StepInput = StepInput(
    draw: real,
    timestamp: string,
    createdAt: string,
    checkFails: bool,
    insertFails: bool)

  predicate NoDbFault(step: StepInput)
  {
    !step.checkFails && !step.insertFails
  }

  /** The block one iteration builds at `index` on top of `prevHash`. */
  function StepBlock(sha: string -> string, serialise: VaccineData -> string,
                     index: int, prevHash: string, step: StepInput): (b: Block)
    ensures b.index == index && b.prevHash == prevHash
    ensures b.data.batchNo == FixedBatch && b.data.containerNo == FixedContainer
    ensures b.data.temperature == SampleTemperature(step.draw) && b.data.timestamp == step.timestamp
    ensures b.data.vaccineName == FixedVaccineName && b.data.manufactureName == FixedManufactureName
    ensures b.data.shipmentName == FixedShipmentName && b.data.currentLocation == FixedCurrentLocation
    // the payload hash covers the serialised payload, the block hash covers index, payload hash and link
    ensures b.payloadHash == sha(serialise(b.data))
    ensures b.hash == sha(HashInput(index, b.payloadHash, prevHash))
    ensures b.alert <==> IsAlertTemp(b.data.temperature)
  {
    var temp := SampleTemperature(step.draw);
    var data := VaccineData(temp, FixedContainer, FixedBatch, FixedVaccineName, FixedManufactureName,
                            FixedShipmentName, FixedCurrentLocation, step.timestamp);
    var payloadHash := sha(serialise(data));
    var blockHash := sha(HashInput(index, payloadHash, prevHash));
    Block(index, data, payloadHash, prevHash, blockHash, temp < 2.0 || temp > 8.0)
  }

  /**
    The `prev_hash` after the first `k` iterations from `start = (prev_hash,
    index)`: each iteration's block hash becomes the next link, whether or not
    the block was inserted.
   */
  function ChainLink(sha: string -> string, serialise: VaccineData -> string,
                     start: (string, int), steps: seq<StepInput>, k: nat): string
    requires k <= |steps|
    decreases k
  {
    if k == 0 then start.0
    else StepBlock(sha, serialise, start.1 + (k - 1), ChainLink(sha, serialise, start, steps, k - 1), steps[k - 1]).hash
  }

  /** The block iteration `k` builds: at index `start.1 + k`, on top of the link the earlier iterations left. */
  function ChainBlock(sha: string -> string, serialise: VaccineData -> string,
                      start: (string, int), steps: seq<StepInput>, k: nat): (b: Block)
    requires k < |steps|
    ensures b.index == start.1 + k && b.data.batchNo == FixedBatch
    // the block sits on the previous link, and its hash is the next link
    ensures b.prevHash == ChainLink(sha, serialise, start, steps, k)
    ensures b.hash == ChainLink(sha, serialise, start, steps, k + 1)
  {
    StepBlock(sha, serialise, start.1 + k, ChainLink(sha, serialise, start, steps, k), steps[k])
  }

  /** The row `insert_block` writes for a block. */
  function BlockToRow(id: int, b: Block, createdAt: string): BlockRow
  {
    BlockRow(id, b.index, b.data.batchNo, b.data.containerNo, b.payloadHash, b.prevHash, b.hash,
             Some(b.alert), createdAt)
  }

  /** The table after one iteration's existence check and insert. */
  function InsertIfAbsent(rows: seq<BlockRow>, id: int, b: Block, step: StepInput): (after: seq<BlockRow>)
    ensures after == rows || after == rows + [BlockToRow(id, b, step.createdAt)]
    // a row is added exactly when both calls succeed and no row has the block's (index, batch)
    ensures after != rows <==> NoDbFault(step) && !BlockExists(rows, b.index, b.data.batchNo)
  {
    if step.checkFails || BlockExists(rows, b.index, b.data.batchNo) || step.insertFails then rows
    else rows + [BlockToRow(id, b, step.createdAt)]
  }

  /** Inserting only absent blocks never creates a second row for an index. */
  lemma InsertIfAbsentKeepsUnique(rows: seq<BlockRow>, id: int, b: Block, step: StepInput, batch: string)
    requires UniqueIndices(rows, batch)
    ensures UniqueIndices(InsertIfAbsent(rows, id, b, step), batch)
  {
    var after := InsertIfAbsent(rows, id, b, step);
    if after != rows {
      forall j, k | 0 <= j < k < |after| && after[j].batchNo == batch && after[k].batchNo == batch
        ensures after[j].indexNum != after[k].indexNum
      {
        if k == |rows| {
          assert after[j] == rows[j];
        } else {
          assert after[j] == rows[j] && after[k] == rows[k];
        }
      }
    }
  }

  // ---------------------------------------------------------------------------
  // Duplicate cleanup
  // ---------------------------------------------------------------------------

  /** `r.id` is the smallest id among `batch`'s rows at `r`'s index (`SELECT MIN(id) ... GROUP BY index_num`). */
  predicate IsMinIdOfIndex(pool: seq<BlockRow>, batch: string, r: BlockRow)
  {
    forall k :: 0 <= k < |pool| && pool[k].batchNo == batch && pool[k].indexNum == r.indexNum
      ==> r.id <= pool[k].id
  }

  /** A row survives the DELETE when it is of another batch or is its index's minimum-id row. */
  predicate KeptByCleanup(pool: seq<BlockRow>, batch: string, r: BlockRow)
  {
    r.batchNo != batch || IsMinIdOfIndex(pool, batch, r)
  }

  /** The rows of `rest` the DELETE over `pool` keeps, in order. */
  function KeepRows(pool: seq<BlockRow>, rest: seq<BlockRow>, batch: string): (kept: seq<BlockRow>)
    ensures forall x :: x in kept <==> x in rest && KeptByCleanup(pool, batch, x)
    ensures |kept| <= |rest|
    decreases |rest|
  {
    if rest == [] then []
    else (if KeptByCleanup(pool, batch, rest[0]) then [rest[0]] else []) + KeepRows(pool, rest[1..], batch)
  }

  /** `cleanup_duplicate_blocks(batch)` on the table. */
  function Cleanup(rows: seq<BlockRow>, batch: string): (cleaned: seq<BlockRow>)
    ensures forall x :: x in cleaned <==> x in rows && KeptByCleanup(rows, batch, x)
    ensures |cleaned| <= |rows|
  {
    KeepRows(rows, rows, batch)
  }

  lemma {:induction false} KeepRowsDistinct(pool: seq<BlockRow>, rest: seq<BlockRow>, batch: string)
    requires DistinctIds(rest)
    ensures DistinctIds(KeepRows(pool, rest, batch))
    decreases |rest|
  {
    if rest != [] {
      var tail := KeepRows(pool, rest[1..], batch);
      assert DistinctIds(rest[1..]) by {
        forall j, k | 0 <= j < k < |rest[1..]| ensures rest[1..][j].id != rest[1..][k].id {
          assert rest[1..][j] == rest[j + 1] && rest[1..][k] == rest[k + 1];
        }
      }
      KeepRowsDistinct(pool, rest[1..], batch);
      if KeptByCleanup(pool, batch, rest[0]) {
        var kept := [rest[0]] + tail;
        forall j, k | 0 <= j < k < |kept| ensures kept[j].id != kept[k].id {
          if j == 0 {
            assert kept[k] == tail[k - 1];
            assert kept[k] in rest[1..];
            var m :| 0 <= m < |rest[1..]| && rest[1..][m] == kept[k];
            assert rest[m + 1] == kept[k];
          } else {
            assert kept[j] == tail[j - 1] && kept[k] == tail[k - 1];
          }
        }
      } else {
        assert KeepRows(pool, rest, batch) == tail;
      }
    }
  }

  /** The DELETE leaves the other batches' rows exactly as they were, order included. */
  lemma {:induction false} KeepRowsOtherBatches(pool: seq<BlockRow>, rest: seq<BlockRow>, batch: string)
    ensures NotOfBatch(KeepRows(pool, rest, batch), batch) == NotOfBatch(rest, batch)
    decreases |rest|
  {
    if rest != [] {
      var tail := KeepRows(pool, rest[1..], batch);
      KeepRowsOtherBatches(pool, rest[1..], batch);
      if KeptByCleanup(pool, batch, rest[0]) {
        var kept := [rest[0]] + tail;
        assert kept[0] == rest[0] && kept[1..] == tail;
      } else {
        assert KeepRows(pool, rest, batch) == tail;
      }
    }
  }

  /** Every index that has a row of `batch` has a row with the smallest id there. */
  lemma {:induction false} MinIdRowExists(rows: seq<BlockRow>, batch: string, index: int)
    requires exists j :: 0 <= j < |rows| && rows[j].batchNo == batch && rows[j].indexNum == index
    ensures exists r :: r in rows && r.batchNo == batch && r.indexNum == index && IsMinIdOfIndex(rows, batch, r)
    decreases |rows|
  {
    var init := rows[..|rows| - 1];
    var last := rows[|rows| - 1];
    assert rows == init + [last];
    if exists j :: 0 <= j < |init| && init[j].batchNo == batch && init[j].indexNum == index {
      MinIdRowExists(init, batch, index);
      var r :| r in init && r.batchNo == batch && r.indexNum == index && IsMinIdOfIndex(init, batch, r);
      if last.batchNo == batch && last.indexNum == index && last.id < r.id {
        forall k | 0 <= k < |rows| && rows[k].batchNo == batch && rows[k].indexNum == index
          ensures last.id <= rows[k].id
        {
          if k < |init| { assert rows[k] == init[k]; }
        }
        assert IsMinIdOfIndex(rows, batch, last);
      } else {
        forall k | 0 <= k < |rows| && rows[k].batchNo == batch && rows[k].indexNum == index
          ensures r.id <= rows[k].id
        {
          if k < |init| { assert rows[k] == init[k]; }
        }
        assert IsMinIdOfIndex(rows, batch, r);
      }
    } else {
      assert IsMinIdOfIndex(rows, batch, last);
    }
  }

  /** Only min-id rows of `batch` survive, so no two of them share an index. */
  lemma CleanupUnique(rows: seq<BlockRow>, batch: string)
    requires DistinctIds(rows)
    ensures UniqueIndices(Cleanup(rows, batch), batch)
  {
    var c := Cleanup(rows, batch);
    KeepRowsDistinct(rows, rows, batch);
    forall j, k | 0 <= j < k < |c| && c[j].batchNo == batch && c[k].batchNo == batch
      ensures c[j].indexNum != c[k].indexNum
    {
      assert c[j] in c && c[k] in c;
    }
  }

  /** Every index of `batch` keeps a row. */
  lemma CleanupKeepsEveryIndex(rows: seq<BlockRow>, batch: string)
    ensures forall j :: 0 <= j < |rows| && rows[j].batchNo == batch ==>
              exists r :: r in Cleanup(rows, batch) && r.batchNo == batch && r.indexNum == rows[j].indexNum
  {
    forall j | 0 <= j < |rows| && rows[j].batchNo == batch
      ensures exists r :: r in Cleanup(rows, batch) && r.batchNo == batch && r.indexNum == rows[j].indexNum
    {
      MinIdRowExists(rows, batch, rows[j].indexNum);
      var r :| r in rows && r.batchNo == batch && r.indexNum == rows[j].indexNum && IsMinIdOfIndex(rows, batch, r);
      assert r in Cleanup(rows, batch);
    }
  }

  /**
    After cleanup the batch keeps, for every `index_num` it had, exactly one
    row: the one with the smallest id. Other batches are untouched.
   */
  lemma CleanupSemantics(rows: seq<BlockRow>, batch: string)
    requires DistinctIds(rows)
    ensures NotOfBatch(Cleanup(rows, batch), batch) == NotOfBatch(rows, batch)
    ensures DistinctIds(Cleanup(rows, batch))
    ensures UniqueIndices(Cleanup(rows, batch), batch)
    ensures forall r :: r in Cleanup(rows, batch) && r.batchNo == batch ==> r in rows && IsMinIdOfIndex(rows, batch, r)
    ensures forall j :: 0 <= j < |rows| && rows[j].batchNo == batch ==>
              exists r :: r in Cleanup(rows, batch) && r.batchNo == batch && r.indexNum == rows[j].indexNum
  {
    KeepRowsOtherBatches(rows, rows, batch);
    KeepRowsDistinct(rows, rows, batch);
    CleanupUnique(rows, batch);
    CleanupKeepsEveryIndex(rows, batch);
  }

  // ---------------------------------------------------------------------------
  // The table and the generator
  // ---------------------------------------------------------------------------

  /** The `vaccine_blocks` table: its rows and the next value of the id sequence. */
  class BlockTable {
    var rows: seq<BlockRow>
    var nextId: int

    ghost predicate Valid()
      reads this
    {
      DistinctIds(rows) && forall k :: 0 <= k < |rows| ==> rows[k].id < nextId
    }

    constructor (initial: seq<BlockRow>, firstFreeId: int)
      requires DistinctIds(initial)
      requires forall k :: 0 <= k < |initial| ==> initial[k].id < firstFreeId
      ensures Valid() && rows == initial && nextId == firstFreeId
    {
      rows := initial;
      nextId := firstFreeId;
    }

    /** `insert_block`: appends a row under the next id. */
    method InsertBlock(b: Block, createdAt: string)
      requires Valid()
      modifies this
      ensures Valid()
      ensures rows == old(rows) + [BlockToRow(old(nextId), b, createdAt)]
      ensures nextId == old(nextId) + 1
    {
      rows := rows + [BlockToRow(nextId, b, createdAt)];
      nextId := nextId + 1;
    }

    /** `cleanup_duplicate_blocks`; when the DELETE fails nothing is removed. */
    method CleanupDuplicateBlocks(batch: string, fails: bool)
      requires Valid()
      modifies this`rows
      ensures Valid()
      ensures rows == if fails then old(rows) else Cleanup(old(rows), batch)
    {
      if !fails {
        CleanupSemantics(rows, batch);
        rows := Cleanup(rows, batch);
      }
    }
  }

  /** One pass of the generator loop: build the block, insert it if absent, advance the link and index. */
  method GeneratorStep(table: BlockTable, sha: string -> string, serialise: VaccineData -> string,
                       index: int, prevHash: string, step: StepInput)
    returns (nextPrevHash: string, nextIndex: int)
    requires table.Valid()
    modifies table
    ensures table.Valid()
    // prev_hash and index advance whether the insert happened, was skipped or failed
    ensures nextIndex == index + 1
    ensures nextPrevHash == StepBlock(sha, serialise, index, prevHash, step).hash
    ensures table.rows == InsertIfAbsent(old(table.rows), old(table.nextId),
                                         StepBlock(sha, serialise, index, prevHash, step), step)
    ensures table.nextId == old(table.nextId) + |table.rows| - |old(table.rows)|
  {
    var temp := SampleTemperature(step.draw);
    var data := VaccineData(temp, FixedContainer, FixedBatch, FixedVaccineName, FixedManufactureName,
                            FixedShipmentName, FixedCurrentLocation, step.timestamp);
    var payloadHash := sha(serialise(data));
    var blockHash := sha(HashInput(index, payloadHash, prevHash));
    var alert := temp < 2.0 || temp > 8.0;
    var block := Block(index, data, payloadHash, prevHash, blockHash, alert);
    var found: Result<bool, DbError> :=
      if step.checkFails then Err(DbError("check_block_exists"))
      else Ok(BlockExists(table.rows, index, FixedBatch));
    match found {
      case Ok(true) =>
      case Ok(false) =>
        if !step.insertFails {
          table.InsertBlock(block, step.createdAt);
        }
      case Err(_) =>
    }
    nextPrevHash := blockHash;
    nextIndex := index + 1;
  }

  /** The number of the first `k` steps whose database calls both succeed. */
  function CleanCount(steps: seq<StepInput>, k: nat): nat
    requires k <= |steps|
    decreases k
  {
    if k == 0 then 0
    else CleanCount(steps, k - 1) + (if NoDbFault(steps[k - 1]) then 1 else 0)
  }

  /** The blocks the iterations build, in order: iteration `k` builds the chain's block for `k`. */
  function ChainBlocks(sha: string -> string, serialise: VaccineData -> string,
                       start: (string, int), steps: seq<StepInput>): (blocks: seq<Block>)
    ensures |blocks| == |steps|
    ensures forall k :: 0 <= k < |steps| ==> blocks[k] == ChainBlock(sha, serialise, start, steps, k)
  {
    seq(|steps|, k requires 0 <= k < |steps| => ChainBlock(sha, serialise, start, steps, k))
  }

  /** Block `k` of `blocks` is the batch's block at index `base + k`. */
  predicate Numbered(blocks: seq<Block>, base: int)
  {
    forall k :: 0 <= k < |blocks| ==> blocks[k].index == base + k && blocks[k].data.batchNo == FixedBatch
  }

  lemma ChainBlocksNumbered(sha: string -> string, serialise: VaccineData -> string,
                            start: (string, int), steps: seq<StepInput>)
    ensures Numbered(ChainBlocks(sha, serialise, start, steps), start.1)
  {
    var blocks := ChainBlocks(sha, serialise, start, steps);
    forall k | 0 <= k < |blocks|
      ensures blocks[k].index == start.1 + k && blocks[k].data.batchNo == FixedBatch
    {
      assert blocks[k] == ChainBlock(sha, serialise, start, steps, k);
    }
  }

  /** `r` is exactly the row written for block `r.indexNum - base` by the iteration that built it. */
  predicate IsChainRow(r: BlockRow, blocks: seq<Block>, steps: seq<StepInput>, base: int)
  {
    var k := r.indexNum - base;
    && 0 <= k < |blocks| && k < |steps|
    && r == BlockToRow(r.id, blocks[k], steps[k].createdAt)
  }

  /** Each block after the first sits on the previous block's hash. */
  predicate Linked(blocks: seq<Block>)
  {
    forall k :: 0 < k < |blocks| ==> blocks[k].prevHash == blocks[k - 1].hash
  }

  /** Each block's hash is `sha` of its own index, payload hash and link. */
  predicate HashesCover(sha: string -> string, blocks: seq<Block>)
  {
    forall k :: 0 <= k < |blocks| ==> blocks[k].hash == sha(HashInput(blocks[k].index, blocks[k].payloadHash, blocks[k].prevHash))
  }

  lemma ChainBlockHash(sha: string -> string, serialise: VaccineData -> string,
                       start: (string, int), steps: seq<StepInput>, k: nat)
    requires k < |steps|
    ensures var b := ChainBlock(sha, serialise, start, steps, k);
      b.hash == sha(HashInput(b.index, b.payloadHash, b.prevHash))
  {
  }

  lemma ChainBlockLinked(sha: string -> string, serialise: VaccineData -> string,
                         start: (string, int), steps: seq<StepInput>, k: nat)
    requires k + 1 < |steps|
    ensures ChainBlock(sha, serialise, start, steps, k + 1).prevHash == ChainBlock(sha, serialise, start, steps, k).hash
  {
  }

  /** The iterations' blocks form a hash chain: each sits on its predecessor's hash and hashes its own fields. */
  lemma ChainBlocksLinked(sha: string -> string, serialise: VaccineData -> string,
                          start: (string, int), steps: seq<StepInput>)
    ensures Linked(ChainBlocks(sha, serialise, start, steps))
    ensures HashesCover(sha, ChainBlocks(sha, serialise, start, steps))
  {
    var blocks := ChainBlocks(sha, serialise, start, steps);
    forall k | 0 < k < |blocks| ensures blocks[k].prevHash == blocks[k - 1].hash {
      ChainBlockLinked(sha, serialise, start, steps, k - 1);
      assert blocks[k - 1] == ChainBlock(sha, serialise, start, steps, k - 1);
      assert blocks[k] == ChainBlock(sha, serialise, start, steps, k);
    }
    forall k | 0 <= k < |blocks|
      ensures blocks[k].hash == sha(HashInput(blocks[k].index, blocks[k].payloadHash, blocks[k].prevHash))
    {
      ChainBlockHash(sha, serialise, start, steps, k);
      assert blocks[k] == ChainBlock(sha, serialise, start, steps, k);
    }
  }

  /** Two chain rows at consecutive indices are linked: the later one's prev_hash is the earlier one's hash. */
  lemma ChainRowsLinked(r1: BlockRow, r2: BlockRow, sha: string -> string, blocks: seq<Block>,
                        steps: seq<StepInput>, base: int)
    requires Linked(blocks) && HashesCover(sha, blocks)
    requires IsChainRow(r1, blocks, steps, base) && IsChainRow(r2, blocks, steps, base)
    requires r2.indexNum == r1.indexNum + 1
    ensures r2.prevHash == r1.hash
    ensures r1.hash == sha(HashInput(r1.indexNum, r1.payloadHash, r1.prevHash))
  {
    var k1 := r1.indexNum - base;
    assert r2.indexNum - base == k1 + 1;
    assert blocks[k1 + 1].prevHash == blocks[k1].hash;
  }

  /** The loop only appends: `cleaned` is still a prefix of the table. */
  predicate Extends(rows: seq<BlockRow>, cleaned: seq<BlockRow>)
  {
    |cleaned| <= |rows| && rows[..|cleaned|] == cleaned
  }

  /** Every row after `from` is a chain row. */
  predicate ChainRowsFrom(rows: seq<BlockRow>, from: nat, blocks: seq<Block>, steps: seq<StepInput>, base: int)
  {
    forall m :: from <= m < |rows| ==> IsChainRow(rows[m], blocks, steps, base)
  }

  /** The rows after `from` have increasing indices, all below `bound`. */
  predicate IncreasingBelow(rows: seq<BlockRow>, from: nat, bound: int)
  {
    && (forall m :: from <= m < |rows| ==> rows[m].indexNum < bound)
    && (forall m1, m2 :: from <= m1 < m2 < |rows| ==> rows[m1].indexNum < rows[m2].indexNum)
  }

  /** Every row after `from` is a chain row below `bound`, and their indices increase. */
  predicate AppendedChainRows(rows: seq<BlockRow>, from: nat, blocks: seq<Block>, steps: seq<StepInput>,
                              base: int, bound: int)
  {
    ChainRowsFrom(rows, from, blocks, steps, base) && IncreasingBelow(rows, from, bound)
  }

  /** No row of the generator's batch has reached index `bound`. */
  predicate BatchBelow(rows: seq<BlockRow>, bound: int)
  {
    forall m :: 0 <= m < |rows| && rows[m].batchNo == FixedBatch ==> rows[m].indexNum < bound
  }

  /**
    Before the loop: a successful cleanup leaves one row per index, and a
    successful resume starts above every index the batch still has.
   */
  lemma GeneratorSetup(initial: seq<BlockRow>, lookupFails: bool, cleanupFails: bool)
    requires DistinctIds(initial)
    ensures var cleaned := if cleanupFails then initial else Cleanup(initial, FixedBatch);
      && (!cleanupFails ==> UniqueIndices(cleaned, FixedBatch))
      && (!lookupFails ==> BatchBelow(cleaned, StartOf(initial, lookupFails).1))
  {
    var cleaned := if cleanupFails then initial else Cleanup(initial, FixedBatch);
    if !cleanupFails {
      CleanupUnique(initial, FixedBatch);
    }
    if !lookupFails {
      ResumeAboveExisting(initial, FixedBatch);
      assert forall m :: 0 <= m < |cleaned| ==> cleaned[m] in initial;
    }
  }

  // ---------------------------------------------------------------------------
  // The generator loop
  // ---------------------------------------------------------------------------

  /**
    The table after the first `k` iterations on top of `rows0`, with the id
    sequence at `id0`: iteration `k` inserts `blocks[k]` if absent, under the
    next free id.
   */
  function GeneratorRows(rows0: seq<BlockRow>, id0: int, blocks: seq<Block>, steps: seq<StepInput>, k: nat)
    : seq<BlockRow>
    requires |blocks| == |steps| && k <= |steps|
    decreases k
  {
    if k == 0 then rows0
    else
      var before := GeneratorRows(rows0, id0, blocks, steps, k - 1);
      InsertIfAbsent(before, id0 + |before| - |rows0|, blocks[k - 1], steps[k - 1])
  }

  /** Iteration `k` inserts block `k`, if absent, under the next free id. */
  lemma GeneratorRowsStep(rows0: seq<BlockRow>, id0: int, blocks: seq<Block>, steps: seq<StepInput>, k: nat)
    requires |blocks| == |steps| && k < |steps|
    ensures GeneratorRows(rows0, id0, blocks, steps, k + 1)
         == InsertIfAbsent(GeneratorRows(rows0, id0, blocks, steps, k),
                           id0 + |GeneratorRows(rows0, id0, blocks, steps, k)| - |rows0|, blocks[k], steps[k])
  {
  }

  /** The same step, for a table held in variables. */
  lemma GeneratorRowsNext(rows0: seq<BlockRow>, id0: int, blocks: seq<Block>, steps: seq<StepInput>, k: nat,
                          before: seq<BlockRow>, id: int, after: seq<BlockRow>)
    requires |blocks| == |steps| && k < |steps|
    requires before == GeneratorRows(rows0, id0, blocks, steps, k) && id == id0 + |before| - |rows0|
    requires after == InsertIfAbsent(before, id, blocks[k], steps[k])
    ensures after == GeneratorRows(rows0, id0, blocks, steps, k + 1)
  {
    GeneratorRowsStep(rows0, id0, blocks, steps, k);
  }

  /** Appending a row keeps the cleaned table a prefix. */
  lemma AppendKeepsExtends(rows: seq<BlockRow>, cleaned: seq<BlockRow>, r: BlockRow)
    requires Extends(rows, cleaned)
    ensures Extends(rows + [r], cleaned)
  {
    assert (rows + [r])[..|cleaned|] == rows[..|cleaned|];
  }

  /** A pass never removes rows: the cleaned table stays a prefix. */
  lemma InsertIfAbsentExtends(rows: seq<BlockRow>, cleaned: seq<BlockRow>, id: int, b: Block, step: StepInput)
    requires Extends(rows, cleaned)
    ensures Extends(InsertIfAbsent(rows, id, b, step), cleaned)
  {
    if InsertIfAbsent(rows, id, b, step) != rows {
      AppendKeepsExtends(rows, cleaned, BlockToRow(id, b, step.createdAt));
    }
  }

  /** The loop only appends: the table it starts from stays a prefix. */
  lemma {:induction false} GeneratorRowsExtend(rows0: seq<BlockRow>, id0: int, blocks: seq<Block>,
                                               steps: seq<StepInput>, k: nat)
    requires |blocks| == |steps| && k <= |steps|
    ensures Extends(GeneratorRows(rows0, id0, blocks, steps, k), rows0)
    decreases k
  {
    if k == 0 {
      assert rows0[..|rows0|] == rows0;
    } else {
      GeneratorRowsExtend(rows0, id0, blocks, steps, k - 1);
      GeneratorRowsStep(rows0, id0, blocks, steps, k - 1);
      var before := GeneratorRows(rows0, id0, blocks, steps, k - 1);
      InsertIfAbsentExtends(before, rows0, id0 + |before| - |rows0|, blocks[k - 1], steps[k - 1]);
    }
  }

  /** Pass `k` appends, if anything, the row of block `k`, which is a chain row. */
  lemma InsertBlockKeepsChainRows(rows: seq<BlockRow>, from: nat, blocks: seq<Block>, steps: seq<StepInput>,
                                  base: int, k: nat, id: int)
    requires Numbered(blocks, base) && |blocks| == |steps| && k < |steps|
    requires ChainRowsFrom(rows, from, blocks, steps, base)
    ensures ChainRowsFrom(InsertIfAbsent(rows, id, blocks[k], steps[k]), from, blocks, steps, base)
  {
    var after := InsertIfAbsent(rows, id, blocks[k], steps[k]);
    if after != rows {
      var r := BlockToRow(id, blocks[k], steps[k].createdAt);
      assert after == rows + [r];
      forall m | from <= m < |after| ensures IsChainRow(after[m], blocks, steps, base) {
        if m < |rows| {
          assert after[m] == rows[m];
        } else {
          assert r.indexNum - base == k;
        }
      }
    }
  }

  /** Pass `k` appends, if anything, a row at index `base + k`, above every earlier appended row. */
  lemma InsertBlockKeepsIncreasing(rows: seq<BlockRow>, from: nat, blocks: seq<Block>, steps: seq<StepInput>,
                                   base: int, k: nat, id: int)
    requires Numbered(blocks, base) && |blocks| == |steps| && k < |steps|
    requires IncreasingBelow(rows, from, base + k)
    ensures IncreasingBelow(InsertIfAbsent(rows, id, blocks[k], steps[k]), from, base + k + 1)
  {
    var after := InsertIfAbsent(rows, id, blocks[k], steps[k]);
    if after != rows {
      var r := BlockToRow(id, blocks[k], steps[k].createdAt);
      assert after == rows + [r] && r.indexNum == base + k;
      forall m | from <= m < |after| ensures after[m].indexNum < base + k + 1 {
        if m < |rows| {
          assert after[m] == rows[m];
        }
      }
      forall m1, m2 | from <= m1 < m2 < |after| ensures after[m1].indexNum < after[m2].indexNum {
        assert after[m1] == rows[m1];
        if m2 < |rows| {
          assert after[m2] == rows[m2];
        }
      }
    }
  }

  /** Every row the loop appended is a chain row. */
  lemma {:induction false} GeneratorRowsAreChain(rows0: seq<BlockRow>, id0: int, blocks: seq<Block>,
                                                 steps: seq<StepInput>, base: int, k: nat)
    requires Numbered(blocks, base) && |blocks| == |steps| && k <= |steps|
    ensures ChainRowsFrom(GeneratorRows(rows0, id0, blocks, steps, k), |rows0|, blocks, steps, base)
    decreases k
  {
    if k > 0 {
      GeneratorRowsAreChain(rows0, id0, blocks, steps, base, k - 1);
      var before := GeneratorRows(rows0, id0, blocks, steps, k - 1);
      var id := id0 + |before| - |rows0|;
      InsertBlockKeepsChainRows(before, |rows0|, blocks, steps, base, k - 1, id);
      GeneratorRowsNext(rows0, id0, blocks, steps, k - 1, before, id, InsertIfAbsent(before, id, blocks[k - 1], steps[k - 1]));
    }
  }

  /** The rows the loop appended have increasing indices, below the next index. */
  lemma {:induction false} GeneratorRowsIncreasing(rows0: seq<BlockRow>, id0: int, blocks: seq<Block>,
                                                   steps: seq<StepInput>, base: int, k: nat)
    requires Numbered(blocks, base) && |blocks| == |steps| && k <= |steps|
    ensures IncreasingBelow(GeneratorRows(rows0, id0, blocks, steps, k), |rows0|, base + k)
    decreases k
  {
    if k > 0 {
      GeneratorRowsIncreasing(rows0, id0, blocks, steps, base, k - 1);
      var before := GeneratorRows(rows0, id0, blocks, steps, k - 1);
      var id := id0 + |before| - |rows0|;
      InsertBlockKeepsIncreasing(before, |rows0|, blocks, steps, base, k - 1, id);
      GeneratorRowsNext(rows0, id0, blocks, steps, k - 1, before, id, InsertIfAbsent(before, id, blocks[k - 1], steps[k - 1]));
    }
  }

  /** On a table that starts with one row per index, the loop keeps one row per index. */
  lemma {:induction false} GeneratorRowsUnique(rows0: seq<BlockRow>, id0: int, blocks: seq<Block>,
                                               steps: seq<StepInput>, k: nat)
    requires |blocks| == |steps| && k <= |steps|
    requires UniqueIndices(rows0, FixedBatch)
    ensures UniqueIndices(GeneratorRows(rows0, id0, blocks, steps, k), FixedBatch)
    decreases k
  {
    if k > 0 {
      GeneratorRowsUnique(rows0, id0, blocks, steps, k - 1);
      GeneratorRowsStep(rows0, id0, blocks, steps, k - 1);
      var before := GeneratorRows(rows0, id0, blocks, steps, k - 1);
      InsertIfAbsentKeepsUnique(before, id0 + |before| - |rows0|, blocks[k - 1], steps[k - 1], FixedBatch);
    }
  }

  /** Appending the batch's row at `bound` moves the bound up by one. */
  lemma AppendKeepsBatchBelow(rows: seq<BlockRow>, r: BlockRow, bound: int)
    requires BatchBelow(rows, bound) && r.indexNum == bound
    ensures BatchBelow(rows + [r], bound + 1)
  {
    var after := rows + [r];
    assert forall m :: 0 <= m < |rows| ==> after[m] == rows[m];
  }

  /** With the batch below block `k`'s index, pass `k` inserts exactly when its database calls succeed. */
  lemma InsertBlockCount(rows: seq<BlockRow>, blocks: seq<Block>, steps: seq<StepInput>, base: int, k: nat, id: int)
    requires Numbered(blocks, base) && |blocks| == |steps| && k < |steps|
    requires BatchBelow(rows, base + k)
    ensures var after := InsertIfAbsent(rows, id, blocks[k], steps[k]);
      && BatchBelow(after, base + k + 1)
      && |after| == |rows| + (if NoDbFault(steps[k]) then 1 else 0)
  {
    var after := InsertIfAbsent(rows, id, blocks[k], steps[k]);
    if NoDbFault(steps[k]) {
      assert !BlockExists(rows, blocks[k].index, blocks[k].data.batchNo);
      var r := BlockToRow(id, blocks[k], steps[k].createdAt);
      assert after == rows + [r];
      AppendKeepsBatchBelow(rows, r, base + k);
    } else {
      assert after == rows;
    }
  }

  /**
    Starting above every index of the batch, no iteration finds its block
    already there: every iteration whose database calls succeed inserts, and
    the batch stays below the next index.
   */
  lemma {:induction false} GeneratorRowsCount(rows0: seq<BlockRow>, id0: int, blocks: seq<Block>,
                                              steps: seq<StepInput>, base: int, k: nat)
    requires Numbered(blocks, base) && |blocks| == |steps| && k <= |steps|
    requires BatchBelow(rows0, base)
    ensures BatchBelow(GeneratorRows(rows0, id0, blocks, steps, k), base + k)
    ensures |GeneratorRows(rows0, id0, blocks, steps, k)| == |rows0| + CleanCount(steps, k)
    decreases k
  {
    if k > 0 {
      GeneratorRowsCount(rows0, id0, blocks, steps, base, k - 1);
      GeneratorRowsStep(rows0, id0, blocks, steps, k - 1);
      var before := GeneratorRows(rows0, id0, blocks, steps, k - 1);
      InsertBlockCount(before, blocks, steps, base, k - 1, id0 + |before| - |rows0|);
    }
  }

  /** The `k`-th pass of the generator loop, on the state the first `k` passes left. */
  method RunStep(table: BlockTable, sha: string -> string, serialise: VaccineData -> string,
                 ghost rows0: seq<BlockRow>, ghost id0: int, ghost blocks: seq<Block>,
                 start: (string, int), steps: seq<StepInput>, k: nat, prevHash: string)
    returns (nextPrevHash: string, nextIndex: int)
    requires k < |steps| && table.Valid()
    requires blocks == ChainBlocks(sha, serialise, start, steps)
    requires table.rows == GeneratorRows(rows0, id0, blocks, steps, k)
    requires prevHash == ChainLink(sha, serialise, start, steps, k)
    requires table.nextId == id0 + |table.rows| - |rows0|
    modifies table
    ensures table.Valid()
    ensures nextIndex == start.1 + k + 1
    ensures table.rows == GeneratorRows(rows0, id0, blocks, steps, k + 1)
    ensures nextPrevHash == ChainLink(sha, serialise, start, steps, k + 1)
    ensures table.nextId == id0 + |table.rows| - |rows0|
  {
    assert blocks[k] == ChainBlock(sha, serialise, start, steps, k)
                     == StepBlock(sha, serialise, start.1 + k, prevHash, steps[k]);
    ghost var before, id := table.rows, table.nextId;
    nextPrevHash, nextIndex := GeneratorStep(table, sha, serialise, start.1 + k, prevHash, steps[k]);
    GeneratorRowsNext(rows0, id0, blocks, steps, k, before, id, table.rows);
  }

  /** The generator loop from `start` over `steps`. */
  method RunSteps(table: BlockTable, sha: string -> string, serialise: VaccineData -> string,
                  start: (string, int), steps: seq<StepInput>)
    returns (prevHash: string, index: int)
    requires table.Valid()
    modifies table
    ensures table.Valid()
    ensures index == start.1 + |steps| && prevHash == ChainLink(sha, serialise, start, steps, |steps|)
    ensures table.rows == GeneratorRows(old(table.rows), old(table.nextId),
                                        ChainBlocks(sha, serialise, start, steps), steps, |steps|)
  {
    ghost var rows0, id0 := table.rows, table.nextId;
    ghost var blocks := ChainBlocks(sha, serialise, start, steps);
    prevHash, index := start.0, start.1;
    var k := 0;
    while k < |steps|
      invariant 0 <= k <= |steps|
      invariant table.Valid()
      invariant index == start.1 + k
      invariant prevHash == ChainLink(sha, serialise, start, steps, k)
      invariant table.rows == GeneratorRows(rows0, id0, blocks, steps, k)
      invariant table.nextId == id0 + |table.rows| - |rows0|
    {
      prevHash, index := RunStep(table, sha, serialise, rows0, id0, blocks, start, steps, k, prevHash);
      k := k + 1;
    }
  }

  /**
    `start_generator` run for `|steps|` iterations: resume (or start from
    genesis), clean up duplicates, then loop.
   */
  method StartGenerator(table: BlockTable, sha: string -> string, serialise: VaccineData -> string,
                        lookupFails: bool, cleanupFails: bool, steps: seq<StepInput>)
    returns (prevHash: string, index: int)
    requires table.Valid()
    modifies table
    ensures table.Valid()
    // indices are consecutive from the start point and each link is the previous iteration's hash
    ensures var start := StartOf(old(table.rows), lookupFails);
      index == start.1 + |steps| && prevHash == ChainLink(sha, serialise, start, steps, |steps|)
    // the table is the loop's run on the cleaned table
    ensures var cleaned := if cleanupFails then old(table.rows) else Cleanup(old(table.rows), FixedBatch);
      var start := StartOf(old(table.rows), lookupFails);
      table.rows == GeneratorRows(cleaned, old(table.nextId), ChainBlocks(sha, serialise, start, steps), steps, |steps|)
    // the loop only appends to the cleaned table, and every row it appends is the chain's block
    // for its index, in increasing index order
    ensures var cleaned := if cleanupFails then old(table.rows) else Cleanup(old(table.rows), FixedBatch);
      var start := StartOf(old(table.rows), lookupFails);
      && Extends(table.rows, cleaned)
      && AppendedChainRows(table.rows, |cleaned|, ChainBlocks(sha, serialise, start, steps), steps,
                           start.1, start.1 + |steps|)
    // a successful cleanup's one row per index is kept
    ensures !cleanupFails ==> UniqueIndices(table.rows, FixedBatch)
    // after a successful resume every iteration whose database calls succeed inserts its block
    ensures var cleaned := if cleanupFails then old(table.rows) else Cleanup(old(table.rows), FixedBatch);
      !lookupFails ==> |table.rows| == |cleaned| + CleanCount(steps, |steps|)
  {
    ghost var initial, id0 := table.rows, table.nextId;
    var lookup: Result<Option<(int, string)>, DbError> :=
      if lookupFails then Err(DbError("get_last_block")) else Ok(LastBlock(table.rows, FixedBatch));
    var start := ResumePoint(lookup);

    table.CleanupDuplicateBlocks(FixedBatch, cleanupFails);
    ghost var cleaned := table.rows;
    GeneratorSetup(initial, lookupFails, cleanupFails);
    prevHash, index := RunSteps(table, sha, serialise, start, steps);
    ghost var blocks := ChainBlocks(sha, serialise, start, steps);
    ChainBlocksNumbered(sha, serialise, start, steps);
    GeneratorRowsExtend(cleaned, id0, blocks, steps, |steps|);
    GeneratorRowsAreChain(cleaned, id0, blocks, steps, start.1, |steps|);
    GeneratorRowsIncreasing(cleaned, id0, blocks, steps, start.1, |steps|);
    if !cleanupFails {
      GeneratorRowsUnique(cleaned, id0, blocks, steps, |steps|);
    }
    if !lookupFails {
      GeneratorRowsCount(cleaned, id0, blocks, steps, start.1, |steps|);
    }
  }
}
