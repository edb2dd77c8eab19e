# Cold chain integrity: a Dafny model

Cold Chain Integrity is a prototype that monitors the temperature of one
vaccine batch. A Rust backend generates one temperature reading every ten
seconds. It wraps each reading in a block and chains the blocks by SHA-256:
each block's hash covers its index, the hash of its payload and the previous
block's hash. The blocks go into the PostgreSQL table `vaccine_blocks`. An
HTTP endpoint `GET /blocks/{batch_no}` serves the batch's blocks as JSON.
Each served block carries a temperature derived from its index and alert
flag, plus its reconstructed payload. Two browser scripts show the data:

- `frontend/script.js` is a one-shot viewer. It fetches on a button click and
  draws a seven-column table and a chart whose points are coloured by the
  alert flag.
- `frontend/script_old.js` is a live dashboard. Its auto-refresh toggle
  starts and stops a ten-second poll. It repaints the nine-column table only
  when the number of records changes, and it updates a chart in place whose
  points are coloured by temperature band.

The model consists of these modules:

- `Wrappers`: `Option` and `Result`.
- `Text`: decimal rendering of integers and JavaScript's `trim`.
- `Temperature`: the safe band [2.0, 8.0], the alert rule, the synthesised
  reading, the point colour and the status severity.
- `Records`: the payload, table row, served block and JSON object.
- `Api`: the response mapping of `get_blocks`.
- `Blockchain`: resume, hash chain, insert-if-absent and duplicate cleanup,
  with the generator as imperative code over a `BlockTable` object.
- `View`: what both scripts share, including the temperature fallback,
  labels, metadata fallbacks, status, fetch outcomes and the row detail view.
- `AutoRefresh`: the live dashboard, as the class `LivePage` over a
  `LiveChart` object.
- `FetchPage`: the one-shot viewer, as the class `Viewer` over a
  `StaticChart` object.

Each stateful class has a ghost `State()` that returns a datatype. Each
method is proved to move that state as a specification function says:
`Fetch`, `Toggle` and `Tick` for the dashboard, `Click` for the viewer. The
properties are then lemmas about those functions, and a `Consistent`
invariant is preserved by every operation.

The block generator is proved the same way. `ChainBlocks` is the sequence
of blocks the iterations build, each on the previous one's hash.
`GeneratorRows` is the table after the first `k` iterations insert those
blocks where absent. `RunSteps` and `StartGenerator` are proved to leave
that table, and lemmas about `GeneratorRows` give the prefix, chain-row,
ordering, uniqueness and count properties.

Inputs that are not code the model can see are parameters:

- SHA-256 is `sha`.
- serde's JSON serialisation of the payload is `serialise`.
- Rust's `DefaultHasher` applied to an index is `seedOf`.
- `Math.random()` draws are `rand`, one `Draw` per record.
- The generator's `StdRng` draw is `StepInput.draw`.
- The clock is `StepInput.timestamp` and `StepInput.createdAt`.
- Each await of `fetch` or `res.json()` resolves to a `FetchOutcome`.
- Each database call may fail, modelled as an input flag.

Where the code and its documentation disagree, the model follows the code:

- The client never sorts the records: they are shown in the order the
  server returns them, which is ascending `index_num`.
- An empty result keeps `lastDataLength`. If the records then come back at
  their old count, no later unforced poll repaints, and the "No records"
  placeholder stays.
- Stopping auto-refresh does not reset `lastDataLength`.
- When the toggle stops a running refresh, the batch field only has to be
  non-blank.
- A blank batch field cannot stop a running refresh.
- The "Live: N blocks" status text is overwritten at once by `updateStatus`.
- A poll that cannot reach the server says auto-refresh is paused, but the
  interval keeps running. An HTTP error status shows `✗ Error: …` instead.

## Model

| member | source | states |
|---|---|---|
| Text.NatToString | src/blockchain.rs:67 | The numeral of a natural number is non-empty and made of digits, with at least two digits from 10 up. |
| Text.NatToStringInjective | src/blockchain.rs:67 | Distinct natural numbers have distinct numerals. |
| Text.IntToString | src/blockchain.rs:67 | The decimal text of an index is non-empty, contains no `\|`, starts with `-` exactly for negative numbers and is otherwise made of digits. |
| Text.IntToStringInjective | src/blockchain.rs:67 | Distinct indices render as distinct texts. |
| Text.TrimStart | frontend/script.js:165 | The result is a suffix of the input. It drops only whitespace and does not start with whitespace. |
| Text.TrimEnd | frontend/script.js:165 | The result is a prefix of the input. It drops only whitespace and does not end with whitespace. |
| Text.Trim | frontend/script.js:165 | The trimmed field is no longer than the field, and it neither starts nor ends with whitespace. |
| Text.TrimBlankIff | frontend/script.js:165-166 | `trim()` gives the empty string exactly when the field is all whitespace, so `!batchNo` is that test. |
| Text.TrimIsSlice | frontend/script.js:165 | The trimmed batch is a contiguous slice of the field, with whitespace only outside it and no whitespace at its ends. |
| Temperature.GenerateTemperature | frontend/script_old.js:18-28 | For draws in [0, 1), a non-alert reading is inside [2, 8) and is never an alert. An alert reading is in [0, 2) when the first draw exceeds 0.5, otherwise in [8, 12). It is an alert reading except at exactly 8.0, which happens only when the second draw is 0. |
| Temperature.PointColourOf | frontend/script_old.js:342-350 | Blue exactly on a bound of the band, green strictly inside it, red exactly for the backend's alert readings. |
| Temperature.StatusSeverity | frontend/script_old.js:31-47 | Success exactly when there is no alert. Warning exactly when 0 < alerts and 4·alerts < total. Danger otherwise. An empty set is a success, so the division by zero is never reached. |
| Temperature.RatioBelowQuarter | frontend/script_old.js:40 | The real ratio test `alertCount / totalCount < 0.25` equals the integer test `4·alertCount < totalCount`. |
| Records.OfBatch | src/api.rs:95-98 | The result holds exactly the rows of the batch. |
| Records.NotOfBatch | src/blockchain.rs:138-144 | The result holds exactly the rows of other batches. |
| Api.Normalized | src/api.rs:61 | `(seed % 1000) / 1000` lies in [0, 0.999]. It is 0 exactly for multiples of 1000, and above 0.5 exactly when the remainder exceeds 500. |
| Api.TemperatureFromBlock | src/api.rs:51-74 | A safe block gets a reading in [2, 7.994] that is not an alert. An alert block gets [1.002, 1.998] or [8, 10]. An alert block's reading is an alert exactly when the seed is not a multiple of 1000; otherwise it is exactly 8.0. The reading is never 0. |
| Api.ReconstructPayloadData | src/api.rs:77-89 | The payload holds the four fixed metadata strings, the given temperature, and the block's batch, container, alert and creation time. |
| Api.RowToJson | src/api.rs:107-144 | The row's columns are copied verbatim. A NULL alert is served as false. The temperature is present and derived from the served alert and the index. The top-level metadata repeats the payload's fields. |
| Api.GetBlocks | src/api.rs:91-155 | A successful query gives 200 with one object per row, in the query's order. A database error gives 500 with the fixed error body. |
| Api.ServedInIndexOrder | src/api.rs:93-101 | Given what the SQL query may return, the served array holds only the batch's blocks, in ascending `index_num`. |
| Api.TemperatureDependsOnIndexAndAlert | src/api.rs:51-58 | Rows with equal index and served alert flag are served equal temperatures. |
| Blockchain.LastBlock | src/blockchain.rs:100-115 | None exactly when the batch has no row. Otherwise the result is the index and hash of a row of the batch, and no row of the batch has a larger index. |
| Blockchain.CountAt | src/blockchain.rs:118-129 | The `COUNT(*)` of an index in a batch is at most the table's size, and it is positive exactly when some row of the batch has that index. |
| Blockchain.BlockExists | src/blockchain.rs:118-132 | A block exists exactly when the `COUNT(*)` of its index and batch is positive. |
| Blockchain.ResumePoint | src/blockchain.rs:17-31 | A last block `(i, h)` resumes at `(h, i+1)`. No block, or a failed lookup, starts at genesis `("0", 1)`. |
| Blockchain.ResumeAboveExisting | src/blockchain.rs:17-31 | After a successful lookup the start index exceeds every index of the batch, and the start hash is the hash of a block just below it. An empty batch starts at `("0", 1)`. |
| Blockchain.SampleTemperature | src/blockchain.rs:36-48 | A uniform draw in [0, 1] gives a reading in [0, 12]. |
| Blockchain.HashInput | src/blockchain.rs:67 | No contract of its own: the text `index\|payload_hash\|prev_hash` that is hashed. That it parses back uniquely is `HashInputDetermines`. |
| Blockchain.HashInputDetermines | src/blockchain.rs:67 | When payload hashes contain no `\|`, equal hash inputs mean equal index, payload hash and previous hash. |
| Blockchain.StepBlock | src/blockchain.rs:46-70 | The block holds the fixed batch, container and metadata, the sampled temperature and the timestamp. Its payload hash is `sha` of the serialised payload. Its hash is `sha` of `index\|payload_hash\|prev_hash`. Its alert flag is set exactly for readings outside [2, 8]. |
| Blockchain.BlockToRow | src/db.rs:9-34 | No contract of its own: the seven columns `insert_block` writes, beside the serial `id` and `created_at`. That the generator's appended rows are its chain blocks' rows is stated by `StartGenerator`. |
| Blockchain.InsertIfAbsent | src/blockchain.rs:73-88 | The table is unchanged or gains exactly the block's row. It gains it exactly when the existence check and the insert both succeed and no row of the batch has that index. |
| Blockchain.InsertIfAbsentKeepsUnique | src/blockchain.rs:73-88 | Inserting only absent blocks keeps at most one row per index. |
| Blockchain.KeepRows | src/blockchain.rs:138-144 | The DELETE keeps exactly the rows of other batches and the minimum-id rows of each index. |
| Blockchain.KeepRowsDistinct | src/blockchain.rs:138-144 | Cleanup keeps ids distinct, and no two kept rows of the batch share an index. |
| Blockchain.KeepRowsOtherBatches | src/blockchain.rs:144 | Cleanup leaves other batches' rows as they were, in order. |
| Blockchain.MinIdRowExists | src/blockchain.rs:140-143 | Every index of the batch has a minimum-id row. |
| Blockchain.Cleanup | src/blockchain.rs:135-157 | A row survives exactly when it is of another batch or has the smallest id at its index. The table never grows. |
| Blockchain.CleanupUnique | src/blockchain.rs:135-157 | After cleanup no two rows of the batch share an `index_num`. |
| Blockchain.CleanupKeepsEveryIndex | src/blockchain.rs:135-157 | Every index the batch had still has a row after cleanup. |
| Blockchain.CleanupSemantics | src/blockchain.rs:134-157 | Cleanup leaves other batches untouched and keeps ids distinct. Exactly one row survives per index of the batch, and it is that index's minimum-id row. |
| Blockchain.BlockTable.constructor | src/blockchain.rs:11 | The table starts with the given rows and a free id above them. |
| Blockchain.BlockTable.InsertBlock | src/blockchain.rs:79 | One row is appended under the next serial id. Ids stay distinct. |
| Blockchain.BlockTable.CleanupDuplicateBlocks | src/blockchain.rs:39-42 | The rows become `Cleanup(rows, batch)`. They are unchanged when the DELETE fails. |
| Blockchain.GeneratorStep | src/blockchain.rs:46-92 | The next index is index+1 and the next link is this block's hash, whether the insert happened, was skipped or failed. The table becomes `InsertIfAbsent` of the step's block. |
| Blockchain.ChainBlock | src/blockchain.rs:46-70 | Iteration `k` builds the batch's block at index start+k. Its `prev_hash` is the link the first `k` iterations left, and its hash is the next link. |
| Blockchain.ChainBlocksNumbered | src/blockchain.rs:46-92 | The iterations build the fixed batch's blocks at consecutive indices from the start index. |
| Blockchain.ChainBlockHash | src/blockchain.rs:64-67 | A chain block's hash is `sha` of its own index, payload hash and `prev_hash`. |
| Blockchain.ChainBlockLinked | src/blockchain.rs:67-91 | The block of iteration k+1 sits on the hash of the block of iteration k. |
| Blockchain.ChainBlocksLinked | src/blockchain.rs:46-92 | The iterations' blocks form a hash chain. Each block after the first has its predecessor's hash as `prev_hash`, and each hash covers its block's index, payload hash and link. |
| Blockchain.ChainRowsLinked | src/blockchain.rs:67-91 | Over a hash chain of blocks, rows written at consecutive indices are linked: the later row's `prev_hash` is the earlier row's `hash`. Each row's hash is `sha` of its own index, payload hash and link. |
| Blockchain.GeneratorSetup | src/blockchain.rs:17-42 | A successful cleanup leaves a single row per index. A successful resume starts above every index the batch still has. |
| Blockchain.InsertIfAbsentExtends | src/blockchain.rs:72-88 | An iteration never removes or changes a row, so any prefix of the table stays a prefix. |
| Blockchain.GeneratorRowsExtend | src/blockchain.rs:46-96 | The loop only appends: the table it starts on is a prefix of the table after any number of iterations. |
| Blockchain.InsertBlockKeepsChainRows | src/blockchain.rs:72-88 | An iteration appends, if anything, the row of its own block, so every appended row is the row of the block built for its index. |
| Blockchain.InsertBlockKeepsIncreasing | src/blockchain.rs:72-92 | Iteration `k` appends, if anything, a row at index start+k, above every row appended before it. |
| Blockchain.GeneratorRowsAreChain | src/blockchain.rs:46-96 | Every row the loop appended is exactly the row written for the chain block of its index. |
| Blockchain.GeneratorRowsIncreasing | src/blockchain.rs:46-96 | The rows the loop appended have strictly increasing indices, all below start+k after `k` iterations. |
| Blockchain.GeneratorRowsUnique | src/blockchain.rs:46-96 | On a table with one row per index of the batch, the loop keeps one row per index. |
| Blockchain.InsertBlockCount | src/blockchain.rs:72-88 | If the batch has no row at block `k`'s index or above, iteration `k` inserts exactly when both database calls succeed. The batch afterwards stays below the next index. |
| Blockchain.GeneratorRowsCount | src/blockchain.rs:17-96 | Starting above every index of the batch, no iteration finds its block already present. The table grows by exactly the number of iterations whose database calls both succeed. |
| Blockchain.RunStep | src/blockchain.rs:46-92 | From the state `k` iterations leave, one more iteration leaves the state of k+1: the table the loop function gives, the link `ChainLink(k+1)`, the index start+k+1, and the id sequence advanced by the rows appended. |
| Blockchain.RunSteps | src/blockchain.rs:46-96 | After `n` iterations the index is start+n and the link is the chain's link after `n` blocks. The table is the loop function's table after inserting the chain's blocks. |
| Blockchain.StartGenerator | src/blockchain.rs:11-97 | Resume or genesis, then cleanup, then the loop. Afterwards the cleaned table is a prefix of the table, and every appended row is the row of the chain block for its index, in increasing index order below the end index. A successful cleanup leaves one row per index. After a successful resume the table gains exactly one row per iteration without a database fault. |
| View.DisplayTemperature | frontend/script_old.js:254 | A present, non-zero reading is shown as is. A missing or zero one is synthesised, and agrees with the alert flag except at exactly 8.0. |
| View.Temperatures | frontend/script_old.js:254 | One displayed temperature per record, record by record. |
| View.Label | frontend/script_old.js:252 | No contract of its own: the chart label `Block #N`. That labels identify indices is `LabelIdentifiesIndex`. |
| View.IndexCell | frontend/script_old.js:85 | No contract of its own: the table's `#N` cell. That a label is this cell after `Block ` is `LabelExtendsIndexCell`. |
| View.LabelIdentifiesIndex | frontend/script_old.js:252 | Two records share a chart label exactly when they share an index. |
| View.Labels | frontend/script_old.js:252 | One `Block #N` label per record, in order. |
| View.LabelExtendsIndexCell | frontend/script_old.js:85 | A chart label is the table's `#N` cell with `Block ` in front. |
| View.OrDefault | frontend/script_old.js:88-91 | A non-empty value is shown as is. A null, missing or empty one shows the fallback, so the cell is never empty. |
| View.AlertCount | frontend/script_old.js:32 | At most the number of records. It is 0 exactly when no record is an alert, and the total exactly when all are. |
| View.StatusOf | frontend/script_old.js:31-47 | The status reports the total and the alert count. It is a success exactly when no record is an alert, and danger exactly when at least a quarter are. |
| View.FailureStatus | frontend/script_old.js:266-276 | A rejected fetch is reported as the server being unreachable, and nothing else is. A non-2xx response reports its status code. |
| View.ServedRecordsNeedNoFallback | src/api.rs:107-144 | Against this backend no fallback fires: each record shows the served temperature and the generator's four metadata strings. |
| View.ShowPayloadDetails | frontend/script_old.js:104-136 | It fails exactly when the temperature is not a number. Otherwise the details show that temperature, the metadata fallbacks, `TEMPERATURE ALERT` exactly for alert blocks, and the served payload. |
| View.RowClickAsWritten | frontend/script_old.js:97-99 | No contract of its own: the row click as written, which passes the cell's text. That it always fails is `RowClickAsWrittenAlwaysFails`. |
| View.RowClickAsWrittenAlwaysFails | frontend/script_old.js:97-99 | Clicking a row, as written, always throws. |
| View.RowClick | frontend/script_old.js:97-99 | With the number passed, the details always open with that reading and the fallbacks. |
| AutoRefresh.LiveTable | frontend/script_old.js:50-101 | A fresh body with one row per record, in the order received. |
| AutoRefresh.LiveRowShowsRecord | frontend/script_old.js:64-93 | Each row shows its record's id, `#index`, time, reading and container. The text `ALERT` appears exactly for alert records, and the metadata cells are never empty. |
| AutoRefresh.PointColours | frontend/script_old.js:342-350 | One colour per reading, by band. |
| AutoRefresh.ChartOf | frontend/script_old.js:326-376 | One label, value and colour per record. The title counts the records. Red points are exactly the alert readings. |
| AutoRefresh.Fetch | frontend/script_old.js:210-289 | A poll never touches the flag or the interval. It returns true exactly for a non-empty result. After a forced poll the button is re-enabled with the label the flag calls for; an unforced poll leaves the button alone. |
| AutoRefresh.FetchNonEmpty | frontend/script_old.js:239-264 | A non-empty result records its length. When the length is new or the poll is forced, it repaints the table, chart and status from the records. Otherwise nothing else changes. |
| AutoRefresh.Settle | frontend/script_old.js:218-276 | The branches leave the flag, the interval and the button alone. The poll returns true exactly on a non-empty array. `lastDataLength` either stays or becomes the new length. |
| AutoRefresh.BeginFetch | frontend/script_old.js:212-215 | A forced poll disables the button, shows `Loading...` and changes nothing else. An unforced poll changes nothing. |
| AutoRefresh.EndFetch | frontend/script_old.js:277-287 | The `finally` block changes only the button. After a forced poll the button is enabled and reads "Stop Auto-Refresh" exactly while auto-refresh is on. An unforced poll is left alone. |
| AutoRefresh.Toggle | frontend/script_old.js:292-323 | A blank field changes nothing. Otherwise the flag flips, the interval runs exactly while the flag is up, and a start polls the trimmed batch. |
| AutoRefresh.Stop | frontend/script_old.js:299-306 | The flag and the interval go down and the button reads "Start Auto-Refresh". The table, the chart and `lastDataLength` stay, and the status reports `lastDataLength`. |
| AutoRefresh.Start | frontend/script_old.js:307-321 | The flag is up, the interval is armed on the batch, and the button reads "Stop Auto-Refresh", enabled. |
| AutoRefresh.Tick | frontend/script_old.js:317-319 | A stopped interval does nothing. A tick never changes the flag, the interval, its batch or the button. |
| AutoRefresh.PlaceholderOutlivesEmptyPoll | frontend/script_old.js:227-244 | After an empty result, an unforced poll that brings back the old number of records changes nothing, so the "No records" placeholder stays. |
| AutoRefresh.SameLengthPollIsInvisible | frontend/script_old.js:241-244 | An unforced poll that returns as many records as last time changes nothing, even if the records differ. |
| AutoRefresh.FetchEmpty | frontend/script_old.js:227-238 | An empty result shows the placeholder, drops the chart, returns false and keeps `lastDataLength`. |
| AutoRefresh.FetchFailure | frontend/script_old.js:266-276 | A failure returns false and only rewrites the status, plus the button after a forced poll. |
| AutoRefresh.FailedPollKeepsPolling | frontend/script_old.js:266-276 | After a failed tick the interval stays armed on the same batch. |
| AutoRefresh.ToggleBlankIsNoOp | frontend/script_old.js:293-297 | With a blank field the toggle changes nothing, not even a running refresh. |
| AutoRefresh.ToggleFlips | frontend/script_old.js:292-323 | Otherwise the flag flips. Starting makes a forced poll and arms the interval on the trimmed batch. Stopping disarms it and reports the blocks loaded. |
| AutoRefresh.ToggleTwiceRestoresFlag | frontend/script_old.js:292-323 | Two non-blank toggles restore the flag and the interval. |
| AutoRefresh.TickWhenStoppedIsNoOp | frontend/script_old.js:301 | A cleared interval does nothing. |
| AutoRefresh.InitialConsistent | frontend/script_old.js:12-15 | The initial page satisfies the invariant. |
| AutoRefresh.FetchKeepsConsistent | frontend/script_old.js:210-289 | A poll preserves the invariant: an interval runs exactly while the flag is on, and a chart exists exactly when the table holds data rows. Chart and table then agree point for point. |
| AutoRefresh.ToggleKeepsConsistent | frontend/script_old.js:292-323 | A toggle preserves the invariant. |
| AutoRefresh.TickKeepsConsistent | frontend/script_old.js:317-319 | A tick preserves the invariant. |
| AutoRefresh.RepaintConsistent | frontend/script_old.js:244-262 | A repaint from the records puts chart and table in step: one point per row, labelled `Block ` plus the row's index cell, with the row's reading and its band colour. |
| AutoRefresh.ArmingKeepsConsistent | frontend/script_old.js:309-319 | Raising the flag together with arming the interval keeps the invariant. |
| AutoRefresh.LiveChart.constructor | frontend/script_old.js:374 | A new chart shows the given dataset. |
| AutoRefresh.LiveChart.Update | frontend/script_old.js:358-371 | Updating in place makes the chart show the new labels, values, colours and count. |
| AutoRefresh.LivePage.constructor | frontend/script_old.js:12-15 | The page starts stopped, with no chart, an empty table and zero records seen. |
| AutoRefresh.LivePage.PopulateTable | frontend/script_old.js:50-101 | The loop builds exactly `LiveTable(data, temperatures)`. |
| AutoRefresh.LivePage.UpdateChart | frontend/script_old.js:326-376 | The chart shows the new dataset. An existing chart object is kept and updated, and a fresh one is created only when none exists. |
| AutoRefresh.LivePage.ShowNoRecords | frontend/script_old.js:227-238 | The new state is the empty-result state, and the call returns false. |
| AutoRefresh.LivePage.ShowRecords | frontend/script_old.js:240-264 | The new state and the return value are the specification's, and the chart object is kept. |
| AutoRefresh.LivePage.ShowFailure | frontend/script_old.js:266-276 | Only the status changes, and the call returns false. |
| AutoRefresh.LivePage.FetchAndUpdateData | frontend/script_old.js:210-289 | The new state and the return value are `Fetch` of the old state. The invariant is kept, and the chart object survives a repaint. |
| AutoRefresh.LivePage.Repaint | frontend/script_old.js:248-261 | The status, table body and chart become those of the records. An existing chart object is kept. |
| AutoRefresh.LivePage.SettleFetch | frontend/script_old.js:218-276 | The try/catch moves the page as `Settle` says: the empty-result branch, the non-empty branch or the catch block. A kept chart object is the old one. |
| AutoRefresh.LivePage.StopRefresh | frontend/script_old.js:299-306 | Stopping disarms the interval, lowers the flag, relabels the button and reports the blocks loaded, as `Stop` says. |
| AutoRefresh.LivePage.StartRefresh | frontend/script_old.js:307-321 | Starting raises the flag, relabels the button, makes a forced poll and points the interval at the batch, as `Start` says. |
| AutoRefresh.LivePage.Arm | frontend/script_old.js:309-317 | The flag goes up, the interval is armed and the button reads "Stop Auto-Refresh". The invariant is kept. |
| AutoRefresh.LivePage.ToggleAutoRefresh | frontend/script_old.js:292-323 | The new state is `Toggle` of the old one, and the invariant is kept. |
| AutoRefresh.LivePage.TimerFires | frontend/script_old.js:317-319 | The new state is `Tick` of the old one, and the invariant is kept. |
| FetchPage.RowsOf | frontend/script.js:47-85 | One row per record, in the order received. |
| FetchPage.RowShowsRecord | frontend/script.js:54-77 | Each row shows `#index`, time and reading. The text `ALERT` appears exactly for alert records, and empty metadata falls back to the fixed strings. |
| FetchPage.AlertColours | frontend/script.js:237-239 | A point is red exactly when its record is an alert. |
| FetchPage.ChartOf | frontend/script.js:214-249 | One `Block #N` label, value and colour per record. The title counts the records. |
| FetchPage.Begin | frontend/script.js:168-181 | The table is empty, no chart exists, the button is disabled and reads "Loading...", and the status is as before. |
| FetchPage.Complete | frontend/script.js:183-435 | The button always ends enabled as "Fetch Data". A chart exists exactly after a non-empty array. A failure reports its status and shows the connection-failed placeholder. |
| FetchPage.Click | frontend/script.js:164-436 | A blank field changes nothing. Otherwise the button ends enabled as "Fetch Data". |
| FetchPage.BlankClickIsNoOp | frontend/script.js:165-166 | A blank field returns before any change. |
| FetchPage.ClickReplacesView | frontend/script.js:164-436 | Any other click re-enables the button. The page after it does not depend on the page before it. |
| FetchPage.ClickWithoutRecords | frontend/script.js:195-207 | An empty result or a failure leaves no chart and one placeholder row with its message and status. |
| FetchPage.ClickWithRecords | frontend/script.js:209-258 | A non-empty result shows one row and one point per record, labelled `Block #N`, red exactly for alerts. |
| FetchPage.ClickKeepsConsistent | frontend/script.js:164-436 | A click preserves the invariant: a chart exists exactly when the table holds data rows, and they then agree point for point. |
| FetchPage.RecordsViewConsistent | frontend/script.js:209-258 | Rows and a chart drawn from the same records and readings satisfy the invariant, whatever the status and button. |
| FetchPage.StaticChart.constructor | frontend/script.js:258 | A new chart shows the given dataset. |
| FetchPage.Viewer.constructor | frontend/script.js:1-12 | The viewer starts with no chart, an empty table and an enabled "Fetch Data" button. |
| FetchPage.Viewer.ClearTable | frontend/script.js:179-181 | The removal loop empties the table. |
| FetchPage.Viewer.PopulateTable | frontend/script.js:47-85 | Clearing and then the loop give exactly `RowsOf(data, temperatures)`. |
| FetchPage.Viewer.ShowRecords | frontend/script.js:209-258 | Status, table and a newly created chart are those of the records. |
| FetchPage.Viewer.BeginFetch | frontend/script.js:168-181 | Before the await the button is disabled and reads "Loading...", the chart is destroyed and the table is emptied, as `Begin` says. |
| FetchPage.Viewer.CompleteFetch | frontend/script.js:183-435 | After the await the page becomes `Complete` of the old one: the empty, non-empty or failure branch, then the `finally` button reset. A non-empty result draws on a new chart object. |
| FetchPage.Viewer.OnFetchClick | frontend/script.js:164-436 | The new state is `Click` of the old one, the invariant is kept, and a successful fetch draws on a new chart object. |

## Left out

- Rendering: HTML, CSS, the modal's markup, Chart.js options and plugins, and number and date formatting are not modelled. This includes `toFixed(1)` and `toLocaleString()`. A cell holds the value it shows.
- `createNewChart` (frontend/script_old.js:379-702) and the `new Chart(...)` options (frontend/script.js:258-411): each is modelled only as creating a chart with the dataset.
- `checkServerConnection` in both scripts: it only writes a status line on page load, and the network is outside the model.
- `window.alert` dialogs: they are I/O and change no state.
- When the page has no `tbody`, the empty-result branch of frontend/script_old.js:231 writes into a detached element. The model assumes the page's `tbody` exists.
- Timers and concurrency: the ten-second interval is the `armed` flag, and each tick is a separate call. Overlapping polls are not modelled, and neither is the generator's `sleep`.
- Blockchain.StartGenerator: the endless loop runs over a finite sequence of steps.
- Logging (`println!`, `eprintln!`, `console.log`) is left out. So are src/main.rs (server set-up) and src/db.rs (the connection pool). src/db.rs's `insert_block` becomes `BlockTable.InsertBlock`.
- SQL is not executed. The table is a sequence of rows in insertion order with serial ids, and each query's meaning is written as a function over it. A failed database call is an input flag or an `Err` value.
- SHA-256, serde serialisation, `DefaultHasher` and `StdRng` are parameters. Their own properties are not modelled, so hash collisions are not excluded.
- Blockchain.LastBlock: when several rows of the batch tie at the largest index, the query may return any of them. The model returns the earliest.
- Blockchain.ResumePoint: the resume message slices `&last_hash[..16]`, which panics on a stored hash shorter than 16 bytes or not split at a character boundary there. Generated hashes are 64 hex characters, so the panic is not modelled.
- Blockchain.BlockTable.InsertBlock: `nextId` advances only on a successful insert. In PostgreSQL a failed INSERT still uses up a SERIAL value, so real ids can have gaps the model does not produce. Ids stay distinct and increasing either way.
- Temperature.GenerateTemperature, View.DisplayTemperature and Api.TemperatureFromBlock: readings are reals. f32 and JavaScript double rounding are not modelled, and neither is NaN.
- View.Temperatures: record `i` uses the draws `rand(i)`. The model does not tie these to positions in one shared `Math.random()` stream.
- A 200 body that is JSON but not an array is not modelled. `data.length` or `data.map` then throws a TypeError, so the page reports the server as unreachable, and frontend/script_old.js:242 may already have overwritten `lastDataLength`. `BadBody` is only a body that `res.json()` cannot parse; its SyntaxError shows `✗ Error: …`.
- The starting button captions ("Start Auto-Refresh", "Fetch Data") and the initial status come from the HTML page. That page is not part of this model, so both are assumed values.

## Findings

| source | as written | input that shows it | evidently intended | confidence | as-written member | corrected member |
|---|---|---|---|---|---|---|
| frontend/script.js:81-83 | The row click passes `temp` to `showPayloadDetails`. `temp` is the string `temperatures[index].toFixed(1)` (line 59), and line 104 calls `.toFixed(1)` on it, which throws a TypeError. | Any click on a data row, such as a row showing `5.0` | Pass the number `temperatures[index]`, so that the detail view opens | high (not executed) | View.RowClickAsWritten, View.RowClickAsWrittenAlwaysFails | View.RowClick |
| frontend/script_old.js:97-99 | The same: `temp` comes from `temperatures[index].toFixed(1)` (line 70), and line 120 calls `.toFixed(1)` on the string | Any click on a data row | Pass the number, so that the detail view opens | high (not executed) | View.RowClickAsWritten, View.RowClickAsWrittenAlwaysFails | View.RowClick |
