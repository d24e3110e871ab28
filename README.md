# Foundation mining pool: share accounting, statistics jobs and API read-side, modelled in Dafny

This project models the core of the foundation-server mining pool:

- the share accounting engine: `PoolShares` in `scripts/main/shares.js`;
- the helpers it and the API rely on: `scripts/main/utils.js`;
- the post-read logic of the periodic statistics jobs: `scripts/main/statistics.js`;
- the post-read logic of the read-only HTTP API: `scripts/main/api2.js`.

The pool keeps all its state in a Redis-like store. Every operation of this core works the same way:

1. read some hashes and sorted sets;
2. decide;
3. emit a list of write commands.

The model keeps the decide step and makes both ends explicit. The store reads become parameters: a hash is a sequence of `Entry(key, value)` pairs, and a sorted set is a sequence of `Scored(score, member)`. The writes become a sequence of `Command` values (`Hset`, `Hincrby`, `HincrbyFloat`, `Zadd`, `Rename`, `Sadd`, `Srem`, …), and keys are structured values (`Key`) rather than colon-joined strings. The clock (`Date.now()`) is a parameter `now` in milliseconds.

Modules:

- `Common`: the vocabulary.
  - Share types (valid, invalid, stale).
  - Tracks: a plain share, or a primary or auxiliary block candidate.
  - Mining modes: shared or solo.
  - `worker.split('.')[0]` as `BaseAddress`.
  - The IPv6 handling `ip.split(':')[n-1]`.
  - JavaScript's `x | 0` as `Int32`.
- `NumericText`: the guard `/^-?\d*(\.\d+)?$/` that every stored work figure passes before `parseFloat`, with `parseFloat`'s result on the texts the guard admits.
- `Store`: the records the pool stores, store keys, write commands and `zrangebyscore`.
- `Sorting`: the descending and ascending sorts the API and the jobs apply.
- `Utils`: the helpers of `utils.js`: `checkSoloMining`, `validateInput`, `countWorkers`/`countMiners` and their `combine*` forms, `processShares`, `processTimes`, `processTypes`, `processPayments` and `listBlocks`.
- `Shares`: the accounting engine.
  - `PoolShares` is a class. Its fields `curHeight` and `minHeight` are updated in place by `calculateShares` and `calculateBlocks`.
  - Functions define what one share or one block event writes.
  - Lemmas state the accounting rules:
    - stale shares;
    - round resets;
    - effort;
    - the solo-mining isolation;
    - how a found block closes a shared round or resets the finder's solo round.
- `Statistics`: the jobs.
  - Minute snapshots (`handleWorkerInfo`) and ten-minute historicals (`handleWorkerInfo2`), both built on a roll-up fold whose loop is a method.
  - Miner registration (`handleUsersInfo`).
  - Pruning of confirmed blocks and payment records to the newest 100.
  - The once-per-slot decision of `calculateHistoricalInfo`.
- `Api`: the read endpoints.
  - Block listings with the pending flag and pages.
  - Payments.
  - The three-pass work estimate of `minerWork`.
  - Online worker and miner counts.
  - The top-ten miner ranking.

Each loop of the source is a method with its invariants, proved against a function that specifies it. The properties that relate several calls are lemmas about those functions.

## Model

| member | source | states |
|---|---|---|
| Common.BaseAddress | scripts/main/utils.js:70 | `worker.split('.')[0]`: the text of the worker name before its first '.'; its properties are the three lemmas below |
| Common.BaseAddressSplits | scripts/main/utils.js:64-79 | The miner of a worker name is the longest prefix without a '.', and it is followed by a '.' or by the end of the name |
| Common.BaseAddressOfPlain | scripts/main/utils.js:64-79 | A worker name without a '.' is its own miner |
| Common.BaseAddressOfQualified | scripts/main/utils.js:64-79 | The miner of `address.rig` is `address` when the address holds no '.' |
| Common.LastColonSegment | scripts/main/shares.js:102-103 | The recorded ip is the text after the last ':' of the connection address: it holds no ':', is a suffix of the address, and is preceded by ':' unless it is the whole address |
| Common.Int32 | scripts/main/shares.js:164-169 | OR-ing an integral value with 0 wraps it to a signed 32-bit value congruent to it modulo 2^32 |
| Common.Seconds32 | scripts/main/shares.js:165 | `dateNow / 1000 OR 0`: the clock reading in whole seconds, wrapped to 32 bits by Int32 |
| NumericText.NumericText | scripts/main/shares.js:68 | The guard `/^-?\d*(\.\d+)?$/` on a stored figure; characterised by NumericTextIff |
| NumericText.ParseNumeric | scripts/main/shares.js:68 | parseFloat of a text the guard admits, None for a text it rejects or an empty magnitude (NaN); NatTextRoundTrip and NegatedNatTextRoundTrip fix its value on whole numbers |
| NumericText.NumericTextDecomposes | scripts/main/shares.js:68 | A text the guard admits is an optional '-', a run of digits, and optionally '.' followed by at least one digit |
| NumericText.ComposedIsNumeric | scripts/main/shares.js:68 | Every sign/digits/fraction composition passes the guard, and its parts are recovered exactly |
| NumericText.NumericTextIff | scripts/main/utils.js:268 | The guard admits a text if and only if it is such a composition |
| NumericText.NumericTextAccepts | scripts/main/utils.js:243 | The guard admits "", ".5" and "-3" |
| NumericText.NumericTextRejects | scripts/main/utils.js:243 | The guard rejects "1." and "1e5" |
| NumericText.UnsignedIsNonNegative | scripts/main/utils.js:268 | A stored work figure without a leading '-' reads as a non-negative value |
| NumericText.NatTextRoundTrip | scripts/main/shares.js:68 | Writing a whole number in decimal and reading it back through the guard and parseFloat gives the number |
| NumericText.NegatedNatTextRoundTrip | scripts/main/shares.js:68 | The same round trip holds for a negated whole number |
| Store.RangeByScoreInRange | scripts/main/statistics.js:450-455 | Every member zrangebyscore returns has a score inside the requested bounds |
| Sorting.InsertDesc | scripts/main/utils.js:144-157 | Inserting into a descending list keeps it descending and adds exactly the new element |
| Sorting.SortDesc | scripts/main/utils.js:144-157 | The descending sort is sorted and a permutation of its input |
| Sorting.SortAsc | scripts/main/statistics.js:171-176 | The ascending sort is sorted and a permutation of its input |
| Sorting.SortDescOfSorted | scripts/main/utils.js:144-157 | Sorting a list already strictly descending leaves it unchanged |
| Sorting.SortDescStable | scripts/main/api2.js:1506 | The sort is stable: within each key class the elements keep their input order, as the engine's stable `Array.prototype.sort` keeps them |
| Utils.PortsNumbered | scripts/main/utils.js:32-39 | The ports configured with a number are exactly those with that number, and there is one when some port has it |
| Utils.FirstOfPortsNumbered | scripts/main/utils.js:32-39 | The first port with the number heads that list |
| Utils.CheckSoloMining | scripts/main/utils.js:32-39 | A share is solo if and only if the first port configured with its port number has type "solo"; an unknown port is never solo |
| Utils.FirstPortIndex | scripts/main/utils.js:32-39 | When a port has the number, the index found is the first such port |
| Utils.ValidateInput | scripts/main/utils.js:402-407 | The result keeps only letters, digits, '.' and '-', is no longer than the input, and leaves a clean input unchanged |
| Utils.ValidateInputConcat | scripts/main/utils.js:402-407 | Cleaning distributes over concatenation |
| Utils.ValidateInputIdempotent | scripts/main/utils.js:402-407 | Cleaning twice is cleaning once |
| Utils.ValidateInputChar | scripts/main/utils.js:402-407 | A single character is kept exactly when it is allowed |
| Utils.WorkerNamesMeaning | scripts/main/utils.js:104-118 | A name is a counted worker exactly when it is non-empty and some entry carries it |
| Utils.CountWorkers | scripts/main/utils.js:104-118 | The loop counts the distinct non-empty worker names |
| Utils.CountMiners | scripts/main/utils.js:64-79 | The loop counts the distinct base addresses of entries that name a worker |
| Utils.MinersOfWorkers | scripts/main/utils.js:64-79 | The miners counted are the base addresses of the workers counted |
| Utils.MinersAtMostWorkers | scripts/main/utils.js:64-118 | There are never more miners than workers |
| Utils.CombineMiners | scripts/main/utils.js:52-61 | The combined count is the shared count plus the solo count, a missing list counting as empty |
| Utils.CombineWorkers | scripts/main/utils.js:92-101 | The same for workers |
| Utils.KeysWhere | scripts/main/utils.js:262-281 | The output keys (worker, or base address) of the fields whose record passes a filter; characterised by KeysWhereMeaning |
| Utils.KeyWork | scripts/main/utils.js:271-278 | The positive work summed per output key; bounded by KeyWorkPositive |
| Utils.KeysWhereMeaning | scripts/main/utils.js:262-281 | An output key is present exactly when some field maps to it and its record passes the filter |
| Utils.KeyWorkPositive | scripts/main/utils.js:262-281 | The work summed per key is non-negative, positive exactly for keys with some positive-work record, 0 otherwise |
| Utils.ProcessShares | scripts/main/utils.js:262-281 | The output has a key exactly for each admitted worker or miner with positive work; it maps that key to its summed work; an address restricts the output to itself |
| Utils.ProcessSharesPositive | scripts/main/utils.js:271-278 | Every value processShares outputs is positive |
| Utils.KeyTimes | scripts/main/utils.js:284-305 | The largest positive non-solo time per output key; characterised by KeyTimesIsMaximum |
| Utils.KeyTimesIsMaximum | scripts/main/utils.js:284-305 | The time kept per key is the largest positive non-solo time of its fields, that of some field, or 0 when there is none |
| Utils.ProcessTimes | scripts/main/utils.js:284-305 | The output has a key exactly for each admitted key with a positive non-solo time, mapped to its maximum |
| Utils.KeyTypes | scripts/main/utils.js:308-330 | The valid, invalid and stale counters summed per output key |
| Utils.KeyTypesOfAbsentKey | scripts/main/utils.js:308-330 | A key no field maps to has zero counters |
| Utils.ProcessTypes | scripts/main/utils.js:308-330 | The output has a key exactly for each admitted key of some field; each is the field-wise sum of the valid, invalid and stale counters mapped to it |
| Utils.KeyTypesOfOwnField | scripts/main/utils.js:308-330 | By worker, with distinct field names, a worker's counters are its own record's |
| Utils.ProcessPayments | scripts/main/utils.js:239-252 | Every output value is a positive parsed balance of an admitted field; every admitted field with a positive balance is present; with distinct fields each keeps its own balance |
| Utils.MinedBy | scripts/main/utils.js:147-153 | The stored blocks whose worker's base address is the miner, in order: at most as many as stored, all the miner's |
| Utils.MinedByFromSource | scripts/main/utils.js:144-157 | Every block listed for a miner is one of the stored blocks |
| Utils.MinedByCounts | scripts/main/utils.js:144-157 | A block appears as often among the miner's blocks as among the stored ones when its worker is the miner's, and never otherwise |
| Utils.MinedByPermutation | scripts/main/utils.js:144-157 | The blocks of a miner do not depend on the order of the stored blocks, up to permutation |
| Utils.MinedBySorted | scripts/main/utils.js:144-157 | Filtering a height-sorted list keeps it sorted |
| Utils.KeepMined | scripts/main/utils.js:147-153 | The filter loop keeps the miner's blocks in order |
| Utils.ListBlocks | scripts/main/utils.js:144-157 | The result is sorted by height, highest first, holds only the miner's blocks, and is a permutation of all of them; blocks of equal height keep their stored order |
| Shares.PriorEntries | scripts/main/shares.js:109-117 | In shared mode the lookup of the worker's previous record sees no entries |
| Shares.LookupSetEntry | scripts/main/shares.js:120 | Looking a field up after setting it gives the new value; other fields are unchanged |
| Shares.SetEntryKeys | scripts/main/shares.js:176-204 | Setting a field adds exactly that field |
| Shares.SetEntryDistinct | scripts/main/shares.js:176-204 | Setting a field keeps the field names distinct |
| Shares.TimeChange | scripts/main/shares.js:41-59 | The time since the worker's last share is never negative, and 0 when the last share is not older than now |
| Shares.HandleTimes | scripts/main/shares.js:41-59 | Time is added when the gap is under 900 s and not added otherwise; the total never decreases; a known last block time caps it |
| Shares.FirstShareTimes | scripts/main/shares.js:41-59 | A worker's first share starts its time at 0 |
| Shares.HandleTypes | scripts/main/shares.js:82-90 | The counter of the share's type goes up by one and the others are unchanged |
| Shares.HandleEffort | scripts/main/shares.js:62-79 | The loop gives the round's summed work, plus the share's difficulty when valid, as a percentage of the block difficulty |
| Shares.WorkSumAppend | scripts/main/shares.js:62-79 | The effort sum is additive over the round's entries |
| Shares.EffortNonNegative | scripts/main/shares.js:62-79 | Effort is non-negative when the stored work is |
| Shares.SoloSumIgnoresOthers | scripts/main/shares.js:69-70 | Solo effort ignores every entry of another worker |
| Shares.NoKeyNoSoloSum | scripts/main/shares.js:69-70 | A worker with no entry has no prior solo work |
| Shares.SharedSumIgnoresSolo | scripts/main/shares.js:71-72 | Shared effort ignores solo entries |
| Shares.SoloSumIsOwnWork | scripts/main/shares.js:62-79 | With distinct fields, solo effort is the worker's own recorded solo work |
| Shares.Activity | scripts/main/shares.js:164-169 | The heartbeat record: the share's time in seconds, the worker, the last ':'-segment of its ip, online |
| Shares.RaisedHeight | scripts/main/shares.js:123-124 | The height kept is the larger of the current and the share's |
| Shares.AccountShare | scripts/main/shares.js:93-173 | The values one share produces (type after the stale rule, difficulty, work, work increment, effort, new round record); its properties are StaleRule, RoundRecordUpdate, SharedRecordIsFresh and SoloEffortIsOwnWork |
| Shares.ShareCommands | scripts/main/shares.js:174-204 | The commands of one share, by type and mode; its properties are ShareWritesOneOfEach, ShareStaysInItsRound and ShareCounters |
| Shares.ShareWritesOneOfEach | scripts/main/shares.js:176-204 | One share writes exactly one hashrate sample (first, with its difficulty as work), one round record and one worker heartbeat; six commands in all for a valid shared share, four otherwise |
| Shares.ShareStaysInItsRound | scripts/main/shares.js:176-204 | A share writes only its own track's and mode's current round keys and workers hash |
| Shares.ShareCounters | scripts/main/shares.js:176-204 | A solo valid share increments the work hash by its cumulative work and no counter; every other share increments its type's counter once; a shared valid share adds its work increment and writes effort; invalid and stale shares leave work alone |
| Shares.StaleRule | scripts/main/shares.js:124-146 | A shared share below the current height becomes stale with zero effort; otherwise its type is kept |
| Shares.RoundRecordUpdate | scripts/main/shares.js:131-161 | The new record carries the share's worker, time, height and mode; it accumulates work, counters and times onto the previous record, unless the share predates the round, which restarts it |
| Shares.SharedRecordIsFresh | scripts/main/shares.js:109-146 | In shared mode the record starts from nothing: its work is the share's, its times 0, and its effort the share alone |
| Shares.SoloEffortIsOwnWork | scripts/main/shares.js:62-79 | Solo effort is computed from the worker's own previous solo work only |
| Shares.SoloSharesAccumulate | scripts/main/shares.js:93-207 | Two solo valid shares from one worker add both difficulties and two valid counts to its record |
| Shares.SoloValidShare | scripts/main/shares.js:93-207 | A solo valid share adds its difficulty and one valid count to the worker's record, with the effort of its own prior work |
| Shares.SoloWorkHashGrowsByCumulativeWork | scripts/main/shares.js:175-179 | The solo work hash is incremented by the cumulative work (1, then 2), not by the share's difficulty |
| Shares.Siblings | scripts/main/shares.js:282-285 | The siblings are the solo round's workers with the finder's base address, and only those |
| Shares.SignedDifficulty | scripts/main/shares.js:216 | The block's difficulty, negated unless the block share is valid |
| Shares.ResetRecord | scripts/main/shares.js:293-301 | A reset solo record has zero times, counters and effort, and the block's signed difficulty as work |
| Shares.ResetCommandsWrite | scripts/main/shares.js:293-301 | Reset writes touch only the solo shares hash and workers hash; each record of a sibling is its reset record, and each heartbeat is the finder's, keyed by the finder |
| Shares.ResetCommandsCover | scripts/main/shares.js:293-301 | Every sibling is reset |
| Shares.ResetCommands | scripts/main/shares.js:293-301 | Two writes per sibling: its reset record, then the finder's heartbeat keyed by the finder; its properties are ResetCommandsWrite and ResetCommandsCover |
| Shares.BlockFor | scripts/main/shares.js:234-251 | The pending block record: time, height, rewards, the block difficulty, and the finder's luck (its effort) |
| Shares.ClosedRoundRecord | scripts/main/shares.js:275-279 | The finder's record in the closed solo round: stored counters and times, work grown by the signed difficulty, effort set to the luck |
| Shares.BlockCommands | scripts/main/shares.js:210-320 | The commands of one block event, by validity and mode; its properties are SharedBlockClosesRound, SoloBlockResetsSiblings, SoloBlockResetsOnlySiblings and RejectedBlock |
| Shares.SharedBlockClosesRound | scripts/main/shares.js:304-312 | A valid shared block renames exactly the three current round hashes to the block's round and records the pending block, the previous height, the block time on the previous round and one valid block |
| Shares.SoloBlockResetsSiblings | scripts/main/shares.js:293-301 | A valid solo block renames nothing, records the pending block, one valid block count and the finder's closed-round record, and resets every sibling; three commands plus two per sibling |
| Shares.SoloBlockResetsOnlySiblings | scripts/main/shares.js:282-301 | A valid solo block resets only stored workers sharing the finder's base address |
| Shares.RejectedBlock | scripts/main/shares.js:315-317 | A rejected block only counts one invalid block, and only when it has a transaction |
| Shares.BlockLuckIsolation | scripts/main/shares.js:234 | Block luck is unaffected by other workers' solo entries, or by solo entries in a shared round |
| Shares.BuildAccount | scripts/main/shares.js:93-173 | The values computed for one share are those the accounting rules define |
| Shares.PoolShares.constructor | scripts/main/shares.js:24-25 | Both heights start at 0 |
| Shares.PoolShares.CalculateShares | scripts/main/shares.js:93-207 | Raises the current height to the share's and emits the share's accounting commands |
| Shares.PoolShares.CalculateBlocks | scripts/main/shares.js:210-320 | Raises the minimum height only for a valid shared block, emits the block commands, and signals a round update exactly then |
| Shares.PoolShares.BuildSharesCommands | scripts/main/shares.js:323-330 | Accounts the share on the primary track, and on the auxiliary track when it is enabled |
| Shares.PoolShares.BuildCommands | scripts/main/shares.js:333-340 | Decides solo mode from the port, then emits the share commands followed by the block commands, with both heights updated |
| Shares.SamplesPerEvent | scripts/main/shares.js:333-340 | One event writes one hashrate sample per enabled track |
| Shares.NoSamplesInBlocks | scripts/main/shares.js:210-320 | Block handling writes no hashrate sample |
| Statistics.MinuteEnd | scripts/main/statistics.js:447-449 | The window ends on the last minute boundary not after now |
| Statistics.TenMinuteEnd | scripts/main/statistics.js:552-556 | The same on the ten-minute grid |
| Statistics.Rolled | scripts/main/statistics.js:475-502 | The find-or-append roll-up of a window's contributions, one entry per worker; characterised by RolledWorkers and MinuteTotals |
| Statistics.FindWorker | scripts/main/statistics.js:478-480 | The index found holds the worker, and -1 means no entry holds it |
| Statistics.NamesMeaning | scripts/main/statistics.js:475-502 | The roll-up's workers are exactly the workers of the input, without repeats |
| Statistics.RollUp | scripts/main/statistics.js:475-502 | The find-or-append loop computes the roll-up |
| Statistics.RolledWorkers | scripts/main/statistics.js:475-502 | The roll-up has one entry per distinct worker, each stamped with the window's time |
| Statistics.MinuteTotals | scripts/main/statistics.js:476-500 | A worker's minute snapshot counts its samples of each type and sums the work of its valid ones |
| Statistics.Missing | scripts/main/statistics.js:533-543 | The roll-up entries whose worker has no stored entry for the window; characterised by MissingMeaning |
| Statistics.MissingMeaning | scripts/main/statistics.js:533-543 | An entry is written exactly when it is in the roll-up and its worker has no stored entry for the window |
| Statistics.MissingAfterStore | scripts/main/statistics.js:533-543 | Running the job again after its own writes writes nothing |
| Statistics.EmitSnapshots | scripts/main/statistics.js:533-543 | One zadd at the window's score per missing entry, in order |
| Statistics.HandleWorkerInfo | scripts/main/statistics.js:445-547 | Shared then solo minute-snapshot writes of the last closed minute |
| Statistics.MinuteSnapshotContent | scripts/main/statistics.js:445-547 | A snapshot is written exactly for a worker with samples in the minute and none stored, holding its per-type counts and valid work |
| Statistics.HistoricalWrite | scripts/main/statistics.js:627-643 | The three commands of one new historical: its zadd and the two prunings |
| Statistics.HistoricalWritesLayout | scripts/main/statistics.js:627-643 | The k-th group of three commands belongs to the k-th new historical |
| Statistics.EmitHistoricals | scripts/main/statistics.js:627-643 | Per missing historical: its zadd, then pruning of snapshots up to the window start and of historicals older than a day |
| Statistics.HandleWorkerInfo2 | scripts/main/statistics.js:550-646 | Shared then solo ten-minute historical writes |
| Statistics.TotalAppend | scripts/main/statistics.js:581-625 | Summing is additive over concatenated runs of input |
| Statistics.HistoricalOfSnapshots | scripts/main/statistics.js:581-625 | A historical over minute snapshots equals one roll-up of all their samples |
| Statistics.PayoutLimit | scripts/main/statistics.js:121 | A missing or zero minimum payment means 1 |
| Statistics.Registrations | scripts/main/statistics.js:133-159 | One registration per worker record whose base address is not known, in order; characterised by RegistrationsMeaning |
| Statistics.RegisterMiners | scripts/main/statistics.js:133-159 | The loop writes one registration per worker record whose miner is unknown, in order |
| Statistics.HandleUsersInfo | scripts/main/statistics.js:120-163 | Registers shared then solo workers' unknown miners, with the pool's payout limit |
| Statistics.RegistrationsMeaning | scripts/main/statistics.js:133-159 | A registration is written exactly for a record whose miner is unknown, with that record's time as first-joined time |
| Statistics.RegistrationsIdempotent | scripts/main/statistics.js:133-159 | After its own writes a second run registers nobody |
| Statistics.RegistrationsMonotone | scripts/main/statistics.js:133-159 | Knowing more miners never causes more registrations |
| Statistics.Oldest | scripts/main/statistics.js:171-176 | The records beyond the newest 100 by time |
| Statistics.Newest | scripts/main/statistics.js:171-176 | The newest 100 records by time |
| Statistics.PruneKeepsNewest | scripts/main/statistics.js:171-176 | With more than 100 records exactly the oldest surplus is removed and the newest 100 kept; no removed record is newer than a kept one; nothing is lost or added |
| Statistics.PruneIdempotent | scripts/main/statistics.js:171-176 | Pruning what remains removes nothing |
| Statistics.Prune | scripts/main/statistics.js:171-176 | One removal per oldest record |
| Statistics.HandleBlocksInfo | scripts/main/statistics.js:166-179 | Removes confirmed blocks beyond the newest 100 by time |
| Statistics.HandlePaymentsInfo | scripts/main/statistics.js:429-442 | Removes payment records beyond the newest 100 by time |
| Statistics.ShouldEmitHistorical | scripts/main/statistics.js:51-55 | The decision to write an entry: always when none is stored, always when the newest is ten minutes old or more, never when it is not older than now |
| Statistics.HistoricalInfoAsWritten | scripts/main/statistics.js:55-74 | As written, the emit path throws before its zadd (no batch); otherwise the batch is empty |
| Statistics.HistoricalNeverWritten | scripts/main/statistics.js:55-74 | As written no run writes an entry, not even the first on an empty set, where the intended job writes one |
| Statistics.HistoricalCommands | scripts/main/statistics.js:55-74 | As intended: at most one command, present exactly when the job decides to write |
| Statistics.OneHistoricalPerSlot | scripts/main/statistics.js:45-78 | For the intended job: once a slot's entry is stored no later run in that slot decides to write another, and the first run of a later slot decides to write exactly one, at its own score; both while the slot's score in seconds fits in 32 bits (before 2038-01-19) |
| Statistics.WrappedScoreRewrites | scripts/main/statistics.js:55-74 | From 2^31 seconds on, the score truncated to signed 32 bits wraps below the slot's boundary, so a run in a slot whose entry is stored decides to write it again |
| Api.PageCount | scripts/main/api2.js:194-208 | The page count is the fewest pages of ten holding the items |
| Api.StillPending | scripts/main/api2.js:188 | A block is pending when it is less than 101 below the network height; never when that height is missing |
| Api.Listed | scripts/main/api2.js:163-192 | One listing per stored block, in order |
| Api.Mark | scripts/main/api2.js:163-192 | Each stored block is listed with its miner, kind and pending flag |
| Api.ListBlocksByHeight | scripts/main/api2.js:194-208 | The three marked lists concatenated and sorted by height, highest first, as a permutation, with the item count and the page count; blocks of equal height keep the order confirmed, kicked, pending |
| Api.ListedFlags | scripts/main/api2.js:1158-1183 | Orphans are never pending and come from the kicked list; a pending block comes from the pending list and is within 101 of the network height; any other found block comes from the confirmed list or is a settled pending entry |
| Api.MinerBlocks | scripts/main/api2.js:147-215 | The miner's blocks from all three lists, highest first, a permutation of their listings, all the miner's, equal heights in list order, with counts and pages |
| Api.PoolBlocks | scripts/main/api2.js:1142-1205 | All blocks, highest first, a permutation of their listings, equal heights in list order, with counts and pages |
| Api.MinerBlocksExample | scripts/test/api2.test.js:143-157 | Three blocks at heights 180, 181 and 182 list three items with 182 first and flagged pending |
| Api.ExampleListing | scripts/test/api2.test.js:143-157 | The marked listing of those three blocks |
| Api.MinerPayments | scripts/main/api2.js:347-392 | One view per payment record, in order, with its transaction, time and amount, and the page count |
| Api.MaxTime | scripts/main/api2.js:879-890 | The latest historical time, 0 when there is none |
| Api.Gated | scripts/main/api2.js:892-902 | Only snapshots newer than the latest historical count |
| Api.GatedMeaning | scripts/main/api2.js:879-902 | A snapshot counts exactly when it is newer than every historical and than 0 |
| Api.GatedKeepsNewer | scripts/main/api2.js:892-902 | Every newer snapshot counts |
| Api.HistoricalsPass | scripts/main/api2.js:879-890 | Sums historical work, the miner's and the total, and finds the latest time |
| Api.SnapshotsPass | scripts/main/api2.js:892-902 | Sums the work of the newer snapshots |
| Api.SamplesPass | scripts/main/api2.js:904-912 | Sums the work of the window's samples |
| Api.MinerWork | scripts/main/api2.js:860-921 | Miner and pool work are each the sum of the three passes |
| Api.SumWorkShare | scripts/main/api2.js:879-902 | With non-negative work, a miner's share lies between 0 and the pool total |
| Api.SampleSumShare | scripts/main/api2.js:904-912 | The same for samples |
| Api.CollectWorkers | scripts/main/api2.js:1047-1065 | The distinct workers of the miner in historicals and snapshots |
| Api.CountOnline | scripts/main/api2.js:1067-1076 | Counts the miner's heartbeats inside the window |
| Api.MinerWorkerCount | scripts/main/api2.js:1024-1085 | Workers online in the window, and offline as known workers minus online ones |
| Api.OfflineCanBeNegative | scripts/main/api2.js:1080-1081 | A worker online but not yet in any snapshot makes the offline count -1 |
| Api.OnlineCount | scripts/main/api2.js:1539-1544 | The heartbeats strictly after the window start, of one miner or of all |
| Api.OnlineMiners | scripts/main/api2.js:1335-1342 | The distinct base addresses with a heartbeat at or after the window start |
| Api.PoolMinerCount | scripts/main/api2.js:1319-1348 | The number of distinct miners with a heartbeat at or after the window start |
| Api.PoolWorkerCount | scripts/main/api2.js:1523-1550 | The number of heartbeats strictly after the window start |
| Api.MinerCountBoundary | scripts/main/api2.js:1335-1342 | A heartbeat exactly at the window start counts one miner online and no worker |
| Api.OnlineMinersAtMostWorkers | scripts/main/api2.js:1539-1544 | With the strict comparison there are never more online miners than online workers |
| Api.FindMiner | scripts/main/api2.js:1441-1504 | The index found is the first entry holding the miner, and -1 means no entry holds it |
| Api.Tallied | scripts/main/api2.js:1441-1504 | The find-or-merge tally of contributions, one entry per miner; characterised by TalliedStep and TallySums |
| Api.TalliedStep | scripts/main/api2.js:1441-1504 | Tallying one more contribution adds it to the miner's entry, or appends the miner |
| Api.TallySums | scripts/main/api2.js:1441-1504 | A miner's entry sums all its contributions to recent and day work |
| Api.TallyOfAbsent | scripts/main/api2.js:1441-1504 | A miner with no contribution has none |
| Api.PartWorkAppend | scripts/main/api2.js:1441-1504 | Contributions are additive over concatenation |
| Api.OnlineByMinerMeaning | scripts/main/api2.js:1420-1432 | A miner has an online-worker count exactly when it has a heartbeat in the window, and it is that count |
| Api.SamplePartsWork | scripts/main/api2.js:1441-1459 | Samples contribute a miner's recent work and nothing to its day work |
| Api.RollupPartsWork | scripts/main/api2.js:1461-1504 | Historicals and snapshots contribute day work and nothing to recent work |
| Api.TopMinerWork | scripts/main/api2.js:1441-1504 | A miner's entry has the samples' work as recent work and historical plus newer-snapshot work as day work |
| Api.TopTen | scripts/main/api2.js:1506 | The first ten of the stable sort by day work; characterised by TopTenMeaning |
| Api.TopTenMeaning | scripts/main/api2.js:1506 | At most ten entries, sorted by day work, none below an entry left out, nothing lost, and equal day work in tally order |
| Api.Visit | scripts/main/api2.js:1441-1504 | Adds one contribution to the miner's entry or appends it |
| Api.OnlineWorkersByMiner | scripts/main/api2.js:1420-1432 | The loop computes each miner's online-worker count |
| Api.JoinedTimes | scripts/main/api2.js:1434-1439 | The loop computes each registered miner's joined time |
| Api.VisitSamples | scripts/main/api2.js:1441-1459 | Tallies the window's samples |
| Api.VisitHistoricals | scripts/main/api2.js:1461-1482 | Tallies the historicals and finds the latest time |
| Api.VisitSnapshots | scripts/main/api2.js:1484-1504 | Tallies the newer snapshots |
| Api.Present | scripts/main/api2.js:1508-1514 | One output entry per top miner, in order |
| Api.PoolTopMiners | scripts/main/api2.js:1390-1520 | The presented top ten of the tally of samples, historicals and newer snapshots |

## Left out

- Store I/O is not modelled: reads are parameters and writes are returned command lists. This covers `executeCommands`, `multi`/`exec`, the Redis client, and the atomicity and ordering of a batch.
- Concurrency is not modelled, including the race between a read and the writes decided from it.
- The clock is not modelled: `Date.now()` is the parameter `now`.
- IPC is not modelled: `process.send` of a round update is the `roundUpdate` result of `CalculateBlocks`.
- JSON encoding is not modelled: stored values are structured (`ShareValue`, `BlockValue`, …). A malformed stored JSON value (a throw) and a null read that throws are not modelled.
- Floating point is modelled as exact reals. Rounding (`roundTo` in `handleTimes`), exponent renderings of numbers, and NaN and Infinity are not modelled.
- NumericText.ParseNumeric: "" and "-" pass the guard but parse to NaN; the model gives `None`, which every caller reads as 0.
- Api.SampleSum: a sample without a `work` field contributes 0 here; the source would add `undefined` and obtain NaN.
- Shares.HandleEffort: requires a positive block difficulty; a difficulty of 0 makes the source divide by zero (Infinity or NaN), which the model does not represent.
- Shares.PoolShares.CalculateShares: requires a positive block difficulty on the track, for the same reason.
- Shares.PoolShares.CalculateBlocks: requires a positive block difficulty on the block's track, for the same reason.
- Shares.PoolShares.BuildCommands: requires positive block difficulties on the tracks it accounts, for the same reason.
- Api.PoolTopMiners: returns work, not hashrate. The multiplier and hashrate-window scaling of these sums is not modelled.
- Shares.HandleTimes: the cap by the last block time is modelled, but `calculateShares` never supplies one (`lastBlockTime` is unused), so the engine calls it with `None`.
- The orphan round rewrite at scripts/main/shares.js:149-151 only touches a local that is never written, so it has no effect and is not modelled.
- The `blockValid` argument of `buildSharesCommands` is unused by the source and is not a parameter here.
- The `in` operator's prototype-name semantics (a worker named `constructor`) are not modelled: maps and sequences have no inherited members.
- Statistics.OneHistoricalPerSlot: is stated of the intended job (Statistics.HistoricalCommands). As written, the emit path throws at scripts/main/statistics.js:60-61, because `utils.processIdentifiers` is not defined in scripts/main/utils.js. So no entry is ever written (see Findings). Even the intended job keeps one entry per slot only while the slot's score in seconds fits in 32 bits, before 2038-01-19: from then on `| 0` stores a wrapped, negative score, and every run writes again (Statistics.WrappedScoreRewrites).
- Statistics.HistoricalCommands: the entry's payload is a parameter. Its hashrates depend on the undefined `processIdentifiers`, and its network and status fields are not modelled.
- Api.ListedFlags: does not promise that a listed block comes from only one stored list. The source does not keep the confirmed and pending lists disjoint, so a settled block present in both is listed twice, once from each.
- A stored share record's `types` is modelled as present with all three counters, or absent. processTypes reads a partial `types` object field by field, counting 0 for each missing field, but the engine always writes all three fields, so no reachable record is affected.
- The payment query through the SQL layer (`scripts/main/database.js`, the models) is not part of this model: minerPayments is modelled from the records it returns.
- The rest of the repository (stratum, server, the legacy `api.js`, price feeds, mail and the other `utils.js` helpers) is outside this core.

## Findings

| source | as written | input that shows it | evidently intended | confidence | as-written member | corrected member |
|---|---|---|---|---|---|---|
| scripts/main/api2.js:1339 | poolMinerCount counts a heartbeat whose time is at or after the window start (`>=`), while poolWorkerCount at api2.js:1541 counts only those strictly after it (`>`) | one heartbeat `miner` with time equal to the window start: one miner online, zero workers online | the same window for both counts, so that online miners never exceed online workers | not executed | Api.MinerCountBoundary | Api.OnlineMinersAtMostWorkers |
| scripts/main/statistics.js:60 | calculateHistoricalInfo builds its entry with `utils.processIdentifiers`, which scripts/main/utils.js does not export, so every run that decides to write throws a TypeError before its zadd | an empty historical set (no stored score, so the decision is to write): the run throws and nothing is written; the same on the first run of every later ten-minute slot | one zadd of the entry per ten-minute slot, at the slot's score | not executed | Statistics.HistoricalNeverWritten | Statistics.OneHistoricalPerSlot |
