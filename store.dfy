/** The key-value store as the pool sees it: the records it writes (decoded, not
    as JSON text), the keys it writes them under, and the commands of a batch.
    Every key is prefixed by the pool's name; one engine serves one pool, so the
    prefix is left implicit. */
module Store {
  import opened Common

  /** The `types` counters of a worker's round record. */
  datatype TypeCounts = TypeCounts(valid: int, invalid: int, stale: int)

  const ZeroCounts: TypeCounts := TypeCounts(0, 0, 0)

  /** The counter a share type names. */
  function Counter(c: TypeCounts, t: ShareType): int {
    match t
    case Valid => c.valid
    case Invalid => c.invalid
    case Stale => c.stale
  }

  /** The hash field a share type names in a counts hash. */
  function TypeField(t: ShareType): string {
    match t
    case Valid => "valid"
    case Invalid => "invalid"
    case Stale => "stale"
  }

  /** A worker's round record (the `shares` hash of a round) and, with `work`
      set to the share's own difficulty, a hashrate sample.  Fields the source
      may leave out are `Option`s; a read of a worker with no record decodes to
      `EmptyRecord`. */
  datatype ShareRecord = ShareRecord(
    time: Option<int>,
    effort: real,
    identifier: string,
    round: int,
    solo: bool,
    times: Option<real>,
    types: Option<TypeCounts>,
    shareType: Option<ShareType>,
    work: Option<real>,
    worker: string)

  const EmptyRecord: ShareRecord :=
    ShareRecord(None, 0.0, "", 0, false, None, None, None, None, "")

  /** One field of a decoded hash: its key and its decoded value. */
  datatype Entry<V> = Entry(key: string, value: V)

  /** A worker's liveness heartbeat (`workers` hash). */
  datatype ActivityRecord = ActivityRecord(time: int, worker: string, ip: string, offline: bool)

  /** A discovered block as stored in the pending/confirmed/kicked sets. */
  datatype BlockRecord = BlockRecord(
    time: int,
    height: int,
    hash: string,
    reward: real,
    nodeReward: real,
    founderReward: real,
    identifier: string,
    transaction: string,
    difficulty: real,
    luck: real,
    worker: string,
    solo: bool,
    round: int)

  /** A per-worker roll-up of hashrate samples (minute snapshots and
      ten-minute historicals share this shape). */
  datatype Snapshot = Snapshot(worker: string, valid: int, stale: int, invalid: int, time: int, work: real)

  /** A registered miner (`miners` hash). */
  datatype MinerRecord = MinerRecord(firstJoined: int, payoutLimit: real)

  /** A payment record (`payments:<track>:records` sorted set). */
  datatype PaymentRecord = PaymentRecord(time: int, paid: real, transaction: string)

  /** Anything written as a hash value, a set member or a sorted-set member. */
  datatype Value =
    | ShareValue(share: ShareRecord)
    | ActivityValue(activity: ActivityRecord)
    | BlockValue(block: BlockRecord)
    | SnapshotValue(snapshot: Snapshot)
    | MinerValue(miner: MinerRecord)
    | PaymentValue(payment: PaymentRecord)
    | Number(n: real)

  /** The parts of a round: hashrate samples, worker records, work totals,
      counters, the previous-round anchor, and the statistics roll-ups. */
  datatype Bucket = Hashrate | Shares | Work | Counts | Previous | Snapshots | Historicals

  /** `current:<mode>` for the open round, `round-<height>` for a closed one. */
  datatype Round = Current(mode: Mode) | Closed(height: int)

  datatype Key =
    | RoundKey(track: BlockType, round: Round, bucket: Bucket)  // rounds:<track>:<round>:<bucket>
    | WorkersKey(track: BlockType, mode: Mode)                   // workers:<track>:<mode>
    | PendingBlocksKey(track: BlockType)                         // blocks:<track>:pending
    | ConfirmedBlocksKey(track: BlockType)                       // blocks:<track>:confirmed
    | BlockCountsKey(track: BlockType)                           // blocks:<track>:counts
    | MinersKey(track: BlockType)                                // miners:<track>
    | PaymentRecordsKey(track: BlockType)                        // payments:<track>:records
    | HistoricalStatisticsKey(track: BlockType)                  // statistics:<track>:historical

  function CurrentKey(track: BlockType, mode: Mode, bucket: Bucket): Key {
    RoundKey(track, Current(mode), bucket)
  }

  /** The commands of an atomic batch. */
  datatype Command =
    | Zadd(key: Key, score: int, member: Value)
    | Hset(key: Key, field: string, value: Value)
    | Hincrby(key: Key, field: string, amount: real)
    | HincrbyFloat(key: Key, field: string, amount: real)
    | Sadd(key: Key, member: Value)
    | Srem(key: Key, member: Value)
    | Zrem(key: Key, member: Value)
    | ZremRangeByScore(key: Key, min: int, max: int, maxExclusive: bool)
    | Rename(from: Key, to: Key)

  /** Every key a command reads or writes. */
  function KeysOf(c: Command): set<Key> {
    match c
    case Rename(from, to) => {from, to}
    case Zadd(k, _, _) => {k}
    case Hset(k, _, _) => {k}
    case Hincrby(k, _, _) => {k}
    case HincrbyFloat(k, _, _) => {k}
    case Sadd(k, _) => {k}
    case Srem(k, _) => {k}
    case Zrem(k, _) => {k}
    case ZremRangeByScore(k, _, _, _) => {k}
  }

  /** The number of commands of a batch that satisfy `p`. */
  function CountWhere(cs: seq<Command>, p: Command -> bool): (n: nat)
    ensures n <= |cs|
  {
    if cs == [] then 0 else CountWhere(cs[..|cs| - 1], p) + (if p(cs[|cs| - 1]) then 1 else 0)
  }

  lemma {:induction false} CountWhereAppend(a: seq<Command>, b: seq<Command>, p: Command -> bool)
    ensures CountWhere(a + b, p) == CountWhere(a, p) + CountWhere(b, p)
  {
    if b != [] {
      assert (a + b)[..|a + b| - 1] == a + b[..|b| - 1];
      CountWhereAppend(a, b[..|b| - 1], p);
    } else {
      assert a + b == a;
    }
  }

  /** A member of a sorted set with its score. */
  datatype Scored<V> = Scored(score: int, member: V)

  /** Whether a score lies in `(min, max]` (exclusive) or `[min, max]`. */
  predicate InRange(score: int, min: int, minExclusive: bool, max: int) {
    (if minExclusive then min < score else min <= score) && score <= max
  }

  /** `zrangebyscore`: the members whose score lies in the range. The
      sequence stands for a sorted set as Redis lists it, in score order, so
      the members come back in that order. */
  function RangeByScore<V>(zset: seq<Scored<V>>, min: int, minExclusive: bool, max: int): (r: seq<V>)
    ensures |r| <= |zset|
  {
    if zset == [] then []
    else
      var last := zset[|zset| - 1];
      RangeByScore(zset[..|zset| - 1], min, minExclusive, max) + (if InRange(last.score, min, minExclusive, max) then [last.member] else [])
  }

  /** Every member a range read returns was stored with a score in the range. */
  lemma {:induction false} RangeByScoreInRange<V>(zset: seq<Scored<V>>, min: int, minExclusive: bool, max: int, v: V)
    requires v in RangeByScore(zset, min, minExclusive, max)
    ensures exists k :: 0 <= k < |zset| && zset[k].member == v && InRange(zset[k].score, min, minExclusive, max)
  {
    var prefix := zset[..|zset| - 1];
    var last := zset[|zset| - 1];
    if v in RangeByScore(prefix, min, minExclusive, max) {
      RangeByScoreInRange(prefix, min, minExclusive, max, v);
      var k :| 0 <= k < |prefix| && prefix[k].member == v && InRange(prefix[k].score, min, minExclusive, max);
      assert zset[k] == prefix[k];
    } else {
      assert zset[|zset| - 1].member == v;
    }
  }
}
