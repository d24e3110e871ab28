/** The share-accounting engine (scripts/main/shares.js): for every share or
    block event it turns the current round hashes it reads into the batch of
    store commands that records the share, rolls the round over on a shared
    block, or resets a miner's workers on a solo block. */
module Shares {
  import opened Common
  import opened Store
  import opened Utils

  /** A share event as the stratum layer delivers it.  An absent `identifier`
      or `transaction` is "". */
  datatype ShareData = ShareData(
    height: int,
    difficulty: real,
    blockDiffPrimary: real,
    blockDiffAuxiliary: real,
    addrPrimary: string,
    addrAuxiliary: string,
    ip: string,
    identifier: string,
    port: int,
    blockType: BlockType,
    hash: string,
    reward: real,
    transaction: string,
    smartnodeReward: real,
    founderReward: real)

  /** The `shares` hashes of the current rounds as read before the event
      (a missing hash reads as empty), in the order of their fields. */
  datatype RoundReads = RoundReads(
    sharedPrimary: seq<Entry<ShareRecord>>,
    sharedAuxiliary: seq<Entry<ShareRecord>>,
    soloPrimary: seq<Entry<ShareRecord>>,
    soloAuxiliary: seq<Entry<ShareRecord>>)

  /** The address credited on a track. */
  function WorkerFor(share: ShareData, track: BlockType): string {
    if OnPrimaryTrack(track) then share.addrPrimary else share.addrAuxiliary
  }

  /** The network difficulty of a track. */
  function BlockDifficultyFor(share: ShareData, track: BlockType): real {
    if OnPrimaryTrack(track) then share.blockDiffPrimary else share.blockDiffAuxiliary
  }

  /** The current-round `shares` hash of a track and mode. */
  function RoundEntries(hashes: RoundReads, track: BlockType, isSolo: bool): seq<Entry<ShareRecord>> {
    if isSolo then (if OnPrimaryTrack(track) then hashes.soloPrimary else hashes.soloAuxiliary)
    else (if OnPrimaryTrack(track) then hashes.sharedPrimary else hashes.sharedAuxiliary)
  }

  /** The hash calculateShares looks the worker up in.  In shared mode the
      source replaces the round hash by the previous round's `blockTime`
      text, whose fields are character positions that hold no worker record,
      so nothing is found there. */
  function PriorEntries(hashes: RoundReads, track: BlockType, isSolo: bool): (entries: seq<Entry<ShareRecord>>)
    ensures !isSolo ==> entries == []
  {
    if isSolo then RoundEntries(hashes, track, isSolo) else []
  }

  /** The decoded record stored under `key`; `EmptyRecord` when there is none. */
  function Lookup(entries: seq<Entry<ShareRecord>>, key: string): (r: ShareRecord)
    ensures (forall i :: 0 <= i < |entries| ==> entries[i].key != key) ==> r == EmptyRecord
  {
    if entries == [] then EmptyRecord
    else if entries[|entries| - 1].key == key then entries[|entries| - 1].value
    else Lookup(entries[..|entries| - 1], key)
  }

  /** `hset`: the hash after its field `key` is set to `value`. */
  function SetEntry<V>(entries: seq<Entry<V>>, key: string, value: V): (r: seq<Entry<V>>)
    ensures |r| == |entries| || |r| == |entries| + 1
  {
    if entries == [] then [Entry(key, value)]
    else if entries[|entries| - 1].key == key then entries[..|entries| - 1] + [Entry(key, value)]
    else SetEntry(entries[..|entries| - 1], key, value) + [entries[|entries| - 1]]
  }

  /** The fields of a hash. */
  function Keys<V>(entries: seq<Entry<V>>): (ks: set<string>)
    ensures forall i :: 0 <= i < |entries| ==> entries[i].key in ks
    ensures forall k :: k in ks ==> exists i :: 0 <= i < |entries| && entries[i].key == k
  {
    if entries == [] then {}
    else
      var prefix := entries[..|entries| - 1];
      var ks := Keys(prefix);
      assert forall k :: k in ks ==> exists i :: 0 <= i < |entries| && entries[i].key == k by {
        forall k | k in ks
          ensures exists i :: 0 <= i < |entries| && entries[i].key == k
        {
          var i :| 0 <= i < |prefix| && prefix[i].key == k;
          assert entries[i].key == k;
        }
      }
      ks + {entries[|entries| - 1].key}
  }

  lemma {:induction false} SetEntryKeys<V>(entries: seq<Entry<V>>, key: string, value: V)
    ensures Keys(SetEntry(entries, key, value)) == Keys(entries) + {key}
  {
    if entries != [] {
      var prefix := entries[..|entries| - 1];
      var last := entries[|entries| - 1];
      if last.key == key {
        assert (prefix + [Entry(key, value)])[..|prefix|] == prefix;
      } else {
        SetEntryKeys(prefix, key, value);
        var r := SetEntry(prefix, key, value);
        assert (r + [last])[..|r|] == r;
      }
    }
  }

  /** Setting a field keeps the fields distinct. */
  lemma {:induction false} SetEntryDistinct<V>(entries: seq<Entry<V>>, key: string, value: V)
    requires DistinctKeys(entries)
    ensures DistinctKeys(SetEntry(entries, key, value))
  {
    if entries != [] {
      var n := |entries| - 1;
      var prefix := entries[..n];
      var last := entries[n];
      if last.key == key {
        var r := prefix + [Entry(key, value)];
        forall i, j | 0 <= i < j < |r|
          ensures r[i].key != r[j].key
        {
          assert r[i] == entries[i];
          if j < n {
            assert r[j] == entries[j];
          }
        }
      } else {
        SetEntryDistinct(prefix, key, value);
        SetEntryKeys(prefix, key, value);
        var r := SetEntry(prefix, key, value);
        assert last.key !in Keys(prefix) by {
          forall i | 0 <= i < n
            ensures prefix[i].key != last.key
          {
            assert prefix[i] == entries[i];
          }
        }
        var r2 := r + [last];
        forall i, j | 0 <= i < j < |r2|
          ensures r2[i].key != r2[j].key
        {
          assert r2[i] == r[i];
          if j < |r| {
            assert r2[j] == r[j];
          } else {
            assert r[i].key in Keys(r);
          }
        }
      }
    }
  }

  /** Reading a field back gives what was set; every other field is untouched. */
  lemma {:induction false} LookupSetEntry(entries: seq<Entry<ShareRecord>>, key: string, value: ShareRecord, other: string)
    ensures Lookup(SetEntry(entries, key, value), key) == value
    ensures other != key ==> Lookup(SetEntry(entries, key, value), other) == Lookup(entries, other)
  {
    if entries != [] {
      var prefix := entries[..|entries| - 1];
      var last := entries[|entries| - 1];
      if last.key == key {
        assert (prefix + [Entry(key, value)])[..|prefix|] == prefix;
      } else {
        LookupSetEntry(prefix, key, value, other);
        var r := SetEntry(prefix, key, value);
        assert (r + [last])[..|r|] == r;
      }
    }
  }

  /** `lastShare.work || 0` and the work a record contributes to an effort sum. */
  function PriorWork(r: ShareRecord): real {
    r.work.GetOr(0.0)
  }

  // ---------------------------------------------------------------------------
  // handleTimes

  /** `lastShare.time || now`: a missing or zero time counts as now. */
  function LastTime(last: ShareRecord, now: nat): int {
    if last.time.Some? && last.time.value != 0 then last.time.value else now
  }

  /** Seconds since the worker's previous share, never negative. */
  function TimeChange(last: ShareRecord, now: nat): (gap: real)
    ensures gap >= 0.0
    ensures LastTime(last, now) >= now ==> gap == 0.0
  {
    var elapsed := now - LastTime(last, now);
    (if elapsed > 0 then elapsed else 0) as real / 1000.0
  }

  /** Continuous mining time: the previous total plus the gap since the last
      share when that gap is under 900 seconds, capped at the round time when
      a round start is known.  The round start is given in milliseconds and
      the total in seconds, as in the source. */
  function HandleTimes(last: ShareRecord, lastBlockTime: Option<int>, now: nat): (times: real)
    ensures lastBlockTime.Some? ==> times <= (now - lastBlockTime.value) as real
    ensures lastBlockTime.None? && TimeChange(last, now) < 900.0 ==> times == last.times.GetOr(0.0) + TimeChange(last, now)
    ensures lastBlockTime.None? && TimeChange(last, now) >= 900.0 ==> times == last.times.GetOr(0.0)
    ensures lastBlockTime.None? ==> times >= last.times.GetOr(0.0)
  {
    var prior := last.times.GetOr(0.0);
    var gap := TimeChange(last, now);
    var accumulated := if gap < 900.0 then prior + gap else prior;
    match lastBlockTime
    case Some(start) => if accumulated > (now - start) as real then (now - start) as real else accumulated
    case None => accumulated
  }

  /** A worker with no record starts its mining time at zero. */
  lemma FirstShareTimes(now: nat)
    ensures HandleTimes(EmptyRecord, None, now) == 0.0
  {
  }

  // ---------------------------------------------------------------------------
  // handleTypes

  /** The worker's type counters with the share's own type counted once more. */
  function HandleTypes(last: ShareRecord, t: ShareType): (counts: TypeCounts)
    ensures Counter(counts, t) == Counter(last.types.GetOr(ZeroCounts), t) + 1
    ensures forall u :: u != t ==> Counter(counts, u) == Counter(last.types.GetOr(ZeroCounts), u)
  {
    var prior := last.types.GetOr(ZeroCounts);
    match t
    case Valid => prior.(valid := prior.valid + 1)
    case Invalid => prior.(invalid := prior.invalid + 1)
    case Stale => prior.(stale := prior.stale + 1)
  }

  // ---------------------------------------------------------------------------
  // handleEffort

  /** What one stored record adds to the effort sum: in solo mode only the
      submitting worker's own solo record counts, in shared mode every
      record not flagged solo. */
  function Contribution(e: Entry<ShareRecord>, worker: string, isSolo: bool): real {
    if isSolo then (if e.key == worker && e.value.solo then PriorWork(e.value) else 0.0)
    else if !e.value.solo then PriorWork(e.value)
    else 0.0
  }

  /** The work summed over a round hash. */
  function WorkSum(entries: seq<Entry<ShareRecord>>, worker: string, isSolo: bool): real {
    if entries == [] then 0.0
    else WorkSum(entries[..|entries| - 1], worker, isSolo) + Contribution(entries[|entries| - 1], worker, isSolo)
  }

  /** The effort percentage: round work (plus the share's own difficulty when
      it is valid) over the network difficulty. */
  function EffortPercent(sum: real, difficulty: real, t: ShareType, blockDifficulty: real): real
    requires blockDifficulty > 0.0
  {
    (if t == Valid then sum + difficulty else sum) / blockDifficulty * 100.0
  }

  /** handleEffort: one pass over the round hash. */
  method HandleEffort(shares: seq<Entry<ShareRecord>>, worker: string, difficulty: real, t: ShareType,
                      blockDifficulty: real, isSolo: bool) returns (effort: real)
    requires blockDifficulty > 0.0
    ensures effort == EffortPercent(WorkSum(shares, worker, isSolo), difficulty, t, blockDifficulty)
  {
    var difficulties := 0.0;
    var i := 0;
    while i < |shares|
      invariant 0 <= i <= |shares|
      invariant difficulties == WorkSum(shares[..i], worker, isSolo)
    {
      var info := shares[i].value;
      var workValue := PriorWork(info);
      if isSolo && shares[i].key == worker && info.solo {
        difficulties := difficulties + workValue;
      } else if !isSolo && !info.solo {
        difficulties := difficulties + workValue;
      }
      assert shares[..i + 1][..i] == shares[..i];
      i := i + 1;
    }
    assert shares[..|shares|] == shares;
    effort := (if t == Valid then difficulties + difficulty else difficulties) / blockDifficulty * 100.0;
  }

  lemma {:induction false} WorkSumAppend(a: seq<Entry<ShareRecord>>, b: seq<Entry<ShareRecord>>, worker: string, isSolo: bool)
    ensures WorkSum(a + b, worker, isSolo) == WorkSum(a, worker, isSolo) + WorkSum(b, worker, isSolo)
  {
    if b == [] {
      assert a + b == a;
    } else {
      assert (a + b)[..|a + b| - 1] == a + b[..|b| - 1];
      WorkSumAppend(a, b[..|b| - 1], worker, isSolo);
    }
  }

  /** With no negative work stored, the sum (and so every effort) is never negative. */
  lemma {:induction false} WorkSumNonNegative(entries: seq<Entry<ShareRecord>>, worker: string, isSolo: bool)
    requires forall i :: 0 <= i < |entries| ==> PriorWork(entries[i].value) >= 0.0
    ensures WorkSum(entries, worker, isSolo) >= 0.0
  {
    if entries != [] {
      WorkSumNonNegative(entries[..|entries| - 1], worker, isSolo);
    }
  }

  lemma EffortNonNegative(entries: seq<Entry<ShareRecord>>, worker: string, isSolo: bool,
                          difficulty: real, t: ShareType, blockDifficulty: real)
    requires blockDifficulty > 0.0 && difficulty >= 0.0
    requires forall i :: 0 <= i < |entries| ==> PriorWork(entries[i].value) >= 0.0
    ensures EffortPercent(WorkSum(entries, worker, isSolo), difficulty, t, blockDifficulty) >= 0.0
  {
    WorkSumNonNegative(entries, worker, isSolo);
  }

  /** Solo effort ignores every other worker: records under other keys add nothing. */
  lemma {:induction false} SoloSumIgnoresOthers(entries: seq<Entry<ShareRecord>>, others: seq<Entry<ShareRecord>>, worker: string)
    requires forall i :: 0 <= i < |others| ==> others[i].key != worker
    ensures WorkSum(entries + others, worker, true) == WorkSum(entries, worker, true)
  {
    WorkSumAppend(entries, others, worker, true);
    NoKeyNoSoloSum(others, worker);
  }

  lemma {:induction false} NoKeyNoSoloSum(entries: seq<Entry<ShareRecord>>, worker: string)
    requires forall i :: 0 <= i < |entries| ==> entries[i].key != worker
    ensures WorkSum(entries, worker, true) == 0.0
  {
    if entries != [] {
      NoKeyNoSoloSum(entries[..|entries| - 1], worker);
    }
  }

  lemma {:induction false} AllSoloNoSharedSum(solo: seq<Entry<ShareRecord>>, worker: string)
    requires forall i :: 0 <= i < |solo| ==> solo[i].value.solo
    ensures WorkSum(solo, worker, false) == 0.0
  {
    if solo != [] {
      AllSoloNoSharedSum(solo[..|solo| - 1], worker);
    }
  }

  /** Shared effort ignores solo records. */
  lemma SharedSumIgnoresSolo(entries: seq<Entry<ShareRecord>>, solo: seq<Entry<ShareRecord>>, worker: string)
    requires forall i :: 0 <= i < |solo| ==> solo[i].value.solo
    ensures WorkSum(entries + solo, worker, false) == WorkSum(entries, worker, false)
  {
    WorkSumAppend(entries, solo, worker, false);
    AllSoloNoSharedSum(solo, worker);
  }

  /** In a hash with distinct fields, the solo sum is the worker's own stored
      work when its record is flagged solo, and nothing otherwise. */
  lemma {:induction false} SoloSumIsOwnWork(entries: seq<Entry<ShareRecord>>, worker: string)
    requires DistinctKeys(entries)
    ensures WorkSum(entries, worker, true) == (var r := Lookup(entries, worker); if r.solo then PriorWork(r) else 0.0)
  {
    if entries != [] {
      var prefix := entries[..|entries| - 1];
      var last := entries[|entries| - 1];
      if last.key == worker {
        NoKeyNoSoloSum(prefix, worker);
      } else {
        SoloSumIsOwnWork(prefix, worker);
      }
    }
  }

  // ---------------------------------------------------------------------------
  // calculateShares

  /** `if (height > curHeight) curHeight = height`. */
  function RaisedHeight(current: int, height: int): (r: int)
    ensures r >= current && r >= height
    ensures r == current || r == height
  {
    if height > current then height else current
  }

  /** A worker's liveness heartbeat, stamped in whole seconds. */
  function Activity(share: ShareData, worker: string, now: nat): ActivityRecord {
    ActivityRecord(Seconds32(now), worker, LastColonSegment(share.ip), false)
  }

  /** What calculateShares works out for one share on one track. */
  datatype ShareAccount = ShareAccount(
    shareType: ShareType,     // after the stale rule
    difficulty: real,         // the share's difficulty when submitted valid, 0 otherwise
    effort: real,             // round effort, computed before any reset
    work: real,               // difficulty plus the worker's stored work
    record: ShareRecord,      // the round record written for the worker
    workIncrement: real)      // what the round's work hash grows by (shared mode)

  function AccountShare(hashes: RoundReads, share: ShareData, shareType: ShareType, track: BlockType,
                        isSolo: bool, now: nat, curHeight: int, minHeight: int): ShareAccount
    requires BlockDifficultyFor(share, track) > 0.0
  {
    var worker := WorkerFor(share, track);
    var blockDifficulty := BlockDifficultyFor(share, track);
    var entries := PriorEntries(hashes, track, isSolo);
    var last := Lookup(entries, worker);
    var t := if !isSolo && share.height < curHeight then Stale else shareType;
    var difficulty := if shareType == Valid then share.difficulty else 0.0;
    var effort := EffortPercent(WorkSum(entries, worker, isSolo), share.difficulty, t, blockDifficulty);
    var work := difficulty + PriorWork(last);
    var record := ShareRecord(Some(now), effort, share.identifier, share.height, isSolo,
                              Some(HandleTimes(last, None, now)), Some(HandleTypes(last, t)), Some(t), Some(work), worker);
    if !isSolo && share.height < minHeight then
      var reset := record.(effort := share.difficulty / blockDifficulty * 100.0, times := Some(0.0),
                           types := Some(ZeroCounts), work := Some(difficulty));
      ShareAccount(t, difficulty, effort, work, reset, 0.0)
    else
      ShareAccount(t, difficulty, effort, work, record, difficulty)
  }

  /** The commands calculateShares emits for an account. */
  function ShareCommands(a: ShareAccount, share: ShareData, track: BlockType, isSolo: bool, now: nat): seq<Command> {
    var mode := ModeOf(isSolo);
    var worker := WorkerFor(share, track);
    var counts := CurrentKey(track, mode, Counts);
    var sample := Zadd(CurrentKey(track, mode, Hashrate), Seconds32(now), ShareValue(a.record.(work := Some(a.difficulty))));
    var record := Hset(CurrentKey(track, mode, Shares), worker, ShareValue(a.record));
    var heartbeat := Hset(WorkersKey(track, mode), worker, ActivityValue(Activity(share, worker, now)));
    if a.shareType == Valid && isSolo then
      [sample, record, Hincrby(CurrentKey(track, mode, Work), worker, a.work), heartbeat]
    else if a.shareType == Valid then
      [sample, Hincrby(counts, "valid", 1.0), record, HincrbyFloat(CurrentKey(track, mode, Work), worker, a.workIncrement),
       heartbeat, Hset(counts, "effort", Number(a.effort))]
    else
      [sample, Hincrby(counts, TypeField(a.shareType), 1.0), record, heartbeat]
  }

  /** calculateShares for one track, given the engine's heights after the event. */
  function SharesFor(hashes: RoundReads, share: ShareData, shareType: ShareType, track: BlockType,
                     isSolo: bool, now: nat, curHeight: int, minHeight: int): seq<Command>
    requires BlockDifficultyFor(share, track) > 0.0
  {
    ShareCommands(AccountShare(hashes, share, shareType, track, isSolo, now, curHeight, minHeight), share, track, isSolo, now)
  }

  predicate IsHashrateSample(c: Command) {
    c.Zadd? && c.key.RoundKey? && c.key.bucket == Hashrate
  }

  predicate IsHeartbeat(c: Command) {
    c.Hset? && c.key.WorkersKey?
  }

  predicate IsRecordWrite(c: Command) {
    c.Hset? && c.key.RoundKey? && c.key.bucket == Shares
  }

  predicate IsCounterIncrement(c: Command) {
    c.Hincrby? && c.key.RoundKey? && c.key.bucket == Counts
  }

  lemma CountWhere4(a: Command, b: Command, c: Command, d: Command, p: Command -> bool)
    ensures CountWhere([a, b, c, d], p) == (if p(a) then 1 else 0) + (if p(b) then 1 else 0) + (if p(c) then 1 else 0) + (if p(d) then 1 else 0)
  {
    assert [a, b, c, d][..3] == [a, b, c];
    assert [a, b, c][..2] == [a, b];
    assert [a, b][..1] == [a];
    assert [a][..0] == [];
    assert CountWhere([a], p) == (if p(a) then 1 else 0);
    assert CountWhere([a, b], p) == CountWhere([a], p) + (if p(b) then 1 else 0);
    assert CountWhere([a, b, c], p) == CountWhere([a, b], p) + (if p(c) then 1 else 0);
    assert CountWhere([a, b, c, d], p) == CountWhere([a, b, c], p) + (if p(d) then 1 else 0);
  }

  lemma CountWhere6(a: Command, b: Command, c: Command, d: Command, e: Command, f: Command, p: Command -> bool)
    ensures CountWhere([a, b, c, d, e, f], p) == (if p(a) then 1 else 0) + (if p(b) then 1 else 0) + (if p(c) then 1 else 0)
                                                 + (if p(d) then 1 else 0) + (if p(e) then 1 else 0) + (if p(f) then 1 else 0)
  {
    assert [a, b, c, d, e, f][..5] == [a, b, c, d, e];
    assert [a, b, c, d, e][..4] == [a, b, c, d];
    CountWhere4(a, b, c, d, p);
  }

  /** Every share, whatever its type and mode, leaves exactly one hashrate
      sample (scored with the event's second), one round record and one
      heartbeat; the sample carries the record with only the share's own
      difficulty as work. */
  lemma ShareWritesOneOfEach(a: ShareAccount, share: ShareData, track: BlockType, isSolo: bool, now: nat)
    ensures var cs := ShareCommands(a, share, track, isSolo, now);
            var mode := ModeOf(isSolo);
            && |cs| == (if a.shareType == Valid && !isSolo then 6 else 4)
            && CountWhere(cs, IsHashrateSample) == 1
            && CountWhere(cs, IsRecordWrite) == 1
            && CountWhere(cs, IsHeartbeat) == 1
            && cs[0] == Zadd(CurrentKey(track, mode, Hashrate), Seconds32(now), ShareValue(a.record.(work := Some(a.difficulty))))
            && Hset(CurrentKey(track, mode, Shares), WorkerFor(share, track), ShareValue(a.record)) in cs
            && Hset(WorkersKey(track, mode), WorkerFor(share, track), ActivityValue(Activity(share, WorkerFor(share, track), now))) in cs
  {
    var cs := ShareCommands(a, share, track, isSolo, now);
    if a.shareType == Valid && !isSolo {
      CountWhere6(cs[0], cs[1], cs[2], cs[3], cs[4], cs[5], IsHashrateSample);
      CountWhere6(cs[0], cs[1], cs[2], cs[3], cs[4], cs[5], IsRecordWrite);
      CountWhere6(cs[0], cs[1], cs[2], cs[3], cs[4], cs[5], IsHeartbeat);
    } else {
      CountWhere4(cs[0], cs[1], cs[2], cs[3], IsHashrateSample);
      CountWhere4(cs[0], cs[1], cs[2], cs[3], IsRecordWrite);
      CountWhere4(cs[0], cs[1], cs[2], cs[3], IsHeartbeat);
    }
  }

  /** A share writes only under the current round of its own track and mode
      and the heartbeat hash of that track and mode. */
  lemma ShareStaysInItsRound(a: ShareAccount, share: ShareData, track: BlockType, isSolo: bool, now: nat)
    ensures var mode := ModeOf(isSolo);
            forall c :: c in ShareCommands(a, share, track, isSolo, now) ==>
              KeysOf(c) <= {CurrentKey(track, mode, Hashrate), CurrentKey(track, mode, Shares),
                            CurrentKey(track, mode, Work), CurrentKey(track, mode, Counts), WorkersKey(track, mode)}
  {
  }

  /** The round counters: a valid solo share touches no counter and adds its
      cumulative work to the work hash; every other share bumps exactly the
      counter of its (possibly reclassified) type, and a valid shared share
      also adds its increment to the work hash and writes the effort. */
  lemma ShareCounters(a: ShareAccount, share: ShareData, track: BlockType, isSolo: bool, now: nat)
    ensures var cs := ShareCommands(a, share, track, isSolo, now);
            var mode := ModeOf(isSolo);
            var worker := WorkerFor(share, track);
            && (a.shareType == Valid && isSolo ==>
                  && CountWhere(cs, IsCounterIncrement) == 0
                  && (forall c :: c in cs ==> CurrentKey(track, mode, Counts) !in KeysOf(c))
                  && Hincrby(CurrentKey(track, mode, Work), worker, a.work) in cs)
            && (!(a.shareType == Valid && isSolo) ==>
                  && CountWhere(cs, IsCounterIncrement) == 1
                  && Hincrby(CurrentKey(track, mode, Counts), TypeField(a.shareType), 1.0) in cs)
            && (a.shareType == Valid && !isSolo ==>
                  && HincrbyFloat(CurrentKey(track, mode, Work), worker, a.workIncrement) in cs
                  && Hset(CurrentKey(track, mode, Counts), "effort", Number(a.effort)) in cs)
            && (a.shareType != Valid ==> forall c :: c in cs ==> CurrentKey(track, mode, Work) !in KeysOf(c))
  {
    var cs := ShareCommands(a, share, track, isSolo, now);
    if |cs| == 4 {
      assert cs == [cs[0], cs[1], cs[2], cs[3]];
      CountWhere4(cs[0], cs[1], cs[2], cs[3], IsCounterIncrement);
    } else {
      assert cs == [cs[0], cs[1], cs[2], cs[3], cs[4], cs[5]];
      CountWhere6(cs[0], cs[1], cs[2], cs[3], cs[4], cs[5], IsCounterIncrement);
    }
  }

  /** The stale rule: a shared-mode share below the highest height seen is
      recorded and counted as stale; it then adds nothing to the effort,
      although its work still grows by its difficulty when it was submitted valid. */
  lemma StaleRule(hashes: RoundReads, share: ShareData, shareType: ShareType, track: BlockType,
                  isSolo: bool, now: nat, curHeight: int, minHeight: int)
    requires BlockDifficultyFor(share, track) > 0.0
    ensures var a := AccountShare(hashes, share, shareType, track, isSolo, now, curHeight, minHeight);
            && (!isSolo && share.height < curHeight ==>
                  a.shareType == Stale && a.record.shareType == Some(Stale) && a.effort == 0.0
                  && a.difficulty == (if shareType == Valid then share.difficulty else 0.0))
            && (isSolo || share.height >= curHeight ==> a.shareType == shareType && a.record.shareType == Some(shareType))
  {
  }

  /** Reading the engine's own writes: the round record's counters are the
      stored ones with the share's type counted once more, its work is the
      stored work plus the share's difficulty, and its time moves to now;
      unless the round-overlap reset applies, which restarts the record at
      the share's difficulty with zero time and counters and adds nothing to
      the work hash. */
  lemma RoundRecordUpdate(hashes: RoundReads, share: ShareData, shareType: ShareType, track: BlockType,
                          isSolo: bool, now: nat, curHeight: int, minHeight: int)
    requires BlockDifficultyFor(share, track) > 0.0
    ensures var a := AccountShare(hashes, share, shareType, track, isSolo, now, curHeight, minHeight);
            var last := Lookup(PriorEntries(hashes, track, isSolo), WorkerFor(share, track));
            var reset := !isSolo && share.height < minHeight;
            && a.record.time == Some(now) && a.record.worker == WorkerFor(share, track) && a.record.round == share.height
            && a.record.solo == isSolo && a.work == a.difficulty + PriorWork(last)
            && (!reset ==>
                  && a.record.work == Some(PriorWork(last) + a.difficulty)
                  && Counter(a.record.types.value, a.shareType) == Counter(last.types.GetOr(ZeroCounts), a.shareType) + 1
                  && a.record.times.value >= last.times.GetOr(0.0)
                  && a.workIncrement == a.difficulty)
            && (reset ==>
                  && a.record.work == Some(a.difficulty) && a.record.times == Some(0.0)
                  && a.record.types == Some(ZeroCounts) && a.workIncrement == 0.0
                  && a.record.effort == share.difficulty / BlockDifficultyFor(share, track) * 100.0)
  {
  }

  /** In shared mode nothing is ever found for the worker, so the record
      written never carries earlier shares: its work is the share's own
      difficulty, its time total 0 and exactly one counter is set; the effort
      written to the counts hash is the share's own percentage. */
  lemma SharedRecordIsFresh(hashes: RoundReads, share: ShareData, shareType: ShareType, track: BlockType,
                            now: nat, curHeight: int, minHeight: int)
    requires BlockDifficultyFor(share, track) > 0.0
    ensures var a := AccountShare(hashes, share, shareType, track, false, now, curHeight, minHeight);
            && a.record.work == Some(a.difficulty)
            && a.record.times == Some(0.0)
            && (share.height >= minHeight ==> a.record.types == Some(HandleTypes(EmptyRecord, a.shareType)))
            && a.effort == (if a.shareType == Valid then share.difficulty else 0.0) / BlockDifficultyFor(share, track) * 100.0
  {
  }

  /** In solo mode the effort is the worker's cumulative work (stored plus
      this share) over the network difficulty, whatever other workers hold. */
  lemma SoloEffortIsOwnWork(hashes: RoundReads, share: ShareData, shareType: ShareType, track: BlockType,
                            now: nat, curHeight: int, minHeight: int)
    requires BlockDifficultyFor(share, track) > 0.0
    requires DistinctKeys(RoundEntries(hashes, track, true))
    ensures var a := AccountShare(hashes, share, shareType, track, true, now, curHeight, minHeight);
            var last := Lookup(RoundEntries(hashes, track, true), WorkerFor(share, track));
            a.effort == EffortPercent(if last.solo then PriorWork(last) else 0.0, share.difficulty, shareType,
                                      BlockDifficultyFor(share, track))
  {
    SoloSumIsOwnWork(RoundEntries(hashes, track, true), WorkerFor(share, track));
  }

  /** The solo round hash after a share's record is written. */
  function WithRecord(hashes: RoundReads, track: BlockType, worker: string, record: ShareRecord): RoundReads {
    if OnPrimaryTrack(track) then hashes.(soloPrimary := SetEntry(hashes.soloPrimary, worker, record))
    else hashes.(soloAuxiliary := SetEntry(hashes.soloAuxiliary, worker, record))
  }

  /** Two valid solo shares in a row from one worker, the second reading the
      store the first wrote: the second record holds the stored work plus
      both difficulties and two more valid counts, and its effort is that
      cumulative work over the network difficulty. */
  lemma SoloSharesAccumulate(hashes: RoundReads, first: ShareData, second: ShareData, track: BlockType,
                             now1: nat, now2: nat, curHeight: int, minHeight: int)
    requires BlockDifficultyFor(first, track) > 0.0 && BlockDifficultyFor(second, track) > 0.0
    requires WorkerFor(first, track) == WorkerFor(second, track)
    requires DistinctKeys(RoundEntries(hashes, track, true))
    ensures var worker := WorkerFor(first, track);
            var last := Lookup(RoundEntries(hashes, track, true), worker);
            var a1 := AccountShare(hashes, first, Valid, track, true, now1, curHeight, minHeight);
            var hashes2 := WithRecord(hashes, track, worker, a1.record);
            var a2 := AccountShare(hashes2, second, Valid, track, true, now2, curHeight, minHeight);
            && a2.record.work == Some(PriorWork(last) + first.difficulty + second.difficulty)
            && a2.record.types.value.valid == last.types.GetOr(ZeroCounts).valid + 2
            && a2.effort == EffortPercent(PriorWork(last) + first.difficulty, second.difficulty, Valid, BlockDifficultyFor(second, track))
  {
    var worker := WorkerFor(first, track);
    var entries := RoundEntries(hashes, track, true);
    var a1 := AccountShare(hashes, first, Valid, track, true, now1, curHeight, minHeight);
    var hashes2 := WithRecord(hashes, track, worker, a1.record);
    var last := Lookup(entries, worker);
    var entries2 := SetEntry(entries, worker, a1.record);
    SoloValidShare(hashes, first, track, now1, curHeight, minHeight);
    assert RoundEntries(hashes2, track, true) == entries2;
    LookupSetEntry(entries, worker, a1.record, worker);
    SetEntryDistinct(entries, worker, a1.record);
    SoloSumIsOwnWork(entries2, worker);
    assert WorkSum(entries2, worker, true) == PriorWork(last) + first.difficulty;
    SoloValidShare(hashes2, second, track, now2, curHeight, minHeight);
  }

  /** One valid solo share: its record is solo, holds the stored work plus
      the share's difficulty and one more valid count, and its effort is the
      round's work sum with the share over the network difficulty. */
  lemma SoloValidShare(hashes: RoundReads, share: ShareData, track: BlockType, now: nat, curHeight: int, minHeight: int)
    requires BlockDifficultyFor(share, track) > 0.0
    ensures var worker := WorkerFor(share, track);
            var entries := RoundEntries(hashes, track, true);
            var last := Lookup(entries, worker);
            var a := AccountShare(hashes, share, Valid, track, true, now, curHeight, minHeight);
            && a.record.solo && a.record.work == Some(PriorWork(last) + share.difficulty)
            && a.record.types.value.valid == last.types.GetOr(ZeroCounts).valid + 1
            && a.effort == EffortPercent(WorkSum(entries, worker, true), share.difficulty, Valid, BlockDifficultyFor(share, track))
  {
    var last := Lookup(RoundEntries(hashes, track, true), WorkerFor(share, track));
    assert Counter(HandleTypes(last, Valid), Valid) == Counter(last.types.GetOr(ZeroCounts), Valid) + 1;
  }

  /** The solo work hash grows by the cumulative work, not by the share's
      difficulty: after two valid solo shares of difficulty 1 from a worker
      with nothing stored, the hash has been incremented by 1 and then 2,
      while the round record holds 2. */
  lemma SoloWorkHashGrowsByCumulativeWork(hashes: RoundReads, share: ShareData, track: BlockType,
                                          now1: nat, now2: nat, curHeight: int, minHeight: int)
    requires BlockDifficultyFor(share, track) > 0.0 && share.difficulty == 1.0
    requires RoundEntries(hashes, track, true) == []
    ensures var worker := WorkerFor(share, track);
            var key := CurrentKey(track, Solo, Work);
            var a1 := AccountShare(hashes, share, Valid, track, true, now1, curHeight, minHeight);
            var hashes2 := WithRecord(hashes, track, worker, a1.record);
            var a2 := AccountShare(hashes2, share, Valid, track, true, now2, curHeight, minHeight);
            && Hincrby(key, worker, 1.0) in SharesFor(hashes, share, Valid, track, true, now1, curHeight, minHeight)
            && Hincrby(key, worker, 2.0) in SharesFor(hashes2, share, Valid, track, true, now2, curHeight, minHeight)
            && a2.record.work == Some(2.0)
  {
    var worker := WorkerFor(share, track);
    var a1 := AccountShare(hashes, share, Valid, track, true, now1, curHeight, minHeight);
    var hashes2 := WithRecord(hashes, track, worker, a1.record);
    assert RoundEntries(hashes2, track, true) == [Entry(worker, a1.record)];
    assert Lookup([Entry(worker, a1.record)], worker) == a1.record;
    var a2 := AccountShare(hashes2, share, Valid, track, true, now2, curHeight, minHeight);
    ShareCounters(a1, share, track, true, now1);
    ShareCounters(a2, share, track, true, now2);
  }

  // ---------------------------------------------------------------------------
  // calculateBlocks

  /** The miner's other solo workers: the fields of the primary solo hash
      whose base address is the block finder's, in field order. */
  function Siblings(entries: seq<Entry<ShareRecord>>, worker: string): (r: seq<string>)
    ensures forall k :: k in r ==> BaseAddress(k) == BaseAddress(worker)
    ensures forall i :: 0 <= i < |entries| && BaseAddress(entries[i].key) == BaseAddress(worker) ==> entries[i].key in r
    ensures forall k :: k in r ==> exists i :: 0 <= i < |entries| && entries[i].key == k
  {
    if entries == [] then []
    else
      var prefix := entries[..|entries| - 1];
      var rest := Siblings(prefix, worker);
      var k := entries[|entries| - 1].key;
      assert forall i :: 0 <= i < |prefix| ==> prefix[i] == entries[i];
      if BaseAddress(k) == BaseAddress(worker) then rest + [k] else rest
  }

  /** The signed work of a block event: negative unless the share was valid. */
  function SignedDifficulty(share: ShareData, shareType: ShareType): real {
    if shareType == Valid then share.difficulty else -share.difficulty
  }

  /** The record a solo worker restarts from after its miner finds a block. */
  function ResetRecord(share: ShareData, shareType: ShareType, key: string, now: nat): (r: ShareRecord)
    ensures r.times == Some(0.0) && r.types == Some(ZeroCounts) && r.effort == 0.0
    ensures r.work == Some(SignedDifficulty(share, shareType)) && r.worker == key && r.solo
  {
    ShareRecord(Some(now), 0.0, share.identifier, share.height, true, Some(0.0), Some(ZeroCounts), None,
                Some(SignedDifficulty(share, shareType)), key)
  }

  /** Per sibling: its reset record, then the finder's heartbeat. */
  function ResetCommands(siblings: seq<string>, share: ShareData, shareType: ShareType, now: nat): (cs: seq<Command>)
    ensures |cs| == 2 * |siblings|
  {
    if siblings == [] then []
    else
      var track := share.blockType;
      var worker := WorkerFor(share, track);
      var k := siblings[|siblings| - 1];
      ResetCommands(siblings[..|siblings| - 1], share, shareType, now)
      + [Hset(CurrentKey(track, Solo, Shares), k, ShareValue(ResetRecord(share, shareType, k, now))),
         Hset(WorkersKey(track, Solo), worker, ActivityValue(Activity(share, worker, now)))]
  }

  /** Reset commands only write sibling records (each the zero record of
      its own field) and heartbeats, each of them the finder's, keyed by the
      finder, in the current solo round. */
  lemma {:induction false} ResetCommandsWrite(siblings: seq<string>, share: ShareData, shareType: ShareType, now: nat)
    ensures var cs := ResetCommands(siblings, share, shareType, now);
            var track := share.blockType;
            forall c :: c in cs ==>
              && c.Hset?
              && (c.key == CurrentKey(track, Solo, Shares) || c.key == WorkersKey(track, Solo))
              && (c.key == CurrentKey(track, Solo, Shares) ==>
                    c.field in siblings && c.value == ShareValue(ResetRecord(share, shareType, c.field, now)))
              && (c.key == WorkersKey(track, Solo) ==>
                    c == Hset(WorkersKey(track, Solo), WorkerFor(share, track), ActivityValue(Activity(share, WorkerFor(share, track), now))))
  {
    if siblings != [] {
      var prefix := siblings[..|siblings| - 1];
      ResetCommandsWrite(prefix, share, shareType, now);
      assert forall k :: k in prefix ==> k in siblings;
    }
  }

  /** Every sibling gets its zero record. */
  lemma {:induction false} ResetCommandsCover(siblings: seq<string>, share: ShareData, shareType: ShareType, now: nat)
    ensures var cs := ResetCommands(siblings, share, shareType, now);
            forall k :: k in siblings ==>
              Hset(CurrentKey(share.blockType, Solo, Shares), k, ShareValue(ResetRecord(share, shareType, k, now))) in cs
  {
    if siblings != [] {
      var prefix := siblings[..|siblings| - 1];
      var last := siblings[|siblings| - 1];
      var before := ResetCommands(prefix, share, shareType, now);
      var cs := ResetCommands(siblings, share, shareType, now);
      var track := share.blockType;
      ResetCommandsCover(prefix, share, shareType, now);
      assert cs[..|before|] == before;
      assert cs[|before|] == Hset(CurrentKey(track, Solo, Shares), last, ShareValue(ResetRecord(share, shareType, last, now)));
      forall k | k in siblings
        ensures Hset(CurrentKey(track, Solo, Shares), k, ShareValue(ResetRecord(share, shareType, k, now))) in cs
      {
        if k != last {
          var i :| 0 <= i < |siblings| && siblings[i] == k;
          assert prefix[i] == k;
          var c := Hset(CurrentKey(track, Solo, Shares), k, ShareValue(ResetRecord(share, shareType, k, now)));
          var j :| 0 <= j < |before| && before[j] == c;
          assert cs[j] == c;
        }
      }
    }
  }

  /** The block record stored as pending. */
  function BlockFor(hashes: RoundReads, share: ShareData, shareType: ShareType, isSolo: bool, now: nat): BlockRecord
    requires BlockDifficultyFor(share, share.blockType) > 0.0
  {
    var track := share.blockType;
    var worker := WorkerFor(share, track);
    var blockDifficulty := BlockDifficultyFor(share, track);
    var luck := EffortPercent(WorkSum(RoundEntries(hashes, track, isSolo), worker, isSolo), share.difficulty, shareType, blockDifficulty);
    BlockRecord(now, share.height, share.hash, share.reward, share.smartnodeReward, share.founderReward,
                share.identifier, share.transaction, blockDifficulty, luck, worker, isSolo, share.height)
  }

  /** The finder's record in the closed solo round: stored counters and time
      total, work grown by the signed difficulty, effort set to the luck. */
  function ClosedRoundRecord(hashes: RoundReads, share: ShareData, shareType: ShareType, now: nat): ShareRecord
    requires BlockDifficultyFor(share, share.blockType) > 0.0
  {
    var track := share.blockType;
    var worker := WorkerFor(share, track);
    var last := Lookup(RoundEntries(hashes, track, true), worker);
    ShareRecord(Some(now), BlockFor(hashes, share, shareType, true, now).luck, share.identifier, share.height, true,
                last.times, last.types, None, Some(SignedDifficulty(share, shareType) + PriorWork(last)), worker)
  }

  /** The commands calculateBlocks emits. */
  function BlockCommands(hashes: RoundReads, share: ShareData, shareType: ShareType, blockValid: bool,
                         isSolo: bool, now: nat): seq<Command>
    requires BlockDifficultyFor(share, share.blockType) > 0.0
  {
    var track := share.blockType;
    var mode := ModeOf(isSolo);
    var worker := WorkerFor(share, track);
    var pending := Sadd(PendingBlocksKey(track), BlockValue(BlockFor(hashes, share, shareType, isSolo, now)));
    var found := Hincrby(BlockCountsKey(track), "valid", 1.0);
    if blockValid && isSolo then
      [pending, found,
       Hset(RoundKey(track, Closed(share.height), Shares), worker, ShareValue(ClosedRoundRecord(hashes, share, shareType, now)))]
      + ResetCommands(Siblings(hashes.soloPrimary, worker), share, shareType, now)
    else if blockValid then
      [pending,
       Hset(CurrentKey(track, mode, Previous), "blockTime", Number(now as real)),
       Hset(CurrentKey(track, mode, Previous), "height", Number(share.height as real)),
       found,
       Rename(CurrentKey(track, mode, Counts), RoundKey(track, Closed(share.height), Counts)),
       Rename(CurrentKey(track, mode, Shares), RoundKey(track, Closed(share.height), Shares)),
       Rename(CurrentKey(track, mode, Work), RoundKey(track, Closed(share.height), Work))]
    else if share.transaction != "" then
      [Hincrby(BlockCountsKey(track), "invalid", 1.0)]
    else
      []
  }

  predicate IsRename(c: Command) {
    c.Rename?
  }

  /** A valid shared block closes the round: the block goes to pending with
      its luck, the previous-round anchor is set, the found counter grows,
      and exactly three renames move the current shared counts, records and
      work to the round named by the block height. */
  lemma SharedBlockClosesRound(hashes: RoundReads, share: ShareData, shareType: ShareType, now: nat)
    requires BlockDifficultyFor(share, share.blockType) > 0.0
    ensures var cs := BlockCommands(hashes, share, shareType, true, false, now);
            var track := share.blockType;
            && |cs| == 7
            && CountWhere(cs, IsRename) == 3
            && (forall b :: b in {Counts, Shares, Work} ==>
                  Rename(CurrentKey(track, Shared, b), RoundKey(track, Closed(share.height), b)) in cs)
            && (forall c :: c in cs && c.Rename? ==>
                  c.from == CurrentKey(track, Shared, c.from.bucket) && c.to == RoundKey(track, Closed(share.height), c.from.bucket)
                  && c.from.bucket in {Counts, Shares, Work})
            && Sadd(PendingBlocksKey(track), BlockValue(BlockFor(hashes, share, shareType, false, now))) in cs
            && Hset(CurrentKey(track, Shared, Previous), "blockTime", Number(BlockFor(hashes, share, shareType, false, now).time as real)) in cs
            && Hset(CurrentKey(track, Shared, Previous), "height", Number(share.height as real)) in cs
            && Hincrby(BlockCountsKey(track), "valid", 1.0) in cs
  {
    var cs := BlockCommands(hashes, share, shareType, true, false, now);
    assert cs[..6][..5][..4] == cs[..4];
    CountWhere4(cs[0], cs[1], cs[2], cs[3], IsRename);
    assert cs[..4] == [cs[0], cs[1], cs[2], cs[3]];
    assert cs[..6] == [cs[0], cs[1], cs[2], cs[3], cs[4], cs[5]];
    CountWhere6(cs[0], cs[1], cs[2], cs[3], cs[4], cs[5], IsRename);
  }

  /** A valid solo block does not close the round: the block goes to
      pending, the finder's record goes to the round named by the block
      height, and every worker of the finder's miner found in the primary
      solo hash is restarted from a zero record in the current solo round. */
  lemma SoloBlockResetsSiblings(hashes: RoundReads, share: ShareData, shareType: ShareType, now: nat)
    requires BlockDifficultyFor(share, share.blockType) > 0.0
    ensures var cs := BlockCommands(hashes, share, shareType, true, true, now);
            var track := share.blockType;
            var worker := WorkerFor(share, track);
            var entries := hashes.soloPrimary;
            && |cs| == 3 + 2 * |Siblings(entries, worker)|
            && (forall c :: c in cs ==> !c.Rename?)
            && Sadd(PendingBlocksKey(track), BlockValue(BlockFor(hashes, share, shareType, true, now))) in cs
            && Hincrby(BlockCountsKey(track), "valid", 1.0) in cs
            && Hset(RoundKey(track, Closed(share.height), Shares), worker, ShareValue(ClosedRoundRecord(hashes, share, shareType, now))) in cs
            && (forall i :: 0 <= i < |entries| && BaseAddress(entries[i].key) == BaseAddress(worker) ==>
                  Hset(CurrentKey(track, Solo, Shares), entries[i].key, ShareValue(ResetRecord(share, shareType, entries[i].key, now))) in cs)
  {
    var cs := BlockCommands(hashes, share, shareType, true, true, now);
    var track := share.blockType;
    var worker := WorkerFor(share, track);
    var siblings := Siblings(hashes.soloPrimary, worker);
    var rest := ResetCommands(siblings, share, shareType, now);
    assert cs == cs[..3] + rest;
    ResetCommandsWrite(siblings, share, shareType, now);
    ResetCommandsCover(siblings, share, shareType, now);
    forall c | c in cs
      ensures !c.Rename?
    {
      if c !in rest {
        assert c in cs[..3];
      }
    }
  }

  /** ... and no other record of the current solo round is touched: every
      record written there belongs to a worker of the finder's miner that the
      primary solo hash holds, and is that worker's zero record. */
  lemma SoloBlockResetsOnlySiblings(hashes: RoundReads, share: ShareData, shareType: ShareType, now: nat)
    requires BlockDifficultyFor(share, share.blockType) > 0.0
    ensures var cs := BlockCommands(hashes, share, shareType, true, true, now);
            var track := share.blockType;
            var worker := WorkerFor(share, track);
            forall c :: c in cs && c.Hset? && c.key == CurrentKey(track, Solo, Shares) ==>
              && BaseAddress(c.field) == BaseAddress(worker)
              && (exists i :: 0 <= i < |hashes.soloPrimary| && hashes.soloPrimary[i].key == c.field)
              && c.value == ShareValue(ResetRecord(share, shareType, c.field, now))
  {
    var cs := BlockCommands(hashes, share, shareType, true, true, now);
    var track := share.blockType;
    var worker := WorkerFor(share, track);
    var siblings := Siblings(hashes.soloPrimary, worker);
    var rest := ResetCommands(siblings, share, shareType, now);
    assert cs == cs[..3] + rest;
    ResetCommandsWrite(siblings, share, shareType, now);
    assert forall c :: c in cs && c.Hset? && c.key == CurrentKey(track, Solo, Shares) ==> c in rest;
  }

  /** A rejected block writes nothing but the rejected counter, and only when
      the daemon returned a transaction. */
  lemma RejectedBlock(hashes: RoundReads, share: ShareData, shareType: ShareType, isSolo: bool, now: nat)
    requires BlockDifficultyFor(share, share.blockType) > 0.0
    ensures BlockCommands(hashes, share, shareType, false, isSolo, now)
            == (if share.transaction != "" then [Hincrby(BlockCountsKey(share.blockType), "invalid", 1.0)] else [])
  {
  }

  /** The hashes with more fields appended to the round hash of a track and mode. */
  function Extended(hashes: RoundReads, track: BlockType, isSolo: bool, extra: seq<Entry<ShareRecord>>): (r: RoundReads)
    ensures RoundEntries(r, track, isSolo) == RoundEntries(hashes, track, isSolo) + extra
  {
    if isSolo && OnPrimaryTrack(track) then hashes.(soloPrimary := hashes.soloPrimary + extra)
    else if isSolo then hashes.(soloAuxiliary := hashes.soloAuxiliary + extra)
    else if OnPrimaryTrack(track) then hashes.(sharedPrimary := hashes.sharedPrimary + extra)
    else hashes.(sharedAuxiliary := hashes.sharedAuxiliary + extra)
  }

  /** Block luck follows the effort rules: in solo mode records of other
      workers never count, in shared mode solo records never do. */
  lemma BlockLuckIsolation(hashes: RoundReads, share: ShareData, shareType: ShareType, isSolo: bool, now: nat,
                           extra: seq<Entry<ShareRecord>>)
    requires BlockDifficultyFor(share, share.blockType) > 0.0
    requires isSolo ==> forall i :: 0 <= i < |extra| ==> extra[i].key != WorkerFor(share, share.blockType)
    requires !isSolo ==> forall i :: 0 <= i < |extra| ==> extra[i].value.solo
    ensures BlockFor(Extended(hashes, share.blockType, isSolo, extra), share, shareType, isSolo, now).luck
            == BlockFor(hashes, share, shareType, isSolo, now).luck
  {
    var track := share.blockType;
    var worker := WorkerFor(share, track);
    var entries := RoundEntries(hashes, track, isSolo);
    if isSolo {
      SoloSumIgnoresOthers(entries, extra, worker);
    } else {
      SharedSumIgnoresSolo(entries, extra, worker);
    }
  }

  /** The first half of calculateShares: the share's type after the stale
      rule, the round record written for the worker (reset when the share is
      below the last shared block) and the work the round grows by. */
  method BuildAccount(hashes: RoundReads, share: ShareData, shareType: ShareType, track: BlockType,
                      isSolo: bool, now: nat, curHeight: int, minHeight: int) returns (account: ShareAccount)
    requires BlockDifficultyFor(share, track) > 0.0
    ensures account == AccountShare(hashes, share, shareType, track, isSolo, now, curHeight, minHeight)
  {
    var worker := WorkerFor(share, track);
    var blockDifficulty := BlockDifficultyFor(share, track);
    var difficulty := if shareType == Valid then share.difficulty else 0.0;
    var shares := PriorEntries(hashes, track, isSolo);
    var lastShare := Lookup(shares, worker);
    var t := shareType;
    if !isSolo && share.height < curHeight {
      t := Stale;
    }
    var times := HandleTimes(lastShare, None, now);
    var effort := HandleEffort(shares, worker, share.difficulty, t, blockDifficulty, isSolo);
    var types := HandleTypes(lastShare, t);
    var workIncrement := difficulty;
    var work := workIncrement + PriorWork(lastShare);
    var outputShare := ShareRecord(Some(now), effort, share.identifier, share.height, isSolo,
                                   Some(times), Some(types), Some(t), Some(work), worker);
    if !isSolo && share.height < minHeight {
      outputShare := outputShare.(effort := share.difficulty / blockDifficulty * 100.0, times := Some(0.0),
                                  types := Some(ZeroCounts), work := Some(difficulty));
      workIncrement := 0.0;
    }
    account := ShareAccount(t, difficulty, effort, work, outputShare, workIncrement);
  }

  // ---------------------------------------------------------------------------
  // The engine

  class PoolShares {
    /** The highest share height seen, and the height of the last valid shared block. */
    var curHeight: int
    var minHeight: int
    const auxiliaryEnabled: bool
    const ports: seq<PortConfig>

    constructor (auxiliaryEnabled: bool, ports: seq<PortConfig>)
      ensures curHeight == 0 && minHeight == 0
      ensures this.auxiliaryEnabled == auxiliaryEnabled && this.ports == ports
    {
      curHeight := 0;
      minHeight := 0;
      this.auxiliaryEnabled := auxiliaryEnabled;
      this.ports := ports;
    }

    /** calculateShares: raises the highest height seen and returns the
        share's commands on one track. */
    method CalculateShares(hashes: RoundReads, share: ShareData, shareType: ShareType, track: BlockType,
                           isSolo: bool, now: nat) returns (commands: seq<Command>)
      requires BlockDifficultyFor(share, track) > 0.0
      modifies this`curHeight
      ensures curHeight == RaisedHeight(old(curHeight), share.height)
      ensures commands == SharesFor(hashes, share, shareType, track, isSolo, now, curHeight, minHeight)
    {
      if share.height > curHeight {
        curHeight := share.height;
      }
      var account := BuildAccount(hashes, share, shareType, track, isSolo, now, curHeight, minHeight);
      var worker := WorkerFor(share, track);
      var mode := ModeOf(isSolo);
      var workerShare := Activity(share, worker, now);
      var hashrateShare := account.record.(work := Some(account.difficulty));

      var sample := Zadd(CurrentKey(track, mode, Hashrate), Seconds32(now), ShareValue(hashrateShare));
      var record := Hset(CurrentKey(track, mode, Shares), worker, ShareValue(account.record));
      var heartbeat := Hset(WorkersKey(track, mode), worker, ActivityValue(workerShare));
      if account.shareType == Valid && isSolo {
        commands := [sample, record, Hincrby(CurrentKey(track, mode, Work), worker, account.work), heartbeat];
      } else if account.shareType == Valid {
        commands := [sample, Hincrby(CurrentKey(track, mode, Counts), "valid", 1.0), record,
                     HincrbyFloat(CurrentKey(track, mode, Work), worker, account.workIncrement), heartbeat,
                     Hset(CurrentKey(track, mode, Counts), "effort", Number(account.effort))];
      } else {
        commands := [sample, Hincrby(CurrentKey(track, mode, Counts), TypeField(account.shareType), 1.0), record, heartbeat];
      }
    }

    /** calculateBlocks: raises the last shared block height on a valid
        shared block and returns the block's commands, and whether a round
        update is announced (only for a valid shared block). */
    method CalculateBlocks(hashes: RoundReads, share: ShareData, shareType: ShareType, blockValid: bool,
                           isSolo: bool, now: nat) returns (commands: seq<Command>, roundUpdate: bool)
      requires BlockDifficultyFor(share, share.blockType) > 0.0
      modifies this`minHeight
      ensures minHeight == (if !isSolo && blockValid then RaisedHeight(old(minHeight), share.height) else old(minHeight))
      ensures commands == BlockCommands(hashes, share, shareType, blockValid, isSolo, now)
      ensures roundUpdate <==> blockValid && !isSolo
    {
      var track := share.blockType;
      var worker := WorkerFor(share, track);
      var mode := ModeOf(isSolo);
      var outputBlock := BlockFor(hashes, share, shareType, isSolo, now);
      var workers := Siblings(hashes.soloPrimary, worker);

      if !isSolo && blockValid && share.height > minHeight {
        minHeight := share.height;
      }

      roundUpdate := false;
      if blockValid && isSolo {
        commands := [Sadd(PendingBlocksKey(track), BlockValue(outputBlock)),
                     Hincrby(BlockCountsKey(track), "valid", 1.0),
                     Hset(RoundKey(track, Closed(share.height), Shares), worker,
                          ShareValue(ClosedRoundRecord(hashes, share, shareType, now)))];
        var head := commands;
        var workerShare := Activity(share, worker, now);
        var i := 0;
        while i < |workers|
          invariant 0 <= i <= |workers|
          invariant commands == head + ResetCommands(workers[..i], share, shareType, now)
        {
          var result := workers[i];
          var outputShare := ResetRecord(share, shareType, result, now);
          commands := commands + [Hset(CurrentKey(track, mode, Shares), result, ShareValue(outputShare)),
                                  Hset(WorkersKey(track, mode), worker, ActivityValue(workerShare))];
          assert workers[..i + 1][..i] == workers[..i];
          i := i + 1;
        }
        assert workers[..|workers|] == workers;
      } else if blockValid {
        commands := [Sadd(PendingBlocksKey(track), BlockValue(outputBlock)),
                     Hset(CurrentKey(track, mode, Previous), "blockTime", Number(now as real)),
                     Hset(CurrentKey(track, mode, Previous), "height", Number(share.height as real)),
                     Hincrby(BlockCountsKey(track), "valid", 1.0),
                     Rename(CurrentKey(track, mode, Counts), RoundKey(track, Closed(share.height), Counts)),
                     Rename(CurrentKey(track, mode, Shares), RoundKey(track, Closed(share.height), Shares)),
                     Rename(CurrentKey(track, mode, Work), RoundKey(track, Closed(share.height), Work))];
        roundUpdate := true;
      } else if share.transaction != "" {
        commands := [Hincrby(BlockCountsKey(track), "invalid", 1.0)];
      } else {
        commands := [];
      }
    }

    /** buildSharesCommands: the share on the primary track, then on the
        auxiliary track when auxiliary mining is enabled. */
    method BuildSharesCommands(hashes: RoundReads, share: ShareData, shareType: ShareType, isSolo: bool, now: nat)
      returns (commands: seq<Command>)
      requires share.blockDiffPrimary > 0.0
      requires auxiliaryEnabled ==> share.blockDiffAuxiliary > 0.0
      modifies this`curHeight
      ensures curHeight == RaisedHeight(old(curHeight), share.height)
      ensures commands == SharesFor(hashes, share, shareType, Primary, isSolo, now, curHeight, minHeight)
                          + (if auxiliaryEnabled then SharesFor(hashes, share, shareType, Auxiliary, isSolo, now, curHeight, minHeight) else [])
    {
      commands := CalculateShares(hashes, share, shareType, Primary, isSolo, now);
      if auxiliaryEnabled {
        var auxiliary := CalculateShares(hashes, share, shareType, Auxiliary, isSolo, now);
        commands := commands + auxiliary;
      }
    }

    /** buildCommands: the mode from the share's port, the share commands,
        then the block commands. */
    method BuildCommands(hashes: RoundReads, share: ShareData, shareType: ShareType, blockValid: bool, now: nat)
      returns (commands: seq<Command>, roundUpdate: bool)
      requires share.blockDiffPrimary > 0.0
      requires auxiliaryEnabled ==> share.blockDiffAuxiliary > 0.0
      requires BlockDifficultyFor(share, share.blockType) > 0.0
      modifies this`curHeight, this`minHeight
      ensures var isSolo := CheckSoloMining(ports, share.port);
              && curHeight == RaisedHeight(old(curHeight), share.height)
              && minHeight == (if !isSolo && blockValid then RaisedHeight(old(minHeight), share.height) else old(minHeight))
              && commands == SharesFor(hashes, share, shareType, Primary, isSolo, now, curHeight, old(minHeight))
                             + (if auxiliaryEnabled then SharesFor(hashes, share, shareType, Auxiliary, isSolo, now, curHeight, old(minHeight)) else [])
                             + BlockCommands(hashes, share, shareType, blockValid, isSolo, now)
              && (roundUpdate <==> blockValid && !isSolo)
    {
      var isSolo := CheckSoloMining(ports, share.port);
      var sharesPart := BuildSharesCommands(hashes, share, shareType, isSolo, now);
      var blocksPart;
      blocksPart, roundUpdate := CalculateBlocks(hashes, share, shareType, blockValid, isSolo, now);
      commands := sharesPart + blocksPart;
    }
  }

  /** One event yields one hashrate sample per enabled track, however the
      block part turns out. */
  lemma SamplesPerEvent(hashes: RoundReads, share: ShareData, shareType: ShareType, blockValid: bool, isSolo: bool,
                        auxiliaryEnabled: bool, now: nat, curHeight: int, minHeight: int)
    requires share.blockDiffPrimary > 0.0
    requires auxiliaryEnabled ==> share.blockDiffAuxiliary > 0.0
    requires BlockDifficultyFor(share, share.blockType) > 0.0
    ensures CountWhere(SharesFor(hashes, share, shareType, Primary, isSolo, now, curHeight, minHeight)
                       + (if auxiliaryEnabled then SharesFor(hashes, share, shareType, Auxiliary, isSolo, now, curHeight, minHeight) else [])
                       + BlockCommands(hashes, share, shareType, blockValid, isSolo, now), IsHashrateSample)
            == if auxiliaryEnabled then 2 else 1
  {
    var primary := SharesFor(hashes, share, shareType, Primary, isSolo, now, curHeight, minHeight);
    var auxiliary := if auxiliaryEnabled then SharesFor(hashes, share, shareType, Auxiliary, isSolo, now, curHeight, minHeight) else [];
    var blocks := BlockCommands(hashes, share, shareType, blockValid, isSolo, now);
    ShareWritesOneOfEach(AccountShare(hashes, share, shareType, Primary, isSolo, now, curHeight, minHeight), share, Primary, isSolo, now);
    if auxiliaryEnabled {
      ShareWritesOneOfEach(AccountShare(hashes, share, shareType, Auxiliary, isSolo, now, curHeight, minHeight), share, Auxiliary, isSolo, now);
    }
    CountWhereAppend(primary, auxiliary, IsHashrateSample);
    CountWhereAppend(primary + auxiliary, blocks, IsHashrateSample);
    NoSamplesInBlocks(hashes, share, shareType, blockValid, isSolo, now);
  }

  lemma NoSamplesInBlocks(hashes: RoundReads, share: ShareData, shareType: ShareType, blockValid: bool, isSolo: bool, now: nat)
    requires BlockDifficultyFor(share, share.blockType) > 0.0
    ensures CountWhere(BlockCommands(hashes, share, shareType, blockValid, isSolo, now), IsHashrateSample) == 0
  {
    var cs := BlockCommands(hashes, share, shareType, blockValid, isSolo, now);
    if blockValid && isSolo {
      ResetCommandsWrite(Siblings(hashes.soloPrimary, WorkerFor(share, share.blockType)), share, shareType, now);
    }
    NoneCounted(cs, IsHashrateSample);
  }

  lemma {:induction false} NoneCounted(cs: seq<Command>, p: Command -> bool)
    requires forall c :: c in cs ==> !p(c)
    ensures CountWhere(cs, p) == 0
  {
    if cs != [] {
      NoneCounted(cs[..|cs| - 1], p);
    }
  }
}
