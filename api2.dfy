/** The read-side endpoints of api2.js, from the moment their reads have
    returned: block listings with their pending flag and page count, the
    payment page count, a miner's share of the recent work, worker and miner
    counts, and the top-10 miners by work over the last day.  The clock
    reading and the results read are parameters; each endpoint returns the
    values of its response body. */
module Api {
  import opened Common
  import opened Store
  import opened Sorting
  import opened Utils

  // ---------------------------------------------------------------------------
  // Pages

  const PAGE_ENTRIES: nat := 10

  /** `Math.floor(n / 10)` plus one for a partial last page: the fewest pages
      of ten that hold `n` items. */
  function PageCount(n: nat): (pages: nat)
    ensures pages * PAGE_ENTRIES >= n
    ensures pages == 0 || (pages - 1) * PAGE_ENTRIES < n
  {
    n / PAGE_ENTRIES + (if n % PAGE_ENTRIES > 0 then 1 else 0)
  }

  // ---------------------------------------------------------------------------
  // Block listings (minerBlocks, poolBlocks)

  /** The `type` of a listed block: a found block, or an orphan (kicked). */
  datatype BlockKind = Found | Orphan

  /** A stored block as listed: the worker replaced by its miner, with the
      pending flag and the kind added. */
  datatype ListedBlock = ListedBlock(
    time: int,
    height: int,
    hash: string,
    reward: real,
    nodeReward: real,
    founderReward: real,
    identifier: string,
    transaction: string,
    difficulty: real,
    luck: real,
    solo: bool,
    round: int,
    miner: string,
    pending: bool,
    kind: BlockKind)

  function Listing(b: BlockRecord, pending: bool, kind: BlockKind): ListedBlock {
    ListedBlock(b.time, b.height, b.hash, b.reward, b.nodeReward, b.founderReward, b.identifier,
                b.transaction, b.difficulty, b.luck, b.solo, b.round, BaseAddress(b.worker), pending, kind)
  }

  /** The depth below the chain tip from which a pending block is no longer flagged pending. */
  const PENDING_DEPTH: int := 101

  /** `currentBlock - block.height < 101`; a missing network height gives NaN,
      and the comparison is false. */
  predicate StillPending(currentHeight: Option<int>, height: int) {
    currentHeight.Some? && currentHeight.value - height < PENDING_DEPTH
  }

  /** The listing of one stored list: every block marked with the kind, and
      pending only when it comes from the pending list (`at` is the network
      height there, None for confirmed and kicked blocks). */
  function Listed(blocks: seq<BlockRecord>, kind: BlockKind, at: Option<int>): (r: seq<ListedBlock>)
    ensures |r| == |blocks|
  {
    seq(|blocks|, i requires 0 <= i < |blocks| => Listing(blocks[i], StillPending(at, blocks[i].height), kind))
  }

  function ListedHeight(b: ListedBlock): real {
    b.height as real
  }

  /** The forEach that marks a parsed list in place. */
  method Mark(blocks: seq<BlockRecord>, kind: BlockKind, at: Option<int>) returns (out: seq<ListedBlock>)
    ensures out == Listed(blocks, kind, at)
  {
    out := [];
    var i := 0;
    while i < |blocks|
      invariant 0 <= i <= |blocks|
      invariant out == Listed(blocks[..i], kind, at)
    {
      var pending := at.Some? && at.value - blocks[i].height < PENDING_DEPTH;
      out := out + [Listing(blocks[i], pending, kind)];
      i := i + 1;
    }
    assert blocks[..|blocks|] == blocks;
  }

  /** The listing shared by both endpoints: confirmed, kicked and pending
      blocks marked, concatenated and sorted by height, highest first, with
      the item and page counts. The sort is stable, so blocks of equal height
      keep the order confirmed, kicked, pending. */
  method ListBlocksByHeight(confirmed: seq<BlockRecord>, kicked: seq<BlockRecord>, pending: seq<BlockRecord>, currentHeight: Option<int>)
    returns (data: seq<ListedBlock>, totalPages: nat, totalItems: nat)
    ensures SortedDesc(data, ListedHeight)
    ensures multiset(data) == multiset(Listed(confirmed, Found, None) + Listed(kicked, Orphan, None) + Listed(pending, Found, currentHeight))
    ensures forall h :: WithKey(data, ListedHeight, h)
                        == WithKey(Listed(confirmed, Found, None) + Listed(kicked, Orphan, None) + Listed(pending, Found, currentHeight), ListedHeight, h)
    ensures totalItems == |data| == |confirmed| + |kicked| + |pending|
    ensures totalPages == PageCount(totalItems)
  {
    var c := Mark(confirmed, Found, None);
    var k := Mark(kicked, Orphan, None);
    var p := Mark(pending, Found, currentHeight);
    data := SortDesc(c + k + p, ListedHeight);
    forall h {
      SortDescStable(c + k + p, ListedHeight, h);
    }
    totalItems := |data|;
    totalPages := totalItems / PAGE_ENTRIES;
    if totalItems % PAGE_ENTRIES > 0 {
      totalPages := totalPages + 1;
    }
  }

  /** What every listed block says of itself: an orphan is never pending and
      comes from the kicked list; a pending one comes from the pending list
      and is less than 101 blocks below the known network height; any other
      found block comes from the confirmed list or is a settled entry of the
      pending list. */
  lemma {:induction false} ListedFlags(confirmed: seq<BlockRecord>, kicked: seq<BlockRecord>, pending: seq<BlockRecord>,
                                       currentHeight: Option<int>, e: ListedBlock)
    requires e in Listed(confirmed, Found, None) + Listed(kicked, Orphan, None) + Listed(pending, Found, currentHeight)
    ensures e.kind == Orphan ==> !e.pending
    ensures e.pending ==> currentHeight.Some? && currentHeight.value - e.height < PENDING_DEPTH
    ensures e.kind == Orphan ==> exists i :: 0 <= i < |kicked| && e == Listing(kicked[i], false, Orphan)
    ensures e.kind == Found && e.pending ==>
              exists i :: 0 <= i < |pending| && e == Listing(pending[i], true, Found)
    ensures e.kind == Found && !e.pending ==>
              (exists i :: 0 <= i < |confirmed| && e == Listing(confirmed[i], false, Found))
              || (exists i :: 0 <= i < |pending| && e == Listing(pending[i], false, Found) && !StillPending(currentHeight, pending[i].height))
  {
    var lc := Listed(confirmed, Found, None);
    var lk := Listed(kicked, Orphan, None);
    var lp := Listed(pending, Found, currentHeight);
    if e in lc {
      var i :| 0 <= i < |lc| && lc[i] == e;
    } else if e in lk {
      var i :| 0 <= i < |lk| && lk[i] == e;
    } else {
      assert e in lp;
      var i :| 0 <= i < |lp| && lp[i] == e;
    }
  }

  /** minerBlocks: the listing of the blocks the miner found. */
  method MinerBlocks(address: string, confirmed: seq<BlockRecord>, kicked: seq<BlockRecord>, pending: seq<BlockRecord>, currentHeight: Option<int>)
    returns (data: seq<ListedBlock>, totalPages: nat, totalItems: nat)
    ensures SortedDesc(data, ListedHeight)
    ensures multiset(data) == multiset(Listed(MinedBy(confirmed, address), Found, None)
                                       + Listed(MinedBy(kicked, address), Orphan, None)
                                       + Listed(MinedBy(pending, address), Found, currentHeight))
    ensures forall h :: WithKey(data, ListedHeight, h)
                        == WithKey(Listed(MinedBy(confirmed, address), Found, None)
                                   + Listed(MinedBy(kicked, address), Orphan, None)
                                   + Listed(MinedBy(pending, address), Found, currentHeight), ListedHeight, h)
    ensures forall e :: e in data ==> e.miner == address
    ensures totalItems == |data| == |MinedBy(confirmed, address)| + |MinedBy(kicked, address)| + |MinedBy(pending, address)|
    ensures totalPages == PageCount(totalItems)
  {
    data, totalPages, totalItems := ListBlocksByHeight(MinedBy(confirmed, address), MinedBy(kicked, address),
                                                       MinedBy(pending, address), currentHeight);
    forall e | e in data
      ensures e.miner == address
    {
      assert e in multiset(data);
      ListedFlags(MinedBy(confirmed, address), MinedBy(kicked, address), MinedBy(pending, address), currentHeight, e);
    }
  }

  /** poolBlocks: the listing of every block of the pool. */
  method PoolBlocks(confirmed: seq<BlockRecord>, kicked: seq<BlockRecord>, pending: seq<BlockRecord>, currentHeight: Option<int>)
    returns (data: seq<ListedBlock>, totalPages: nat, totalItems: nat)
    ensures SortedDesc(data, ListedHeight)
    ensures multiset(data) == multiset(Listed(confirmed, Found, None) + Listed(kicked, Orphan, None) + Listed(pending, Found, currentHeight))
    ensures forall h :: WithKey(data, ListedHeight, h)
                        == WithKey(Listed(confirmed, Found, None) + Listed(kicked, Orphan, None) + Listed(pending, Found, currentHeight), ListedHeight, h)
    ensures totalItems == |data| == |confirmed| + |kicked| + |pending|
    ensures totalPages == PageCount(totalItems)
  {
    data, totalPages, totalItems := ListBlocksByHeight(confirmed, kicked, pending, currentHeight);
  }

  /** The listing any result of minerBlocks is held to answers the endpoint's
      test case: one confirmed, one kicked and one pending block of the
      worker at heights 180, 181 and 182, with the network height at 123,
      list three blocks, the first at height 182 and still pending. */
  lemma MinerBlocksExample(b1: BlockRecord, b2: BlockRecord, b3: BlockRecord, data: seq<ListedBlock>)
    requires b1.height == 180 && b2.height == 181 && b3.height == 182
    requires b1.worker == "worker" && b2.worker == "worker" && b3.worker == "worker"
    requires SortedDesc(data, ListedHeight)
    requires multiset(data) == multiset(Listed(MinedBy([b1], "worker"), Found, None)
                                        + Listed(MinedBy([b2], "worker"), Orphan, None)
                                        + Listed(MinedBy([b3], "worker"), Found, Some(123)))
    ensures |data| == 3 && data[0].height == 182 && data[0].pending
  {
    ExampleListing(b1, b2, b3);
    var e1 := Listing(b1, false, Found);
    var e2 := Listing(b2, false, Orphan);
    var e3 := Listing(b3, true, Found);
    var all := [e1, e2, e3];
    assert |data| == 3 by {
      assert |multiset(data)| == |data|;
    }
    assert e3 in data by {
      assert e3 in multiset(data);
    }
    var j :| 0 <= j < |data| && data[j] == e3;
    assert data[0] in all by {
      assert data[0] in multiset(data);
    }
    assert ListedHeight(data[0]) >= ListedHeight(data[j]);
    assert data[0] == e3;
  }

  /** The three blocks of the example, each marked as its list says. */
  lemma ExampleListing(b1: BlockRecord, b2: BlockRecord, b3: BlockRecord)
    requires b1.height == 180 && b2.height == 181 && b3.height == 182
    requires b1.worker == "worker" && b2.worker == "worker" && b3.worker == "worker"
    ensures Listed(MinedBy([b1], "worker"), Found, None)
            + Listed(MinedBy([b2], "worker"), Orphan, None)
            + Listed(MinedBy([b3], "worker"), Found, Some(123))
            == [Listing(b1, false, Found), Listing(b2, false, Orphan), Listing(b3, true, Found)]
  {
    BaseAddressOfPlain("worker");
    var l1 := ListedMined(b1, Found, None);
    var l2 := ListedMined(b2, Orphan, None);
    var l3 := ListedMined(b3, Found, Some(123));
    assert StillPending(Some(123), 182);
    assert l1 + l2 + l3 == [l1[0], l2[0], l3[0]];
  }

  /** A block found by the address, listed alone. */
  lemma ListedMined(b: BlockRecord, kind: BlockKind, at: Option<int>) returns (l: seq<ListedBlock>)
    requires BaseAddress(b.worker) == "worker"
    ensures l == Listed(MinedBy([b], "worker"), kind, at) == [Listing(b, StillPending(at, b.height), kind)]
  {
    MinedByOne(b, "worker");
    ListedSingle(b, kind, at);
    l := [Listing(b, StillPending(at, b.height), kind)];
  }

  lemma ListedSingle(b: BlockRecord, kind: BlockKind, at: Option<int>)
    ensures Listed([b], kind, at) == [Listing(b, StillPending(at, b.height), kind)]
  {
  }

  lemma MinedByOne(b: BlockRecord, address: string)
    requires BaseAddress(b.worker) == address
    ensures MinedBy([b], address) == [b]
  {
    assert [b][..0] == [];
  }

  // ---------------------------------------------------------------------------
  // Payments page count (minerPayments)

  /** One payment as the endpoint shows it. */
  datatype PaymentView = PaymentView(hash: string, timestamp: int, value: real)

  /** minerPayments: every payment record of the miner shown in order, the
      count of items, and the number of pages of ten. */
  method MinerPayments(records: seq<PaymentRecord>) returns (output: seq<PaymentView>, totalItems: nat, totalPages: nat)
    ensures |output| == totalItems == |records|
    ensures forall k :: 0 <= k < |output| ==>
              output[k] == PaymentView(records[k].transaction, records[k].time, records[k].paid)
    ensures totalPages * PAGE_ENTRIES >= totalItems && (totalPages == 0 || (totalPages - 1) * PAGE_ENTRIES < totalItems)
  {
    output := [];
    totalItems := 0;
    var i := 0;
    while i < |records|
      invariant 0 <= i <= |records|
      invariant totalItems == |output| == i
      invariant forall k :: 0 <= k < i ==> output[k] == PaymentView(records[k].transaction, records[k].time, records[k].paid)
    {
      var payment := records[i];
      totalItems := totalItems + 1;
      output := output + [PaymentView(payment.transaction, payment.time, payment.paid)];
      i := i + 1;
    }
    totalPages := totalItems / 10 + (if totalItems % 10 > 0 then 1 else 0);
  }

  // ---------------------------------------------------------------------------
  // A miner's share of the recent work (minerWork)

  /** The newest historical time, and 0 when there is none or all are older. */
  function MaxTime(hs: seq<Snapshot>): (t: int)
    ensures t >= 0
    ensures forall i :: 0 <= i < |hs| ==> hs[i].time <= t
    ensures t == 0 || exists i :: 0 <= i < |hs| && hs[i].time == t
  {
    if hs == [] then 0
    else
      var prev := MaxTime(hs[..|hs| - 1]);
      var last := hs[|hs| - 1];
      if last.time > prev then last.time else prev
  }

  /** The snapshots strictly newer than every historical. */
  function Gated(ss: seq<Snapshot>, after: int): (r: seq<Snapshot>)
    ensures |r| <= |ss|
    ensures forall i :: 0 <= i < |r| ==> r[i].time > after
  {
    if ss == [] then []
    else
      var last := ss[|ss| - 1];
      Gated(ss[..|ss| - 1], after) + (if last.time > after then [last] else [])
  }

  lemma MaxTimePrefix(hs: seq<Snapshot>, i: nat)
    requires i < |hs|
    ensures MaxTime(hs[..i + 1]) == if hs[i].time > MaxTime(hs[..i]) then hs[i].time else MaxTime(hs[..i])
  {
    assert hs[..i + 1][..i] == hs[..i];
  }

  lemma SumWorkSnoc(g: seq<Snapshot>, s: Snapshot, address: Option<string>)
    ensures SumWork(g + [s], address) == SumWork(g, address) + (if Owned(address, s.worker) then s.work else 0.0)
  {
    assert (g + [s])[..|g|] == g;
  }

  lemma {:induction false} GatedFromSource(ss: seq<Snapshot>, after: int, s: Snapshot)
    requires s in Gated(ss, after)
    ensures s in ss
  {
    var prefix := ss[..|ss| - 1];
    if s != ss[|ss| - 1] {
      GatedFromSource(prefix, after, s);
      var i :| 0 <= i < |prefix| && prefix[i] == s;
      assert ss[i] == s;
    }
  }

  lemma GatedPrefix(ss: seq<Snapshot>, i: nat, after: int)
    requires i < |ss|
    ensures Gated(ss[..i + 1], after) == Gated(ss[..i], after) + (if ss[i].time > after then [ss[i]] else [])
  {
    assert ss[..i + 1][..i] == ss[..i];
  }

  lemma {:induction false} GatedKeepsNewer(ss: seq<Snapshot>, after: int, s: Snapshot)
    requires s in ss && s.time > after
    ensures s in Gated(ss, after)
  {
    var prefix := ss[..|ss| - 1];
    if s != ss[|ss| - 1] {
      assert s in prefix by {
        var i :| 0 <= i < |ss| && ss[i] == s;
        assert prefix[i] == s;
      }
      GatedKeepsNewer(prefix, after, s);
    }
  }

  /** Whether a worker belongs to the miner (`None` admits every worker). */
  predicate Owned(address: Option<string>, worker: string) {
    address.None? || BaseAddress(worker) == address.value
  }

  /** The summed work of the roll-ups of the miner's workers. */
  function SumWork(ss: seq<Snapshot>, address: Option<string>): real {
    if ss == [] then 0.0
    else
      var last := ss[|ss| - 1];
      SumWork(ss[..|ss| - 1], address) + (if Owned(address, last.worker) then last.work else 0.0)
  }

  /** The summed work of the miner's hashrate samples (a missing work counts 0). */
  function SampleSum(samples: seq<ShareRecord>, address: Option<string>): real {
    if samples == [] then 0.0
    else
      var last := samples[|samples| - 1];
      SampleSum(samples[..|samples| - 1], address) + (if Owned(address, last.worker) then last.work.GetOr(0.0) else 0.0)
  }

  /** The historicals loop of minerWork: their newest time, and their work
      in total and for the miner. */
  method HistoricalsPass(address: string, hs: seq<Snapshot>) returns (maxHistoricalTime: int, minerWork: real, totalWork: real)
    ensures maxHistoricalTime == MaxTime(hs)
    ensures totalWork == SumWork(hs, None) && minerWork == SumWork(hs, Some(address))
  {
    minerWork := 0.0;
    totalWork := 0.0;
    maxHistoricalTime := 0;
    var i := 0;
    while i < |hs|
      invariant 0 <= i <= |hs|
      invariant maxHistoricalTime == MaxTime(hs[..i])
      invariant totalWork == SumWork(hs[..i], None) && minerWork == SumWork(hs[..i], Some(address))
    {
      assert hs[..i + 1][..i] == hs[..i];
      var historical := hs[i];
      if historical.time > maxHistoricalTime {
        maxHistoricalTime := historical.time;
      }
      totalWork := totalWork + historical.work;
      if BaseAddress(historical.worker) == address {
        minerWork := minerWork + historical.work;
      }
      i := i + 1;
    }
    assert hs[..|hs|] == hs;
  }

  /** One roll-up's work added to the total, and to the miner's work when
      the worker is one of the miner's. */
  method AddWork(address: string, s: Snapshot, minerWork: real, totalWork: real, ghost seen: seq<Snapshot>)
    returns (minerWork': real, totalWork': real)
    requires totalWork == SumWork(seen, None) && minerWork == SumWork(seen, Some(address))
    ensures totalWork' == SumWork(seen + [s], None) && minerWork' == SumWork(seen + [s], Some(address))
  {
    SumWorkSnoc(seen, s, None);
    SumWorkSnoc(seen, s, Some(address));
    totalWork' := totalWork + s.work;
    minerWork' := minerWork;
    if BaseAddress(s.worker) == address {
      minerWork' := minerWork + s.work;
    }
  }

  /** The snapshots loop of minerWork: the work of the snapshots newer than
      `maxHistoricalTime`, in total and for the miner. */
  method SnapshotsPass(address: string, ss: seq<Snapshot>, maxHistoricalTime: int) returns (minerWork: real, totalWork: real)
    ensures totalWork == SumWork(Gated(ss, maxHistoricalTime), None)
    ensures minerWork == SumWork(Gated(ss, maxHistoricalTime), Some(address))
  {
    minerWork := 0.0;
    totalWork := 0.0;
    ghost var recent: seq<Snapshot> := [];
    var i := 0;
    while i < |ss|
      invariant 0 <= i <= |ss|
      invariant recent == Gated(ss[..i], maxHistoricalTime)
      invariant totalWork == SumWork(recent, None) && minerWork == SumWork(recent, Some(address))
    {
      var snapshot := ss[i];
      GatedPrefix(ss, i, maxHistoricalTime);
      if snapshot.time > maxHistoricalTime {
        minerWork, totalWork := AddWork(address, snapshot, minerWork, totalWork, recent);
        recent := recent + [snapshot];
        assert recent == Gated(ss[..i + 1], maxHistoricalTime);
      } else {
        assert recent + [] == recent;
        assert recent == Gated(ss[..i + 1], maxHistoricalTime);
      }
      i := i + 1;
    }
    assert ss[..|ss|] == ss;
  }

  /** The hashrate-samples loop of minerWork. */
  method SamplesPass(address: string, window: seq<ShareRecord>) returns (minerWork: real, totalWork: real)
    ensures totalWork == SampleSum(window, None) && minerWork == SampleSum(window, Some(address))
  {
    minerWork := 0.0;
    totalWork := 0.0;
    var i := 0;
    while i < |window|
      invariant 0 <= i <= |window|
      invariant totalWork == SampleSum(window[..i], None) && minerWork == SampleSum(window[..i], Some(address))
    {
      assert window[..i + 1][..i] == window[..i];
      var share := window[i];
      totalWork := totalWork + share.work.GetOr(0.0);
      if BaseAddress(share.worker) == address {
        minerWork := minerWork + share.work.GetOr(0.0);
      }
      i := i + 1;
    }
    assert window[..|window|] == window;
  }

  /** minerWork: the work of the historicals, of the snapshots newer than
      every historical, and of the samples in the hashrate window, in total
      and for the miner's own workers. */
  method MinerWork(address: string, historicals: Option<seq<Snapshot>>, samples: Option<seq<ShareRecord>>, snapshots: Option<seq<Snapshot>>)
    returns (minerWork: real, totalWork: real)
    ensures var hs := historicals.GetOr([]);
            var recent := Gated(snapshots.GetOr([]), MaxTime(hs));
            var window := samples.GetOr([]);
            totalWork == SumWork(hs, None) + SumWork(recent, None) + SampleSum(window, None) &&
            minerWork == SumWork(hs, Some(address)) + SumWork(recent, Some(address)) + SampleSum(window, Some(address))
  {
    var maxHistoricalTime, historicalMiner, historicalTotal := HistoricalsPass(address, historicals.GetOr([]));
    var snapshotMiner, snapshotTotal := SnapshotsPass(address, snapshots.GetOr([]), maxHistoricalTime);
    var sampleMiner, sampleTotal := SamplesPass(address, samples.GetOr([]));
    minerWork := historicalMiner + snapshotMiner + sampleMiner;
    totalWork := historicalTotal + snapshotTotal + sampleTotal;
  }

  /** With no negative work stored, the miner's work never exceeds the total. */
  lemma {:induction false} SumWorkShare(ss: seq<Snapshot>, address: string)
    requires forall i :: 0 <= i < |ss| ==> ss[i].work >= 0.0
    ensures 0.0 <= SumWork(ss, Some(address)) <= SumWork(ss, None)
  {
    if ss != [] {
      SumWorkShare(ss[..|ss| - 1], address);
    }
  }

  lemma {:induction false} SampleSumShare(samples: seq<ShareRecord>, address: string)
    requires forall i :: 0 <= i < |samples| ==> samples[i].work.GetOr(0.0) >= 0.0
    ensures 0.0 <= SampleSum(samples, Some(address)) <= SampleSum(samples, None)
  {
    if samples != [] {
      SampleSumShare(samples[..|samples| - 1], address);
    }
  }

  /** A snapshot counts only when it is newer than every historical, and
      every such snapshot counts. */
  lemma GatedMeaning(hs: seq<Snapshot>, ss: seq<Snapshot>, s: Snapshot)
    ensures s in Gated(ss, MaxTime(hs)) <==> s in ss && 0 < s.time && forall i :: 0 <= i < |hs| ==> hs[i].time < s.time
  {
    var t := MaxTime(hs);
    if s in ss && 0 < s.time && forall i :: 0 <= i < |hs| ==> hs[i].time < s.time {
      if t != 0 {
        var i :| 0 <= i < |hs| && hs[i].time == t;
      }
      GatedKeepsNewer(ss, t, s);
    }
    if s in Gated(ss, t) {
      GatedFromSource(ss, t, s);
      assert s.time > t;
      if hs == [] {
        assert s.time > 0;
      }
    }
  }

  // ---------------------------------------------------------------------------
  // Online windows

  /** `Date.now() / 1000 - onlineWindow | 0` for a clock reading in
      milliseconds: the difference truncated toward zero, wrapped to 32 bits;
      a missing window gives NaN, which `| 0` turns into 0. */
  function OnlineWindowStart(nowMs: nat, window: Option<int>): int {
    if window.None? then 0
    else
      var x := nowMs - 1000 * window.value;
      Int32(if x >= 0 then x / 1000 else -((-x) / 1000))
  }

  /** `(dateNow - onlineWindow) || 0` with `dateNow = Date.now() / 1000 | 0`. */
  function WorkerCountWindowStart(nowMs: nat, window: Option<int>): int {
    if window.None? then 0 else Seconds32(nowMs) - window.value
  }

  /** The number of the miner's heartbeats newer than the window start. */
  function OnlineCount(hash: seq<Entry<ActivityRecord>>, address: Option<string>, start: int): nat {
    if hash == [] then 0
    else
      var last := hash[|hash| - 1].value;
      OnlineCount(hash[..|hash| - 1], address, start) + (if Owned(address, last.worker) && last.time > start then 1 else 0)
  }

  // ---------------------------------------------------------------------------
  // Worker counts of a miner (minerWorkerCount)

  /** The distinct workers of the miner named by stored roll-ups. */
  function AddressWorkers(entries: seq<Snapshot>, address: string): set<string> {
    if entries == [] then {}
    else
      var w := entries[|entries| - 1].worker;
      AddressWorkers(entries[..|entries| - 1], address) + (if BaseAddress(w) == address then {w} else {})
  }

  /** The `workers` list of minerWorkerCount: the miner's workers named by
      the roll-ups, each once. */
  method CollectWorkers(entries: seq<Snapshot>, address: string) returns (workers: seq<string>)
    ensures NoDuplicates(workers)
    ensures (set x | x in workers) == AddressWorkers(entries, address)
  {
    workers := [];
    var i := 0;
    while i < |entries|
      invariant 0 <= i <= |entries|
      invariant NoDuplicates(workers)
      invariant (set x | x in workers) == AddressWorkers(entries[..i], address)
    {
      assert entries[..i + 1][..i] == entries[..i];
      var worker := entries[i].worker;
      if BaseAddress(worker) == address && worker !in workers {
        workers := workers + [worker];
      }
      i := i + 1;
    }
    assert entries[..|entries|] == entries;
  }

  /** The heartbeat loop: the miner's heartbeats newer than the window start. */
  method CountOnline(hash: seq<Entry<ActivityRecord>>, address: string, onlineWindowTime: int) returns (workersOnline: nat)
    ensures workersOnline == OnlineCount(hash, Some(address), onlineWindowTime)
  {
    workersOnline := 0;
    var i := 0;
    while i < |hash|
      invariant 0 <= i <= |hash|
      invariant workersOnline == OnlineCount(hash[..i], Some(address), onlineWindowTime)
    {
      assert hash[..i + 1][..i] == hash[..i];
      var worker := hash[i].value;
      if BaseAddress(worker.worker) == address {
        if worker.time > onlineWindowTime {
          workersOnline := workersOnline + 1;
        }
      }
      i := i + 1;
    }
    assert hash[..|hash|] == hash;
  }

  /** minerWorkerCount: the miner's workers with a heartbeat newer than the
      window start, and the miner's distinct workers named by historicals or
      snapshots less that number. */
  method MinerWorkerCount(address: string, nowMs: nat, onlineWindow: Option<int>, hash: seq<Entry<ActivityRecord>>,
                          historicals: Option<seq<Snapshot>>, snapshots: Option<seq<Snapshot>>)
    returns (workersOnline: nat, workersOffline: int)
    ensures workersOnline == OnlineCount(hash, Some(address), WorkerCountWindowStart(nowMs, onlineWindow))
    ensures workersOffline == |AddressWorkers(historicals.GetOr([]) + snapshots.GetOr([]), address)| - workersOnline
  {
    var onlineWindowTime := WorkerCountWindowStart(nowMs, onlineWindow);
    var workers := CollectWorkers(historicals.GetOr([]) + snapshots.GetOr([]), address);
    DistinctCardinality(workers);
    workersOnline := CountOnline(hash, address, onlineWindowTime);
    workersOffline := |workers| - workersOnline;
  }

  /** The offline count is not clamped: a miner whose only worker is online
      but has no roll-up yet shows one worker online and minus one offline. */
  lemma OfflineCanBeNegative(worker: ActivityRecord)
    requires worker.worker == "miner.rig" && worker.time > 0
    ensures OnlineCount([Entry("miner.rig", worker)], Some("miner"), 0) == 1
    ensures |AddressWorkers([], "miner")| - OnlineCount([Entry("miner.rig", worker)], Some("miner"), 0) == -1
  {
    BaseAddressOfQualified("miner", "rig");
    assert "miner" + "." + "rig" == "miner.rig";
  }

  // ---------------------------------------------------------------------------
  // Pool counts (poolMinerCount, poolWorkerCount)

  /** The distinct miners with a heartbeat at or after the window start. */
  function OnlineMiners(hash: seq<Entry<ActivityRecord>>, start: int): set<string> {
    if hash == [] then {}
    else
      var last := hash[|hash| - 1].value;
      OnlineMiners(hash[..|hash| - 1], start) + (if last.time >= start then {BaseAddress(last.worker)} else {})
  }

  /** poolMinerCount: the number of distinct miners seen at or after the window start. */
  method PoolMinerCount(nowMs: nat, onlineWindow: Option<int>, hash: seq<Entry<ActivityRecord>>) returns (count: nat)
    ensures count == |OnlineMiners(hash, OnlineWindowStart(nowMs, onlineWindow))|
  {
    var onlineWindowTime := OnlineWindowStart(nowMs, onlineWindow);
    var miners: seq<string> := [];
    var i := 0;
    while i < |hash|
      invariant 0 <= i <= |hash|
      invariant NoDuplicates(miners)
      invariant (set x | x in miners) == OnlineMiners(hash[..i], onlineWindowTime)
    {
      assert hash[..i + 1][..i] == hash[..i];
      var minerData := hash[i].value;
      var miner := BaseAddress(minerData.worker);
      if miner !in miners && minerData.time >= onlineWindowTime {
        miners := miners + [miner];
      }
      i := i + 1;
    }
    assert hash[..|hash|] == hash;
    DistinctCardinality(miners);
    count := |miners|;
  }

  /** poolWorkerCount: the number of heartbeats newer than the window start. */
  method PoolWorkerCount(nowMs: nat, onlineWindow: Option<int>, hash: seq<Entry<ActivityRecord>>) returns (count: nat)
    ensures count == OnlineCount(hash, None, OnlineWindowStart(nowMs, onlineWindow))
  {
    var onlineWindowTime := OnlineWindowStart(nowMs, onlineWindow);
    count := 0;
    var i := 0;
    while i < |hash|
      invariant 0 <= i <= |hash|
      invariant count == OnlineCount(hash[..i], None, onlineWindowTime)
    {
      assert hash[..i + 1][..i] == hash[..i];
      if hash[i].value.time > onlineWindowTime {
        count := count + 1;
      }
      i := i + 1;
    }
    assert hash[..|hash|] == hash;
  }

  /** As written, the miner count admits a heartbeat exactly at the window
      start and the worker count does not, so the pool can report more
      miners than workers. */
  lemma MinerCountBoundary(start: int)
    ensures var hash := [Entry("miner", ActivityRecord(start, "miner", "", false))];
            |OnlineMiners(hash, start)| == 1 && OnlineCount(hash, None, start) == 0
  {
    var hash := [Entry("miner", ActivityRecord(start, "miner", "", false))];
    assert hash[..0] == [];
  }

  /** The distinct miners with a heartbeat newer than the window start, the
      same bound the worker count uses. */
  function OnlineMinersStrict(hash: seq<Entry<ActivityRecord>>, start: int): set<string> {
    if hash == [] then {}
    else
      var last := hash[|hash| - 1].value;
      OnlineMinersStrict(hash[..|hash| - 1], start) + (if last.time > start then {BaseAddress(last.worker)} else {})
  }

  /** With the same bound, there are never more online miners than online workers. */
  lemma {:induction false} OnlineMinersAtMostWorkers(hash: seq<Entry<ActivityRecord>>, start: int)
    ensures |OnlineMinersStrict(hash, start)| <= OnlineCount(hash, None, start)
  {
    if hash != [] {
      OnlineMinersAtMostWorkers(hash[..|hash| - 1], start);
    }
  }

  // ---------------------------------------------------------------------------
  // Top miners (poolTopMiners)

  /** A miner's entry while the top list is built. */
  datatype TopMiner = TopMiner(miner: string, work: real, work24: real, workerCount: Option<nat>)

  /** Adding a later contribution: the works add, the worker count of the
      first contribution stays. */
  function Merge(a: TopMiner, b: TopMiner): TopMiner {
    TopMiner(a.miner, a.work + b.work, a.work24 + b.work24, a.workerCount)
  }

  /** The distinct miners of the contributions, in order of first appearance. */
  function MinerKeys(parts: seq<TopMiner>): (r: seq<string>)
    ensures NoDuplicates(r)
  {
    if parts == [] then []
    else
      var prev := MinerKeys(parts[..|parts| - 1]);
      var m := parts[|parts| - 1].miner;
      if m in prev then prev else prev + [m]
  }

  /** Miner `m`'s entry: its first contribution with every later one added. */
  function Tally(parts: seq<TopMiner>, m: string): (r: TopMiner)
    ensures r.miner == m
  {
    if parts == [] then TopMiner(m, 0.0, 0.0, None)
    else
      var prefix := parts[..|parts| - 1];
      var last := parts[|parts| - 1];
      if last.miner != m then Tally(prefix, m)
      else if m in MinerKeys(prefix) then Merge(Tally(prefix, m), last)
      else last
  }

  /** The reference list: one entry per distinct miner, in order of first appearance. */
  function Tallied(parts: seq<TopMiner>): (r: seq<TopMiner>)
    ensures |r| == |MinerKeys(parts)|
  {
    var keys := MinerKeys(parts);
    seq(|keys|, k requires 0 <= k < |keys| => Tally(parts, keys[k]))
  }

  /** `miners.findIndex(obj => obj.miner == m)`. */
  function FindMiner(list: seq<TopMiner>, m: string): (k: int)
    ensures -1 <= k < |list|
    ensures k == -1 <==> forall j :: 0 <= j < |list| ==> list[j].miner != m
    ensures k >= 0 ==> list[k].miner == m && forall j :: 0 <= j < k ==> list[j].miner != m
  {
    if list == [] then -1
    else if list[0].miner == m then 0
    else
      var k := FindMiner(list[1..], m);
      if k == -1 then -1 else k + 1
  }

  /** One step of a findIndex fold: a new miner's contribution is appended,
      a known miner's entry gets it added in place. */
  lemma TalliedStep(prefix: seq<TopMiner>, x: TopMiner)
    ensures var prev := Tallied(prefix);
            var k := FindMiner(prev, x.miner);
            Tallied(prefix + [x]) == if k == -1 then prev + [x] else prev[k := Merge(prev[k], x)]
  {
    var parts := prefix + [x];
    assert parts[..|parts| - 1] == prefix;
    var keys := MinerKeys(prefix);
    var prev := Tallied(prefix);
    var k := FindMiner(prev, x.miner);
    var next := Tallied(parts);
    assert forall j :: 0 <= j < |prev| ==> prev[j].miner == keys[j];
    if k == -1 {
      assert x.miner !in keys;
      assert next == prev + [x];
    } else {
      assert keys[k] == x.miner;
      assert next == prev[k := Merge(prev[k], x)];
    }
  }

  /** The summed work and 24-hour work of miner `m`'s contributions. */
  function PartWork(parts: seq<TopMiner>, m: string): real {
    if parts == [] then 0.0
    else
      var last := parts[|parts| - 1];
      PartWork(parts[..|parts| - 1], m) + (if last.miner == m then last.work else 0.0)
  }

  function PartWork24(parts: seq<TopMiner>, m: string): real {
    if parts == [] then 0.0
    else
      var last := parts[|parts| - 1];
      PartWork24(parts[..|parts| - 1], m) + (if last.miner == m then last.work24 else 0.0)
  }

  lemma {:induction false} TallySums(parts: seq<TopMiner>, m: string)
    ensures Tally(parts, m).work == PartWork(parts, m) && Tally(parts, m).work24 == PartWork24(parts, m)
  {
    if parts != [] {
      var prefix := parts[..|parts| - 1];
      TallySums(prefix, m);
      if parts[|parts| - 1].miner == m && m !in MinerKeys(prefix) {
        TallyOfAbsent(prefix, m);
      }
    }
  }

  lemma {:induction false} TallyOfAbsent(parts: seq<TopMiner>, m: string)
    requires m !in MinerKeys(parts)
    ensures PartWork(parts, m) == 0.0 && PartWork24(parts, m) == 0.0
  {
    if parts != [] {
      TallyOfAbsent(parts[..|parts| - 1], m);
    }
  }

  lemma {:induction false} PartWorkAppend(a: seq<TopMiner>, b: seq<TopMiner>, m: string)
    ensures PartWork(a + b, m) == PartWork(a, m) + PartWork(b, m)
    ensures PartWork24(a + b, m) == PartWork24(a, m) + PartWork24(b, m)
  {
    if b == [] {
      assert a + b == a;
    } else {
      assert (a + b)[..|a + b| - 1] == a + b[..|b| - 1];
      PartWorkAppend(a, b[..|b| - 1], m);
    }
  }

  /** The online workers of each miner (the `workers` object): present only
      for miners with at least one. */
  function OnlineByMiner(hash: seq<Entry<ActivityRecord>>, start: int): map<string, nat> {
    if hash == [] then map[]
    else
      var prev := OnlineByMiner(hash[..|hash| - 1], start);
      var last := hash[|hash| - 1].value;
      var m := BaseAddress(last.worker);
      if last.time > start then prev[m := if m in prev then prev[m] + 1 else 1] else prev
  }

  /** A miner has an online-worker count exactly when it has an online
      worker, and the count is the number of them. */
  lemma {:induction false} OnlineByMinerMeaning(hash: seq<Entry<ActivityRecord>>, start: int, m: string)
    ensures m in OnlineByMiner(hash, start) <==> OnlineCount(hash, Some(m), start) > 0
    ensures m in OnlineByMiner(hash, start) ==> OnlineByMiner(hash, start)[m] == OnlineCount(hash, Some(m), start)
  {
    if hash != [] {
      OnlineByMinerMeaning(hash[..|hash| - 1], start, m);
    }
  }

  /** What a hashrate sample contributes: its work (0 when it does not read as
      a number), and the miner's online-worker count, left undefined when
      there is none. */
  function SamplePart(r: ShareRecord, workers: map<string, nat>): TopMiner {
    var m := BaseAddress(r.worker);
    TopMiner(m, r.work.GetOr(0.0), 0.0, if m in workers then Some(workers[m]) else None)
  }

  /** What a historical or a recent snapshot contributes: its work to the
      24-hour work, and the online-worker count, 0 when there is none. */
  function RollupPart(s: Snapshot, workers: map<string, nat>): TopMiner {
    var m := BaseAddress(s.worker);
    TopMiner(m, 0.0, s.work, Some(if m in workers then workers[m] else 0))
  }

  function SampleParts(samples: seq<ShareRecord>, workers: map<string, nat>): (r: seq<TopMiner>)
    ensures |r| == |samples|
  {
    if samples == [] then [] else SampleParts(samples[..|samples| - 1], workers) + [SamplePart(samples[|samples| - 1], workers)]
  }

  function RollupParts(ss: seq<Snapshot>, workers: map<string, nat>): (r: seq<TopMiner>)
    ensures |r| == |ss|
  {
    if ss == [] then [] else RollupParts(ss[..|ss| - 1], workers) + [RollupPart(ss[|ss| - 1], workers)]
  }

  /** The contributions in the order the endpoint visits them: samples, then
      historicals, then the snapshots newer than every historical. */
  function AllParts(samples: seq<ShareRecord>, hs: seq<Snapshot>, ss: seq<Snapshot>, workers: map<string, nat>): seq<TopMiner> {
    SampleParts(samples, workers) + RollupParts(hs, workers) + RollupParts(Gated(ss, MaxTime(hs)), workers)
  }

  lemma {:induction false} SamplePartsWork(samples: seq<ShareRecord>, workers: map<string, nat>, m: string)
    ensures PartWork(SampleParts(samples, workers), m) == SampleSum(samples, Some(m))
    ensures PartWork24(SampleParts(samples, workers), m) == 0.0
  {
    if samples != [] {
      SamplePartsWork(samples[..|samples| - 1], workers, m);
    }
  }

  lemma {:induction false} RollupPartsWork(ss: seq<Snapshot>, workers: map<string, nat>, m: string)
    ensures PartWork(RollupParts(ss, workers), m) == 0.0
    ensures PartWork24(RollupParts(ss, workers), m) == SumWork(ss, Some(m))
  {
    if ss != [] {
      RollupPartsWork(ss[..|ss| - 1], workers, m);
    }
  }

  /** Each miner's entry holds the work of its samples in the hashrate
      window, and as 24-hour work that of its historicals and of its
      snapshots newer than every historical. */
  lemma TopMinerWork(samples: seq<ShareRecord>, hs: seq<Snapshot>, ss: seq<Snapshot>, workers: map<string, nat>, m: string)
    ensures var t := Tally(AllParts(samples, hs, ss, workers), m);
            t.work == SampleSum(samples, Some(m)) &&
            t.work24 == SumWork(hs, Some(m)) + SumWork(Gated(ss, MaxTime(hs)), Some(m))
  {
    var a := SampleParts(samples, workers);
    var b := RollupParts(hs, workers);
    var c := RollupParts(Gated(ss, MaxTime(hs)), workers);
    TallySums(a + b + c, m);
    PartWorkAppend(a + b, c, m);
    PartWorkAppend(a, b, m);
    SamplePartsWork(samples, workers, m);
    RollupPartsWork(hs, workers, m);
    RollupPartsWork(Gated(ss, MaxTime(hs)), workers, m);
  }

  const TOP: nat := 10

  function Work24(t: TopMiner): real {
    t.work24
  }

  /** `miners.sort((a, b) => b.work24 - a.work24).slice(0, 10)`. */
  function TopTen(ms: seq<TopMiner>): seq<TopMiner> {
    var sorted := SortDesc(ms, Work24);
    if |sorted| > TOP then sorted[..TOP] else sorted
  }

  /** The miners left out of the top list. */
  function BelowTop(ms: seq<TopMiner>): seq<TopMiner> {
    var sorted := SortDesc(ms, Work24);
    if |sorted| > TOP then sorted[TOP..] else []
  }

  /** The top list holds at most ten miners by 24-hour work, largest first,
      and no miner left out has more 24-hour work than any miner in it;
      miners of equal 24-hour work keep their tally order across both. */
  lemma TopTenMeaning(ms: seq<TopMiner>)
    ensures |TopTen(ms)| == if |ms| > TOP then TOP else |ms|
    ensures SortedDesc(TopTen(ms), Work24)
    ensures multiset(TopTen(ms)) + multiset(BelowTop(ms)) == multiset(ms)
    ensures forall i, j :: 0 <= i < |BelowTop(ms)| && 0 <= j < |TopTen(ms)| ==> BelowTop(ms)[i].work24 <= TopTen(ms)[j].work24
    ensures forall v :: WithKey(TopTen(ms) + BelowTop(ms), Work24, v) == WithKey(ms, Work24, v)
  {
    var sorted := SortDesc(ms, Work24);
    assert TopTen(ms) + BelowTop(ms) == sorted;
    forall v {
      SortDescStable(ms, Work24, v);
    }
    if |sorted| > TOP {
      assert sorted == sorted[..TOP] + sorted[TOP..];
      forall i, j | 0 <= i < |sorted| - TOP && 0 <= j < TOP
        ensures sorted[TOP..][i].work24 <= sorted[..TOP][j].work24
      {
        assert Work24(sorted[j]) >= Work24(sorted[TOP + i]);
      }
    }
  }

  /** One entry of the response. The endpoint reports a hashrate (work times
      the multiplier over the window); that scaling is not modelled here. */
  datatype TopEntry = TopEntry(miner: string, workerCount: Option<nat>, firstJoined: Option<int>, work: real, work24: real)

  /** The first-joined times of the miners hash, by field (the last entry of
      a field wins, as when an object is assigned in order). */
  function JoinedMap(miners: seq<Entry<MinerRecord>>): map<string, int> {
    if miners == [] then map[]
    else
      var last := miners[|miners| - 1];
      JoinedMap(miners[..|miners| - 1])[last.key := last.value.firstJoined]
  }

  function Presented(t: TopMiner, joined: map<string, int>): TopEntry {
    TopEntry(t.miner, t.workerCount, if t.miner in joined then Some(joined[t.miner]) else None, t.work, t.work24)
  }

  /** One contribution added to the list as the endpoint's loops do it. */
  method Visit(miners: seq<TopMiner>, part: TopMiner, toWork24: bool) returns (out: seq<TopMiner>)
    requires toWork24 ==> part.work == 0.0
    requires !toWork24 ==> part.work24 == 0.0
    ensures var k := FindMiner(miners, part.miner);
            out == if k == -1 then miners + [part] else miners[k := Merge(miners[k], part)]
  {
    var minerIndex := FindMiner(miners, part.miner);
    if minerIndex == -1 {
      out := miners + [part];
    } else if toWork24 {
      out := miners[minerIndex := miners[minerIndex].(work24 := miners[minerIndex].work24 + part.work24)];
    } else {
      out := miners[minerIndex := miners[minerIndex].(work := miners[minerIndex].work + part.work)];
    }
  }

  /** The first loop of poolTopMiners: the online workers of each miner. */
  method OnlineWorkersByMiner(heartbeats: seq<Entry<ActivityRecord>>, onlineWindowTime: int) returns (workers: map<string, nat>)
    ensures workers == OnlineByMiner(heartbeats, onlineWindowTime)
  {
    workers := map[];
    var i := 0;
    while i < |heartbeats|
      invariant 0 <= i <= |heartbeats|
      invariant workers == OnlineByMiner(heartbeats[..i], onlineWindowTime)
    {
      assert heartbeats[..i + 1][..i] == heartbeats[..i];
      var worker := heartbeats[i].value;
      if worker.time > onlineWindowTime {
        var miner := BaseAddress(worker.worker);
        if miner in workers {
          workers := workers[miner := workers[miner] + 1];
        } else {
          workers := workers[miner := 1];
        }
      }
      i := i + 1;
    }
    assert heartbeats[..|heartbeats|] == heartbeats;
  }

  /** The second loop: the first-joined time of every registered miner. */
  method JoinedTimes(registered: seq<Entry<MinerRecord>>) returns (joined: map<string, int>)
    ensures joined == JoinedMap(registered)
  {
    joined := map[];
    var i := 0;
    while i < |registered|
      invariant 0 <= i <= |registered|
      invariant joined == JoinedMap(registered[..i])
    {
      assert registered[..i + 1][..i] == registered[..i];
      joined := joined[registered[i].key := registered[i].value.firstJoined];
      i := i + 1;
    }
    assert registered[..|registered|] == registered;
  }

  /** Appending one contribution to those already tallied is one step of
      the findIndex fold. */
  lemma TallyExtend(before: seq<TopMiner>, parts: seq<TopMiner>, part: TopMiner)
    ensures var prev := Tallied(before + parts);
            var k := FindMiner(prev, part.miner);
            Tallied(before + (parts + [part])) == if k == -1 then prev + [part] else prev[k := Merge(prev[k], part)]
  {
    assert before + (parts + [part]) == (before + parts) + [part];
    TalliedStep(before + parts, part);
  }

  /** Visit, stated against the reference list: the list of the contributions
      so far, extended by one more. */
  method Absorb(miners: seq<TopMiner>, ghost before: seq<TopMiner>, ghost parts: seq<TopMiner>, part: TopMiner, toWork24: bool)
    returns (out: seq<TopMiner>)
    requires miners == Tallied(before + parts)
    requires toWork24 ==> part.work == 0.0
    requires !toWork24 ==> part.work24 == 0.0
    ensures out == Tallied(before + (parts + [part]))
  {
    TallyExtend(before, parts, part);
    out := Visit(miners, part, toWork24);
  }

  lemma SamplePartsPrefix(window: seq<ShareRecord>, i: nat, workers: map<string, nat>)
    requires i < |window|
    ensures SampleParts(window[..i + 1], workers) == SampleParts(window[..i], workers) + [SamplePart(window[i], workers)]
  {
    assert window[..i + 1][..i] == window[..i];
  }

  lemma RollupPartsSnoc(g: seq<Snapshot>, s: Snapshot, workers: map<string, nat>)
    ensures RollupParts(g + [s], workers) == RollupParts(g, workers) + [RollupPart(s, workers)]
  {
    assert (g + [s])[..|g|] == g;
  }

  lemma RollupPartsPrefix(hs: seq<Snapshot>, i: nat, workers: map<string, nat>)
    requires i < |hs|
    ensures RollupParts(hs[..i + 1], workers) == RollupParts(hs[..i], workers) + [RollupPart(hs[i], workers)]
  {
    assert hs[..i + 1][..i] == hs[..i];
  }

  /** The samples loop: each sample's work added to its miner's entry. */
  method VisitSamples(window: seq<ShareRecord>, workers: map<string, nat>) returns (miners: seq<TopMiner>)
    ensures miners == Tallied(SampleParts(window, workers))
  {
    miners := [];
    ghost var parts: seq<TopMiner> := [];
    var i := 0;
    while i < |window|
      invariant 0 <= i <= |window|
      invariant parts == SampleParts(window[..i], workers)
      invariant miners == Tallied([] + parts)
    {
      var part := SamplePart(window[i], workers);
      SamplePartsPrefix(window, i, workers);
      miners := Absorb(miners, [], parts, part, false);
      parts := parts + [part];
      i := i + 1;
    }
    assert window[..|window|] == window;
    assert [] + parts == parts;
  }

  /** The historicals loop: each historical's work added to its miner's
      24-hour work, and the newest historical time. */
  method VisitHistoricals(miners: seq<TopMiner>, before: seq<TopMiner>, hs: seq<Snapshot>, workers: map<string, nat>)
    returns (maxHistoricalTime: int, out: seq<TopMiner>)
    requires miners == Tallied(before)
    ensures maxHistoricalTime == MaxTime(hs)
    ensures out == Tallied(before + RollupParts(hs, workers))
  {
    out := miners;
    maxHistoricalTime := 0;
    ghost var parts: seq<TopMiner> := [];
    assert before + parts == before;
    var i := 0;
    while i < |hs|
      invariant 0 <= i <= |hs|
      invariant maxHistoricalTime == MaxTime(hs[..i])
      invariant parts == RollupParts(hs[..i], workers)
      invariant out == Tallied(before + parts)
    {
      MaxTimePrefix(hs, i);
      if hs[i].time > maxHistoricalTime {
        maxHistoricalTime := hs[i].time;
      }
      assert maxHistoricalTime == MaxTime(hs[..i + 1]);
      var part := RollupPart(hs[i], workers);
      RollupPartsPrefix(hs, i, workers);
      out := Absorb(out, before, parts, part, true);
      parts := parts + [part];
      i := i + 1;
    }
    assert hs[..|hs|] == hs;
  }

  /** The snapshots loop: the work of each snapshot newer than every
      historical added to its miner's 24-hour work. */
  method VisitSnapshots(miners: seq<TopMiner>, before: seq<TopMiner>, ss: seq<Snapshot>, maxHistoricalTime: int, workers: map<string, nat>)
    returns (out: seq<TopMiner>)
    requires miners == Tallied(before)
    ensures out == Tallied(before + RollupParts(Gated(ss, maxHistoricalTime), workers))
  {
    out := miners;
    ghost var parts: seq<TopMiner> := [];
    assert before + parts == before;
    var i := 0;
    ghost var recent: seq<Snapshot> := [];
    while i < |ss|
      invariant 0 <= i <= |ss|
      invariant recent == Gated(ss[..i], maxHistoricalTime)
      invariant parts == RollupParts(recent, workers)
      invariant out == Tallied(before + parts)
    {
      GatedPrefix(ss, i, maxHistoricalTime);
      if ss[i].time > maxHistoricalTime {
        var part := RollupPart(ss[i], workers);
        RollupPartsSnoc(recent, ss[i], workers);
        out := Absorb(out, before, parts, part, true);
        parts := parts + [part];
        recent := recent + [ss[i]];
        assert recent == Gated(ss[..i + 1], maxHistoricalTime);
      } else {
        assert recent + [] == recent;
      }
      i := i + 1;
    }
    assert ss[..|ss|] == ss;
  }

  /** The output loop: each top miner with its first-joined time. */
  method Present(top: seq<TopMiner>, joined: map<string, int>) returns (output: seq<TopEntry>)
    ensures |output| == |top|
    ensures forall k :: 0 <= k < |output| ==> output[k] == Presented(top[k], joined)
  {
    output := [];
    var i := 0;
    while i < |top|
      invariant 0 <= i <= |top|
      invariant |output| == i && forall k :: 0 <= k < i ==> output[k] == Presented(top[k], joined)
    {
      var entry := top[i];
      output := output + [TopEntry(entry.miner, entry.workerCount,
                                   if entry.miner in joined then Some(joined[entry.miner]) else None,
                                   entry.work, entry.work24)];
      i := i + 1;
    }
  }

  /** poolTopMiners: count each miner's online workers and first-joined time,
      sum each miner's sample work and 24-hour work, and answer the ten
      miners with the most 24-hour work, largest first. */
  method PoolTopMiners(nowMs: nat, onlineWindow: Option<int>,
                       hash: Option<seq<Entry<ActivityRecord>>>, minersHash: Option<seq<Entry<MinerRecord>>>,
                       samples: Option<seq<ShareRecord>>, historicals: Option<seq<Snapshot>>, snapshots: Option<seq<Snapshot>>)
    returns (output: seq<TopEntry>)
    ensures var workers := OnlineByMiner(hash.GetOr([]), OnlineWindowStart(nowMs, onlineWindow));
            var top := TopTen(Tallied(AllParts(samples.GetOr([]), historicals.GetOr([]), snapshots.GetOr([]), workers)));
            |output| == |top| && |output| <= TOP &&
            forall k :: 0 <= k < |output| ==> output[k] == Presented(top[k], JoinedMap(minersHash.GetOr([])))
  {
    var onlineWindowTime := OnlineWindowStart(nowMs, onlineWindow);
    var workers := OnlineWorkersByMiner(hash.GetOr([]), onlineWindowTime);
    var joined := JoinedTimes(minersHash.GetOr([]));
    var window := samples.GetOr([]);
    var hs := historicals.GetOr([]);
    var miners := VisitSamples(window, workers);
    var maxHistoricalTime;
    maxHistoricalTime, miners := VisitHistoricals(miners, SampleParts(window, workers), hs, workers);
    miners := VisitSnapshots(miners, SampleParts(window, workers) + RollupParts(hs, workers), snapshots.GetOr([]), maxHistoricalTime, workers);

    var top := TopTen(miners);
    TopTenMeaning(miners);
    output := Present(top, joined);
  }
}
