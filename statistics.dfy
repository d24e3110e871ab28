/** The statistics jobs of statistics.js, from the moment their store reads
    have returned: per-worker minute snapshots rolled up from hashrate
    samples, ten-minute historicals rolled up from snapshots, registration
    of new miners, pruning of the block and payment lists to their newest
    100 entries, and the decision to append a pool-wide historical entry.
    The clock reading `now` (milliseconds) and the sorted sets read are
    parameters; each job returns the commands of its batch. */
module Statistics {
  import opened Common
  import opened Store
  import opened Sorting
  import opened Utils

  const MINUTE: nat := 60000
  const TEN_MINUTES: nat := 600000
  const ONE_DAY: nat := 86400000

  // ---------------------------------------------------------------------------
  // Time windows

  /** `Math.floor(now / oneMinute) * oneMinute`: the end of the last closed minute. */
  function MinuteEnd(now: nat): (e: nat)
    ensures e % MINUTE == 0 && e <= now < e + MINUTE
  {
    (now / MINUTE) * MINUTE
  }

  /** The same boundary on the ten-minute grid. */
  function TenMinuteEnd(now: nat): (e: nat)
    ensures e % TEN_MINUTES == 0 && e <= now < e + TEN_MINUTES
  {
    (now / TEN_MINUTES) * TEN_MINUTES
  }

  // ---------------------------------------------------------------------------
  // Roll-up by worker (the findIndex folds of handleWorkerInfo and handleWorkerInfo2)

  /** The empty roll-up of a worker, stamped with the window's time. */
  function Zero(w: string, time: int): Snapshot {
    Snapshot(w, 0, 0, 0, time, 0.0)
  }

  /** Adding one contribution to a roll-up: counters and work add up, the
      worker and the time stay. */
  function Plus(a: Snapshot, b: Snapshot): Snapshot {
    Snapshot(a.worker, a.valid + b.valid, a.stale + b.stale, a.invalid + b.invalid, a.time, a.work + b.work)
  }

  /** The distinct workers of the contributions, in order of first appearance. */
  function Names<T>(items: seq<T>, part: T -> Snapshot): (r: seq<string>)
    ensures NoDuplicates(r)
  {
    if items == [] then []
    else
      var prev := Names(items[..|items| - 1], part);
      var w := part(items[|items| - 1]).worker;
      if w in prev then prev else prev + [w]
  }

  /** The sum of every contribution of worker `w`. */
  function Total<T>(items: seq<T>, part: T -> Snapshot, w: string, time: int): (r: Snapshot)
    ensures r.worker == w && r.time == time
  {
    if items == [] then Zero(w, time)
    else
      var prev := Total(items[..|items| - 1], part, w, time);
      var p := part(items[|items| - 1]);
      if p.worker == w then Plus(prev, p) else prev
  }

  /** The reference roll-up: one entry per distinct worker, in order of first
      appearance, holding the sum of that worker's contributions. */
  function Rolled<T>(items: seq<T>, part: T -> Snapshot, time: int): (r: seq<Snapshot>)
    ensures |r| == |Names(items, part)|
  {
    var names := Names(items, part);
    seq(|names|, k requires 0 <= k < |names| => Total(items, part, names[k], time))
  }

  /** `list.findIndex(x => x.worker === w)`. */
  function FindWorker(list: seq<Snapshot>, w: string): (k: int)
    ensures -1 <= k < |list|
    ensures k == -1 <==> forall j :: 0 <= j < |list| ==> list[j].worker != w
    ensures k >= 0 ==> list[k].worker == w && forall j :: 0 <= j < k ==> list[j].worker != w
  {
    if list == [] then -1
    else if list[0].worker == w then 0
    else
      var k := FindWorker(list[1..], w);
      if k == -1 then -1 else k + 1
  }

  lemma {:induction false} NamesMeaning<T>(items: seq<T>, part: T -> Snapshot, w: string)
    ensures w in Names(items, part) <==> exists i :: 0 <= i < |items| && part(items[i]).worker == w
  {
    if items != [] {
      var prefix := items[..|items| - 1];
      NamesMeaning(prefix, part, w);
      if exists i :: 0 <= i < |items| && part(items[i]).worker == w {
        var i :| 0 <= i < |items| && part(items[i]).worker == w;
        if i < |prefix| {
          assert part(prefix[i]).worker == w;
        }
      }
    }
  }

  lemma {:induction false} TotalOfAbsent<T>(items: seq<T>, part: T -> Snapshot, w: string, time: int)
    requires w !in Names(items, part)
    ensures Total(items, part, w, time) == Zero(w, time)
  {
    if items != [] {
      TotalOfAbsent(items[..|items| - 1], part, w, time);
    }
  }

  /** One step of the fold: a new worker gets the template built from its
      contribution at the end of the list; a known worker's entry, found by
      `findIndex`, gets the contribution added in place. */
  lemma RolledStep<T>(prefix: seq<T>, x: T, part: T -> Snapshot, time: int)
    ensures var prev := Rolled(prefix, part, time);
            var p := part(x);
            var k := FindWorker(prev, p.worker);
            Rolled(prefix + [x], part, time) ==
              if k == -1 then prev + [Plus(Zero(p.worker, time), p)] else prev[k := Plus(prev[k], p)]
  {
    var items := prefix + [x];
    assert items[..|items| - 1] == prefix;
    var names := Names(prefix, part);
    var prev := Rolled(prefix, part, time);
    var p := part(x);
    var w := p.worker;
    var k := FindWorker(prev, w);
    var next := Rolled(items, part, time);
    assert forall j :: 0 <= j < |prev| ==> prev[j].worker == names[j];
    if k == -1 {
      assert w !in names;
      TotalOfAbsent(prefix, part, w, time);
      assert next == prev + [Plus(Zero(w, time), p)];
    } else {
      assert names[k] == w;
      assert next == prev[k := Plus(prev[k], p)];
    }
  }

  lemma RolledPrefix<T>(items: seq<T>, i: nat, part: T -> Snapshot, time: int)
    requires i < |items|
    ensures var prev := Rolled(items[..i], part, time);
            var p := part(items[i]);
            var k := FindWorker(prev, p.worker);
            Rolled(items[..i + 1], part, time) ==
              if k == -1 then prev + [Plus(Zero(p.worker, time), p)] else prev[k := Plus(prev[k], p)]
  {
    assert items[..i + 1] == items[..i] + [items[i]];
    RolledStep(items[..i], items[i], part, time);
  }

  /** The roll-up loop: for each contribution in order, find the worker's
      entry and add to it, or append a new entry. */
  method RollUp<T>(items: seq<T>, part: T -> Snapshot, time: int) returns (out: seq<Snapshot>)
    ensures out == Rolled(items, part, time)
  {
    out := [];
    var i := 0;
    while i < |items|
      invariant 0 <= i <= |items|
      invariant out == Rolled(items[..i], part, time)
    {
      var p := part(items[i]);
      var k := FindWorker(out, p.worker);
      RolledPrefix(items, i, part, time);
      if k == -1 {
        out := out + [Plus(Zero(p.worker, time), p)];
      } else {
        out := out[k := Plus(out[k], p)];
      }
      assert out == Rolled(items[..i + 1], part, time);
      i := i + 1;
    }
    assert items[..|items|] == items;
  }

  /** The roll-up holds exactly one entry per distinct worker of the input,
      each stamped with the window's time. */
  lemma RolledWorkers<T>(items: seq<T>, part: T -> Snapshot, time: int, w: string)
    ensures var r := Rolled(items, part, time);
            (forall k :: 0 <= k < |r| ==> r[k].time == time) &&
            (forall j, k :: 0 <= j < k < |r| ==> r[j].worker != r[k].worker) &&
            ((exists k :: 0 <= k < |r| && r[k].worker == w) <==> exists i :: 0 <= i < |items| && part(items[i]).worker == w)
  {
    var r := Rolled(items, part, time);
    var names := Names(items, part);
    NamesMeaning(items, part, w);
    if w in names {
      var k :| 0 <= k < |names| && names[k] == w;
      assert r[k].worker == w;
    }
  }

  // ---------------------------------------------------------------------------
  // Minute snapshots (handleWorkerInfo)

  /** What one hashrate sample adds to its worker's snapshot: one to the
      counter of its type, and its work when it is valid. */
  function SampleContribution(r: ShareRecord): Snapshot {
    var valid := r.shareType == Some(Valid);
    Snapshot(r.worker,
             if valid then 1 else 0,
             if r.shareType == Some(Stale) then 1 else 0,
             if r.shareType == Some(Invalid) then 1 else 0,
             0,
             if valid then r.work.GetOr(0.0) else 0.0)
  }

  /** The number of samples of worker `w` with type `t`. */
  function CountType(samples: seq<ShareRecord>, w: string, t: ShareType): nat {
    if samples == [] then 0
    else
      var last := samples[|samples| - 1];
      CountType(samples[..|samples| - 1], w, t) + (if last.worker == w && last.shareType == Some(t) then 1 else 0)
  }

  /** The summed work of the valid samples of worker `w`. */
  function ValidWork(samples: seq<ShareRecord>, w: string): real {
    if samples == [] then 0.0
    else
      var last := samples[|samples| - 1];
      ValidWork(samples[..|samples| - 1], w) + (if last.worker == w && last.shareType == Some(Valid) then last.work.GetOr(0.0) else 0.0)
  }

  /** A minute snapshot counts the worker's samples of each type and sums the
      work of its valid ones. */
  lemma {:induction false} MinuteTotals(samples: seq<ShareRecord>, w: string, time: int)
    ensures Total(samples, SampleContribution, w, time) ==
            Snapshot(w, CountType(samples, w, Valid), CountType(samples, w, Stale), CountType(samples, w, Invalid), time, ValidWork(samples, w))
  {
    if samples != [] {
      MinuteTotals(samples[..|samples| - 1], w, time);
    }
  }

  /** The stored entries a snapshot job has not yet written for the window:
      those of the roll-up whose worker has no stored entry (`find` fails). */
  function Missing(rolled: seq<Snapshot>, stored: seq<Snapshot>): seq<Snapshot> {
    if rolled == [] then []
    else
      var last := rolled[|rolled| - 1];
      Missing(rolled[..|rolled| - 1], stored) + (if FindWorker(stored, last.worker) == -1 then [last] else [])
  }

  lemma {:induction false} MissingMeaning(rolled: seq<Snapshot>, stored: seq<Snapshot>, s: Snapshot)
    ensures s in Missing(rolled, stored) <==> s in rolled && forall j :: 0 <= j < |stored| ==> stored[j].worker != s.worker
  {
    if rolled != [] {
      var prefix := rolled[..|rolled| - 1];
      MissingMeaning(prefix, stored, s);
      assert rolled == prefix + [rolled[|rolled| - 1]];
    }
  }

  lemma {:induction false} NoneMissing(rolled: seq<Snapshot>, stored: seq<Snapshot>)
    requires forall s :: s in rolled ==> FindWorker(stored, s.worker) != -1
    ensures Missing(rolled, stored) == []
  {
    if rolled != [] {
      NoneMissing(rolled[..|rolled| - 1], stored);
    }
  }

  /** Once the entries a run emits are stored, a second run over the same
      roll-up emits nothing. */
  lemma MissingAfterStore(rolled: seq<Snapshot>, stored: seq<Snapshot>)
    ensures Missing(rolled, stored + Missing(rolled, stored)) == []
  {
    var added := Missing(rolled, stored);
    var after := stored + added;
    forall s | s in rolled
      ensures FindWorker(after, s.worker) != -1
    {
      MissingMeaning(rolled, stored, s);
      if FindWorker(stored, s.worker) != -1 {
        var j := FindWorker(stored, s.worker);
        assert after[j].worker == s.worker;
      } else {
        var j :| 0 <= j < |added| && added[j] == s;
        assert after[|stored| + j].worker == s.worker;
      }
    }
    NoneMissing(rolled, after);
  }

  /** The snapshot loop: one `zadd` at the window's score for each missing entry. */
  method EmitSnapshots(rolled: seq<Snapshot>, stored: seq<Snapshot>, key: Key, score: int) returns (commands: seq<Command>)
    ensures var missing := Missing(rolled, stored);
            |commands| == |missing| &&
            forall k :: 0 <= k < |commands| ==> commands[k] == Zadd(key, score, SnapshotValue(missing[k]))
  {
    commands := [];
    var i := 0;
    while i < |rolled|
      invariant 0 <= i <= |rolled|
      invariant |commands| == |Missing(rolled[..i], stored)|
      invariant forall k :: 0 <= k < |commands| ==> commands[k] == Zadd(key, score, SnapshotValue(Missing(rolled[..i], stored)[k]))
    {
      assert rolled[..i + 1][..i] == rolled[..i];
      if FindWorker(stored, rolled[i].worker) == -1 {
        commands := commands + [Zadd(key, score, SnapshotValue(rolled[i]))];
      }
      i := i + 1;
    }
    assert rolled[..|rolled|] == rolled;
  }

  /** The samples of the last closed minute, `(minuteStart, minuteEnd]` in seconds. */
  function MinuteSamples(hashrate: seq<Scored<ShareRecord>>, now: nat): seq<ShareRecord> {
    var minuteEnd := MinuteEnd(now);
    RangeByScore(hashrate, (minuteEnd - MINUTE) / 1000, true, minuteEnd / 1000)
  }

  /** The snapshots already stored for that minute. */
  function MinuteStored(snapshots: seq<Scored<Snapshot>>, now: nat): seq<Snapshot> {
    var minuteEnd := MinuteEnd(now);
    RangeByScore(snapshots, minuteEnd / 1000, false, minuteEnd / 1000)
  }

  /** The minute-snapshot commands of one mode. */
  function MinuteCommands(track: BlockType, mode: Mode, hashrate: seq<Scored<ShareRecord>>, snapshots: seq<Scored<Snapshot>>, now: nat): seq<Command> {
    var score := MinuteEnd(now) / 1000;
    var missing := Missing(Rolled(MinuteSamples(hashrate, now), SampleContribution, score), MinuteStored(snapshots, now));
    seq(|missing|, k requires 0 <= k < |missing| => Zadd(CurrentKey(track, mode, Snapshots), score, SnapshotValue(missing[k])))
  }

  /** handleWorkerInfo: roll the last closed minute's hashrate samples into one
      snapshot per worker, and write those of workers that have none yet,
      shared mode first, then solo. */
  method HandleWorkerInfo(track: BlockType, now: nat,
                          sharedHashrate: seq<Scored<ShareRecord>>, sharedSnapshots: seq<Scored<Snapshot>>,
                          soloHashrate: seq<Scored<ShareRecord>>, soloSnapshots: seq<Scored<Snapshot>>)
    returns (commands: seq<Command>)
    ensures commands == MinuteCommands(track, Shared, sharedHashrate, sharedSnapshots, now)
                        + MinuteCommands(track, Solo, soloHashrate, soloSnapshots, now)
  {
    var minuteEnd := MinuteEnd(now);
    var minuteStart := minuteEnd - MINUTE;
    var score := minuteEnd / 1000;
    var sharedWorkers := RollUp(RangeByScore(sharedHashrate, minuteStart / 1000, true, score), SampleContribution, score);
    var soloWorkers := RollUp(RangeByScore(soloHashrate, minuteStart / 1000, true, score), SampleContribution, score);
    var sharedCommands := EmitSnapshots(sharedWorkers, RangeByScore(sharedSnapshots, score, false, score), CurrentKey(track, Shared, Snapshots), score);
    var soloCommands := EmitSnapshots(soloWorkers, RangeByScore(soloSnapshots, score, false, score), CurrentKey(track, Solo, Snapshots), score);
    commands := sharedCommands + soloCommands;
  }

  /** What a minute snapshot written by handleWorkerInfo holds: for a worker
      with a sample in the minute and no snapshot yet, the zadd at the end of
      the minute carries that worker's per-type sample counts and valid work,
      and every written snapshot is of such a worker. */
  lemma MinuteSnapshotContent(track: BlockType, mode: Mode, hashrate: seq<Scored<ShareRecord>>, snapshots: seq<Scored<Snapshot>>, now: nat, s: Snapshot)
    ensures var samples := MinuteSamples(hashrate, now);
            var stored := MinuteStored(snapshots, now);
            var score := MinuteEnd(now) / 1000;
            Zadd(CurrentKey(track, mode, Snapshots), score, SnapshotValue(s)) in MinuteCommands(track, mode, hashrate, snapshots, now)
            <==>
            (exists i :: 0 <= i < |samples| && samples[i].worker == s.worker) &&
            (forall j :: 0 <= j < |stored| ==> stored[j].worker != s.worker) &&
            s == Snapshot(s.worker, CountType(samples, s.worker, Valid), CountType(samples, s.worker, Stale),
                          CountType(samples, s.worker, Invalid), score, ValidWork(samples, s.worker))
  {
    var samples := MinuteSamples(hashrate, now);
    var stored := MinuteStored(snapshots, now);
    if Zadd(CurrentKey(track, mode, Snapshots), MinuteEnd(now) / 1000, SnapshotValue(s)) in MinuteCommands(track, mode, hashrate, snapshots, now) {
      MinuteSnapshotWritten(track, mode, hashrate, snapshots, now, s);
    }
    if (exists i :: 0 <= i < |samples| && samples[i].worker == s.worker) &&
       (forall j :: 0 <= j < |stored| ==> stored[j].worker != s.worker) &&
       s == Snapshot(s.worker, CountType(samples, s.worker, Valid), CountType(samples, s.worker, Stale),
                     CountType(samples, s.worker, Invalid), MinuteEnd(now) / 1000, ValidWork(samples, s.worker)) {
      MinuteSnapshotWrites(track, mode, hashrate, snapshots, now, s);
    }
  }

  /** Every written minute snapshot is of a sampled worker with no snapshot
      yet, and carries that worker's totals. */
  lemma MinuteSnapshotWritten(track: BlockType, mode: Mode, hashrate: seq<Scored<ShareRecord>>, snapshots: seq<Scored<Snapshot>>, now: nat, s: Snapshot)
    requires Zadd(CurrentKey(track, mode, Snapshots), MinuteEnd(now) / 1000, SnapshotValue(s)) in MinuteCommands(track, mode, hashrate, snapshots, now)
    ensures var samples := MinuteSamples(hashrate, now);
            var stored := MinuteStored(snapshots, now);
            (exists i :: 0 <= i < |samples| && samples[i].worker == s.worker) &&
            (forall j :: 0 <= j < |stored| ==> stored[j].worker != s.worker) &&
            s == Snapshot(s.worker, CountType(samples, s.worker, Valid), CountType(samples, s.worker, Stale),
                          CountType(samples, s.worker, Invalid), MinuteEnd(now) / 1000, ValidWork(samples, s.worker))
  {
    var samples := MinuteSamples(hashrate, now);
    var stored := MinuteStored(snapshots, now);
    var score := MinuteEnd(now) / 1000;
    var rolled := Rolled(samples, SampleContribution, score);
    var missing := Missing(rolled, stored);
    var cs := MinuteCommands(track, mode, hashrate, snapshots, now);
    var c := Zadd(CurrentKey(track, mode, Snapshots), score, SnapshotValue(s));
    MissingMeaning(rolled, stored, s);
    RolledWorkers(samples, SampleContribution, score, s.worker);
    MinuteTotals(samples, s.worker, score);
    var names := Names(samples, SampleContribution);
    assert (exists i :: 0 <= i < |samples| && SampleContribution(samples[i]).worker == s.worker)
       <==> (exists i :: 0 <= i < |samples| && samples[i].worker == s.worker);
    var k :| 0 <= k < |cs| && cs[k] == c;
    assert missing[k] == s;
    assert s in rolled;
    var j :| 0 <= j < |rolled| && rolled[j] == s;
    assert s == Total(samples, SampleContribution, names[j], score);
  }

  /** A sampled worker with no snapshot yet gets a minute snapshot carrying
      its totals. */
  lemma MinuteSnapshotWrites(track: BlockType, mode: Mode, hashrate: seq<Scored<ShareRecord>>, snapshots: seq<Scored<Snapshot>>, now: nat, s: Snapshot)
    requires var samples := MinuteSamples(hashrate, now);
             var stored := MinuteStored(snapshots, now);
             (exists i :: 0 <= i < |samples| && samples[i].worker == s.worker) &&
             (forall j :: 0 <= j < |stored| ==> stored[j].worker != s.worker) &&
             s == Snapshot(s.worker, CountType(samples, s.worker, Valid), CountType(samples, s.worker, Stale),
                           CountType(samples, s.worker, Invalid), MinuteEnd(now) / 1000, ValidWork(samples, s.worker))
    ensures Zadd(CurrentKey(track, mode, Snapshots), MinuteEnd(now) / 1000, SnapshotValue(s)) in MinuteCommands(track, mode, hashrate, snapshots, now)
  {
    var samples := MinuteSamples(hashrate, now);
    var stored := MinuteStored(snapshots, now);
    var score := MinuteEnd(now) / 1000;
    var rolled := Rolled(samples, SampleContribution, score);
    var missing := Missing(rolled, stored);
    var cs := MinuteCommands(track, mode, hashrate, snapshots, now);
    var c := Zadd(CurrentKey(track, mode, Snapshots), score, SnapshotValue(s));
    MissingMeaning(rolled, stored, s);
    RolledWorkers(samples, SampleContribution, score, s.worker);
    MinuteTotals(samples, s.worker, score);
    var names := Names(samples, SampleContribution);
    assert (exists i :: 0 <= i < |samples| && SampleContribution(samples[i]).worker == s.worker)
       <==> (exists i :: 0 <= i < |samples| && samples[i].worker == s.worker);
    var j :| 0 <= j < |rolled| && rolled[j].worker == s.worker;
    assert names[j] == s.worker;
    assert rolled[j] == s;
    assert s in missing;
    var k :| 0 <= k < |missing| && missing[k] == s;
    assert cs[k] == c;
  }

  // ---------------------------------------------------------------------------
  // Ten-minute historicals (handleWorkerInfo2)

  function Same(s: Snapshot): Snapshot {
    s
  }

  /** The commands written for a list of new historicals, one group each. */
  function HistoricalWrites(track: BlockType, mode: Mode, tenMinutesEnd: nat, hs: seq<Snapshot>): (cs: seq<Command>)
    ensures |cs| == 3 * |hs|
  {
    if hs == [] then []
    else HistoricalWrites(track, mode, tenMinutesEnd, hs[..|hs| - 1]) + HistoricalWrite(track, mode, tenMinutesEnd, hs[|hs| - 1])
  }

  /** Group `k` of the commands belongs to the `k`-th new historical. */
  lemma {:induction false} HistoricalWritesLayout(track: BlockType, mode: Mode, tenMinutesEnd: nat, hs: seq<Snapshot>)
    ensures forall k :: 0 <= k < |hs| ==>
              HistoricalWrites(track, mode, tenMinutesEnd, hs)[3 * k .. 3 * k + 3] == HistoricalWrite(track, mode, tenMinutesEnd, hs[k])
  {
    if hs != [] {
      var prefix := hs[..|hs| - 1];
      var before := HistoricalWrites(track, mode, tenMinutesEnd, prefix);
      var cs := HistoricalWrites(track, mode, tenMinutesEnd, hs);
      HistoricalWritesLayout(track, mode, tenMinutesEnd, prefix);
      forall k | 0 <= k < |hs|
        ensures cs[3 * k .. 3 * k + 3] == HistoricalWrite(track, mode, tenMinutesEnd, hs[k])
      {
        if k < |prefix| {
          assert cs[3 * k .. 3 * k + 3] == before[3 * k .. 3 * k + 3];
          assert hs[k] == prefix[k];
        } else {
          assert cs[3 * k .. 3 * k + 3] == cs[|before|..];
        }
      }
    }
  }

  /** The historical loop: for each missing entry, its `zadd` followed by the
      pruning of the mode's snapshots up to the window start and of its
      historicals older than one day. */
  method EmitHistoricals(rolled: seq<Snapshot>, stored: seq<Snapshot>, track: BlockType, mode: Mode, tenMinutesEnd: nat)
    returns (commands: seq<Command>)
    ensures var missing := Missing(rolled, stored);
            |commands| == 3 * |missing| &&
            forall k :: 0 <= k < |missing| ==> commands[3 * k .. 3 * k + 3] == HistoricalWrite(track, mode, tenMinutesEnd, missing[k])
  {
    commands := [];
    var i := 0;
    while i < |rolled|
      invariant 0 <= i <= |rolled|
      invariant commands == HistoricalWrites(track, mode, tenMinutesEnd, Missing(rolled[..i], stored))
    {
      assert rolled[..i + 1][..i] == rolled[..i];
      if FindWorker(stored, rolled[i].worker) == -1 {
        var before := Missing(rolled[..i], stored);
        assert Missing(rolled[..i + 1], stored) == before + [rolled[i]];
        assert (before + [rolled[i]])[..|before|] == before;
        var oneDayAgo := tenMinutesEnd - ONE_DAY;
        var tenMinutesStart := tenMinutesEnd - TEN_MINUTES;
        commands := commands + [Zadd(CurrentKey(track, mode, Historicals), tenMinutesEnd / 1000, SnapshotValue(rolled[i])),
                                ZremRangeByScore(CurrentKey(track, mode, Snapshots), 0, tenMinutesStart / 1000, false),
                                ZremRangeByScore(CurrentKey(track, mode, Historicals), 0, oneDayAgo / 1000, true)];
        assert commands == HistoricalWrites(track, mode, tenMinutesEnd, before) + HistoricalWrite(track, mode, tenMinutesEnd, rolled[i]);
      } else {
        assert Missing(rolled[..i + 1], stored) == Missing(rolled[..i], stored);
      }
      i := i + 1;
    }
    assert rolled[..|rolled|] == rolled;
    HistoricalWritesLayout(track, mode, tenMinutesEnd, Missing(rolled, stored));
  }

  /** The three commands written for one new historical. */
  function HistoricalWrite(track: BlockType, mode: Mode, tenMinutesEnd: nat, h: Snapshot): (cs: seq<Command>)
    ensures |cs| == 3
  {
    var tenMinutesStart := tenMinutesEnd - TEN_MINUTES;
    var oneDayAgo := tenMinutesEnd - ONE_DAY;
    [Zadd(CurrentKey(track, mode, Historicals), tenMinutesEnd / 1000, SnapshotValue(h)),
     ZremRangeByScore(CurrentKey(track, mode, Snapshots), 0, tenMinutesStart / 1000, false),
     ZremRangeByScore(CurrentKey(track, mode, Historicals), 0, oneDayAgo / 1000, true)]
  }

  /** The snapshots of the last closed ten minutes, `(start, end]` in seconds. */
  function TenMinuteSnapshots(snapshots: seq<Scored<Snapshot>>, now: nat): seq<Snapshot> {
    var tenMinutesEnd := TenMinuteEnd(now);
    RangeByScore(snapshots, (tenMinutesEnd - TEN_MINUTES) / 1000, true, tenMinutesEnd / 1000)
  }

  /** The historicals already stored for that boundary. */
  function TenMinuteStored(historicals: seq<Scored<Snapshot>>, now: nat): seq<Snapshot> {
    var tenMinutesEnd := TenMinuteEnd(now);
    RangeByScore(historicals, tenMinutesEnd / 1000, false, tenMinutesEnd / 1000)
  }

  /** handleWorkerInfo2: roll the last ten minutes' snapshots into one
      historical per worker (counters and work summed) and write those of
      workers that have none yet, each with its pruning commands, shared mode
      first, then solo. */
  method HandleWorkerInfo2(track: BlockType, now: nat,
                           sharedSnapshots: seq<Scored<Snapshot>>, sharedHistoricals: seq<Scored<Snapshot>>,
                           soloSnapshots: seq<Scored<Snapshot>>, soloHistoricals: seq<Scored<Snapshot>>)
    returns (shared: seq<Command>, solo: seq<Command>, commands: seq<Command>)
    ensures commands == shared + solo
    ensures var missing := Missing(Rolled(TenMinuteSnapshots(sharedSnapshots, now), Same, TenMinuteEnd(now) / 1000),
                                   TenMinuteStored(sharedHistoricals, now));
            |shared| == 3 * |missing| &&
            forall k :: 0 <= k < |missing| ==> shared[3 * k .. 3 * k + 3] == HistoricalWrite(track, Shared, TenMinuteEnd(now), missing[k])
    ensures var missing := Missing(Rolled(TenMinuteSnapshots(soloSnapshots, now), Same, TenMinuteEnd(now) / 1000),
                                   TenMinuteStored(soloHistoricals, now));
            |solo| == 3 * |missing| &&
            forall k :: 0 <= k < |missing| ==> solo[3 * k .. 3 * k + 3] == HistoricalWrite(track, Solo, TenMinuteEnd(now), missing[k])
  {
    var tenMinutesEnd := TenMinuteEnd(now);
    var tenMinutesStart := tenMinutesEnd - TEN_MINUTES;
    var score := tenMinutesEnd / 1000;
    var sharedWorkers := RollUp(RangeByScore(sharedSnapshots, tenMinutesStart / 1000, true, score), Same, score);
    var soloWorkers := RollUp(RangeByScore(soloSnapshots, tenMinutesStart / 1000, true, score), Same, score);
    shared := EmitHistoricals(sharedWorkers, RangeByScore(sharedHistoricals, score, false, score), track, Shared, tenMinutesEnd);
    solo := EmitHistoricals(soloWorkers, RangeByScore(soloHistoricals, score, false, score), track, Solo, tenMinutesEnd);
    commands := shared + solo;
  }

  /** Summing is additive: the roll-up of two runs of input is the sum of
      their roll-ups, so a historical over ten minutes of snapshots holds
      the same totals as one roll-up of all the underlying samples. */
  lemma {:induction false} TotalAppend<T>(a: seq<T>, b: seq<T>, part: T -> Snapshot, w: string, time: int)
    ensures Total(a + b, part, w, time) == Plus(Total(a, part, w, time), Total(b, part, w, time))
  {
    if b == [] {
      assert a + b == a;
    } else {
      var bp := b[..|b| - 1];
      assert (a + b)[..|a + b| - 1] == a + bp;
      TotalAppend(a, bp, part, w, time);
    }
  }

  /** Rolling minute snapshots up again changes nothing: the historical of a
      worker over minute snapshots of consecutive sample runs equals the
      snapshot of all those samples together. */
  lemma {:induction false} HistoricalOfSnapshots(runs: seq<seq<ShareRecord>>, w: string, minuteTime: int, time: int)
    ensures Total(SnapshotsOf(runs, w, minuteTime), Same, w, time) == Total(Concat(runs), SampleContribution, w, time)
  {
    if runs != [] {
      var prefix := runs[..|runs| - 1];
      var last := runs[|runs| - 1];
      HistoricalOfSnapshots(prefix, w, minuteTime, time);
      TotalAppend(Concat(prefix), last, SampleContribution, w, time);
      var s := Total(last, SampleContribution, w, minuteTime);
      var prevTotal := Total(SnapshotsOf(prefix, w, minuteTime), Same, w, time);
      assert SnapshotsOf(runs, w, minuteTime)[..|SnapshotsOf(runs, w, minuteTime)| - 1] == SnapshotsOf(prefix, w, minuteTime);
      assert Total(SnapshotsOf(runs, w, minuteTime), Same, w, time) == Plus(prevTotal, s);
      TotalTimeFree(last, SampleContribution, w, minuteTime, time);
    }
  }

  /** The stamped time of a roll-up does not affect its sums. */
  lemma {:induction false} TotalTimeFree<T>(items: seq<T>, part: T -> Snapshot, w: string, t1: int, t2: int)
    ensures var a := Total(items, part, w, t1);
            var b := Total(items, part, w, t2);
            a.valid == b.valid && a.stale == b.stale && a.invalid == b.invalid && a.work == b.work
  {
    if items != [] {
      TotalTimeFree(items[..|items| - 1], part, w, t1, t2);
    }
  }

  /** The minute snapshots of worker `w`, one per run of samples. */
  function SnapshotsOf(runs: seq<seq<ShareRecord>>, w: string, minuteTime: int): (r: seq<Snapshot>)
    ensures |r| == |runs|
  {
    if runs == [] then []
    else SnapshotsOf(runs[..|runs| - 1], w, minuteTime) + [Total(runs[|runs| - 1], SampleContribution, w, minuteTime)]
  }

  /** All runs of samples one after the other. */
  function Concat(runs: seq<seq<ShareRecord>>): seq<ShareRecord> {
    if runs == [] then [] else Concat(runs[..|runs| - 1]) + runs[|runs| - 1]
  }

  // ---------------------------------------------------------------------------
  // New miners (handleUsersInfo)

  /** `minPayment || 1`: a missing or zero minimum payment means 1. */
  function PayoutLimit(minPayment: Option<real>): (r: real)
    ensures r != 0.0
    ensures minPayment.Some? && minPayment.value != 0.0 ==> r == minPayment.value
    ensures minPayment.None? || minPayment.value == 0.0 ==> r == 1.0
  {
    if minPayment.Some? && minPayment.value != 0.0 then minPayment.value else 1.0
  }

  /** The fields of a decoded hash. */
  function Fields<V>(entries: seq<Entry<V>>): set<string> {
    set i | 0 <= i < |entries| :: entries[i].key
  }

  /** The `hset` of a miner that the miners hash does not hold: first joined
      when the worker record says, with the pool's payout limit. */
  function Registration(track: BlockType, activity: ActivityRecord, limit: real): Command {
    Hset(MinersKey(track), BaseAddress(activity.worker), MinerValue(MinerRecord(activity.time, limit)))
  }

  /** One registration per worker record whose base address is not known,
      in the order of the records. */
  function Registrations(workers: seq<Entry<ActivityRecord>>, known: set<string>, track: BlockType, limit: real): seq<Command> {
    if workers == [] then []
    else
      var last := workers[|workers| - 1].value;
      Registrations(workers[..|workers| - 1], known, track, limit)
        + (if BaseAddress(last.worker) in known then [] else [Registration(track, last, limit)])
  }

  /** The loop over one workers hash. */
  method RegisterMiners(workers: seq<Entry<ActivityRecord>>, known: set<string>, track: BlockType, limit: real)
    returns (commands: seq<Command>)
    ensures commands == Registrations(workers, known, track, limit)
  {
    commands := [];
    var i := 0;
    while i < |workers|
      invariant 0 <= i <= |workers|
      invariant commands == Registrations(workers[..i], known, track, limit)
    {
      assert workers[..i + 1][..i] == workers[..i];
      var miner := BaseAddress(workers[i].value.worker);
      if miner !in known {
        commands := commands + [Hset(MinersKey(track), miner, MinerValue(MinerRecord(workers[i].value.time, limit)))];
      }
      i := i + 1;
    }
    assert workers[..|workers|] == workers;
  }

  /** handleUsersInfo: register the miner of every shared and every solo
      worker whose base address is not a field of the miners hash. */
  method HandleUsersInfo(track: BlockType, minPayment: Option<real>,
                         sharedWorkers: Option<seq<Entry<ActivityRecord>>>, soloWorkers: Option<seq<Entry<ActivityRecord>>>,
                         miners: Option<seq<Entry<MinerRecord>>>)
    returns (commands: seq<Command>)
    ensures var known := Fields(miners.GetOr([]));
            var limit := PayoutLimit(minPayment);
            commands == Registrations(sharedWorkers.GetOr([]), known, track, limit) + Registrations(soloWorkers.GetOr([]), known, track, limit)
  {
    var limit := PayoutLimit(minPayment);
    var known := Fields(miners.GetOr([]));
    var shared := RegisterMiners(sharedWorkers.GetOr([]), known, track, limit);
    var solo := RegisterMiners(soloWorkers.GetOr([]), known, track, limit);
    commands := shared + solo;
  }

  /** A registration is written for a worker record exactly when its base
      address is not known, with that record's time as first-joined time. */
  lemma {:induction false} RegistrationsMeaning(workers: seq<Entry<ActivityRecord>>, known: set<string>, track: BlockType, limit: real, c: Command)
    ensures c in Registrations(workers, known, track, limit) <==>
            exists i :: 0 <= i < |workers| && Registers(workers[i].value, known, track, limit, c)
  {
    if workers != [] {
      var prefix := workers[..|workers| - 1];
      var last := workers[|workers| - 1];
      RegistrationsMeaning(prefix, known, track, limit, c);
      var tail := if BaseAddress(last.value.worker) in known then [] else [Registration(track, last.value, limit)];
      assert Registrations(workers, known, track, limit) == Registrations(prefix, known, track, limit) + tail;
      if c in Registrations(workers, known, track, limit) {
        if c in Registrations(prefix, known, track, limit) {
          var i :| 0 <= i < |prefix| && Registers(prefix[i].value, known, track, limit, c);
          assert workers[i] == prefix[i];
        } else {
          assert c in tail;
          assert Registers(last.value, known, track, limit, c);
        }
      } else {
        forall i | 0 <= i < |workers|
          ensures !Registers(workers[i].value, known, track, limit, c)
        {
          if i < |prefix| {
            assert workers[i] == prefix[i];
          }
        }
      }
    }
  }

  /** Worker record `w` causes the registration `c`. */
  predicate Registers(w: ActivityRecord, known: set<string>, track: BlockType, limit: real, c: Command) {
    BaseAddress(w.worker) !in known && c == Registration(track, w, limit)
  }

  /** The base addresses of the worker records. */
  function WorkerBases(workers: seq<Entry<ActivityRecord>>): set<string> {
    set i | 0 <= i < |workers| :: BaseAddress(workers[i].value.worker)
  }

  /** Once every miner of the records is a field of the miners hash, the job
      writes nothing: re-running it after its own writes registers nobody. */
  lemma {:induction false} RegistrationsIdempotent(workers: seq<Entry<ActivityRecord>>, known: set<string>, track: BlockType, limit: real)
    ensures Registrations(workers, known + WorkerBases(workers), track, limit) == []
  {
    if workers != [] {
      var prefix := workers[..|workers| - 1];
      RegistrationsIdempotent(prefix, known, track, limit);
      assert WorkerBases(prefix) <= WorkerBases(workers) by {
        forall i | 0 <= i < |prefix|
          ensures BaseAddress(prefix[i].value.worker) in WorkerBases(workers)
        {
          assert prefix[i] == workers[i];
        }
      }
      assert BaseAddress(workers[|workers| - 1].value.worker) in WorkerBases(workers);
      RegistrationsMonotone(prefix, known + WorkerBases(prefix), known + WorkerBases(workers), track, limit);
    }
  }

  lemma {:induction false} RegistrationsMonotone(workers: seq<Entry<ActivityRecord>>, k1: set<string>, k2: set<string>, track: BlockType, limit: real)
    requires k1 <= k2 && Registrations(workers, k1, track, limit) == []
    ensures Registrations(workers, k2, track, limit) == []
  {
    if workers != [] {
      RegistrationsMonotone(workers[..|workers| - 1], k1, k2, track, limit);
    }
  }

  // ---------------------------------------------------------------------------
  // Pruning to the newest 100 (handleBlocksInfo, handlePaymentsInfo)

  const KEEP: nat := 100

  /** The entries removed: the oldest beyond the newest 100, oldest first. */
  function Oldest<V>(records: seq<V>, time: V -> real): seq<V> {
    var sorted := SortAsc(records, time);
    if |sorted| > KEEP then sorted[..|sorted| - KEEP] else []
  }

  /** The entries kept. */
  function Newest<V>(records: seq<V>, time: V -> real): seq<V> {
    var sorted := SortAsc(records, time);
    if |sorted| > KEEP then sorted[|sorted| - KEEP..] else sorted
  }

  /** Nothing is removed from 100 entries or fewer; otherwise exactly the
      count beyond 100 is removed, every removed entry is no newer than every
      kept one, and removed and kept together are the original entries. */
  lemma PruneKeepsNewest<V>(records: seq<V>, time: V -> real)
    ensures |records| <= KEEP ==> Oldest(records, time) == [] && multiset(Newest(records, time)) == multiset(records)
    ensures |records| > KEEP ==> |Oldest(records, time)| == |records| - KEEP && |Newest(records, time)| == KEEP
    ensures multiset(Oldest(records, time)) + multiset(Newest(records, time)) == multiset(records)
    ensures forall i, j :: 0 <= i < |Oldest(records, time)| && 0 <= j < |Newest(records, time)| ==>
              time(Oldest(records, time)[i]) <= time(Newest(records, time)[j])
  {
    var sorted := SortAsc(records, time);
    if |sorted| > KEEP {
      SplitSorted(sorted, |sorted| - KEEP, time);
    }
  }

  /** Cutting an ascending sequence splits its multiset, and nothing before
      the cut is later than anything after it. */
  lemma SplitSorted<V>(sorted: seq<V>, cut: nat, time: V -> real)
    requires SortedAsc(sorted, time) && cut <= |sorted|
    ensures multiset(sorted[..cut]) + multiset(sorted[cut..]) == multiset(sorted)
    ensures forall i, j :: 0 <= i < |sorted[..cut]| && 0 <= j < |sorted[cut..]| ==> time(sorted[..cut][i]) <= time(sorted[cut..][j])
  {
    assert sorted == sorted[..cut] + sorted[cut..];
    forall i, j | 0 <= i < |sorted[..cut]| && 0 <= j < |sorted[cut..]|
      ensures time(sorted[..cut][i]) <= time(sorted[cut..][j])
    {
      assert sorted[..cut][i] == sorted[i] && sorted[cut..][j] == sorted[cut + j];
    }
  }

  /** A second pass over what the first one kept removes nothing. */
  lemma PruneIdempotent<V>(records: seq<V>, time: V -> real)
    ensures Oldest(Newest(records, time), time) == []
  {
    PruneKeepsNewest(records, time);
  }

  /** The removal loop: one command per removed entry, oldest first. */
  method Prune<V>(records: seq<V>, time: V -> real, remove: V -> Command) returns (commands: seq<Command>)
    ensures var oldest := Oldest(records, time);
            |commands| == |oldest| && forall k :: 0 <= k < |commands| ==> commands[k] == remove(oldest[k])
  {
    commands := [];
    var sorted := SortAsc(records, time);
    if |sorted| > KEEP {
      var stale := sorted[..|sorted| - KEEP];
      var i := 0;
      while i < |stale|
        invariant 0 <= i <= |stale|
        invariant |commands| == i && forall k :: 0 <= k < i ==> commands[k] == remove(stale[k])
      {
        commands := commands + [remove(stale[i])];
        i := i + 1;
      }
    }
  }

  function BlockTime(b: BlockRecord): real {
    b.time as real
  }

  function PaymentTime(p: PaymentRecord): real {
    p.time as real
  }

  /** handleBlocksInfo: remove the oldest confirmed blocks beyond the newest 100. */
  method HandleBlocksInfo(track: BlockType, confirmed: seq<BlockRecord>) returns (commands: seq<Command>)
    ensures var oldest := Oldest(confirmed, BlockTime);
            |commands| == |oldest| &&
            forall k :: 0 <= k < |commands| ==> commands[k] == Srem(ConfirmedBlocksKey(track), BlockValue(oldest[k]))
  {
    commands := Prune(confirmed, BlockTime, b => Srem(ConfirmedBlocksKey(track), BlockValue(b)));
  }

  /** handlePaymentsInfo: remove the oldest payment records beyond the newest 100. */
  method HandlePaymentsInfo(track: BlockType, records: seq<PaymentRecord>) returns (commands: seq<Command>)
    ensures var oldest := Oldest(records, PaymentTime);
            |commands| == |oldest| &&
            forall k :: 0 <= k < |commands| ==> commands[k] == Zrem(PaymentRecordsKey(track), PaymentValue(oldest[k]))
  {
    commands := Prune(records, PaymentTime, p => Zrem(PaymentRecordsKey(track), PaymentValue(p)));
  }

  // ---------------------------------------------------------------------------
  // Pool-wide historical entries (calculateHistoricalInfo)

  /** The score of the entry written for the current ten-minute boundary
      (`potentialTimestamp / 1000 | 0`). */
  function HistoricalScore(now: nat): int {
    Int32(TenMinuteEnd(now) / 1000)
  }

  /** The decision to write an entry: the newest stored entry's score (in
      seconds) lies before the current ten-minute boundary, or there is none
      (the missing score multiplies to NaN). */
  function ShouldEmitHistorical(now: nat, lastScore: Option<int>): (emit: bool)
    ensures lastScore.None? ==> emit
    ensures lastScore.Some? && lastScore.value * 1000 <= now - TEN_MINUTES ==> emit
    ensures lastScore.Some? && lastScore.value * 1000 >= now ==> !emit
  {
    lastScore.None? || lastScore.value * 1000 < TenMinuteEnd(now)
  }

  /** calculateHistoricalInfo as written: on the emit path the payload calls
      `utils.processIdentifiers`, which the utilities module does not define,
      so the call throws before the `zadd` and no batch is returned (None);
      otherwise the batch is empty. */
  function HistoricalInfoAsWritten(now: nat, lastScore: Option<int>): Option<seq<Command>> {
    if ShouldEmitHistorical(now, lastScore) then None else Some([])
  }

  /** As written, no run ever writes an entry: the first run on an empty
      historical set already throws. */
  lemma HistoricalNeverWritten(track: BlockType, now: nat, lastScore: Option<int>, payload: Value)
    ensures HistoricalInfoAsWritten(now, lastScore) == None || HistoricalInfoAsWritten(now, lastScore) == Some([])
    ensures HistoricalInfoAsWritten(now, None) == None
    ensures HistoricalCommands(track, now, None, payload) == [Zadd(HistoricalStatisticsKey(track), HistoricalScore(now), payload)]
  {
  }

  /** calculateHistoricalInfo as intended: when it decides to, one `zadd` of
      the entry (its payload a parameter) on the pool's historical set at the
      slot's score, and nothing otherwise. */
  function HistoricalCommands(track: BlockType, now: nat, lastScore: Option<int>, payload: Value): (cs: seq<Command>)
    ensures |cs| <= 1
    ensures cs != [] <==> ShouldEmitHistorical(now, lastScore)
  {
    if ShouldEmitHistorical(now, lastScore) then [Zadd(HistoricalStatisticsKey(track), HistoricalScore(now), payload)] else []
  }

  /** At most one entry per ten-minute slot: once the entry for a slot is
      stored, no later run in the same slot writes another, and the first run
      of any later slot writes exactly one, at that slot's score. This holds
      while the slot's boundary in seconds fits in 32 bits, that is before
      2038-01-19; WrappedScoreRewrites shows what happens after. */
  lemma OneHistoricalPerSlot(track: BlockType, now: nat, later: nat, payload: Value)
    requires now <= later && TenMinuteEnd(now) / 1000 < TWO_31
    ensures var cs := HistoricalCommands(track, later, Some(HistoricalScore(now)), payload);
            (TenMinuteEnd(later) == TenMinuteEnd(now) ==> cs == []) &&
            (TenMinuteEnd(later) > TenMinuteEnd(now) ==> cs == [Zadd(HistoricalStatisticsKey(track), HistoricalScore(later), payload)])
  {
    var e := TenMinuteEnd(now);
    Int32InRange(e / 1000);
    WholeSeconds(e);
    assert HistoricalScore(now) * 1000 == e;
  }

  /** From 2^31 seconds on, `| 0` wraps the stored score below the slot's
      boundary, so every run in the slot writes the entry again. */
  lemma WrappedScoreRewrites(track: BlockType, now: nat, payload: Value)
    requires TenMinuteEnd(now) / 1000 >= TWO_31
    ensures HistoricalScore(now) < TenMinuteEnd(now) / 1000
    ensures HistoricalCommands(track, now, Some(HistoricalScore(now)), payload)
            == [Zadd(HistoricalStatisticsKey(track), HistoricalScore(now), payload)]
  {
    var e := TenMinuteEnd(now);
    WholeSeconds(e);
    assert HistoricalScore(now) * 1000 < (e / 1000) * 1000;
  }

  /** A ten-minute boundary is a whole number of seconds. */
  lemma WholeSeconds(e: nat)
    requires e % TEN_MINUTES == 0
    ensures (e / 1000) * 1000 == e
  {
    var q := e / TEN_MINUTES;
    assert e == (q * 600) * 1000;
  }
}
