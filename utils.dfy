/** The helpers of utils.js that the engine, the statistics jobs and the API
    use: input sanitising, the solo-port lookup, distinct miner and worker
    counts, per-key aggregation of stored round records and payments, and the
    per-address block listing. */
module Utils {
  import opened Common
  import opened Store
  import opened NumericText
  import opened Sorting

  // ---------------------------------------------------------------------------
  // checkSoloMining

  /** One configured stratum port: its number and its type ("solo" or other). */
  datatype PortConfig = PortConfig(port: int, portType: string)

  /** `ports.filter(port => port.port === number)`. */
  function PortsNumbered(ports: seq<PortConfig>, number: int): (r: seq<PortConfig>)
    ensures forall i :: 0 <= i < |r| ==> r[i].port == number && r[i] in ports
    ensures (exists i :: 0 <= i < |ports| && ports[i].port == number) <==> |r| > 0
  {
    if ports == [] then []
    else if ports[0].port == number then [ports[0]] + PortsNumbered(ports[1..], number)
    else PortsNumbered(ports[1..], number)
  }

  /** The index of the first configured port with the given number. */
  predicate IsFirstPort(ports: seq<PortConfig>, number: int, i: int) {
    0 <= i < |ports| && ports[i].port == number && forall j :: 0 <= j < i ==> ports[j].port != number
  }

  lemma {:induction false} FirstOfPortsNumbered(ports: seq<PortConfig>, number: int, i: int)
    requires IsFirstPort(ports, number, i)
    ensures PortsNumbered(ports, number) != [] && PortsNumbered(ports, number)[0] == ports[i]
  {
    if i > 0 {
      assert IsFirstPort(ports[1..], number, i - 1);
      FirstOfPortsNumbered(ports[1..], number, i - 1);
    }
  }

  /** True exactly when the first configured port whose number is the
      share's port has type "solo"; false when no port matches. */
  function CheckSoloMining(ports: seq<PortConfig>, number: int): (isSolo: bool)
    ensures isSolo <==> exists i :: IsFirstPort(ports, number, i) && ports[i].portType == "solo"
    ensures (forall i :: 0 <= i < |ports| ==> ports[i].port != number) ==> !isSolo
  {
    var active := PortsNumbered(ports, number);
    if |active| >= 1 then
      var first := FirstPortIndex(ports, number);
      FirstOfPortsNumbered(ports, number, first);
      active[0].portType == "solo"
    else
      false
  }

  /** The position of the first port with the given number, when there is one. */
  function FirstPortIndex(ports: seq<PortConfig>, number: int): (i: nat)
    requires exists k :: 0 <= k < |ports| && ports[k].port == number
    ensures IsFirstPort(ports, number, i)
  {
    if ports[0].port == number then 0
    else
      assert exists k :: 0 <= k < |ports[1..]| && ports[1..][k].port == number by {
        var k :| 0 <= k < |ports| && ports[k].port == number;
        assert ports[1..][k - 1] == ports[k];
      }
      1 + FirstPortIndex(ports[1..], number)
  }

  // ---------------------------------------------------------------------------
  // validateInput

  /** The characters `[a-zA-Z0-9.-]` an address may keep. */
  predicate AddressChar(c: char) {
    'a' <= c <= 'z' || 'A' <= c <= 'Z' || '0' <= c <= '9' || c == '.' || c == '-'
  }

  /** The address with every other character removed. */
  function ValidateInput(address: string): (r: string)
    ensures forall i :: 0 <= i < |r| ==> AddressChar(r[i])
    ensures |r| <= |address|
    ensures (forall i :: 0 <= i < |address| ==> AddressChar(address[i])) ==> r == address
  {
    if address == [] then []
    else (if AddressChar(address[0]) then [address[0]] else []) + ValidateInput(address[1..])
  }

  /** Sanitising works piece by piece: the kept characters of a text are the
      kept characters of its parts, in the same order. */
  lemma {:induction false} ValidateInputConcat(a: string, b: string)
    ensures ValidateInput(a + b) == ValidateInput(a) + ValidateInput(b)
  {
    if a != [] {
      assert (a + b)[1..] == a[1..] + b;
      ValidateInputConcat(a[1..], b);
    } else {
      assert a + b == b;
    }
  }

  /** Sanitising a sanitised address changes nothing. */
  lemma ValidateInputIdempotent(address: string)
    ensures ValidateInput(ValidateInput(address)) == ValidateInput(address)
  {
  }

  /** A single character survives exactly when it is allowed. */
  lemma ValidateInputChar(c: char)
    ensures ValidateInput([c]) == (if AddressChar(c) then [c] else [])
  {
    assert [c][1..] == [];
  }

  // ---------------------------------------------------------------------------
  // countMiners, countWorkers, combineMiners, combineWorkers

  /** The distinct non-empty worker names of a list of decoded entries. */
  function WorkerNames(shares: seq<ShareRecord>): set<string> {
    if shares == [] then {}
    else
      var w := shares[|shares| - 1].worker;
      WorkerNames(shares[..|shares| - 1]) + (if w != "" then {w} else {})
  }

  /** The distinct base addresses of the entries that name a worker. */
  function MinerNames(shares: seq<ShareRecord>): set<string> {
    if shares == [] then {}
    else
      var w := shares[|shares| - 1].worker;
      MinerNames(shares[..|shares| - 1]) + (if w != "" then {BaseAddress(w)} else {})
  }

  lemma {:induction false} WorkerNamesMeaning(shares: seq<ShareRecord>, w: string)
    ensures w in WorkerNames(shares) <==> w != "" && exists i :: 0 <= i < |shares| && shares[i].worker == w
  {
    if shares != [] {
      var prefix := shares[..|shares| - 1];
      WorkerNamesMeaning(prefix, w);
      if exists i :: 0 <= i < |shares| && shares[i].worker == w {
        var i :| 0 <= i < |shares| && shares[i].worker == w;
        if i < |prefix| {
          assert prefix[i].worker == w;
        }
      }
    }
  }

  predicate NoDuplicates(s: seq<string>) {
    forall i, j :: 0 <= i < j < |s| ==> s[i] != s[j]
  }

  lemma {:induction false} DistinctCardinality(s: seq<string>)
    requires NoDuplicates(s)
    ensures |set x | x in s| == |s|
  {
    if s != [] {
      var prefix := s[..|s| - 1];
      DistinctCardinality(prefix);
      assert (set x | x in s) == (set x | x in prefix) + {s[|s| - 1]};
      assert s[|s| - 1] !in (set x | x in prefix);
    }
  }

  lemma AppendNew(seen: seq<string>, name: string)
    requires NoDuplicates(seen) && name !in seen
    ensures NoDuplicates(seen + [name])
    ensures (set x | x in seen + [name]) == (set x | x in seen) + {name}
  {
  }

  /** countWorkers: the number of distinct non-empty worker names. */
  method CountWorkers(shares: seq<ShareRecord>) returns (output: nat)
    ensures output == |WorkerNames(shares)|
  {
    output := 0;
    var workers: seq<string> := [];
    var i := 0;
    while i < |shares|
      invariant 0 <= i <= |shares|
      invariant NoDuplicates(workers) && output == |workers|
      invariant (set x | x in workers) == WorkerNames(shares[..i])
    {
      var worker := shares[i].worker;
      assert WorkerNames(shares[..i + 1]) == WorkerNames(shares[..i]) + (if worker != "" then {worker} else {}) by {
        assert shares[..i + 1][..i] == shares[..i];
      }
      if worker != "" && worker !in workers {
        AppendNew(workers, worker);
        output := output + 1;
        workers := workers + [worker];
      }
      i := i + 1;
    }
    assert shares[..|shares|] == shares;
    DistinctCardinality(workers);
  }

  /** countMiners: the number of distinct base addresses among the entries
      that name a worker. */
  method CountMiners(shares: seq<ShareRecord>) returns (output: nat)
    ensures output == |MinerNames(shares)|
  {
    output := 0;
    var miners: seq<string> := [];
    var i := 0;
    while i < |shares|
      invariant 0 <= i <= |shares|
      invariant NoDuplicates(miners) && output == |miners|
      invariant (set x | x in miners) == MinerNames(shares[..i])
    {
      assert MinerNames(shares[..i + 1]) == MinerNames(shares[..i]) + (if shares[i].worker != "" then {BaseAddress(shares[i].worker)} else {}) by {
        assert shares[..i + 1][..i] == shares[..i];
      }
      if shares[i].worker != "" {
        var worker := BaseAddress(shares[i].worker);
        if worker !in miners {
          AppendNew(miners, worker);
          output := output + 1;
          miners := miners + [worker];
        }
      }
      i := i + 1;
    }
    assert shares[..|shares|] == shares;
    DistinctCardinality(miners);
  }

  /** The base addresses of a set of worker names. */
  function Bases(ws: set<string>): set<string> {
    set w | w in ws :: BaseAddress(w)
  }

  /** Every miner is the base address of one of its workers. */
  lemma {:induction false} MinersOfWorkers(shares: seq<ShareRecord>)
    ensures MinerNames(shares) == Bases(WorkerNames(shares))
  {
    if shares != [] {
      MinersOfWorkers(shares[..|shares| - 1]);
    }
  }

  lemma {:induction false} BasesCardinality(ws: set<string>)
    ensures |Bases(ws)| <= |ws|
  {
    if ws != {} {
      var w :| w in ws;
      var rest := ws - {w};
      BasesCardinality(rest);
      assert ws == rest + {w};
      assert Bases(ws) == Bases(rest) + {BaseAddress(w)};
    }
  }

  /** There are never more miners than workers. */
  lemma MinersAtMostWorkers(shares: seq<ShareRecord>)
    ensures |MinerNames(shares)| <= |WorkerNames(shares)|
  {
    MinersOfWorkers(shares);
    BasesCardinality(WorkerNames(shares));
  }

  /** combineMiners: the shared count plus the solo count (a missing list counts none). */
  method CombineMiners(shared: Option<seq<ShareRecord>>, solo: Option<seq<ShareRecord>>) returns (output: nat)
    ensures output == |MinerNames(shared.GetOr([]))| + |MinerNames(solo.GetOr([]))|
  {
    output := 0;
    if shared.Some? || solo.Some? {
      var sharedCount := CountMiners(shared.GetOr([]));
      var soloCount := CountMiners(solo.GetOr([]));
      output := sharedCount + soloCount;
    }
  }

  /** combineWorkers: the shared count plus the solo count (a missing list counts none). */
  method CombineWorkers(shared: Option<seq<ShareRecord>>, solo: Option<seq<ShareRecord>>) returns (output: nat)
    ensures output == |WorkerNames(shared.GetOr([]))| + |WorkerNames(solo.GetOr([]))|
  {
    output := 0;
    if shared.Some? || solo.Some? {
      var sharedCount := CountWorkers(shared.GetOr([]));
      var soloCount := CountWorkers(solo.GetOr([]));
      output := sharedCount + soloCount;
    }
  }

  // ---------------------------------------------------------------------------
  // processShares, processTimes, processTypes

  /** The output key of a hash field: the worker itself, or its base address. */
  function EntryKey(entry: string, byWorker: bool): string {
    if byWorker then entry else BaseAddress(entry)
  }

  /** `!address || address === key`: no address (empty) admits every key. */
  predicate Admitted(address: string, key: string) {
    address == "" || address == key
  }

  function WorkOf(r: ShareRecord): real {
    r.work.GetOr(0.0)
  }

  /** A record processShares counts: positive work. */
  predicate HasWork(r: ShareRecord) {
    WorkOf(r) > 0.0
  }

  /** A record processTimes counts: a positive time total, not solo. */
  predicate HasTimes(r: ShareRecord) {
    r.times.GetOr(0.0) > 0.0 && !r.solo
  }

  predicate AnyRecord(r: ShareRecord) {
    true
  }

  /** The output keys of the fields whose record satisfies `p`. */
  function KeysWhere(entries: seq<Entry<ShareRecord>>, byWorker: bool, p: ShareRecord -> bool): set<string> {
    if entries == [] then {}
    else
      var e := entries[|entries| - 1];
      KeysWhere(entries[..|entries| - 1], byWorker, p) + (if p(e.value) then {EntryKey(e.key, byWorker)} else {})
  }

  lemma {:induction false} KeysWhereMeaning(entries: seq<Entry<ShareRecord>>, byWorker: bool, p: ShareRecord -> bool, k: string)
    ensures k in KeysWhere(entries, byWorker, p) <==>
            exists i :: 0 <= i < |entries| && EntryKey(entries[i].key, byWorker) == k && p(entries[i].value)
  {
    if entries != [] {
      var prefix := entries[..|entries| - 1];
      KeysWhereMeaning(prefix, byWorker, p, k);
      if k in KeysWhere(prefix, byWorker, p) {
        var i :| 0 <= i < |prefix| && EntryKey(prefix[i].key, byWorker) == k && p(prefix[i].value);
        assert entries[i] == prefix[i];
      }
      if exists i :: 0 <= i < |entries| && EntryKey(entries[i].key, byWorker) == k && p(entries[i].value) {
        var i :| 0 <= i < |entries| && EntryKey(entries[i].key, byWorker) == k && p(entries[i].value);
        if i < |prefix| {
          assert prefix[i] == entries[i];
        }
      }
    }
  }

  /** The sum of the positive work stored under fields with output key `k`. */
  function KeyWork(entries: seq<Entry<ShareRecord>>, k: string, byWorker: bool): real {
    if entries == [] then 0.0
    else
      var e := entries[|entries| - 1];
      KeyWork(entries[..|entries| - 1], k, byWorker) + (if EntryKey(e.key, byWorker) == k && HasWork(e.value) then WorkOf(e.value) else 0.0)
  }

  lemma {:induction false} KeyWorkPositive(entries: seq<Entry<ShareRecord>>, k: string, byWorker: bool)
    ensures KeyWork(entries, k, byWorker) >= 0.0
    ensures k in KeysWhere(entries, byWorker, HasWork) ==> KeyWork(entries, k, byWorker) > 0.0
    ensures k !in KeysWhere(entries, byWorker, HasWork) ==> KeyWork(entries, k, byWorker) == 0.0
  {
    if entries != [] {
      KeyWorkPositive(entries[..|entries| - 1], k, byWorker);
    }
  }

  /** processShares: each admitted key with positive work, mapped to the sum
      of its positive work. */
  method ProcessShares(shares: seq<Entry<ShareRecord>>, address: string, byWorker: bool)
    returns (output: map<string, real>)
    ensures forall k :: k in output <==> Admitted(address, k) && k in KeysWhere(shares, byWorker, HasWork)
    ensures forall k :: k in output ==> output[k] == KeyWork(shares, k, byWorker)
    ensures address != "" ==> output.Keys <= {address}
  {
    output := map[];
    var i := 0;
    while i < |shares|
      invariant 0 <= i <= |shares|
      invariant forall k :: k in output <==> Admitted(address, k) && k in KeysWhere(shares[..i], byWorker, HasWork)
      invariant forall k :: k in output ==> output[k] == KeyWork(shares[..i], k, byWorker)
    {
      var entry := shares[i].key;
      var worker := EntryKey(entry, byWorker);
      var workValue := WorkOf(shares[i].value);
      assert shares[..i + 1][..i] == shares[..i];
      if Admitted(address, worker) {
        if workValue > 0.0 {
          if worker in output {
            output := output[worker := output[worker] + workValue];
          } else {
            KeyWorkPositive(shares[..i], worker, byWorker);
            output := output[worker := workValue];
          }
        }
      }
      i := i + 1;
    }
    assert shares[..|shares|] == shares;
  }

  /** Every work total processShares reports is positive. */
  lemma ProcessSharesPositive(shares: seq<Entry<ShareRecord>>, k: string, byWorker: bool)
    requires k in KeysWhere(shares, byWorker, HasWork)
    ensures KeyWork(shares, k, byWorker) > 0.0
  {
    KeyWorkPositive(shares, k, byWorker);
  }

  /** The largest positive `times` of the non-solo fields with output key `k`
      (0 when there is none). */
  function KeyTimes(entries: seq<Entry<ShareRecord>>, k: string, byWorker: bool): real {
    if entries == [] then 0.0
    else
      var e := entries[|entries| - 1];
      var t := e.value.times.GetOr(0.0);
      var rest := KeyTimes(entries[..|entries| - 1], k, byWorker);
      if EntryKey(e.key, byWorker) == k && HasTimes(e.value) && t >= rest then t else rest
  }

  /** KeyTimes is the maximum: no counted field exceeds it, and it is the
      time of a counted field when there is one, 0 otherwise. */
  lemma {:induction false} KeyTimesIsMaximum(entries: seq<Entry<ShareRecord>>, k: string, byWorker: bool)
    ensures forall i :: 0 <= i < |entries| && EntryKey(entries[i].key, byWorker) == k && HasTimes(entries[i].value) ==>
              entries[i].value.times.GetOr(0.0) <= KeyTimes(entries, k, byWorker)
    ensures k in KeysWhere(entries, byWorker, HasTimes) ==>
              exists i :: 0 <= i < |entries| && EntryKey(entries[i].key, byWorker) == k && HasTimes(entries[i].value)
                          && entries[i].value.times.GetOr(0.0) == KeyTimes(entries, k, byWorker)
    ensures k !in KeysWhere(entries, byWorker, HasTimes) ==> KeyTimes(entries, k, byWorker) == 0.0
  {
    if entries != [] {
      var prefix := entries[..|entries| - 1];
      KeyTimesIsMaximum(prefix, k, byWorker);
      assert forall i :: 0 <= i < |prefix| ==> prefix[i] == entries[i];
      if k in KeysWhere(prefix, byWorker, HasTimes) {
        var i :| 0 <= i < |prefix| && EntryKey(prefix[i].key, byWorker) == k && HasTimes(prefix[i].value)
                 && prefix[i].value.times.GetOr(0.0) == KeyTimes(prefix, k, byWorker);
        assert entries[i] == prefix[i];
      }
    }
  }

  /** processTimes: each admitted key with a positive non-solo time total,
      mapped to the largest such total. */
  method ProcessTimes(shares: seq<Entry<ShareRecord>>, address: string, byWorker: bool)
    returns (output: map<string, real>)
    ensures forall k :: k in output <==> Admitted(address, k) && k in KeysWhere(shares, byWorker, HasTimes)
    ensures forall k :: k in output ==> output[k] == KeyTimes(shares, k, byWorker)
    ensures address != "" ==> output.Keys <= {address}
  {
    output := map[];
    var i := 0;
    while i < |shares|
      invariant 0 <= i <= |shares|
      invariant forall k :: k in output <==> Admitted(address, k) && k in KeysWhere(shares[..i], byWorker, HasTimes)
      invariant forall k :: k in output ==> output[k] == KeyTimes(shares[..i], k, byWorker)
    {
      var entry := shares[i].key;
      var details := shares[i].value;
      var worker := EntryKey(entry, byWorker);
      var timeValue := details.times.GetOr(0.0);
      assert shares[..i + 1][..i] == shares[..i];
      if Admitted(address, worker) {
        if timeValue > 0.0 && !details.solo {
          if worker in output {
            if timeValue >= output[worker] {
              output := output[worker := timeValue];
            }
          } else {
            KeyTimesIsMaximum(shares[..i], worker, byWorker);
            output := output[worker := timeValue];
          }
        }
      }
      i := i + 1;
    }
    assert shares[..|shares|] == shares;
  }

  /** The type counters stored under fields with output key `k`, summed;
      a record with no counters counts none. */
  function KeyTypes(entries: seq<Entry<ShareRecord>>, k: string, byWorker: bool): TypeCounts {
    if entries == [] then ZeroCounts
    else
      var e := entries[|entries| - 1];
      var rest := KeyTypes(entries[..|entries| - 1], k, byWorker);
      var c := e.value.types.GetOr(ZeroCounts);
      if EntryKey(e.key, byWorker) == k then TypeCounts(rest.valid + c.valid, rest.invalid + c.invalid, rest.stale + c.stale)
      else rest
  }

  lemma {:induction false} KeyTypesOfAbsentKey(entries: seq<Entry<ShareRecord>>, k: string, byWorker: bool)
    requires k !in KeysWhere(entries, byWorker, AnyRecord)
    ensures KeyTypes(entries, k, byWorker) == ZeroCounts
  {
    if entries != [] {
      KeyTypesOfAbsentKey(entries[..|entries| - 1], k, byWorker);
    }
  }

  function AddCounts(a: TypeCounts, b: TypeCounts): TypeCounts {
    TypeCounts(a.valid + b.valid, a.invalid + b.invalid, a.stale + b.stale)
  }

  lemma TypesPrefix(shares: seq<Entry<ShareRecord>>, i: nat, byWorker: bool, k: string)
    requires i < |shares|
    ensures k in KeysWhere(shares[..i + 1], byWorker, AnyRecord) <==>
            k in KeysWhere(shares[..i], byWorker, AnyRecord) || k == EntryKey(shares[i].key, byWorker)
    ensures KeyTypes(shares[..i + 1], k, byWorker) ==
            if EntryKey(shares[i].key, byWorker) == k
            then AddCounts(KeyTypes(shares[..i], k, byWorker), shares[i].value.types.GetOr(ZeroCounts))
            else KeyTypes(shares[..i], k, byWorker)
  {
    assert shares[..i + 1][..i] == shares[..i];
  }

  /** The result of processTypes over `entries`: every admitted key, mapped
      to its summed counters. */
  ghost predicate TypesOf(output: map<string, TypeCounts>, entries: seq<Entry<ShareRecord>>, address: string, byWorker: bool) {
    (forall k :: k in output <==> Admitted(address, k) && k in KeysWhere(entries, byWorker, AnyRecord)) &&
    (forall k :: k in output ==> output[k] == KeyTypes(entries, k, byWorker))
  }

  /** One iteration of the processTypes loop. */
  method AddTypes(output: map<string, TypeCounts>, shares: seq<Entry<ShareRecord>>, i: nat, address: string, byWorker: bool)
    returns (next: map<string, TypeCounts>)
    requires i < |shares| && TypesOf(output, shares[..i], address, byWorker)
    ensures TypesOf(next, shares[..i + 1], address, byWorker)
  {
    var entry := shares[i].key;
    var types := shares[i].value.types.GetOr(ZeroCounts);
    var worker := EntryKey(entry, byWorker);
    next := output;
    if Admitted(address, worker) {
      if worker in output {
        var current := output[worker];
        next := output[worker := TypeCounts(current.valid + types.valid, current.invalid + types.invalid, current.stale + types.stale)];
      } else {
        KeyTypesOfAbsentKey(shares[..i], worker, byWorker);
        next := output[worker := types];
      }
    }
    forall k
      ensures k in next <==> Admitted(address, k) && k in KeysWhere(shares[..i + 1], byWorker, AnyRecord)
      ensures k in next ==> next[k] == KeyTypes(shares[..i + 1], k, byWorker)
    {
      TypesPrefix(shares, i, byWorker, k);
    }
  }

  /** processTypes: every admitted key, mapped to its summed counters. */
  method ProcessTypes(shares: seq<Entry<ShareRecord>>, address: string, byWorker: bool)
    returns (output: map<string, TypeCounts>)
    ensures forall k :: k in output <==> Admitted(address, k) && k in KeysWhere(shares, byWorker, AnyRecord)
    ensures forall k :: k in output ==> output[k] == KeyTypes(shares, k, byWorker)
    ensures address != "" ==> output.Keys <= {address}
  {
    output := map[];
    var i := 0;
    while i < |shares|
      invariant 0 <= i <= |shares|
      invariant TypesOf(output, shares[..i], address, byWorker)
    {
      output := AddTypes(output, shares, i, address, byWorker);
      i := i + 1;
    }
    assert shares[..|shares|] == shares;
  }

  /** Per worker (one field per worker), processTypes reports each worker's
      own counters. */
  lemma {:induction false} KeyTypesOfOwnField(entries: seq<Entry<ShareRecord>>, i: int)
    requires 0 <= i < |entries|
    requires forall j :: 0 <= j < |entries| && j != i ==> entries[j].key != entries[i].key
    ensures KeyTypes(entries, entries[i].key, true) == entries[i].value.types.GetOr(ZeroCounts)
  {
    var prefix := entries[..|entries| - 1];
    if i < |entries| - 1 {
      assert prefix[i] == entries[i];
      KeyTypesOfOwnField(prefix, i);
    } else {
      KeysWhereMeaning(prefix, true, AnyRecord, entries[i].key);
      KeyTypesOfAbsentKey(prefix, entries[i].key, true);
    }
  }

  // ---------------------------------------------------------------------------
  // processPayments

  predicate DistinctKeys<V>(entries: seq<Entry<V>>) {
    forall i, j :: 0 <= i < j < |entries| ==> entries[i].key != entries[j].key
  }

  /** processPayments: the fields whose stored text is a positive number,
      restricted to the address when one is given, mapped to that number. */
  method ProcessPayments(payments: seq<Entry<string>>, address: string) returns (output: map<string, real>)
    ensures forall k :: k in output ==> Admitted(address, k) && output[k] > 0.0
    ensures forall k :: k in output ==> exists i :: 0 <= i < |payments| && payments[i].key == k && output[k] == NumericValue(payments[i].value)
    ensures forall i :: 0 <= i < |payments| && Admitted(address, payments[i].key) && NumericValue(payments[i].value) > 0.0 ==> payments[i].key in output
    ensures DistinctKeys(payments) ==> forall i :: 0 <= i < |payments| && payments[i].key in output ==> output[payments[i].key] == NumericValue(payments[i].value)
  {
    output := KeepPositive(payments, address, NumericValue);
  }

  /** The loop of processPayments, for any reading `value` of the stored text. */
  method KeepPositive(payments: seq<Entry<string>>, address: string, value: string -> real) returns (output: map<string, real>)
    ensures forall k :: k in output ==> Admitted(address, k) && output[k] > 0.0
    ensures forall k :: k in output ==> exists i :: 0 <= i < |payments| && payments[i].key == k && output[k] == value(payments[i].value)
    ensures forall i :: 0 <= i < |payments| && Admitted(address, payments[i].key) && value(payments[i].value) > 0.0 ==> payments[i].key in output
    ensures DistinctKeys(payments) ==> forall i :: 0 <= i < |payments| && payments[i].key in output ==> output[payments[i].key] == value(payments[i].value)
  {
    output := map[];
    var i := 0;
    while i < |payments|
      invariant 0 <= i <= |payments|
      invariant forall k :: k in output ==> Admitted(address, k) && output[k] > 0.0
      invariant forall k :: k in output ==> exists j :: 0 <= j < i && payments[j].key == k && output[k] == value(payments[j].value)
      invariant forall j :: 0 <= j < i && Admitted(address, payments[j].key) && value(payments[j].value) > 0.0 ==> payments[j].key in output
      invariant DistinctKeys(payments) ==> forall j :: 0 <= j < i && payments[j].key in output ==> output[payments[j].key] == value(payments[j].value)
      invariant DistinctKeys(payments) ==> forall j :: i <= j < |payments| ==> payments[j].key !in output
    {
      var worker := payments[i].key;
      var paymentValue := value(payments[i].value);
      if paymentValue > 0.0 {
        if address == "" || address == worker {
          output := output[worker := paymentValue];
        }
      }
      i := i + 1;
    }
  }

  // ---------------------------------------------------------------------------
  // listBlocks

  function HeightKey(b: BlockRecord): real {
    b.height as real
  }

  /** The blocks found by a miner: those whose worker's base address is the address. */
  function MinedBy(blocks: seq<BlockRecord>, address: string): (r: seq<BlockRecord>)
    ensures |r| <= |blocks|
    ensures forall i :: 0 <= i < |r| ==> BaseAddress(r[i].worker) == address
  {
    if blocks == [] then []
    else
      var last := blocks[|blocks| - 1];
      MinedBy(blocks[..|blocks| - 1], address) + (if BaseAddress(last.worker) == address then [last] else [])
  }

  lemma {:induction false} MinedByFromSource(blocks: seq<BlockRecord>, address: string, b: BlockRecord)
    requires b in MinedBy(blocks, address)
    ensures b in blocks
  {
    var prefix := blocks[..|blocks| - 1];
    if b != blocks[|blocks| - 1] {
      MinedByFromSource(prefix, address, b);
      var i :| 0 <= i < |prefix| && prefix[i] == b;
      assert blocks[i] == b;
    }
  }

  lemma MinedByCounts(blocks: seq<BlockRecord>, address: string, b: BlockRecord)
    ensures multiset(MinedBy(blocks, address))[b] == if BaseAddress(b.worker) == address then multiset(blocks)[b] else 0
  {
    MinedByIsKept(blocks, address);
    KeptCounts(blocks, MinedTest(address), b);
  }

  /** The test `BaseAddress(block.worker) == address`, as a value. */
  function MinedTest(address: string): BlockRecord -> bool {
    (b: BlockRecord) => BaseAddress(b.worker) == address
  }

  /** The elements of `s` that pass `keep`, in order. */
  function Kept<T>(s: seq<T>, keep: T -> bool): seq<T> {
    if s == [] then []
    else Kept(s[..|s| - 1], keep) + (if keep(s[|s| - 1]) then [s[|s| - 1]] else [])
  }

  lemma {:induction false} MinedByIsKept(blocks: seq<BlockRecord>, address: string)
    ensures MinedBy(blocks, address) == Kept(blocks, MinedTest(address))
  {
    if blocks != [] {
      MinedByIsKept(blocks[..|blocks| - 1], address);
    }
  }

  lemma {:induction false} KeptCounts<T>(s: seq<T>, keep: T -> bool, x: T)
    ensures multiset(Kept(s, keep))[x] == if keep(x) then multiset(s)[x] else 0
  {
    if s != [] {
      var prefix := s[..|s| - 1];
      var last := s[|s| - 1];
      KeptCounts(prefix, keep, x);
      assert s == prefix + [last];
    }
  }

  /** The miner's blocks of two lists holding the same blocks are the same blocks. */
  lemma MinedByPermutation(s: seq<BlockRecord>, t: seq<BlockRecord>, address: string)
    requires multiset(s) == multiset(t)
    ensures multiset(MinedBy(s, address)) == multiset(MinedBy(t, address))
  {
    forall b
      ensures multiset(MinedBy(s, address))[b] == multiset(MinedBy(t, address))[b]
    {
      MinedByCounts(s, address, b);
      MinedByCounts(t, address, b);
    }
  }

  /** Keeping the miner's blocks of a sorted list keeps it sorted. */
  lemma {:induction false} MinedBySorted(sorted: seq<BlockRecord>, address: string)
    requires SortedDesc(sorted, HeightKey)
    ensures SortedDesc(MinedBy(sorted, address), HeightKey)
  {
    if sorted != [] {
      var prefix := sorted[..|sorted| - 1];
      var last := sorted[|sorted| - 1];
      MinedBySorted(prefix, address);
      var r := MinedBy(prefix, address);
      forall i | 0 <= i < |r|
        ensures HeightKey(r[i]) >= HeightKey(last)
      {
        MinedByFromSource(prefix, address, r[i]);
        var j :| 0 <= j < |prefix| && prefix[j] == r[i];
        assert sorted[j] == prefix[j];
      }
    }
  }

  lemma MinedByPrefix(blocks: seq<BlockRecord>, i: nat, address: string)
    requires i < |blocks|
    ensures MinedBy(blocks[..i + 1], address) ==
            MinedBy(blocks[..i], address) + (if BaseAddress(blocks[i].worker) == address then [blocks[i]] else [])
  {
    assert blocks[..i + 1][..i] == blocks[..i];
  }

  /** The filter loop of listBlocks. */
  /** Filtering by miner distributes over concatenation. */
  lemma {:induction false} MinedByAppend(a: seq<BlockRecord>, b: seq<BlockRecord>, address: string)
    ensures MinedBy(a + b, address) == MinedBy(a, address) + MinedBy(b, address)
  {
    if b == [] {
      assert a + b == a;
    } else {
      MinedByAppend(a, b[..|b| - 1], address);
      assert (a + b)[|a + b| - 1] == b[|b| - 1];
      assert (a + b)[..|a + b| - 1] == a + b[..|b| - 1];
    }
  }

  /** Filtering by miner and selecting a height class commute. */
  lemma {:induction false} MinedByWithKey(blocks: seq<BlockRecord>, address: string, h: real)
    ensures WithKey(MinedBy(blocks, address), HeightKey, h) == MinedBy(WithKey(blocks, HeightKey, h), address)
  {
    if blocks != [] {
      var prefix := blocks[..|blocks| - 1];
      var last := blocks[|blocks| - 1];
      var kept := if BaseAddress(last.worker) == address then [last] else [];
      MinedByWithKey(prefix, address, h);
      WithKeyAppend(MinedBy(prefix, address), kept, HeightKey, h);
      assert blocks == prefix + [last];
      WithKeyAppend(prefix, [last], HeightKey, h);
      MinedByAppend(WithKey(prefix, HeightKey, h), WithKey([last], HeightKey, h), address);
      assert WithKey([last], HeightKey, h) == if HeightKey(last) == h then [last] else [];
      assert MinedBy([last], address) == kept;
    }
  }

  /** Sorting by height and then filtering by miner keeps the stored order
      within each height class. */
  lemma SortedMinedStable(blocks: seq<BlockRecord>, address: string, h: real)
    ensures WithKey(MinedBy(SortDesc(blocks, HeightKey), address), HeightKey, h) == WithKey(MinedBy(blocks, address), HeightKey, h)
  {
    SortDescStable(blocks, HeightKey, h);
    MinedByWithKey(SortDesc(blocks, HeightKey), address, h);
    MinedByWithKey(blocks, address, h);
  }

  method KeepMined(blocks: seq<BlockRecord>, address: string) returns (output: seq<BlockRecord>)
    ensures output == MinedBy(blocks, address)
  {
    output := [];
    var i := 0;
    while i < |blocks|
      invariant 0 <= i <= |blocks|
      invariant output == MinedBy(blocks[..i], address)
    {
      MinedByPrefix(blocks, i, address);
      if BaseAddress(blocks[i].worker) == address {
        output := output + [blocks[i]];
      } else {
        assert output + [] == output;
      }
      i := i + 1;
    }
    assert blocks[..|blocks|] == blocks;
  }

  /** listBlocks: the miner's blocks, highest first (none when the list is missing). */
  method ListBlocks(blocks: Option<seq<BlockRecord>>, address: string) returns (output: seq<BlockRecord>)
    ensures SortedDesc(output, HeightKey)
    ensures forall i :: 0 <= i < |output| ==> BaseAddress(output[i].worker) == address
    ensures multiset(output) == multiset(MinedBy(blocks.GetOr([]), address))
    ensures forall h :: WithKey(output, HeightKey, h) == WithKey(MinedBy(blocks.GetOr([]), address), HeightKey, h)
  {
    output := [];
    if blocks.Some? {
      var sorted := SortDesc(blocks.value, HeightKey);
      output := KeepMined(sorted, address);
      MinedBySorted(sorted, address);
      MinedByPermutation(sorted, blocks.value, address);
      forall h {
        SortedMinedStable(blocks.value, address, h);
      }
    }
  }
}
