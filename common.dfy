/** Vocabulary shared by the accounting engine, the statistics jobs and the API:
    optional values, share types, tracks, mining modes, worker-name parsing and
    the JavaScript integer conversions the pool applies to timestamps. */
module Common {

  datatype Option<T> = None | Some(value: T) {
    function GetOr(default: T): T {
      match this
      case Some(v) => v
      case None => default
    }
  }

  /** The classification the stratum layer gives a submitted share. */
  datatype ShareType = Valid | Invalid | Stale

  /** The `blockType` tag of an event or a key: a plain share, or a block
      candidate on the primary or the auxiliary chain.  A plain share is
      accounted on the primary track. */
  datatype BlockType = Share | Primary | Auxiliary

  predicate OnPrimaryTrack(t: BlockType) {
    t == Share || t == Primary
  }

  /** Shared (pooled) or solo attribution of work. */
  datatype Mode = Shared | Solo

  function ModeOf(isSolo: bool): Mode {
    if isSolo then Solo else Shared
  }

  /** `worker.split('.')[0]`: the miner's base address, the text before the
      first '.' (the whole string when there is none). */
  function BaseAddress(worker: string): (r: string)
  {
    if worker == [] then []
    else if worker[0] == '.' then []
    else [worker[0]] + BaseAddress(worker[1..])
  }

  /** The base address is the longest prefix of the name without a '.':
      it is followed by a '.' or by nothing. */
  lemma {:induction false} BaseAddressSplits(worker: string)
    ensures |BaseAddress(worker)| <= |worker| && BaseAddress(worker) == worker[..|BaseAddress(worker)|]
    ensures '.' !in BaseAddress(worker)
    ensures |BaseAddress(worker)| == |worker| || worker[|BaseAddress(worker)|] == '.'
  {
    if worker != [] && worker[0] != '.' {
      BaseAddressSplits(worker[1..]);
      var r := BaseAddress(worker[1..]);
      assert BaseAddress(worker) == [worker[0]] + r;
      assert worker[..|r| + 1] == [worker[0]] + worker[1..][..|r|];
    }
  }

  /** The base address of a worker with no '.' in its name is the name itself. */
  lemma {:induction false} BaseAddressOfPlain(worker: string)
    requires '.' !in worker
    ensures BaseAddress(worker) == worker
  {
    if worker != [] {
      BaseAddressOfPlain(worker[1..]);
    }
  }

  /** The base address of `address + "." + name` is `address` when the
      address itself holds no '.'. */
  lemma {:induction false} BaseAddressOfQualified(address: string, name: string)
    requires '.' !in address
    ensures BaseAddress(address + "." + name) == address
  {
    if address == [] {
    } else {
      assert (address + "." + name)[1..] == address[1..] + "." + name;
      BaseAddressOfQualified(address[1..], name);
    }
  }

  /** `s.split(':')[count - 1]`: the text after the last ':' (an IPv6 address
      with a port suffix keeps only its last segment). */
  function LastColonSegment(s: string): (r: string)
    ensures ':' !in r
    ensures |r| <= |s| && r == s[|s| - |r|..]
    ensures |r| == |s| || s[|s| - |r| - 1] == ':'
  {
    if s == [] then []
    else if s[|s| - 1] == ':' then []
    else LastColonSegment(s[..|s| - 1]) + [s[|s| - 1]]
  }

  const TWO_32: int := 0x1_0000_0000
  const TWO_31: int := 0x8000_0000

  /** JavaScript's `x | 0` on an integral value: wrap to a signed 32-bit integer. */
  function Int32(x: int): (r: int)
    ensures -TWO_31 <= r < TWO_31
    ensures (r - x) % TWO_32 == 0
  {
    (x + TWO_31) % TWO_32 - TWO_31
  }

  /** Int32 leaves every value already in the signed 32-bit range alone. */
  lemma Int32InRange(x: int)
    requires -TWO_31 <= x < TWO_31
    ensures Int32(x) == x
  {
  }

  /** `dateNow / 1000 | 0` for a clock reading in milliseconds. */
  function Seconds32(nowMs: nat): int {
    Int32(nowMs / 1000)
  }
}
