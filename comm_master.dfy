/** The I2C master of kosmo-comm-master.h: a table of three slave sessions
    (tempo, drum sequencer, sampler), an interval-gated poll round with a
    bounded retry counter, and the 32-byte chunk plan used to move the drum
    sequencer block. The Wire library is a scripted transport: each
    `requestFrom` receives the next scripted reply (cut to the quantity
    asked for), each `endTransmission` returns the next scripted status and
    records what was sent. Register blocks are opaque byte images, since
    their layout is the compiler's. */
module CommMaster {
  import opened CInt

  const SLAVE_ADDR_TEMPO: int := 8
  const SLAVE_ADDR_DRUM_SEQUENCER: int := 9
  const SLAVE_ADDR_SAMPLER: int := 10

  const RETRY_INTERVAL: int := 3000
  const RETRY_LIMIT: int := 10

  /** The largest transfer I2C allows. */
  const MAX_CHUNK_SIZE: nat := 32

  const NUMBER_OF_SLAVES: nat := 3

  /** The bytes of the commands the master sends. */
  const SET_COMMAND: seq<u8> := [0x73, 0x65, 0x74]          // "set"
  const START_COMMAND: seq<u8> := [0x73, 0x74, 0x61, 0x72, 0x74]  // "start"
  const STOP_COMMAND: seq<u8> := [0x73, 0x74, 0x6f, 0x70]    // "stop"

  /** `struct KosmoSlave`. */
  datatype KosmoSlave = KosmoSlave(address: int, inProgrammingMode: bool, requestInProgress: bool,
                                   lastGetRequest: u32, retries: int, registerSize: nat)

  /** One finished transmission: the address and the bytes written. */
  datatype Transmission = Transmission(address: int, bytes: seq<u8>)

  // ================================================================ sequences

  /** `s` without its first `n` elements. */
  function Drop<T>(s: seq<T>, n: nat): (r: seq<T>)
    ensures |r| == if n >= |s| then 0 else |s| - n
    ensures forall k :: 0 <= k < |r| ==> r[k] == s[n + k]
  {
    if n >= |s| then [] else s[n..]
  }

  lemma DropDrop<T>(s: seq<T>, a: nat, b: nat)
    ensures Drop(Drop(s, a), b) == Drop(s, a + b)
  {
  }

  /** `buf` with `data` copied in from offset `at` (`memcpy`). */
  function Overwrite(buf: seq<u8>, at: nat, data: seq<u8>): (r: seq<u8>)
    requires at + |data| <= |buf|
    ensures |r| == |buf|
    ensures forall k :: 0 <= k < |buf| ==> r[k] == if at <= k < at + |data| then data[k - at] else buf[k]
  {
    buf[..at] + data + buf[at + |data|..]
  }

  // ================================================================ the scripted transport

  /** The bytes a request for `quantity` bytes receives when `replies` is the
      script: the first reply cut to `quantity`, or nothing once the script
      is exhausted. */
  function ReplyAt(replies: seq<seq<u8>>, k: nat, quantity: nat): (r: seq<u8>)
    ensures |r| <= quantity
    ensures k < |replies| ==> r == if |replies[k]| <= quantity then replies[k] else replies[k][..quantity]
    ensures k >= |replies| ==> r == []
  {
    if k >= |replies| then []
    else if |replies[k]| <= quantity then replies[k]
    else replies[k][..quantity]
  }

  lemma ReplyAtDrop(replies: seq<seq<u8>>, k: nat, quantity: nat)
    ensures ReplyAt(Drop(replies, k), 0, quantity) == ReplyAt(replies, k, quantity)
  {
  }

  /** The end status of transmission `k` of the script; an exhausted script
      acknowledges. */
  function StatusAt(statuses: seq<int>, k: nat): int
  {
    if k < |statuses| then statuses[k] else 0
  }

  /** The Wire library, driven by a script. */
  class WireBus {
    /** Replies to the coming `requestFrom` calls, in order. */
    var replies: seq<seq<u8>>
    /** End statuses of the coming transmissions, in order. */
    var statuses: seq<int>
    /** Every finished transmission, oldest first. */
    var sent: seq<Transmission>
    /** The transmission being assembled. */
    var target: int
    var pending: seq<u8>

    constructor (replies: seq<seq<u8>>, statuses: seq<int>)
      ensures this.replies == replies && this.statuses == statuses
      ensures sent == [] && pending == []
    {
      this.replies := replies;
      this.statuses := statuses;
      sent := [];
      target := 0;
      pending := [];
    }

    /** `Wire.requestFrom(address, quantity)`, returning what becomes
        available. */
    method RequestFrom(address: int, quantity: nat) returns (received: seq<u8>)
      modifies this
      ensures received == ReplyAt(old(replies), 0, quantity) && replies == Drop(old(replies), 1)
      ensures statuses == old(statuses) && sent == old(sent) && target == old(target) && pending == old(pending)
    {
      received := ReplyAt(replies, 0, quantity);
      replies := Drop(replies, 1);
    }

    method BeginTransmission(address: int)
      modifies this
      ensures target == address && pending == []
      ensures replies == old(replies) && statuses == old(statuses) && sent == old(sent)
    {
      target := address;
      pending := [];
    }

    method Write(data: seq<u8>)
      modifies this
      ensures pending == old(pending) + data
      ensures replies == old(replies) && statuses == old(statuses) && sent == old(sent) && target == old(target)
    {
      pending := pending + data;
    }

    method EndTransmission() returns (status: int)
      modifies this
      ensures status == StatusAt(old(statuses), 0) && statuses == Drop(old(statuses), 1)
      ensures sent == old(sent) + [Transmission(old(target), old(pending))]
      ensures replies == old(replies) && target == old(target) && pending == old(pending)
    {
      status := StatusAt(statuses, 0);
      statuses := Drop(statuses, 1);
      sent := sent + [Transmission(target, pending)];
    }
  }

  // ================================================================ the chunk plan

  /** `(totalSize + 31) / 32`. */
  function ChunkCount(size: nat): nat
  {
    (size + 31) / 32
  }

  function ChunkOffset(k: nat): nat
  {
    k * 32
  }

  /** `min(32, totalSize - offset)`. */
  function ChunkLength(size: nat, k: nat): nat
    requires k < ChunkCount(size)
  {
    if 32 <= size - ChunkOffset(k) then 32 else size - ChunkOffset(k)
  }

  /** Chunks are nonempty, at most 32 bytes, each starts where the previous
      one ends, and the last one ends at the end of the block; there are
      none for an empty block. */
  lemma ChunkPlan(size: nat)
    ensures ChunkCount(size) == 0 <==> size == 0
    ensures forall k :: 0 <= k < ChunkCount(size) ==>
              0 < ChunkLength(size, k) <= MAX_CHUNK_SIZE && ChunkOffset(k) + ChunkLength(size, k) <= size
    ensures forall k :: 0 <= k < ChunkCount(size) - 1 ==>
              ChunkOffset(k) + ChunkLength(size, k) == ChunkOffset(k + 1)
    ensures size > 0 ==> ChunkOffset(ChunkCount(size) - 1) + ChunkLength(size, ChunkCount(size) - 1) == size
  {
  }

  /** Chunk `k` lies inside the block and is not empty. */
  lemma ChunkInside(size: nat, k: nat)
    requires k < ChunkCount(size)
    ensures 0 < ChunkLength(size, k) && ChunkOffset(k) + ChunkLength(size, k) <= size
  {
  }

  /** Every byte of the block lies in exactly one chunk, the one numbered
      by its offset divided by 32. */
  lemma ChunkTiling(size: nat, p: nat, k: nat)
    requires p < size
    ensures p / 32 < ChunkCount(size)
    ensures ChunkOffset(p / 32) <= p < ChunkOffset(p / 32) + ChunkLength(size, p / 32)
    ensures k < ChunkCount(size) && ChunkOffset(k) <= p < ChunkOffset(k) + ChunkLength(size, k) ==> k == p / 32
  {
  }

  /** Bytes `[32k, 32k + length)` of the block. */
  function Chunk(block: seq<u8>, k: nat): (r: seq<u8>)
    requires k < ChunkCount(|block|)
    ensures |r| == ChunkLength(|block|, k)
  {
    block[ChunkOffset(k)..ChunkOffset(k) + ChunkLength(|block|, k)]
  }

  /** The first `n` chunks one after the other. */
  function Chunks(block: seq<u8>, n: nat): seq<u8>
    requires n <= ChunkCount(|block|)
  {
    if n == 0 then [] else Chunks(block, n - 1) + Chunk(block, n - 1)
  }

  /** The first `n` chunks are exactly the first `32n` bytes (fewer at the
      end), so all chunks together are the block. */
  lemma {:induction false} ChunksPrefix(block: seq<u8>, n: nat)
    requires n <= ChunkCount(|block|)
    ensures n < ChunkCount(|block|) ==> Chunks(block, n) == block[..ChunkOffset(n)]
    ensures n == ChunkCount(|block|) ==> Chunks(block, n) == block
    decreases n
  {
    ChunkPlan(|block|);
    if n > 0 {
      ChunksPrefix(block, n - 1);
      assert block[..ChunkOffset(n - 1)] + Chunk(block, n - 1) == block[..ChunkOffset(n - 1) + ChunkLength(|block|, n - 1)];
    }
  }

  // ================================================================ reading registers

  /** `getKosmoTempoRegisters` / `getKosmoSampleRegisters` on buffer `buf`
      with the bytes `received`: false, buffer untouched, when nothing or
      not exactly `size` bytes arrived; otherwise the first `size` bytes are
      replaced. */
  function RegisterRead(buf: seq<u8>, received: seq<u8>, size: nat): (bool, seq<u8>)
    requires size <= |buf|
  {
    if |received| == 0 || |received| != size then (false, buf)
    else (true, Overwrite(buf, 0, received))
  }

  /** The drum block after the first `n` chunk requests, chunk `k` receiving
      reply `k` of the script. */
  function DrumRead(buf: seq<u8>, replies: seq<seq<u8>>, size: nat, n: nat): (r: seq<u8>)
    requires size <= |buf| && n <= ChunkCount(size)
    ensures |r| == |buf|
  {
    if n == 0 then buf
    else
      ChunkInside(size, n - 1);
      Overwrite(DrumRead(buf, replies, size, n - 1), ChunkOffset(n - 1), ReplyAt(replies, n - 1, ChunkLength(size, n - 1)))
  }

  /** Chunk request `n` reads reply `n` of the script into the chunk's
      place, which lies inside the block. */
  lemma DrumReadNext(buf: seq<u8>, replies: seq<seq<u8>>, size: nat, n: nat)
    requires size <= |buf| && n < ChunkCount(size)
    ensures ChunkOffset(n) + ChunkLength(size, n) <= size
    ensures DrumRead(buf, replies, size, n + 1) ==
            Overwrite(DrumRead(buf, replies, size, n), ChunkOffset(n), ReplyAt(Drop(replies, n), 0, ChunkLength(size, n)))
    ensures Drop(Drop(replies, n), 1) == Drop(replies, n + 1)
  {
    ChunkInside(size, n);
    ReplyAtDrop(replies, n, ChunkLength(size, n));
    DropDrop(replies, n, 1);
  }

  /** Byte `p` of the block after the first `n` chunk requests, byte by
      byte: inside chunk `k = p / 32`, once that chunk has been requested,
      the `p - 32k`-th byte its reply brought if there is one; otherwise
      the byte as it was. */
  function DrumCell(buf: seq<u8>, replies: seq<seq<u8>>, size: nat, n: nat, p: nat): u8
    requires size <= |buf| && n <= ChunkCount(size) && p < |buf|
  {
    var k := p / 32;
    if p < size && k < n then
      var got := ReplyAt(replies, k, ChunkLength(size, k));
      if p - ChunkOffset(k) < |got| then got[p - ChunkOffset(k)] else buf[p]
    else buf[p]
  }

  /** The drum read copies only what arrived: every byte of the block is
      the one `DrumCell` describes; bytes beyond the block are kept. */
  lemma {:induction false} DrumReadCells(buf: seq<u8>, replies: seq<seq<u8>>, size: nat, n: nat, p: nat)
    requires size <= |buf| && n <= ChunkCount(size) && p < |buf|
    ensures DrumRead(buf, replies, size, n)[p] == DrumCell(buf, replies, size, n, p)
    decreases n
  {
    if n > 0 {
      DrumReadCells(buf, replies, size, n - 1, p);
      if p < size && p / 32 == n - 1 {
        DrumReadCellCopied(buf, replies, size, n, p);
      } else {
        DrumReadCellKept(buf, replies, size, n, p);
      }
    }
  }

  /** Chunk request `n - 1` sets byte `p` of its own chunk from its reply,
      when the reply reaches that far. */
  lemma DrumReadCellCopied(buf: seq<u8>, replies: seq<seq<u8>>, size: nat, n: nat, p: nat)
    requires size <= |buf| && 0 < n <= ChunkCount(size) && p < size && p / 32 == n - 1
    requires DrumRead(buf, replies, size, n - 1)[p] == DrumCell(buf, replies, size, n - 1, p)
    ensures DrumRead(buf, replies, size, n)[p] == DrumCell(buf, replies, size, n, p)
  {
    ChunkInside(size, n - 1);
    ChunkTiling(size, p, n - 1);
  }

  /** Chunk request `n - 1` leaves every byte outside its chunk as it was. */
  lemma DrumReadCellKept(buf: seq<u8>, replies: seq<seq<u8>>, size: nat, n: nat, p: nat)
    requires size <= |buf| && 0 < n <= ChunkCount(size) && p < |buf| && !(p < size && p / 32 == n - 1)
    requires DrumRead(buf, replies, size, n - 1)[p] == DrumCell(buf, replies, size, n - 1, p)
    ensures DrumRead(buf, replies, size, n)[p] == DrumCell(buf, replies, size, n, p)
  {
    ChunkInside(size, n - 1);
    if p < size {
      ChunkTiling(size, p, n - 1);
    }
  }

  // ================================================================ the poll round

  /** What a poll round works on: the slave table, the three shared register
      blocks and the transport's remaining replies. */
  datatype Master = Master(slaves: seq<KosmoSlave>, tempo: seq<u8>, drums: seq<u8>, sampler: seq<u8>,
                           replies: seq<seq<u8>>)

  /** Register sizes fit their blocks. */
  predicate Fits(m: Master)
  {
    |m.slaves| == NUMBER_OF_SLAVES &&
    m.slaves[0].registerSize <= |m.tempo| && m.slaves[1].registerSize <= |m.drums| &&
    m.slaves[2].registerSize <= |m.sampler|
  }

  /** The interval gate: no request in progress and `now` past
      `lastGetRequest + RETRY_INTERVAL`, a sum taken modulo 2^32. */
  predicate Due(s: KosmoSlave, now: u32)
  {
    !s.requestInProgress && now > ToU32(s.lastGetRequest + RETRY_INTERVAL)
  }

  /** A polled slave after its read: not in progress, polled at `now`, one
      more retry after a failure while below the limit. */
  function Settle(s: KosmoSlave, now: u32, ok: bool): KosmoSlave
  {
    s.(requestInProgress := false, lastGetRequest := now,
       retries := if !ok && s.retries < RETRY_LIMIT then s.retries + 1 else s.retries)
  }

  /** The read of slave `i`'s registers. */
  function Fetch(m: Master, i: nat): (r: (bool, Master))
    requires Fits(m) && i < NUMBER_OF_SLAVES
    ensures Fits(r.1) && r.1.slaves == m.slaves
  {
    var size := m.slaves[i].registerSize;
    if i == 0 then
      var read := RegisterRead(m.tempo, ReplyAt(m.replies, 0, size), size);
      (read.0, m.(tempo := read.1, replies := Drop(m.replies, 1)))
    else if i == 1 then
      (true, m.(drums := DrumRead(m.drums, m.replies, size, ChunkCount(size)),
                replies := Drop(m.replies, ChunkCount(size))))
    else
      var read := RegisterRead(m.sampler, ReplyAt(m.replies, 0, size), size);
      (read.0, m.(sampler := read.1, replies := Drop(m.replies, 1)))
  }

  /** Writing entry `i` twice leaves only the second value. */
  lemma UpdateTwice<T>(a: seq<T>, i: nat, x: T, y: T)
    requires i < |a|
    ensures a[i := x][i := y] == a[i := y]
  {
  }

  /** The read of slave `i` looks at the table only for that slave's
      register size. */
  lemma FetchIgnoresTable(m: Master, i: nat, t: KosmoSlave)
    requires Fits(m) && i < NUMBER_OF_SLAVES && t.registerSize == m.slaves[i].registerSize
    ensures Fits(m.(slaves := m.slaves[i := t]))
    ensures var f := Fetch(m, i);
            Fetch(m.(slaves := m.slaves[i := t]), i) == (f.0, f.1.(slaves := m.slaves[i := t]))
  {
  }

  /** A due slave's turn is the read made while it is marked in progress,
      followed by settling it with the read's result. */
  lemma PollStepDue(m: Master, i: nat, now: u32, status: bool, fetched: Master)
    requires Fits(m) && i < NUMBER_OF_SLAVES && Due(m.slaves[i], now)
    requires (status, fetched) == Fetch(m.(slaves := m.slaves[i := m.slaves[i].(requestInProgress := true, lastGetRequest := now)]), i)
    ensures PollStep(m, i, now) == (status, fetched.(slaves := m.slaves[i := Settle(m.slaves[i], now, status)]))
  {
    FetchIgnoresTable(m, i, m.slaves[i].(requestInProgress := true, lastGetRequest := now));
  }

  /** Slave `i`'s turn in the round: its result and the new state. */
  function PollStep(m: Master, i: nat, now: u32): (r: (bool, Master))
    requires Fits(m) && i < NUMBER_OF_SLAVES
    ensures Fits(r.1)
  {
    if Due(m.slaves[i], now) then
      var f := Fetch(m, i);
      (f.0, f.1.(slaves := m.slaves[i := Settle(m.slaves[i], now, f.0)]))
    else (false, m)
  }

  /** The results of the first `n` slaves of a round and the state after them. */
  function PollUpTo(m: Master, n: nat, now: u32): (r: (seq<bool>, Master))
    requires Fits(m) && n <= NUMBER_OF_SLAVES
    ensures Fits(r.1) && |r.0| == n
  {
    if n == 0 then ([], m)
    else
      var before := PollUpTo(m, n - 1, now);
      var step := PollStep(before.1, n - 1, now);
      (before.0 + [step.0], step.1)
  }

  /** A polled slave is no longer in progress, was polled at `now`, and its
      retry count rose by one exactly when the read failed below the limit;
      its address and size stay. */
  lemma SettleFacts(s: KosmoSlave, now: u32, ok: bool)
    ensures var t := Settle(s, now, ok);
            !t.requestInProgress && t.lastGetRequest == now &&
            t.address == s.address && t.registerSize == s.registerSize &&
            t.inProgrammingMode == s.inProgrammingMode &&
            (t.retries == s.retries + 1 <==> !ok && s.retries < RETRY_LIMIT) &&
            (t.retries != s.retries + 1 ==> t.retries == s.retries) &&
            (s.retries <= RETRY_LIMIT ==> t.retries <= RETRY_LIMIT)
  {
  }

  /** In a round, slave `j` is settled with its own result when the gate
      lets it through, and untouched otherwise; a slave that was not polled
      reports false, and a polled drum sequencer always reports true. */
  lemma {:induction false} PollSlaves(m: Master, n: nat, now: u32, j: nat)
    requires Fits(m) && n <= NUMBER_OF_SLAVES && j < NUMBER_OF_SLAVES
    ensures var r := PollUpTo(m, n, now);
            (j < n ==>
               r.1.slaves[j] == (if Due(m.slaves[j], now) then Settle(m.slaves[j], now, r.0[j]) else m.slaves[j]) &&
               (r.0[j] ==> Due(m.slaves[j], now)) &&
               (j == 1 && Due(m.slaves[j], now) ==> r.0[j])) &&
            (j >= n ==> r.1.slaves[j] == m.slaves[j])
    decreases n
  {
    if n > 0 {
      PollSlaves(m, n - 1, now, j);
      var before := PollUpTo(m, n - 1, now);
      var step := PollStep(before.1, n - 1, now);
      PollStepSlaves(before.1, n - 1, now);
      assert PollUpTo(m, n, now) == (before.0 + [step.0], step.1);
      if j == n - 1 {
        assert before.1.slaves[j] == m.slaves[j];
      } else if j < n - 1 {
        assert (before.0 + [step.0])[j] == before.0[j];
      }
    }
  }

  /** Polling slave `i` touches only its own entry of the table, settles it
      when the gate lets it through, and succeeds only then. */
  lemma PollStepSlaves(m: Master, i: nat, now: u32)
    requires Fits(m) && i < NUMBER_OF_SLAVES
    ensures var r := PollStep(m, i, now);
            r.1.slaves == (if Due(m.slaves[i], now) then m.slaves[i := Settle(m.slaves[i], now, r.0)] else m.slaves) &&
            (r.0 ==> Due(m.slaves[i], now)) && (i == 1 && Due(m.slaves[i], now) ==> r.0)
  {
  }

  /** Every function of the master leaves no request in progress, and keeps
      the retry counts within the limit. */
  predicate Settled(slaves: seq<KosmoSlave>)
  {
    forall i :: 0 <= i < |slaves| ==> !slaves[i].requestInProgress && 0 <= slaves[i].retries <= RETRY_LIMIT
  }

  /** A whole round keeps the table settled, never lowers a retry count and
      raises it by one at most. */
  lemma PollRoundSettled(m: Master, now: u32)
    requires Fits(m) && Settled(m.slaves)
    ensures var s := PollUpTo(m, NUMBER_OF_SLAVES, now).1.slaves;
            Settled(s) && |s| == NUMBER_OF_SLAVES &&
            forall i :: 0 <= i < NUMBER_OF_SLAVES ==> m.slaves[i].retries <= s[i].retries <= m.slaves[i].retries + 1
  {
    forall i | 0 <= i < NUMBER_OF_SLAVES
      ensures var s := PollUpTo(m, NUMBER_OF_SLAVES, now).1.slaves;
              !s[i].requestInProgress && 0 <= s[i].retries <= RETRY_LIMIT &&
              m.slaves[i].retries <= s[i].retries <= m.slaves[i].retries + 1
    {
      PollSlaves(m, NUMBER_OF_SLAVES, now, i);
      SettleFacts(m.slaves[i], now, PollUpTo(m, NUMBER_OF_SLAVES, now).0[i]);
    }
  }

  // ================================================================ writing registers

  /** The transmissions of the first `n` chunks of a block to `address`. */
  function ChunkTransmissions(address: int, block: seq<u8>, n: nat): (r: seq<Transmission>)
    requires n <= ChunkCount(|block|)
    ensures |r| == n
  {
    if n == 0 then [] else ChunkTransmissions(address, block, n - 1) + [Transmission(address, Chunk(block, n - 1))]
  }

  /** Chunk transmission `n` follows the first `n` and consumes status `n`
      of the script. */
  lemma SendNext(address: int, block: seq<u8>, statuses: seq<int>, n: nat)
    requires n < ChunkCount(|block|)
    ensures ChunkTransmissions(address, block, n + 1) ==
            ChunkTransmissions(address, block, n) + [Transmission(address, Chunk(block, n))]
    ensures StatusAt(Drop(statuses, n), 0) == StatusAt(statuses, n)
    ensures Drop(Drop(statuses, n), 1) == Drop(statuses, n + 1)
  {
    DropDrop(statuses, n, 1);
  }

  /** The bytes of a sequence of transmissions, one after the other. */
  function Payload(ts: seq<Transmission>): seq<u8>
  {
    if ts == [] then [] else Payload(ts[..|ts| - 1]) + ts[|ts| - 1].bytes
  }

  /** Chunk transmission `k` goes to the slave and carries chunk `k`, at
      most 32 bytes. */
  lemma {:induction false} ChunkTransmissionAt(address: int, block: seq<u8>, n: nat, k: nat)
    requires n <= ChunkCount(|block|) && k < n
    ensures ChunkTransmissions(address, block, n)[k] == Transmission(address, Chunk(block, k))
    ensures |ChunkTransmissions(address, block, n)[k].bytes| <= MAX_CHUNK_SIZE
    decreases n
  {
    if k < n - 1 {
      ChunkTransmissionAt(address, block, n - 1, k);
    }
  }

  /** The chunk transmissions together carry the first `32n` bytes of the
      block, and all of them carry the whole block. */
  lemma {:induction false} ChunksJoin(address: int, block: seq<u8>, n: nat)
    requires n <= ChunkCount(|block|)
    ensures Payload(ChunkTransmissions(address, block, n)) == Chunks(block, n)
    ensures n == ChunkCount(|block|) ==> Payload(ChunkTransmissions(address, block, n)) == block
    decreases n
  {
    if n > 0 {
      ChunksJoin(address, block, n - 1);
      var ts := ChunkTransmissions(address, block, n);
      assert ts[..|ts| - 1] == ChunkTransmissions(address, block, n - 1);
    }
    ChunksPrefix(block, n);
  }

  /** `setKosmoDrumSequencerRegisters`: the result (all chunks acknowledged)
      and how many chunks were transmitted. */
  function DrumWrite(block: seq<u8>, statuses: seq<int>): (r: (bool, nat))
    ensures r.1 <= ChunkCount(|block|)
  {
    var n := ChunkCount(|block|);
    var count := FirstFailure(statuses, n);
    if count == n then (true, n) else (false, count + 1)
  }

  /** The drum write succeeds exactly when every chunk is acknowledged, and
      then sends them all; otherwise it stops right after the first refused
      chunk, having had every earlier one acknowledged. */
  lemma DrumWriteMeaning(block: seq<u8>, statuses: seq<int>)
    ensures var r := DrumWrite(block, statuses);
            (r.0 <==> forall k :: 0 <= k < ChunkCount(|block|) ==> StatusAt(statuses, k) == 0) &&
            (r.0 ==> r.1 == ChunkCount(|block|)) &&
            (!r.0 ==> r.1 > 0 && StatusAt(statuses, r.1 - 1) != 0 &&
                      forall k :: 0 <= k < r.1 - 1 ==> StatusAt(statuses, k) == 0)
  {
  }

  /** The index of the first nonzero status among the first `n`, or `n`. */
  function FirstFailure(statuses: seq<int>, n: nat): (r: nat)
    ensures r <= n
    ensures forall k :: 0 <= k < r ==> StatusAt(statuses, k) == 0
    ensures r < n ==> StatusAt(statuses, r) != 0
  {
    if n == 0 then 0
    else
      var r := FirstFailure(statuses, n - 1);
      if r < n - 1 then r else if StatusAt(statuses, n - 1) != 0 then n - 1 else n
  }

  /** A drum write whose first `i` chunks are acknowledged and whose next
      one is not sends `i + 1` chunks and fails. */
  lemma DrumWriteFails(block: seq<u8>, statuses: seq<int>, i: nat)
    requires i < ChunkCount(|block|) && StatusAt(statuses, i) != 0
    requires forall k :: 0 <= k < i ==> StatusAt(statuses, k) == 0
    ensures DrumWrite(block, statuses) == (false, i + 1)
  {
    var r := FirstFailure(statuses, ChunkCount(|block|));
    assert r == i;
  }

  /** A drum write whose chunks are all acknowledged sends them all. */
  lemma DrumWriteSucceeds(block: seq<u8>, statuses: seq<int>)
    requires forall k :: 0 <= k < ChunkCount(|block|) ==> StatusAt(statuses, k) == 0
    ensures DrumWrite(block, statuses) == (true, ChunkCount(|block|))
  {
  }

  /** The transmissions of slave `i`'s setter and how many end statuses it
      consumes: "set" and the tempo block; the drum chunks up to the first
      failure; the sampler block. */
  function SlaveWrite(i: nat, tempo: seq<u8>, drums: seq<u8>, sampler: seq<u8>, statuses: seq<int>): (seq<Transmission>, nat)
  {
    if i == 0 then ([Transmission(SLAVE_ADDR_TEMPO, SET_COMMAND + tempo)], 1)
    else if i == 1 then
      var w := DrumWrite(drums, statuses);
      (ChunkTransmissions(SLAVE_ADDR_DRUM_SEQUENCER, drums, w.1), w.1)
    else ([Transmission(SLAVE_ADDR_SAMPLER, sampler)], 1)
  }

  /** The first `n` setters of `setSlaveRegisters` one after the other. */
  function SetRound(n: nat, tempo: seq<u8>, drums: seq<u8>, sampler: seq<u8>, statuses: seq<int>): (seq<Transmission>, nat)
  {
    if n == 0 then ([], 0)
    else
      var before := SetRound(n - 1, tempo, drums, sampler, statuses);
      var step := SlaveWrite(n - 1, tempo, drums, sampler, Drop(statuses, before.1));
      (before.0 + step.0, before.1 + step.1)
  }

  /** A whole `setSlaveRegisters` round sends the tempo block, then the drum
      chunks until one is refused, then the sampler block, so a refused drum
      chunk never keeps the sampler from being written; when every drum chunk
      is acknowledged, the drum transmissions carry the whole block. */
  lemma SetRoundSends(tempo: seq<u8>, drums: seq<u8>, sampler: seq<u8>, statuses: seq<int>)
    ensures var w := DrumWrite(drums, Drop(statuses, 1));
            var r := SetRound(NUMBER_OF_SLAVES, tempo, drums, sampler, statuses);
            r.0 == [Transmission(SLAVE_ADDR_TEMPO, SET_COMMAND + tempo)] +
                   ChunkTransmissions(SLAVE_ADDR_DRUM_SEQUENCER, drums, w.1) +
                   [Transmission(SLAVE_ADDR_SAMPLER, sampler)] &&
            r.1 == w.1 + 2 &&
            r.0[|r.0| - 1] == Transmission(SLAVE_ADDR_SAMPLER, sampler)
  {
    var w := DrumWrite(drums, Drop(statuses, 1));
    assert SetRound(0, tempo, drums, sampler, statuses) == ([], 0);
    var r1 := SetRound(1, tempo, drums, sampler, statuses);
    assert [] + [Transmission(SLAVE_ADDR_TEMPO, SET_COMMAND + tempo)] == [Transmission(SLAVE_ADDR_TEMPO, SET_COMMAND + tempo)];
    assert r1 == ([Transmission(SLAVE_ADDR_TEMPO, SET_COMMAND + tempo)], 1);
    var r2 := SetRound(2, tempo, drums, sampler, statuses);
    assert r2 == (r1.0 + ChunkTransmissions(SLAVE_ADDR_DRUM_SEQUENCER, drums, w.1), 1 + w.1);
  }

  // ================================================================ the master

  class KosmoCommMaster {
    /** `slaves[]`. */
    var slaves: seq<KosmoSlave>
    /** `sharedTempoRegisters`, `sharedDrumSequencerRegisters` and
        `sharedSamplerRegisters` as bytes. */
    const tempoRegs: array<u8>
    const drumRegs: array<u8>
    const samplerRegs: array<u8>
    const wire: WireBus

    /** The table names the three slaves over their own register blocks. */
    predicate Wired()
      reads this
    {
      |slaves| == NUMBER_OF_SLAVES &&
      slaves[0].address == SLAVE_ADDR_TEMPO && slaves[1].address == SLAVE_ADDR_DRUM_SEQUENCER &&
      slaves[2].address == SLAVE_ADDR_SAMPLER &&
      slaves[0].registerSize == tempoRegs.Length && slaves[1].registerSize == drumRegs.Length &&
      slaves[2].registerSize == samplerRegs.Length &&
      tempoRegs != drumRegs && drumRegs != samplerRegs && tempoRegs != samplerRegs
    }

    /** Between calls: wired, and every slave settled. */
    predicate Valid()
      reads this
    {
      Wired() && Settled(slaves)
    }

    /** The state a poll round works on. */
    function State(): Master
      reads this, tempoRegs, drumRegs, samplerRegs, wire
    {
      Master(slaves, tempoRegs[..], drumRegs[..], samplerRegs[..], wire.replies)
    }

    /** The initial `slaves[]` table over the given register blocks. */
    constructor (tempoRegs: array<u8>, drumRegs: array<u8>, samplerRegs: array<u8>, wire: WireBus)
      requires tempoRegs != drumRegs && drumRegs != samplerRegs && tempoRegs != samplerRegs
      ensures Valid()
      ensures this.tempoRegs == tempoRegs && this.drumRegs == drumRegs && this.samplerRegs == samplerRegs
      ensures this.wire == wire
      ensures forall i :: 0 <= i < NUMBER_OF_SLAVES ==>
                slaves[i].lastGetRequest == 0 && slaves[i].retries == 0 && !slaves[i].inProgrammingMode
    {
      this.tempoRegs := tempoRegs;
      this.drumRegs := drumRegs;
      this.samplerRegs := samplerRegs;
      this.wire := wire;
      slaves := [KosmoSlave(SLAVE_ADDR_TEMPO, false, false, 0, 0, tempoRegs.Length),
                 KosmoSlave(SLAVE_ADDR_DRUM_SEQUENCER, false, false, 0, 0, drumRegs.Length),
                 KosmoSlave(SLAVE_ADDR_SAMPLER, false, false, 0, 0, samplerRegs.Length)];
    }

    /** `memcpy` / `readBytes` into a register block. */
    static method CopyInto(buf: array<u8>, at: nat, data: seq<u8>)
      requires at + |data| <= buf.Length
      modifies buf
      ensures buf[..] == Overwrite(old(buf[..]), at, data)
    {
      forall k | 0 <= k < |data| {
        buf[at + k] := data[k];
      }
    }

    /** `getKosmoTempoRegisters` and `getKosmoSampleRegisters`: request the
        register size; fail when nothing or a different count arrives,
        otherwise copy the bytes into `buf`. */
    method GetRegisters(slaveIndex: int, buf: array<u8>) returns (ok: bool)
      requires 0 <= slaveIndex < |slaves| && slaves[slaveIndex].registerSize <= buf.Length
      modifies buf, wire
      ensures var size := slaves[slaveIndex].registerSize;
              (ok, buf[..]) == RegisterRead(old(buf[..]), ReplyAt(old(wire.replies), 0, size), size)
      ensures wire.replies == Drop(old(wire.replies), 1)
      ensures wire.statuses == old(wire.statuses) && wire.sent == old(wire.sent)
    {
      var size := slaves[slaveIndex].registerSize;
      var received := wire.RequestFrom(slaves[slaveIndex].address, size);
      if |received| == 0 {
        return false;
      }
      if |received| != size {
        return false;
      }
      CopyInto(buf, 0, received);
      return true;
    }

    /** `getKosmoDrumSequencerRegisters`: one request per chunk; the bytes
        that arrive are copied to the chunk's offset. Always true. */
    method GetDrumSequencerRegisters(slaveIndex: int) returns (ok: bool)
      requires 0 <= slaveIndex < |slaves| && slaves[slaveIndex].registerSize <= drumRegs.Length
      modifies drumRegs, wire
      ensures var size := slaves[slaveIndex].registerSize;
              drumRegs[..] == DrumRead(old(drumRegs[..]), old(wire.replies), size, ChunkCount(size)) &&
              wire.replies == Drop(old(wire.replies), ChunkCount(size))
      ensures wire.statuses == old(wire.statuses) && wire.sent == old(wire.sent)
      ensures ok
    {
      ReadChunks(wire, drumRegs, slaves[slaveIndex].address, slaves[slaveIndex].registerSize);
      return true;
    }

    /** The chunk loop of `getKosmoDrumSequencerRegisters` over a block of
        `totalSize` bytes at the start of `buf`. */
    static method ReadChunks(wire: WireBus, buf: array<u8>, address: int, totalSize: nat)
      requires totalSize <= buf.Length
      modifies buf, wire
      ensures buf[..] == DrumRead(old(buf[..]), old(wire.replies), totalSize, ChunkCount(totalSize))
      ensures wire.replies == Drop(old(wire.replies), ChunkCount(totalSize))
      ensures wire.statuses == old(wire.statuses) && wire.sent == old(wire.sent)
    {
      var totalChunks := (totalSize + 31) / 32;
      var chunkIndex := 0;
      assert totalChunks == ChunkCount(totalSize);
      for i := 0 to totalChunks
        invariant chunkIndex == i
        invariant buf[..] == DrumRead(old(buf[..]), old(wire.replies), totalSize, i)
        invariant wire.replies == Drop(old(wire.replies), i)
        invariant wire.statuses == old(wire.statuses) && wire.sent == old(wire.sent)
      {
        ReadNextChunk(wire, buf, address, totalSize, chunkIndex, old(buf[..]), old(wire.replies));
        chunkIndex := chunkIndex + 1;
      }
    }

    /** Turn `chunkIndex` of the chunk loop of `getKosmoDrumSequencerRegisters`. */
    static method ReadNextChunk(wire: WireBus, buf: array<u8>, address: int, totalSize: nat, chunkIndex: nat,
                                ghost buf0: seq<u8>, ghost replies0: seq<seq<u8>>)
      requires totalSize <= buf.Length == |buf0| && chunkIndex < ChunkCount(totalSize)
      requires buf[..] == DrumRead(buf0, replies0, totalSize, chunkIndex)
      requires wire.replies == Drop(replies0, chunkIndex)
      modifies buf, wire
      ensures buf[..] == DrumRead(buf0, replies0, totalSize, chunkIndex + 1)
      ensures wire.replies == Drop(replies0, chunkIndex + 1)
      ensures wire.statuses == old(wire.statuses) && wire.sent == old(wire.sent)
    {
      var offset := chunkIndex * 32;
      var chunkSize := if 32 <= totalSize - offset then 32 else totalSize - offset;
      assert offset == ChunkOffset(chunkIndex) && chunkSize == ChunkLength(totalSize, chunkIndex);
      DrumReadNext(buf0, replies0, totalSize, chunkIndex);
      ReadChunk(wire, buf, address, offset, chunkSize);
    }

    /** One chunk of `getKosmoDrumSequencerRegisters`: request `chunkSize`
        bytes, gather what is available into a local buffer and copy it to
        `offset`. */
    static method ReadChunk(wire: WireBus, buf: array<u8>, address: int, offset: nat, chunkSize: nat)
      requires offset + chunkSize <= buf.Length
      modifies buf, wire
      ensures buf[..] == Overwrite(old(buf[..]), offset, ReplyAt(old(wire.replies), 0, chunkSize))
      ensures wire.replies == Drop(old(wire.replies), 1)
      ensures wire.statuses == old(wire.statuses) && wire.sent == old(wire.sent)
    {
      var received := wire.RequestFrom(address, chunkSize);
      var buffer := new u8[chunkSize];
      var bytesRead := 0;
      while bytesRead < |received|
        invariant 0 <= bytesRead <= |received| <= chunkSize
        invariant buffer[..bytesRead] == received[..bytesRead]
        modifies buffer
      {
        buffer[bytesRead] := received[bytesRead];
        bytesRead := bytesRead + 1;
      }
      assert buffer[..bytesRead] == received;
      CopyInto(buf, offset, buffer[..bytesRead]);
    }

    /** The read for slave `i` of a round. */
    method FetchSlave(i: nat) returns (status: bool)
      requires Wired() && i < NUMBER_OF_SLAVES
      modifies tempoRegs, drumRegs, samplerRegs, wire
      ensures (status, State()) == Fetch(old(State()), i)
      ensures wire.statuses == old(wire.statuses) && wire.sent == old(wire.sent)
    {
      if i == 0 {
        status := GetRegisters(0, tempoRegs);
      } else if i == 1 {
        status := GetDrumSequencerRegisters(1);
      } else {
        status := GetRegisters(2, samplerRegs);
      }
    }

    /** Slave `i`'s turn in `getSlaveRegisters`: when the interval gate lets
        it through, mark it in progress, read its registers, count a retry on
        failure below the limit, and clear the mark. */
    method PollSlave(i: nat, now: u32) returns (result: bool)
      requires Valid() && i < NUMBER_OF_SLAVES
      modifies this, tempoRegs, drumRegs, samplerRegs, wire
      ensures Valid()
      ensures (result, State()) == PollStep(old(State()), i, now)
      ensures wire.statuses == old(wire.statuses) && wire.sent == old(wire.sent)
    {
      result := false;
      if !slaves[i].requestInProgress && now > ToU32(slaves[i].lastGetRequest + RETRY_INTERVAL) {
        ghost var before := slaves;
        ghost var m0 := State();
        var s := slaves[i];
        slaves := slaves[i := s.(requestInProgress := true, lastGetRequest := now)];
        assert State() == m0.(slaves := slaves);
        var status := FetchSlave(i);
        ghost var fetched := State();
        if status {
          result := true;
        } else if slaves[i].retries < RETRY_LIMIT {
          UpdateTwice(before, i, slaves[i], slaves[i].(retries := slaves[i].retries + 1));
          slaves := slaves[i := slaves[i].(retries := slaves[i].retries + 1)];
        }
        UpdateTwice(before, i, slaves[i], slaves[i].(requestInProgress := false));
        slaves := slaves[i := slaves[i].(requestInProgress := false)];
        assert slaves[i] == Settle(s, now, status);
        assert State() == fetched.(slaves := slaves);
        PollStepDue(m0, i, now, status, fetched);
        PollRoundSettledStep(before, i, now, status);
      }
    }

    /** `getSlaveRegisters(now)`: polls each slave the interval gate lets
        through and reports whether all three were polled and answered. */
    method GetSlaveRegisters(now: u32) returns (all: bool)
      requires Valid()
      modifies this, tempoRegs, drumRegs, samplerRegs, wire
      ensures Valid()
      ensures var r := PollUpTo(old(State()), NUMBER_OF_SLAVES, now);
              State() == r.1 && (all <==> r.0[0] && r.0[1] && r.0[2])
      ensures wire.statuses == old(wire.statuses) && wire.sent == old(wire.sent)
    {
      ghost var start := State();
      var results := [false, false, false];
      for i := 0 to NUMBER_OF_SLAVES
        invariant Valid() && |results| == NUMBER_OF_SLAVES
        invariant PolledSoFar(i, start, now, results)
        invariant wire.statuses == old(wire.statuses) && wire.sent == old(wire.sent)
      {
        results := PollNextSlave(i, now, start, results);
      }
      all := AllSucceeded(results);
      assert results == results[..NUMBER_OF_SLAVES];
    }

    /** The first `n` slaves of a round that started from `start` have been
        polled, with the results recorded. */
    ghost predicate PolledSoFar(n: nat, start: Master, now: u32, results: seq<bool>)
      reads this, tempoRegs, drumRegs, samplerRegs, wire
    {
      Fits(start) && n <= NUMBER_OF_SLAVES && n <= |results| &&
      var r := PollUpTo(start, n, now);
      State() == r.1 && results[..n] == r.0
    }

    /** One turn of the `getSlaveRegisters` poll loop, extending the round. */
    method PollNextSlave(i: nat, now: u32, ghost start: Master, results: seq<bool>) returns (next: seq<bool>)
      requires Valid() && i < NUMBER_OF_SLAVES == |results|
      requires PolledSoFar(i, start, now, results)
      modifies this, tempoRegs, drumRegs, samplerRegs, wire
      ensures Valid() && |next| == NUMBER_OF_SLAVES
      ensures PolledSoFar(i + 1, start, now, next)
      ensures wire.statuses == old(wire.statuses) && wire.sent == old(wire.sent)
    {
      var result := PollSlave(i, now);
      next := results[i := result];
      assert next[..i + 1] == results[..i] + [result];
    }

    /** The closing loop of `getSlaveRegisters`: false at the first failed
        result. */
    static method AllSucceeded(results: seq<bool>) returns (all: bool)
      ensures all <==> forall k :: 0 <= k < |results| ==> results[k]
    {
      all := true;
      for i := 0 to |results|
        invariant all <==> forall k :: 0 <= k < i ==> results[k]
      {
        if !results[i] {
          all := false;
          break;
        }
      }
    }

    /** `setKosmoTempoRegisters` (declared void, but returns a result):
        "set" and the block in one transmission; true when it is
        acknowledged. */
    method SetTempoRegisters(slaveIndex: int, regs: seq<u8>) returns (ok: bool)
      requires 0 <= slaveIndex < |slaves| && |regs| == slaves[slaveIndex].registerSize
      modifies wire
      ensures wire.sent == old(wire.sent) + [Transmission(slaves[slaveIndex].address, SET_COMMAND + regs)]
      ensures ok <==> StatusAt(old(wire.statuses), 0) == 0
      ensures wire.statuses == Drop(old(wire.statuses), 1) && wire.replies == old(wire.replies)
    {
      wire.BeginTransmission(slaves[slaveIndex].address);
      wire.Write(SET_COMMAND);
      wire.Write(regs);
      var result := wire.EndTransmission();
      assert [] + SET_COMMAND + regs == SET_COMMAND + regs;
      if result != 0 {
        return false;
      }
      return true;
    }

    /** `setKosmoDrumSequencerRegisters`: one transmission per chunk, giving
        up at the first one not acknowledged. */
    method SetDrumSequencerRegisters(slaveIndex: int, drums: seq<u8>) returns (ok: bool)
      requires 0 <= slaveIndex < |slaves| && |drums| == slaves[slaveIndex].registerSize
      modifies wire
      ensures var w := DrumWrite(drums, old(wire.statuses));
              ok == w.0 &&
              wire.sent == old(wire.sent) + ChunkTransmissions(slaves[slaveIndex].address, drums, w.1) &&
              wire.statuses == Drop(old(wire.statuses), w.1)
      ensures wire.replies == old(wire.replies)
    {
      ok := SendChunks(wire, slaves[slaveIndex].address, drums);
    }

    /** The chunk loop of `setKosmoDrumSequencerRegisters`: one transmission
        per chunk, stopping at the first nonzero status. */
    static method SendChunks(wire: WireBus, address: int, drums: seq<u8>) returns (ok: bool)
      modifies wire
      ensures var w := DrumWrite(drums, old(wire.statuses));
              ok == w.0 &&
              wire.sent == old(wire.sent) + ChunkTransmissions(address, drums, w.1) &&
              wire.statuses == Drop(old(wire.statuses), w.1)
      ensures wire.replies == old(wire.replies)
    {
      var totalSize := |drums|;
      var totalChunks := (totalSize + 31) / 32;
      var chunkIndex := 0;
      assert totalChunks == ChunkCount(totalSize);
      var buffer := drums;
      for i := 0 to totalChunks
        invariant chunkIndex == i
        invariant forall k :: 0 <= k < i ==> StatusAt(old(wire.statuses), k) == 0
        invariant wire.sent == old(wire.sent) + ChunkTransmissions(address, drums, i)
        invariant wire.statuses == Drop(old(wire.statuses), i) && wire.replies == old(wire.replies)
      {
        SendNext(address, drums, old(wire.statuses), i);
        var result := SendChunk(wire, address, buffer, chunkIndex);
        if result != 0 {
          DrumWriteFails(drums, old(wire.statuses), i);
          return false;
        }
        chunkIndex := chunkIndex + 1;
      }
      DrumWriteSucceeds(drums, old(wire.statuses));
      return true;
    }

    /** One chunk of `setKosmoDrumSequencerRegisters`: chunk `chunkIndex`
        of the block in a transmission of its own. */
    static method SendChunk(wire: WireBus, address: int, buffer: seq<u8>, chunkIndex: nat) returns (result: int)
      requires chunkIndex < ChunkCount(|buffer|)
      modifies wire
      ensures wire.sent == old(wire.sent) + [Transmission(address, Chunk(buffer, chunkIndex))]
      ensures result == StatusAt(old(wire.statuses), 0) && wire.statuses == Drop(old(wire.statuses), 1)
      ensures wire.replies == old(wire.replies)
    {
      var totalSize := |buffer|;
      var offset := chunkIndex * 32;
      var chunkSize := if 32 <= totalSize - offset then 32 else totalSize - offset;
      ChunkInside(totalSize, chunkIndex);
      wire.BeginTransmission(address);
      wire.Write(buffer[offset..offset + chunkSize]);
      result := wire.EndTransmission();
      assert [] + buffer[offset..offset + chunkSize] == Chunk(buffer, chunkIndex);
    }

    /** `setSamplerRegisters`: the block in one transmission. */
    method SetSamplerRegisters(slaveIndex: int, sampler: seq<u8>) returns (ok: bool)
      requires 0 <= slaveIndex < |slaves| && |sampler| == slaves[slaveIndex].registerSize
      modifies wire
      ensures wire.sent == old(wire.sent) + [Transmission(slaves[slaveIndex].address, sampler)]
      ensures ok <==> StatusAt(old(wire.statuses), 0) == 0
      ensures wire.statuses == Drop(old(wire.statuses), 1) && wire.replies == old(wire.replies)
    {
      wire.BeginTransmission(slaves[slaveIndex].address);
      wire.Write(sampler);
      var result := wire.EndTransmission();
      assert [] + sampler == sampler;
      if result != 0 {
        return false;
      }
      return true;
    }

    /** Slave `i`'s turn in `setSlaveRegisters`: mark it in progress, call
        its setter (whose result is not looked at) and clear the mark. */
    method SetSlave(i: nat, tempo: seq<u8>, drums: seq<u8>, sampler: seq<u8>)
      requires Valid() && i < NUMBER_OF_SLAVES
      requires |tempo| == tempoRegs.Length && |drums| == drumRegs.Length && |sampler| == samplerRegs.Length
      modifies this, wire
      ensures Valid() && slaves == old(slaves)
      ensures var w := SlaveWrite(i, tempo, drums, sampler, old(wire.statuses));
              wire.sent == old(wire.sent) + w.0 && wire.statuses == Drop(old(wire.statuses), w.1)
      ensures wire.replies == old(wire.replies)
    {
      var s := slaves[i];
      slaves := slaves[i := s.(requestInProgress := true)];
      if i == 0 {
        var _ := SetTempoRegisters(0, tempo);
      } else if i == 1 {
        var _ := SetDrumSequencerRegisters(1, drums);
      } else {
        var _ := SetSamplerRegisters(2, sampler);
      }
      slaves := slaves[i := slaves[i].(requestInProgress := false)];
      assert slaves[i] == s;
    }

    /** `setSlaveRegisters(now, part)`, given the byte images of the part's
        tempo, drum sequencer and sampler registers: every slave is written
        in turn, whatever the earlier results, and none is left in
        progress. */
    method SetSlaveRegisters(tempo: seq<u8>, drums: seq<u8>, sampler: seq<u8>)
      requires Valid()
      requires |tempo| == tempoRegs.Length && |drums| == drumRegs.Length && |sampler| == samplerRegs.Length
      modifies this, wire
      ensures Valid() && slaves == old(slaves)
      ensures var w := SetRound(NUMBER_OF_SLAVES, tempo, drums, sampler, old(wire.statuses));
              wire.sent == old(wire.sent) + w.0 && wire.statuses == Drop(old(wire.statuses), w.1)
      ensures wire.replies == old(wire.replies)
    {
      ghost var statuses := wire.statuses;
      for i := 0 to NUMBER_OF_SLAVES
        invariant Valid() && slaves == old(slaves) && wire.replies == old(wire.replies)
        invariant SentSoFar(i, tempo, drums, sampler, statuses, old(wire.sent))
      {
        SetNextSlave(i, tempo, drums, sampler, statuses, old(wire.sent));
      }
    }

    /** The transport has carried the first `n` setters of a round that
        started from `statuses` and `sent`. */
    ghost predicate SentSoFar(n: nat, tempo: seq<u8>, drums: seq<u8>, sampler: seq<u8>,
                              statuses: seq<int>, sent: seq<Transmission>)
      reads wire
    {
      var w := SetRound(n, tempo, drums, sampler, statuses);
      wire.sent == sent + w.0 && wire.statuses == Drop(statuses, w.1)
    }

    /** One turn of the `setSlaveRegisters` loop, extending the round. */
    method SetNextSlave(i: nat, tempo: seq<u8>, drums: seq<u8>, sampler: seq<u8>,
                        ghost statuses: seq<int>, ghost sent: seq<Transmission>)
      requires Valid() && i < NUMBER_OF_SLAVES
      requires |tempo| == tempoRegs.Length && |drums| == drumRegs.Length && |sampler| == samplerRegs.Length
      requires SentSoFar(i, tempo, drums, sampler, statuses, sent)
      modifies this, wire
      ensures Valid() && slaves == old(slaves) && wire.replies == old(wire.replies)
      ensures SentSoFar(i + 1, tempo, drums, sampler, statuses, sent)
    {
      ghost var w := SetRound(i, tempo, drums, sampler, statuses);
      SetSlave(i, tempo, drums, sampler);
      ghost var step := SlaveWrite(i, tempo, drums, sampler, Drop(statuses, w.1));
      assert sent + w.0 + step.0 == sent + (w.0 + step.0);
      DropDrop(statuses, w.1, step.1);
    }

    /** `startClock()`: "start" to the tempo slave. */
    method StartClock()
      requires Valid()
      modifies this, wire
      ensures Valid() && slaves == old(slaves)
      ensures wire.sent == old(wire.sent) + [Transmission(SLAVE_ADDR_TEMPO, START_COMMAND)]
      ensures wire.statuses == Drop(old(wire.statuses), 1) && wire.replies == old(wire.replies)
    {
      var s := slaves[0];
      slaves := slaves[0 := s.(requestInProgress := true)];
      wire.BeginTransmission(slaves[0].address);
      wire.Write(START_COMMAND);
      var result := wire.EndTransmission();
      slaves := slaves[0 := slaves[0].(requestInProgress := false)];
      assert [] + START_COMMAND == START_COMMAND;
    }

    /** `stopClock()`: "stop" to the tempo slave. */
    method StopClock()
      requires Valid()
      modifies this, wire
      ensures Valid() && slaves == old(slaves)
      ensures wire.sent == old(wire.sent) + [Transmission(SLAVE_ADDR_TEMPO, STOP_COMMAND)]
      ensures wire.statuses == Drop(old(wire.statuses), 1) && wire.replies == old(wire.replies)
    {
      var s := slaves[0];
      slaves := slaves[0 := s.(requestInProgress := true)];
      wire.BeginTransmission(slaves[0].address);
      wire.Write(STOP_COMMAND);
      var result := wire.EndTransmission();
      slaves := slaves[0 := slaves[0].(requestInProgress := false)];
      assert [] + STOP_COMMAND == STOP_COMMAND;
    }
  }

  /** One settled slave keeps the table settled. */
  lemma PollRoundSettledStep(slaves: seq<KosmoSlave>, i: nat, now: u32, ok: bool)
    requires Settled(slaves) && i < |slaves|
    ensures Settled(slaves[i := Settle(slaves[i], now, ok)])
  {
    SettleFacts(slaves[i], now, ok);
  }
}
