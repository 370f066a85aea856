/**
 Chunked indexing (`event_indexer.rs`): one polling cycle over a range of u64 block numbers, the
 storing of one chunk's logs, and the arithmetic of the chunks.
 */
module Indexing {
  import opened Prelude
  import opened XdaiCodec
  import opened EventLogs
  import opened Relay

  newtype u64 = x: int | 0 <= x < 0x1_0000_0000_0000_0000

  const U64_MAX: int := 0xffff_ffff_ffff_ffff

  // ----- which bridge -----

  /** The four bridge addresses of the configuration. */
  datatype Bridges = Bridges(ethAmb: Address, gcAmb: Address, ethXdai: Address, gcXdai: Address)

  /** `check_bridge_mode`. */
  function CheckBridgeMode(b: Bridges, contract: Address): BridgeMode {
    if contract == b.ethAmb then AmbEth
    else if contract == b.gcAmb then AmbGc
    else if contract == b.ethXdai then XdaiEth
    else if contract == b.gcXdai then XdaiGc
    else Unknown
  }

  /** The four indexers of `main` carry four different modes exactly when the four addresses differ. */
  lemma FourModes(b: Bridges)
    ensures (CheckBridgeMode(b, b.ethAmb) == AmbEth && CheckBridgeMode(b, b.gcAmb) == AmbGc
             && CheckBridgeMode(b, b.ethXdai) == XdaiEth && CheckBridgeMode(b, b.gcXdai) == XdaiGc)
            <==> |{b.ethAmb, b.gcAmb, b.ethXdai, b.gcXdai}| == 4
  {
  }

  // ----- logs -----

  /** A log as the provider returns it. */
  datatype ChainLog = ChainLog(
    blockNumber: Option<int>, blockHash: Option<Hash>, txHash: Option<Hash>,
    logIndex: Option<nat>, hasTopic: bool, data: LogData)

  /** Logs without an index or a first topic are skipped. */
  predicate Eligible(log: ChainLog) { log.logIndex.Some? && log.hasTopic }

  function LogKey(log: ChainLog): Key
    requires Eligible(log)
  {
    (log.txHash, log.logIndex.value)
  }

  function RowFor(mode: BridgeMode, blockMode: BlockMode, log: ChainLog): Row
    requires Eligible(log)
  {
    Row(mode, log.data, log.blockNumber, log.blockHash, log.txHash, log.logIndex.value,
        false, 0, Home, if blockMode == Fcr then Some(Pending) else None)
  }

  /** Storing one eligible log: serialization may fail, and so may the INSERT, which is only logged. */
  datatype StoreOutcome = Stored | InsertFails | SerializeFails

  function StoreOne(t: Table, mode: BridgeMode, blockMode: BlockMode, log: ChainLog, o: StoreOutcome): Table {
    if Eligible(log) && o.Stored? then Insert(t, RowFor(mode, blockMode, log)) else t
  }

  /** The row has the fields of the log: block number and hash, transaction, index and data, and it is of that bridge. */
  predicate MadeFrom(r: Row, mode: BridgeMode, log: ChainLog) {
    && r.mode == mode && r.log == log.data && r.blockNumber == log.blockNumber && r.blockHash == log.blockHash
    && r.txHash == log.txHash && log.logIndex == Some(r.logIndex)
  }

  /** A live row has the log's transaction hash and log index; NULL hashes do not count. */
  predicate TakenBy(t: Table, log: ChainLog) {
    log.txHash.Some? && exists i :: 0 <= i < |t| && t[i].live && t[i].row.txHash == log.txHash && log.logIndex == Some(t[i].row.logIndex)
  }

  /**
   Storing a log appends one live, unclaimed row made from it, pending exactly in fcr mode, and leaves the others.
   That happens when the log has an index and a topic, the INSERT goes through and no live row has its key; otherwise
   nothing happens.
   */
  lemma StoringOneLog(t: Table, mode: BridgeMode, blockMode: BlockMode, log: ChainLog, o: StoreOutcome)
    ensures var t' := StoreOne(t, mode, blockMode, log, o);
            if log.logIndex.Some? && log.hasTopic && o.Stored? && !TakenBy(t, log) then
              && |t'| == |t| + 1 && t'[..|t|] == t
              && var slot := t'[|t|];
                 && slot.live && slot.claims == 0 && MadeFrom(slot.row, mode, log)
                 && !slot.row.claimed && slot.row.retries == 0 && slot.row.stage == Home
                 && slot.row.fcr == (if blockMode == Fcr then Some(Pending) else None)
            else t' == t
  {
    if Eligible(log) { assert TakenBy(t, log) <==> Conflicts(t, RowFor(mode, blockMode, log)); }
  }

  datatype FetchAnswer = RpcError | Logs(logs: seq<ChainLog>)

  /** One `eth_getLogs` answer and what happens to each of its logs. */
  datatype Call = Call(answer: FetchAnswer, outcomes: nat -> StoreOutcome)

  predicate Abandoned(log: ChainLog, o: StoreOutcome) { Eligible(log) && o.SerializeFails? }

  /** The logs of the call that are dealt with before the first one that cannot be serialized. */
  function DealtWith(logs: seq<ChainLog>, outcomes: nat -> StoreOutcome, n: nat): (k: nat)
    requires n <= |logs|
    ensures n <= k <= |logs|
    ensures forall i :: n <= i < k ==> !Abandoned(logs[i], outcomes(i))
    ensures k < |logs| ==> Abandoned(logs[k], outcomes(k))
    decreases |logs| - n
  {
    if n == |logs| || Abandoned(logs[n], outcomes(n)) then n else DealtWith(logs, outcomes, n + 1)
  }

  predicate CallSucceeds(c: Call) {
    c.answer.Logs? && DealtWith(c.answer.logs, c.outcomes, 0) == |c.answer.logs|
  }

  function StoreUpTo(t: Table, mode: BridgeMode, blockMode: BlockMode, logs: seq<ChainLog>, outcomes: nat -> StoreOutcome, n: nat): Table
    requires n <= |logs|
  {
    if n == 0 then t else
      StoreOne(StoreUpTo(t, mode, blockMode, logs, outcomes, n - 1), mode, blockMode, logs[n - 1], outcomes(n - 1))
  }

  function CallTable(t: Table, mode: BridgeMode, blockMode: BlockMode, c: Call): Table {
    match c.answer
    case RpcError => t
    case Logs(logs) => StoreUpTo(t, mode, blockMode, logs, c.outcomes, DealtWith(logs, c.outcomes, 0))
  }

  function CallsTable(t: Table, mode: BridgeMode, blockMode: BlockMode, calls: nat -> Call, n: nat): Table {
    if n == 0 then t else CallTable(CallsTable(t, mode, blockMode, calls, n - 1), mode, blockMode, calls(n - 1))
  }

  // ----- chunk arithmetic -----

  /** The first cycle starts at its own bound; later ones just past the cursor. */
  function StartBlock(cursor: int, upper: int): int { if cursor == 0 then upper else cursor + 1 }

  function SatAdd(a: int, b: int): int { Min(a + b, U64_MAX) }

  function SatSub(a: int, b: int): int { if a < b then 0 else a - b }

  function ChunkEnd(from: int, range: int, upper: int): int { Min(SatAdd(from, range - 1), upper) }

  /** The length of `k` full chunks: k * range. */
  function Span(range: int, k: nat): int { if k == 0 then 0 else Span(range, k - 1) + range }

  lemma {:induction false} SpanIsProduct(range: int, k: nat)
    ensures Span(range, k) == k * range
  {
    if k == 0 {
    } else {
      SpanIsProduct(range, k - 1);
      assert k * range == (k - 1) * range + range;
    }
  }

  /** The k-th chunk of [start, upper]. */
  function Chunk(start: int, upper: int, range: int, k: nat): (int, int) {
    (start + Span(range, k), Min(start + Span(range, k) + range - 1, upper))
  }

  /** The first `n` chunks of [start, upper], in order. */
  function FirstChunks(start: int, upper: int, range: int, n: nat): seq<(int, int)> {
    if n == 0 then [] else FirstChunks(start, upper, range, n - 1) + [Chunk(start, upper, range, n - 1)]
  }

  lemma {:induction false} FirstChunksAt(start: int, upper: int, range: int, n: nat)
    ensures |FirstChunks(start, upper, range, n)| == n
    ensures forall k :: 0 <= k < n ==> FirstChunks(start, upper, range, n)[k] == Chunk(start, upper, range, k)
  {
    if n == 0 {
    } else {
      FirstChunksAt(start, upper, range, n - 1);
    }
  }

  /** The number of chunks in [start, upper]. */
  function ChunkCount(start: int, upper: int, range: int): nat
    requires range >= 1
    decreases upper - start + 1
  {
    if upper < start then 0 else 1 + ChunkCount(start + range, upper, range)
  }

  lemma {:induction false} SpanShift(range: int, k: nat)
    ensures Span(range, k + 1) == range + Span(range, k)
  {
    if k == 0 {
    } else {
      SpanShift(range, k - 1);
    }
  }

  /** Skipping k chunks that start inside the range leaves k fewer to count. */
  lemma {:induction false} CountShift(start: int, upper: int, range: int, k: nat)
    requires range >= 1 && (k == 0 || start + Span(range, k - 1) <= upper)
    ensures ChunkCount(start, upper, range) == k + ChunkCount(start + Span(range, k), upper, range)
    decreases k
  {
    if k == 1 {
      SpanShift(range, 0);
    } else if k > 1 {
      SpanShift(range, k - 1);
      SpanShift(range, k - 2);
      SpanGrows(range, k - 1);
      CountShift(start + range, upper, range, k - 1);
    }
  }

  lemma {:induction false} SpanGrows(range: int, k: nat)
    requires range >= 1
    ensures k <= Span(range, k)
  {
    if k == 0 {
    } else {
      SpanGrows(range, k - 1);
    }
  }

  /** As many chunks as ceil((upper - start + 1) / range). */
  lemma {:induction false} ChunkCountIsCeiling(start: int, upper: int, range: int)
    requires range >= 1 && start <= upper + 1
    ensures ChunkCount(start, upper, range) == (upper - start + range) / range
    decreases upper - start + 1
  {
    if start == upper + 1 {
      DivideBetween(range - 1, range, 0);
    } else if start + range > upper {
      DivideBetween(upper - start + range, range, 1);
    } else {
      ChunkCountIsCeiling(start + range, upper, range);
      var n, q := upper - start + range, ChunkCount(start + range, upper, range);
      var m := n - range;
      assert m == q * range + m % range;
      DivideBetween(n, range, q + 1);
    }
  }

  /** The chunk computed with saturating arithmetic is the k-th one, and leads to the next or is the last. */
  lemma ChunkStep(start: int, upper: int, range: int, k: nat)
    requires range >= 1 && 0 <= start && Chunk(start, upper, range, k).0 <= upper <= U64_MAX
    ensures k < ChunkCount(start, upper, range)
    ensures ChunkEnd(Chunk(start, upper, range, k).0, range, upper) == Chunk(start, upper, range, k).1
    ensures Chunk(start, upper, range, k).1 < upper ==>
              Chunk(start, upper, range, k).1 + 1 == Chunk(start, upper, range, k + 1).0
    ensures Chunk(start, upper, range, k).1 == upper ==> ChunkCount(start, upper, range) == k + 1
  {
    CountShift(start, upper, range, k);
  }

  /** After k good chunks out of more, exactly k * range blocks are indexed; after all of them, the whole range is. */
  lemma ProgressAfter(start: int, upper: int, range: int, k: nat)
    requires range >= 1 && start <= upper && 1 <= k <= ChunkCount(start, upper, range)
    ensures Chunk(start, upper, range, k - 1).1 == Min(upper, start - 1 + k * range)
    ensures Chunk(start, upper, range, k - 1).1 == upper <==> k == ChunkCount(start, upper, range)
  {
    SpanIsProduct(range, k - 1);
    assert (k - 1) * range + range == k * range;
    EarlierChunksInside(start, upper, range, k - 1);
    CountShift(start, upper, range, k - 1);
  }

  /** Every counted chunk starts inside the range. */
  lemma {:induction false} EarlierChunksInside(start: int, upper: int, range: int, k: nat)
    requires range >= 1 && k < ChunkCount(start, upper, range)
    ensures start + Span(range, k) <= upper
    decreases k
  {
    if k == 0 {
    } else {
      SpanShift(range, k - 1);
      EarlierChunksInside(start + range, upper, range, k - 1);
    }
  }

  /** Every block of the range lies in exactly one chunk, and no chunk is longer than the limit. */
  lemma ChunksTile(start: int, upper: int, range: int, b: int) returns (k: nat)
    requires 1 <= range && start <= b <= upper
    ensures k < ChunkCount(start, upper, range)
    ensures Chunk(start, upper, range, k).0 <= b <= Chunk(start, upper, range, k).1
    ensures Chunk(start, upper, range, k).1 - Chunk(start, upper, range, k).0 < range
    ensures forall j: nat :: Chunk(start, upper, range, j).0 <= b <= Chunk(start, upper, range, j).1 ==> j == k
  {
    k := (b - start) / range;
    assert b - start == k * range + (b - start) % range;
    SpanIsProduct(range, k);
    forall j: nat | Chunk(start, upper, range, j).0 <= b <= Chunk(start, upper, range, j).1 ensures j == k {
      SpanIsProduct(range, j);
      DivideBetween(b - start, range, j);
    }
    CountShift(start, upper, range, k);
  }

  ghost predicate AllSucceed(calls: nat -> Call, n: nat) {
    forall k :: 0 <= k < n ==> CallSucceeds(calls(k))
  }

  /** Of the chunks of [start, upper], exactly the first `good` succeed before one fails. */
  ghost predicate GoodChunks(start: int, upper: int, range: int, calls: nat -> Call, good: nat)
    requires range >= 1
  {
    && good <= ChunkCount(start, upper, range)
    && AllSucceed(calls, good)
    && (good < ChunkCount(start, upper, range) ==> !CallSucceeds(calls(good)))
  }

  /** The number of eth_getLogs calls: the failed one counts too. */
  function Issued(start: int, upper: int, range: int, good: nat): nat
    requires range >= 1
  {
    if good < ChunkCount(start, upper, range) then good + 1 else good
  }

  // ----- the indexer -----

  datatype IndexError = IndexError

  class EventIndexer {
    const mode: BridgeMode
    const blockMode: BlockMode
    const maxBlockRange: u64
    var cursor: u64
    var table: Table
    /** The block ranges eth_getLogs was asked for, in order. */
    ghost var asked: seq<(int, int)>

    /** `positive_u64_from_env` guarantees a chunk size of at least 1. */
    predicate Valid() { maxBlockRange >= 1 }

    constructor (mode: BridgeMode, blockMode: BlockMode, maxBlockRange: u64, table: Table)
      requires maxBlockRange >= 1
      ensures Valid() && cursor == 0 && this.table == table && asked == []
      ensures this.mode == mode && this.blockMode == blockMode && this.maxBlockRange == maxBlockRange
    {
      this.mode, this.blockMode, this.maxBlockRange := mode, blockMode, maxBlockRange;
      this.cursor, this.table, this.asked := 0, table, [];
    }

    /** `index_block_range`: ask for the logs of from..to and store them in order, giving up at the first one that cannot be serialized. */
    method IndexBlockRange(from: u64, to: u64, c: Call) returns (r: Result<(), IndexError>)
      modifies this`table, this`asked
      ensures asked == old(asked) + [(from as int, to as int)]
      ensures table == CallTable(old(table), mode, blockMode, c)
      ensures r.Ok? <==> CallSucceeds(c)
    {
      asked := asked + [(from as int, to as int)];
      if c.answer.RpcError? { return Err(IndexError); }
      var logs := c.answer.logs;
      ghost var end := DealtWith(logs, c.outcomes, 0);
      for n := 0 to |logs|
        invariant n <= end && asked == old(asked) + [(from as int, to as int)]
        invariant table == StoreUpTo(old(table), mode, blockMode, logs, c.outcomes, n)
      {
        if logs[n].logIndex.None? { continue; }
        if logs[n].hasTopic {
          match c.outcomes(n) {
            case SerializeFails => return Err(IndexError);
            case Stored => table := Insert(table, RowFor(mode, blockMode, logs[n]));
            case InsertFails =>
          }
        }
      }
      r := Ok(());
    }

    /** `good` chunks of the range succeeded, the next one, if there is one, failed, and `r` is what that means. */
    ghost predicate Polled(start: int, upper: int, calls: nat -> Call, r: Result<u64, IndexError>, good: nat)
      requires Valid()
    {
      && GoodChunks(start, upper, maxBlockRange as int, calls, good)
      && (good == 0 ==> r.Err?)
      && (good > 0 ==> r.Ok? && r.value as int == Chunk(start, upper, maxBlockRange as int, good - 1).1 >= start)
    }

    /**
     `poll_events`: index (lastProcessed, upper] chunk by chunk. Everything is computed in u64 and nothing overflows.
     */
    method PollEvents(lastProcessed: u64, upper: u64, calls: nat -> Call) returns (r: Result<u64, IndexError>, good: nat)
      requires Valid()
      modifies this`table, this`asked
      ensures upper <= lastProcessed ==> r == Ok(lastProcessed) && good == 0 && table == old(table) && asked == old(asked)
      ensures upper > lastProcessed ==>
                Polled(StartBlock(lastProcessed as int, upper as int), upper as int, calls, r, good)
      ensures upper > lastProcessed ==>
                var start := StartBlock(lastProcessed as int, upper as int);
                var n := Issued(start, upper as int, maxBlockRange as int, good);
                CallsMade(old(table), old(asked), start, upper as int, calls, n)
    {
      if upper <= lastProcessed { return Ok(lastProcessed), 0; }
      var startBlock := if lastProcessed == 0 then upper else lastProcessed + 1;
      var totalBlocks := upper - startBlock + 1;
      r, good := IndexChunks(startBlock, upper, calls);
    }

    /** One turn of the chunk loop: the end of the chunk, saturating, and its logs. */
    method IndexChunk(ghost startBlock: u64, upper: u64, chunkStart: u64, calls: nat -> Call, k: nat, ghost t0: Table,
                      ghost asked0: seq<(int, int)>)
      returns (chunkEnd: u64, r: Result<(), IndexError>)
      requires Valid() && chunkStart <= upper && Called(t0, asked0, startBlock as int, upper as int, calls, k)
      requires chunkStart as int == Chunk(startBlock as int, upper as int, maxBlockRange as int, k).0
      modifies this`table, this`asked
      ensures var start, end, range := startBlock as int, upper as int, maxBlockRange as int;
              && chunkStart <= chunkEnd && (chunkStart as int, chunkEnd as int) == Chunk(start, end, range, k)
              && (chunkEnd < upper ==> chunkEnd as int + 1 == Chunk(start, end, range, k + 1).0)
              && (chunkEnd >= upper ==> chunkEnd == upper && ChunkCount(start, end, range) == k + 1)
              && (if r.Ok? then Called(t0, asked0, start, end, calls, k + 1)
                  else GoodChunks(start, end, range, calls, k) && CallsMade(t0, asked0, start, end, calls, Issued(start, end, range, k)))
    {
      ChunkStep(startBlock as int, upper as int, maxBlockRange as int, k);
      chunkEnd := ChunkEnd(chunkStart as int, maxBlockRange as int, upper as int) as u64;
      r := IndexBlockRange(chunkStart, chunkEnd, calls(k));
    }

    /** The chunk loop of `poll_events`. */
    method IndexChunks(startBlock: u64, upper: u64, calls: nat -> Call) returns (r: Result<u64, IndexError>, good: nat)
      requires Valid() && 1 <= startBlock <= upper
      modifies this`table, this`asked
      ensures Polled(startBlock as int, upper as int, calls, r, good)
      ensures CallsMade(old(table), old(asked), startBlock as int, upper as int, calls,
                        Issued(startBlock as int, upper as int, maxBlockRange as int, good))
    {
      good := 0;
      ghost var start, end, range := startBlock as int, upper as int, maxBlockRange as int;
      var indexedThrough := SatSub(startBlock as int, 1) as u64;
      var chunkStart := startBlock;
      while chunkStart <= upper
        invariant chunkStart <= upper ==>
                    chunkStart as int == Chunk(start, end, range, good).0 && indexedThrough as int == chunkStart as int - 1
        invariant chunkStart > upper ==> good == ChunkCount(start, end, range)
        invariant chunkStart >= startBlock && (good == 0 ==> chunkStart == startBlock)
        invariant good > 0 ==> indexedThrough as int == Chunk(start, end, range, good - 1).1 >= start
        invariant Called(old(table), old(asked), start, end, calls, good)
        decreases end - chunkStart as int
      {
        var chunkEnd, indexed := IndexChunk(startBlock, upper, chunkStart, calls, good, old(table), old(asked));
        if indexed.Err? {
          if indexedThrough >= startBlock { return Ok(indexedThrough), good; }
          return Err(IndexError), good;
        }
        indexedThrough := chunkEnd;
        good := good + 1;
        if chunkEnd == 0xffff_ffff_ffff_ffff { break; }
        chunkStart := chunkEnd + 1;
      }
      r := Ok(indexedThrough);
    }

    /** The first `n` calls of the range were made, each for its chunk. */
    ghost predicate CallsMade(t0: Table, asked0: seq<(int, int)>, start: int, upper: int, calls: nat -> Call, n: nat)
      reads this
    {
      && table == CallsTable(t0, mode, blockMode, calls, n)
      && asked == asked0 + FirstChunks(start, upper, maxBlockRange as int, n)
    }

    /** And succeeded. */
    ghost predicate Called(t0: Table, asked0: seq<(int, int)>, start: int, upper: int, calls: nat -> Call, n: nat)
      reads this
    {
      AllSucceed(calls, n) && CallsMade(t0, asked0, start, upper, calls, n)
    }

    /** One turn of `start`: a bound that could not be resolved, or a failed first chunk, leaves the cursor alone. */
    method Cycle(bound: Option<int>, calls: nat -> Call) returns (good: nat)
      requires Valid()
      requires bound.Some? ==> -0x8000_0000_0000_0000 <= bound.value < 0x8000_0000_0000_0000
      modifies this`cursor, this`table, this`asked
      ensures bound.None? || bound.value <= old(cursor) as int ==>
                good == 0 && cursor == old(cursor) && table == old(table) && asked == old(asked)
      ensures bound.Some? && bound.value > old(cursor) as int ==>
                var start, range := StartBlock(old(cursor) as int, bound.value), maxBlockRange as int;
                var n := Issued(start, bound.value, range, good);
                && GoodChunks(start, bound.value, range, calls, good)
                && CallsMade(old(table), old(asked), start, bound.value, calls, n)
                && cursor as int == (if good == 0 then old(cursor) as int else Min(bound.value, start - 1 + good * range))
                && (good > 0 ==> cursor > old(cursor))
                && (cursor as int == bound.value <==> good == ChunkCount(start, bound.value, range))
    {
      good := 0;
      if bound.None? { return; }
      var upper := (if bound.value < 0 then 0 else bound.value) as u64;
      var polled;
      polled, good := PollEvents(cursor, upper, calls);
      if upper > cursor {
        ghost var start := StartBlock(cursor as int, upper as int);
        if good > 0 { ProgressAfter(start, upper as int, maxBlockRange as int, good); }
        assert ChunkCount(start, upper as int, maxBlockRange as int) > 0;
      }
      if polled.Ok? { cursor := polled.value; }
    }
  }
}
