/**
 The `event_logs` and `fcr_false_positives` tables and the statements the services run on them.

 A table is a sequence of slots: the row with SERIAL id `k` is slot `k`. A deleted row
 leaves its slot behind with `live == false`, which lets properties of whole runs speak
 about rows that are gone. `claims` counts the committed claims of the row.
 */
module EventLogs {
  import opened Prelude
  import opened XdaiCodec

  type Hash = string

  datatype Net = Eth | Gc

  datatype BridgeMode = AmbEth | AmbGc | XdaiEth | XdaiGc | Unknown

  /** The chain a mode is indexed on; everything that is not ETH-side counts as GC. */
  function NetOf(mode: BridgeMode): Net {
    if mode == AmbEth || mode == XdaiEth then Eth else Gc
  }

  /** `bridge_modes_for_chain`. */
  predicate InNet(mode: BridgeMode, net: Net) {
    match net
    case Eth => mode == AmbEth || mode == XdaiEth
    case Gc => mode == AmbGc || mode == XdaiGc
  }

  datatype Stage = Home | Foreign

  datatype FcrStatus = Pending | Confirmed | Reverted

  /** The stored log, seen through the decoder: either it does not parse, or it is one of the four events. */
  datatype LogData =
    | Garbled
    | AmbAffirmation(encodedData: seq<byte>)
    | AmbSignature(encodedData: seq<byte>)
    | XdaiAffirmation(recipient: Address, value: U256, nonce: Bytes32)
    | XdaiSignature(recipient: Address, value: U256, nonce: Bytes32, token: Address)

  datatype Row = Row(
    mode: BridgeMode,
    log: LogData,
    blockNumber: Option<int>,
    blockHash: Option<Hash>,
    txHash: Option<Hash>,
    logIndex: nat,
    claimed: bool,
    retries: nat,
    stage: Stage,
    fcr: Option<FcrStatus>)

  /** What the UNIQUE constraint on (transaction_hash, log_index) looks at. */
  type Key = (Option<Hash>, nat)

  function RowKey(r: Row): Key { (r.txHash, r.logIndex) }

  datatype Slot = Slot(row: Row, live: bool, claims: nat)

  type Table = seq<Slot>

  // ----- statements of the indexer, the processors and the sender -----

  /** Unique on (transaction_hash, log_index); NULL hashes never collide. */
  predicate Conflicts(t: Table, row: Row) {
    row.txHash.Some? &&
    exists i :: 0 <= i < |t| && t[i].live && t[i].row.txHash == row.txHash && t[i].row.logIndex == row.logIndex
  }

  /** INSERT ... ON CONFLICT DO NOTHING. */
  function Insert(t: Table, row: Row): Table {
    if Conflicts(t, row) then t else t + [Slot(row, true, 0)]
  }

  predicate LiveAt(t: Table, id: nat) { id < |t| && t[id].live }

  predicate ClaimedAt(t: Table, id: nat) { LiveAt(t, id) && t[id].row.claimed }

  predicate Claimable(t: Table, ceiling: nat, id: nat) {
    LiveAt(t, id) && !t[id].row.claimed && t[id].row.retries < ceiling
  }

  /** ORDER BY block_number ASC, log_index ASC, where NULL block numbers sort last. */
  predicate Before(a: Row, b: Row) {
    match (a.blockNumber, b.blockNumber)
    case (Some(x), Some(y)) => x < y || (x == y && a.logIndex < b.logIndex)
    case (Some(_), None) => true
    case (None, Some(_)) => false
    case (None, None) => a.logIndex < b.logIndex
  }

  /** The row FOR UPDATE SKIP LOCKED may hand out while the rows in `locked` are held. */
  ghost predicate NextToClaim(t: Table, ceiling: nat, locked: set<nat>, id: nat) {
    Claimable(t, ceiling, id) && id !in locked &&
    forall j :: 0 <= j < |t| && Claimable(t, ceiling, j) && j !in locked ==> !Before(t[j].row, t[id].row)
  }

  /** The claim query over the first `n` slots: it misses no claimable, unlocked row. */
  function ClaimQuery(t: Table, n: nat, ceiling: nat, locked: set<nat>): (r: Option<nat>)
    requires n <= |t|
    ensures r.None? <==> forall j :: 0 <= j < n && Claimable(t, ceiling, j) ==> j in locked
    ensures r.Some? ==>
              && r.value < n && Claimable(t, ceiling, r.value) && r.value !in locked
              && forall j :: 0 <= j < n && Claimable(t, ceiling, j) && j !in locked ==> !Before(t[j].row, t[r.value].row)
  {
    if n == 0 then None else
      var k, best := n - 1, ClaimQuery(t, n - 1, ceiling, locked);
      if Claimable(t, ceiling, k) && k !in locked && (best.None? || Before(t[k].row, t[best.value].row)) then Some(k) else best
  }

  /** UPDATE ... SET is_processed = 'true'. */
  function Claim(t: Table, id: nat): Table {
    if LiveAt(t, id) then t[id := t[id].(row := t[id].row.(claimed := true), claims := t[id].claims + 1)] else t
  }

  /** `increment_retry_count`. */
  function Release(t: Table, id: nat): Table {
    if LiveAt(t, id) then
      t[id := t[id].(row := t[id].row.(claimed := false, retries := t[id].row.retries + 1))]
    else t
  }

  /** `update_stage(id, "foreign")`. */
  function MarkForeign(t: Table, id: nat): Table {
    if LiveAt(t, id) then t[id := t[id].(row := t[id].row.(stage := Foreign))] else t
  }

  /** `delete_event_log`. */
  function Delete(t: Table, id: nat): Table {
    if LiveAt(t, id) then t[id := t[id].(live := false)] else t
  }

  // ----- statements of the FCR checker -----

  /** One distinct (block_number, block_hash) pair awaiting revalidation. */
  datatype PendingBlock = PendingBlock(number: int, hash: Hash)

  datatype AuditRow = AuditRow(
    net: Net, number: int, storedHash: Hash, canonicalHash: Hash,
    txHash: Option<Hash>, logIndex: nat, logId: nat, detectedAt: int)

  /** The rows `pending_blocks` reads: pending, of this chain, hashed, at or below the finalized block. */
  predicate Adjudicable(s: Slot, net: Net, finalized: int) {
    s.live && InNet(s.row.mode, net) && s.row.fcr == Some(Pending) &&
    s.row.blockHash.Some? && s.row.blockNumber.Some? && s.row.blockNumber.value <= finalized
  }

  function BlockOf(r: Row): PendingBlock
    requires r.blockNumber.Some? && r.blockHash.Some?
  {
    PendingBlock(r.blockNumber.value, r.blockHash.value)
  }

  /** The WHERE clause shared by `mark_confirmed` and `record_false_positive`. */
  predicate Affected(s: Slot, net: Net, block: PendingBlock) {
    s.live && InNet(s.row.mode, net) && s.row.fcr == Some(Pending) &&
    s.row.blockNumber == Some(block.number) && s.row.blockHash == Some(block.hash)
  }

  function SetStatus(t: Table, net: Net, block: PendingBlock, status: FcrStatus): (t': Table)
    ensures |t'| == |t|
  {
    seq(|t|, i requires 0 <= i < |t| =>
      if Affected(t[i], net, block) then t[i].(row := t[i].row.(fcr := Some(status))) else t[i])
  }

  /** Ids of the affected rows among the first `n` slots, ascending. */
  function AffectedIds(t: Table, n: nat, net: Net, block: PendingBlock): (ids: seq<nat>)
    requires n <= |t|
    ensures forall k :: 0 <= k < |ids| ==> ids[k] < n && Affected(t[ids[k]], net, block)
    ensures forall i :: 0 <= i < n && Affected(t[i], net, block) ==> i in ids
    ensures forall j, k :: 0 <= j < k < |ids| ==> ids[j] < ids[k]
  {
    if n == 0 then [] else
      AffectedIds(t, n - 1, net, block) + (if Affected(t[n - 1], net, block) then [n - 1] else [])
  }

  function AuditRowFor(r: Row, id: nat, net: Net, block: PendingBlock, canonical: Hash, finalized: int): AuditRow {
    AuditRow(net, block.number, block.hash, canonical, r.txHash, r.logIndex, id, finalized)
  }

  /** The audit rows one `record_false_positive` inserts. */
  function AuditRows(t: Table, net: Net, block: PendingBlock, canonical: Hash, finalized: int): (rows: seq<AuditRow>)
    ensures |rows| == |AffectedIds(t, |t|, net, block)|
  {
    var ids := AffectedIds(t, |t|, net, block);
    seq(|ids|, k requires 0 <= k < |ids| => AuditRowFor(t[ids[k]].row, ids[k], net, block, canonical, finalized))
  }
}
