/**
 What the indexers have covered in any run: consecutive chunks from the first bound to the cursor, and, on a
 chain in block-finality mode, exactly the logs of those blocks, each stored once.
 */
module Coverage {
  import opened Prelude
  import opened EventLogs
  import opened Relay
  import opened SafeBlocks
  import opened Indexing
  import opened Pipeline
  import opened Ownership
  import opened Auditing

  // ----- the cursor -----

  predicate Tiled(chunks: seq<(int, int)>) {
    (forall j :: 0 <= j < |chunks| ==> chunks[j].0 <= chunks[j].1) &&
    (forall j :: 0 < j < |chunks| ==> chunks[j].0 == chunks[j - 1].1 + 1)
  }

  predicate Cycling(ph: Phase) { ph.Fetching? || ph.Storing? }

  /** The last block of the last chunk that landed. */
  function Upto(me: Indexer): int { if Cycling(me.phase) then me.phase.from - 1 else me.cursor }

  function First(me: Indexer): int { if me.chunks != [] then me.chunks[0].0 else Upto(me) + 1 }

  predicate CycleOk(c: Ctx, me: Indexer)
    requires Cycling(me.phase)
  {
    var ph := me.phase;
    && ph.start == StartBlock(me.cursor, ph.upper) && ph.start <= ph.from <= ph.upper && me.cursor < ph.upper
    && ph.upper <= I64_MAX && ph.upper <= me.highest && ph.through == ph.from - 1
    && (ph.Storing? ==> ph.to == ChunkEnd(ph.from, c.cfg.maxBlockRange, ph.upper))
  }

  ghost predicate CursorOk(c: Ctx, me: Indexer) {
    && 0 <= me.cursor <= me.highest
    && Tiled(me.chunks)
    && (forall j :: 0 <= j < |me.chunks| ==> me.chunks[j].1 - me.chunks[j].0 < c.cfg.maxBlockRange)
    && (me.chunks == [] <==> me.cursor == 0)
    && (me.chunks != [] ==> me.chunks[|me.chunks| - 1].1 == Upto(me) && 1 <= me.chunks[0].0)
    && (Cycling(me.phase) ==> CycleOk(c, me))
  }

  lemma {:induction false} TiledAscends(chunks: seq<(int, int)>)
    requires Tiled(chunks) && chunks != []
    ensures chunks[0].0 <= chunks[|chunks| - 1].1
  {
    var n := |chunks| - 1;
    if n == 0 {
    } else {
      TiledAscends(chunks[..n]);
    }
  }

  /** What has been covered lies before what comes next. */
  lemma FirstBeforeNext(c: Ctx, me: Indexer)
    requires CursorOk(c, me)
    ensures First(me) <= Upto(me) + 1
  {
    if me.chunks != [] { TiledAscends(me.chunks); }
  }

  lemma BeginKeepsCursor(c: Ctx, s: State, mode: BridgeMode, step: IndexStep)
    requires IndexerEnabled(c, s, mode, step) && step.Begin? && CursorOk(c, s.indexers[mode])
    ensures CursorOk(c, IndexerNext(c, s, mode, step))
    ensures s.indexers[mode].cursor == IndexerNext(c, s, mode, step).cursor
  {
  }

  lemma FetchKeepsCursor(c: Ctx, s: State, mode: BridgeMode, step: IndexStep)
    requires IndexerEnabled(c, s, mode, step) && step.Fetch? && c.cfg.maxBlockRange >= 1 && CursorOk(c, s.indexers[mode])
    ensures CursorOk(c, IndexerNext(c, s, mode, step))
    ensures s.indexers[mode].cursor <= IndexerNext(c, s, mode, step).cursor
  {
  }

  lemma StoreKeepsCursor(c: Ctx, s: State, mode: BridgeMode, step: IndexStep)
    requires IndexerEnabled(c, s, mode, step) && (step.Store? || step.Halt?) && CursorOk(c, s.indexers[mode])
    ensures CursorOk(c, IndexerNext(c, s, mode, step))
    ensures s.indexers[mode].cursor <= IndexerNext(c, s, mode, step).cursor
  {
  }

  lemma AdvanceKeepsCursor(c: Ctx, s: State, mode: BridgeMode)
    requires IndexerEnabled(c, s, mode, Advance) && c.cfg.maxBlockRange >= 1 && CursorOk(c, s.indexers[mode])
    ensures CursorOk(c, IndexerNext(c, s, mode, Advance))
    ensures s.indexers[mode].cursor <= IndexerNext(c, s, mode, Advance).cursor
  {
    var me, me' := s.indexers[mode], IndexerNext(c, s, mode, Advance);
    var n := |me.chunks|;
    assert me'.chunks[..n] == me.chunks && me'.chunks[n] == (me.phase.from, me.phase.to);
  }

  lemma StepKeepsCursor(c: Ctx, s: State, mode: BridgeMode, step: IndexStep)
    requires IndexerEnabled(c, s, mode, step) && c.cfg.maxBlockRange >= 1 && CursorOk(c, s.indexers[mode])
    ensures CursorOk(c, IndexerNext(c, s, mode, step))
    ensures s.indexers[mode].cursor <= IndexerNext(c, s, mode, step).cursor
  {
    match step {
      case Begin(_, _) => BeginKeepsCursor(c, s, mode, step);
      case Advance => AdvanceKeepsCursor(c, s, mode);
      case Fetch(_) => FetchKeepsCursor(c, s, mode, step);
      case _ => StoreKeepsCursor(c, s, mode, step);
    }
  }

  /** The chunks start with the single block of the first bound that landed one, and stay at or below the last such bound. */
  predicate BoundsOk(me: Indexer) {
    && (me.chunks == [] <==> me.bounds == [])
    && (me.chunks != [] ==>
          && me.chunks[0] == (me.bounds[0], me.bounds[0])
          && me.chunks[|me.chunks| - 1].1 <= me.bounds[|me.bounds| - 1] <= me.highest)
    && (Cycling(me.phase) && me.phase.from > me.phase.start ==>
          me.bounds != [] && me.bounds[|me.bounds| - 1] == me.phase.upper)
  }

  lemma StepKeepsBounds(c: Ctx, s: State, mode: BridgeMode, step: IndexStep)
    requires IndexerEnabled(c, s, mode, step) && c.cfg.maxBlockRange >= 1
    requires CursorOk(c, s.indexers[mode]) && BoundsOk(s.indexers[mode])
    ensures BoundsOk(IndexerNext(c, s, mode, step))
  {
    match step {
      case Advance => AdvanceKeepsBounds(c, s, mode);
      case _ =>
    }
  }

  lemma AdvanceKeepsBounds(c: Ctx, s: State, mode: BridgeMode)
    requires IndexerEnabled(c, s, mode, Advance) && c.cfg.maxBlockRange >= 1
    requires CursorOk(c, s.indexers[mode]) && BoundsOk(s.indexers[mode])
    ensures BoundsOk(IndexerNext(c, s, mode, Advance))
  {
  }

  // ----- logs of the finalized chain -----

  ghost predicate At(w: World, m: BridgeMode, l: ChainLog, from: int, to: int) {
    exists n, i :: from <= n <= to && 0 <= i < |w.LogsAt(m, n)| && w.LogsAt(m, n)[i] == l
  }

  lemma {:induction false} FinalLogsAreAt(w: World, m: BridgeMode, from: int, to: int, p: nat)
    requires p < |FinalLogs(w, m, from, to)|
    ensures At(w, m, FinalLogs(w, m, from, to)[p], from, to)
    decreases 1 + to - from
  {
    if to < from {
    } else {
      var before := FinalLogs(w, m, from, to - 1);
      if p < |before| {
        FinalLogsAreAt(w, m, from, to - 1, p);
      } else {
        assert w.LogsAt(m, to)[p - |before|] == FinalLogs(w, m, from, to)[p];
      }
    }
  }

  lemma {:induction false} AtIsInFinalLogs(w: World, m: BridgeMode, from: int, to: int, n: int, i: nat)
    requires from <= n <= to && i < |w.LogsAt(m, n)|
    ensures w.LogsAt(m, n)[i] in FinalLogs(w, m, from, to)
    decreases 1 + to - from
  {
    if n == to {
    } else {
      AtIsInFinalLogs(w, m, from, to - 1, n, i);
    }
  }

  lemma {:induction false} FinalLogsSplit(w: World, m: BridgeMode, from: int, mid: int, to: int)
    requires from <= mid + 1 && mid <= to
    ensures FinalLogs(w, m, from, to) == FinalLogs(w, m, from, mid) + FinalLogs(w, m, mid + 1, to)
    decreases 1 + to - mid
  {
    if mid == to {
    } else {
      FinalLogsSplit(w, m, from, mid, to - 1);
    }
  }

  predicate SameKey(a: ChainLog, b: ChainLog) {
    Eligible(a) && Eligible(b) && a.txHash == b.txHash && a.logIndex == b.logIndex
  }

  ghost predicate DistinctKeys(logs: seq<ChainLog>) {
    forall a, b :: 0 <= a < b < |logs| ==> !SameKey(logs[a], logs[b])
  }

  lemma OneBlockDistinct(w: World, m: BridgeMode, n: int)
    requires WellFormed(w) && m in MODES
    ensures DistinctKeys(w.LogsAt(m, n))
  {
    var logs := w.LogsAt(m, n);
    forall a, b | 0 <= a < b < |logs| ensures !SameKey(logs[a], logs[b]) {
      assert WellPlaced(w, m, n, a) && WellPlaced(w, m, n, b);
    }
  }

  lemma OtherBlockDiffers(w: World, m: BridgeMode, from: int, to: int, l: ChainLog, n: int, i: nat)
    requires WellFormed(w) && m in MODES && At(w, m, l, from, to) && to < n && i < |w.LogsAt(m, n)|
    ensures !SameKey(l, w.LogsAt(m, n)[i])
  {
    var n', i' :| from <= n' <= to && 0 <= i' < |w.LogsAt(m, n')| && w.LogsAt(m, n')[i'] == l;
    assert WellPlaced(w, m, n', i') && WellPlaced(w, m, n, i);
  }

  lemma {:induction false} FinalLogsDistinct(w: World, m: BridgeMode, from: int, to: int)
    requires WellFormed(w) && m in MODES
    ensures DistinctKeys(FinalLogs(w, m, from, to))
    decreases 1 + to - from
  {
    if to < from {
    } else {
      var before, last, all := FinalLogs(w, m, from, to - 1), w.LogsAt(m, to), FinalLogs(w, m, from, to);
      FinalLogsDistinct(w, m, from, to - 1);
      OneBlockDistinct(w, m, to);
      forall a, b | 0 <= a < b < |all| ensures !SameKey(all[a], all[b]) {
        if a < |before| <= b {
          FinalLogsAreAt(w, m, from, to - 1, a);
          OtherBlockDiffers(w, m, from, to - 1, all[a], to, b - |before|);
        }
      }
    }
  }

  // ----- keys of rows and logs -----

  /** Keys of the rows of one bridge, in id order, deleted rows included. */
  function StoredKeys(t: Table, m: BridgeMode): seq<Key> {
    if t == [] then [] else
      var n := |t| - 1;
      StoredKeys(t[..n], m) + (if t[n].row.mode == m then [RowKey(t[n].row)] else [])
  }

  function LogKeys(logs: seq<ChainLog>): seq<Key> {
    if logs == [] then [] else
      var n := |logs| - 1;
      LogKeys(logs[..n]) + (if Eligible(logs[n]) then [LogKey(logs[n])] else [])
  }

  lemma {:induction false} StoredKeysSame(t: Table, t': Table, m: BridgeMode)
    requires |t| == |t'| && forall i :: 0 <= i < |t| ==> SameOrigin(t[i].row, t'[i].row)
    ensures StoredKeys(t, m) == StoredKeys(t', m)
  {
    if t == [] {
    } else {
      StoredKeysSame(t[..|t| - 1], t'[..|t| - 1], m);
    }
  }

  lemma {:induction false} KeyOfSlot(t: Table, m: BridgeMode, i: nat)
    requires i < |t| && t[i].row.mode == m
    ensures RowKey(t[i].row) in StoredKeys(t, m)
  {
    if i == |t| - 1 {
    } else {
      KeyOfSlot(t[..|t| - 1], m, i);
    }
  }

  lemma {:induction false} SlotOfKey(t: Table, m: BridgeMode, k: Key) returns (i: nat)
    requires k in StoredKeys(t, m)
    ensures i < |t| && t[i].row.mode == m && RowKey(t[i].row) == k
  {
    var n := |t| - 1;
    if k in StoredKeys(t[..n], m) { i := SlotOfKey(t[..n], m, k); } else { i := n; }
  }

  lemma {:induction false} LogOfKey(logs: seq<ChainLog>, k: Key) returns (p: nat)
    requires k in LogKeys(logs)
    ensures p < |logs| && Eligible(logs[p]) && LogKey(logs[p]) == k
  {
    var n := |logs| - 1;
    if k in LogKeys(logs[..n]) { p := LogOfKey(logs[..n], k); } else { p := n; }
  }

  lemma {:induction false} KeyOfLog(logs: seq<ChainLog>, p: nat)
    requires p < |logs| && Eligible(logs[p])
    ensures LogKey(logs[p]) in LogKeys(logs)
  {
    if p == |logs| - 1 {
    } else {
      KeyOfLog(logs[..|logs| - 1], p);
    }
  }

  /** Among logs with distinct keys, none before position q has the key at q. */
  lemma KeyNotBefore(logs: seq<ChainLog>, q: nat)
    requires DistinctKeys(logs) && q < |logs| && Eligible(logs[q])
    ensures LogKey(logs[q]) !in LogKeys(logs[..q])
  {
    var k := LogKey(logs[q]);
    if k in LogKeys(logs[..q]) {
      var p := LogOfKey(logs[..q], k);
    }
  }

  lemma LogKeysSnoc(logs: seq<ChainLog>, l: ChainLog)
    ensures LogKeys(logs + [l]) == LogKeys(logs) + (if Eligible(l) then [LogKey(l)] else [])
  {
    assert (logs + [l])[..|logs|] == logs;
  }

  lemma StoredKeysSnoc(t: Table, x: Slot, m: BridgeMode)
    ensures StoredKeys(t + [x], m) == StoredKeys(t, m) + (if x.row.mode == m then [RowKey(x.row)] else [])
  {
    assert (t + [x])[..|t|] == t;
  }

  lemma {:induction false} LogKeysConcat(a: seq<ChainLog>, b: seq<ChainLog>)
    ensures LogKeys(a + b) == LogKeys(a) + LogKeys(b)
  {
    if b == [] {
      assert a + b == a;
    } else {
      var n := |b| - 1;
      LogKeysConcat(a, b[..n]);
      LogKeysSnoc(a + b[..n], b[n]);
      assert a + b == (a + b[..n]) + [b[n]];
    }
  }

  // ----- stored keys against the keys gone through -----

  ghost predicate Repeats(keys: seq<Key>) { exists a, b :: 0 <= a < b < |keys| && keys[a] == keys[b] }

  /**
   Every key gone through is stored or had a failed INSERT. As long as no chunk was given up, it is exactly one of
   the two, and nothing is stored twice or from elsewhere.
   */
  ghost predicate KeysOk(stored: seq<Key>, passed: seq<Key>, failed: set<Key>, abandoned: bool) {
    && (forall k :: k in passed ==> k in stored || k in failed)
    && (!abandoned ==>
          && !Repeats(stored)
          && (forall k :: k in stored ==> k in passed && k !in failed)
          && (forall k :: k in failed ==> k in passed))
  }

  lemma KeyStored(stored: seq<Key>, passed: seq<Key>, failed: set<Key>, abandoned: bool, k: Key)
    requires KeysOk(stored, passed, failed, abandoned) && k !in passed
    ensures KeysOk(stored + [k], passed + [k], failed, abandoned)
  {
    var after := stored + [k];
    if !abandoned {
      forall a, b | 0 <= a < b < |after| ensures after[a] != after[b] {
        assert stored[a] in stored;
        assert b < |stored| ==> !(stored[a] == stored[b]);
      }
    }
  }

  lemma KeyConflicts(stored: seq<Key>, passed: seq<Key>, failed: set<Key>, abandoned: bool, k: Key)
    requires KeysOk(stored, passed, failed, abandoned) && k !in passed && k in stored
    ensures KeysOk(stored, passed + [k], failed, abandoned)
  {
  }

  lemma KeyFails(stored: seq<Key>, passed: seq<Key>, failed: set<Key>, abandoned: bool, k: Key)
    requires KeysOk(stored, passed, failed, abandoned) && k !in passed
    ensures KeysOk(stored, passed + [k], failed + {k}, abandoned)
  {
  }
}
