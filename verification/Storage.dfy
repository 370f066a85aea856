/**
 What the table holds in any run: rows of a block-finality chain are logs of its finalized blocks, no two live
 rows share a key, and the stored keys are accounted for by the logs gone through and the INSERTs that failed.
 */
module Storage {
  import opened Prelude
  import opened EventLogs
  import opened Relay
  import opened SafeBlocks
  import opened Indexing
  import opened Pipeline
  import opened Ownership
  import opened Auditing
  import opened Coverage

  predicate Finality(c: Ctx, m: BridgeMode) { ModeFor(c.cfg, NetOf(m)) == BlockFinality }

  // ----- invariants -----

  /** The row was made from the i-th log of the finalized block n. */
  ghost predicate FromFinal(c: Ctx, r: Row, n: int, i: nat) {
    i < |c.world.LogsAt(r.mode, n)| &&
    var l := c.world.LogsAt(r.mode, n)[i];
    l.hasTopic && MadeFrom(r, r.mode, l)
  }

  ghost predicate RowSource(c: Ctx, finalized: map<Net, int>, r: Row) {
    && r.mode in MODES
    && (r.txHash.Some? ==> c.world.NetOfTx(r.txHash.value) == NetOf(r.mode))
    && (r.fcr.None? <==> Finality(c, r.mode))
    && (Finality(c, r.mode) ==>
          exists n, i :: NetOf(r.mode) in finalized && n <= finalized[NetOf(r.mode)] && FromFinal(c, r, n, i))
  }

  /** The chunk being stored: what is left of it is a suffix of what the finalized chain has there. */
  ghost predicate PhaseSource(c: Ctx, finalized: map<Net, int>, m: BridgeMode, me: Indexer) {
    && (Cycling(me.phase) && Finality(c, m) ==> NetOf(m) in finalized && me.phase.upper <= finalized[NetOf(m)])
    && (me.phase.Storing? ==>
          if Finality(c, m) then Suffix(me.phase.todo, FinalLogs(c.world, m, me.phase.from, me.phase.to))
          else forall l :: l in me.phase.todo && l.txHash.Some? ==> c.world.NetOfTx(l.txHash.value) == NetOf(m))
  }

  predicate Suffix<T(==)>(a: seq<T>, b: seq<T>) { |a| <= |b| && b[|b| - |a|..] == a }

  ghost predicate NoTwoLive(t: Table) {
    forall i, j :: 0 <= i < j < |t| && t[i].live && t[j].live && t[i].row.txHash.Some? ==> RowKey(t[i].row) != RowKey(t[j].row)
  }

  /** The logs of the current chunk that have been dealt with. */
  function DonePart(c: Ctx, m: BridgeMode, me: Indexer): seq<ChainLog> {
    if !me.phase.Storing? then [] else
      var logs := FinalLogs(c.world, m, me.phase.from, me.phase.to);
      if |me.phase.todo| <= |logs| then logs[..|logs| - |me.phase.todo|] else []
  }

  /** All finalized logs the indexer has been through, in order. */
  function Consumed(c: Ctx, m: BridgeMode, me: Indexer): seq<ChainLog> {
    FinalLogs(c.world, m, First(me), Upto(me)) + DonePart(c, m, me)
  }

  ghost predicate StoredOk(c: Ctx, t: Table, m: BridgeMode, me: Indexer) {
    Finality(c, m) ==> KeysOk(StoredKeys(t, m), LogKeys(Consumed(c, m, me)), me.failed, me.abandoned)
  }

  ghost predicate ModeOk(c: Ctx, finalized: map<Net, int>, t: Table, m: BridgeMode, me: Indexer) {
    CursorOk(c, me) && BoundsOk(me) && PhaseSource(c, finalized, m, me) && StoredOk(c, t, m, me)
  }

  ghost predicate RowsOk(c: Ctx, finalized: map<Net, int>, t: Table) {
    NoTwoLive(t) && forall x :: x in t ==> RowSource(c, finalized, x.row)
  }

  ghost predicate ModesOk(c: Ctx, finalized: map<Net, int>, t: Table, indexers: map<BridgeMode, Indexer>) {
    indexers.Keys == MODES && forall m :: m in MODES ==> ModeOk(c, finalized, t, m, indexers[m])
  }

  ghost predicate Indexed(c: Ctx, s: State) {
    && c.cfg.maxBlockRange >= 1
    && s.finalized.Keys == {Eth, Gc}
    && ModesOk(c, s.finalized, s.table, s.indexers)
    && RowsOk(c, s.finalized, s.table)
  }

  // ----- everybody else's steps -----

  /** No row is added, and what a row came from stays. */
  ghost predicate OriginsStable(t: Table, t': Table) {
    |t| == |t'| && forall i :: 0 <= i < |t| ==>
      SameOrigin(t[i].row, t'[i].row) && (t'[i].live ==> t[i].live) && (t[i].row.fcr.None? <==> t'[i].row.fcr.None?)
  }

  lemma SourceStable(c: Ctx, f: map<Net, int>, f': map<Net, int>, r: Row, r': Row)
    requires FinalizedGrows(f, f') && RowSource(c, f, r)
    requires SameOrigin(r, r') && (r.fcr.None? <==> r'.fcr.None?)
    ensures RowSource(c, f', r')
  {
    if Finality(c, r.mode) {
      var n, i :| NetOf(r.mode) in f && n <= f[NetOf(r.mode)] && FromFinal(c, r, n, i);
      assert FromFinal(c, r', n, i);
    }
  }

  lemma RowsStableOk(c: Ctx, f: map<Net, int>, f': map<Net, int>, t: Table, t': Table)
    requires RowsOk(c, f, t) && OriginsStable(t, t') && FinalizedGrows(f, f')
    ensures RowsOk(c, f', t')
  {
    forall x | x in t' ensures RowSource(c, f', x.row) {
      var i :| 0 <= i < |t'| && t'[i] == x;
      assert t[i] in t;
      SourceStable(c, f, f', t[i].row, x.row);
    }
  }

  lemma ModeStable(c: Ctx, f: map<Net, int>, f': map<Net, int>, t: Table, t': Table, m: BridgeMode, me: Indexer)
    requires ModeOk(c, f, t, m, me) && OriginsStable(t, t') && FinalizedGrows(f, f')
    ensures ModeOk(c, f', t', m, me)
  {
    StoredKeysSame(t, t', m);
  }

  lemma IndexedStable(c: Ctx, s: State, s': State)
    requires Indexed(c, s) && OriginsStable(s.table, s'.table)
    requires FinalizedGrows(s.finalized, s'.finalized) && s'.finalized.Keys == s.finalized.Keys && s'.indexers == s.indexers
    ensures Indexed(c, s')
  {
    RowsStableOk(c, s.finalized, s'.finalized, s.table, s'.table);
    forall m | m in MODES ensures ModeOk(c, s'.finalized, s'.table, m, s'.indexers[m]) {
      ModeStable(c, s.finalized, s'.finalized, s.table, s'.table, m, s.indexers[m]);
    }
  }

  lemma VerdictKeepsOrigins(t: Table, net: Net, block: PendingBlock, status: FcrStatus)
    ensures OriginsStable(t, SetStatus(t, net, block, status))
  {
  }

  lemma CheckerKeepsIndexed(c: Ctx, s: State, step: CheckStep)
    requires Indexed(c, s) && CheckerEnabled(c, s, step)
    ensures Indexed(c, CheckerDo(c, s, step))
  {
    if step.Write? {
      VerdictKeepsOrigins(s.table, s.checker.net, s.checker.todo[0], Confirmed);
      VerdictKeepsOrigins(s.table, s.checker.net, s.checker.todo[0], Reverted);
    }
    IndexedStable(c, s, CheckerDo(c, s, step));
  }

  lemma ProcessorKeepsIndexed(c: Ctx, s: State, p: nat, step: ProcStep)
    requires Indexed(c, s) && ProcessorEnabled(c, s, p, step)
    ensures Indexed(c, ProcessorDo(c, s, p, step))
  {
    ProcessorTables(c, s, p, step);
    IndexedStable(c, s, ProcessorDo(c, s, p, step));
  }

  lemma SenderKeepsIndexed(c: Ctx, s: State, step: SenderStep)
    requires Indexed(c, s) && SenderEnabled(s, step)
    ensures Indexed(c, SenderDo(c, s, step))
  {
    SenderTables(c, s, step);
    IndexedStable(c, s, SenderDo(c, s, step));
  }

  lemma OutsideKeepsIndexed(c: Ctx, s: State, step: OutsideStep)
    requires Indexed(c, s) && OutsideEnabled(s, step)
    ensures Indexed(c, OutsideDo(s, step))
  {
    IndexedStable(c, s, OutsideDo(s, step));
  }

  // ----- an indexer's step, away from the table -----

  /** Nothing finalized is gone through before the first chunk lands. */
  lemma NothingYet(c: Ctx, m: BridgeMode, me: Indexer)
    requires CursorOk(c, me) && me.chunks == []
    ensures FinalLogs(c.world, m, First(me), Upto(me)) == []
  {
  }

  /** Beginning, fetching and stopping do not change what has been gone through. */
  lemma QuietStepConsumes(c: Ctx, s: State, m: BridgeMode, step: IndexStep)
    requires IndexerEnabled(c, s, m, step) && !step.Store? && !step.Advance? && c.cfg.maxBlockRange >= 1
    requires CursorOk(c, s.indexers[m]) && Finality(c, m)
    ensures Consumed(c, m, IndexerNext(c, s, m, step)) == Consumed(c, m, s.indexers[m])
  {
    var me, me' := s.indexers[m], IndexerNext(c, s, m, step);
    StepKeepsCursor(c, s, m, step);
    if me.chunks == [] {
      NothingYet(c, m, me);
      NothingYet(c, m, me');
    }
    assert me'.phase.Storing? ==> DonePart(c, m, me') == [];
  }

  /** A finished chunk joins the blocks before it. */
  lemma AdvanceConsumes(c: Ctx, s: State, m: BridgeMode)
    requires IndexerEnabled(c, s, m, Advance) && c.cfg.maxBlockRange >= 1 && CursorOk(c, s.indexers[m])
    ensures Consumed(c, m, IndexerNext(c, s, m, Advance)) == Consumed(c, m, s.indexers[m])
  {
    var me, me' := s.indexers[m], IndexerNext(c, s, m, Advance);
    var ph := me.phase;
    assert DonePart(c, m, me) == FinalLogs(c.world, m, ph.from, ph.to);
    assert First(me') == First(me) && Upto(me') == ph.to;
    FirstBeforeNext(c, me);
    FinalLogsSplit(c.world, m, First(me), ph.from - 1, ph.to);
  }

  lemma SuffixTail<T>(a: seq<T>, b: seq<T>)
    requires Suffix(a, b) && a != []
    ensures Suffix(a[1..], b)
  {
    assert b[|b| - |a|..][1..] == b[|b| - |a| + 1..];
  }

  lemma StorePhaseSource(c: Ctx, finalized: map<Net, int>, m: BridgeMode, me: Indexer)
    requires PhaseSource(c, finalized, m, me) && me.phase.Storing? && me.phase.todo != []
    ensures PhaseSource(c, finalized, m, me.(phase := me.phase.(todo := me.phase.todo[1..])))
  {
    if Finality(c, m) { SuffixTail(me.phase.todo, FinalLogs(c.world, m, me.phase.from, me.phase.to)); }
  }

  lemma FetchPhaseSource(c: Ctx, s: State, m: BridgeMode, answer: FetchAnswer)
    requires IndexerEnabled(c, s, m, Fetch(answer)) && PhaseSource(c, s.finalized, m, s.indexers[m])
    ensures PhaseSource(c, s.finalized, m, IndexerNext(c, s, m, Fetch(answer)))
  {
  }

  lemma StepKeepsPhaseSource(c: Ctx, s: State, m: BridgeMode, step: IndexStep)
    requires IndexerEnabled(c, s, m, step) && PhaseSource(c, s.finalized, m, s.indexers[m]) && s.indexers[m].cursor >= 0
    ensures PhaseSource(c, s.finalized, m, IndexerNext(c, s, m, step))
  {
    match step {
      case Fetch(answer) => FetchPhaseSource(c, s, m, answer);
      case Store(_) => StorePhaseSource(c, s.finalized, m, s.indexers[m]);
      case _ =>
    }
  }

  lemma QuietStepKeepsMode(c: Ctx, s: State, m: BridgeMode, step: IndexStep)
    requires Indexed(c, s) && IndexerEnabled(c, s, m, step) && !step.Store?
    ensures ModeOk(c, s.finalized, s.table, m, IndexerNext(c, s, m, step))
  {
    assert ModeOk(c, s.finalized, s.table, m, s.indexers[m]);
    StepKeepsCursor(c, s, m, step);
    StepKeepsBounds(c, s, m, step);
    StepKeepsPhaseSource(c, s, m, step);
    if step.Advance? { AdvanceConsumes(c, s, m); }
    else if Finality(c, m) { QuietStepConsumes(c, s, m, step); }
  }

  lemma SameKeysSameMode(c: Ctx, f: map<Net, int>, t: Table, t': Table, m: BridgeMode, me: Indexer)
    requires ModeOk(c, f, t, m, me) && StoredKeys(t', m) == StoredKeys(t, m)
    ensures ModeOk(c, f, t', m, me)
  {
  }

  /** One indexer's step that keeps its own invariant keeps everybody's. */
  lemma ReplaceIndexer(c: Ctx, finalized: map<Net, int>, t: Table, t': Table, indexers: map<BridgeMode, Indexer>,
                       m: BridgeMode, me': Indexer)
    requires ModesOk(c, finalized, t, indexers) && m in MODES && ModeOk(c, finalized, t', m, me')
    requires forall other :: other != m ==> StoredKeys(t', other) == StoredKeys(t, other)
    ensures ModesOk(c, finalized, t', indexers[m := me'])
  {
    var after := indexers[m := me'];
    assert after.Keys == MODES;
    forall other | other in MODES ensures ModeOk(c, finalized, t', other, after[other]) {
      if other != m { SameKeysSameMode(c, finalized, t, t', other, after[other]); }
    }
  }

  lemma QuietStepKeepsIndexed(c: Ctx, s: State, m: BridgeMode, step: IndexStep)
    requires Indexed(c, s) && IndexerEnabled(c, s, m, step) && !step.Store?
    ensures Indexed(c, IndexerDo(c, s, m, step))
  {
    QuietStepKeepsMode(c, s, m, step);
    ReplaceIndexer(c, s.finalized, s.table, s.table, s.indexers, m, IndexerNext(c, s, m, step));
  }

  // ----- storing a log -----

  /** Only a row of the same bridge can have the key of one of its finalized logs. */
  lemma ConflictIsOurs(c: Ctx, finalized: map<Net, int>, r: Row, m: BridgeMode, n: int, i: nat)
    requires WellFormed(c.world) && m in MODES && Finality(c, m) && RowSource(c, finalized, r)
    requires i < |c.world.LogsAt(m, n)| && Eligible(c.world.LogsAt(m, n)[i])
    requires RowKey(r) == RowKey(RowFor(m, BlockFinality, c.world.LogsAt(m, n)[i]))
    ensures r.mode == m
  {
    assert WellPlaced(c.world, m, n, i);
    assert NetOf(r.mode) == NetOf(m);
    assert Finality(c, r.mode);
    var n': int, i': nat :| FromFinal(c, r, n', i');
    assert FromFinal(c, r, n', i');
    assert i' < |c.world.LogsAt(r.mode, n')|;
    assert WellPlaced(c.world, r.mode, n', i');
  }

  /** The log about to be stored follows, in the finalized chain, what has been gone through. */
  lemma NextLogFollows(c: Ctx, finalized: map<Net, int>, m: BridgeMode, me: Indexer)
    requires CursorOk(c, me) && PhaseSource(c, finalized, m, me) && Finality(c, m)
    requires me.phase.Storing? && me.phase.todo != [] && c.cfg.maxBlockRange >= 1
    ensures var all, q := FinalLogs(c.world, m, First(me), me.phase.to), |Consumed(c, m, me)|;
            q < |all| && all[q] == me.phase.todo[0] && all[..q] == Consumed(c, m, me)
  {
    FirstBeforeNext(c, me);
    FinalLogsSplit(c.world, m, First(me), me.phase.from - 1, me.phase.to);
    var logs := FinalLogs(c.world, m, me.phase.from, me.phase.to);
    assert logs[|logs| - |me.phase.todo|] == logs[|logs| - |me.phase.todo|..][0];
  }

  /** The log about to be stored has a key of its own among those gone through. */
  lemma NextKeyIsNew(c: Ctx, finalized: map<Net, int>, m: BridgeMode, me: Indexer)
    requires WellFormed(c.world) && m in MODES && Finality(c, m)
    requires CursorOk(c, me) && PhaseSource(c, finalized, m, me)
    requires me.phase.Storing? && me.phase.todo != [] && Eligible(me.phase.todo[0]) && c.cfg.maxBlockRange >= 1
    ensures LogKey(me.phase.todo[0]) !in LogKeys(Consumed(c, m, me))
  {
    NextLogFollows(c, finalized, m, me);
    FinalLogsDistinct(c.world, m, First(me), me.phase.to);
    KeyNotBefore(FinalLogs(c.world, m, First(me), me.phase.to), |Consumed(c, m, me)|);
  }

  /** If a row stands in the way of the next log, it is one of this bridge. */
  lemma ConflictIsStored(c: Ctx, finalized: map<Net, int>, t: Table, m: BridgeMode, me: Indexer)
    requires WellFormed(c.world) && m in MODES && Finality(c, m)
    requires CursorOk(c, me) && PhaseSource(c, finalized, m, me)
    requires me.phase.Storing? && me.phase.todo != [] && Eligible(me.phase.todo[0]) && c.cfg.maxBlockRange >= 1
    requires RowsOk(c, finalized, t) && Conflicts(t, RowFor(m, BlockFinality, me.phase.todo[0]))
    ensures LogKey(me.phase.todo[0]) in StoredKeys(t, m)
  {
    var l := me.phase.todo[0];
    var k :| 0 <= k < |t| && t[k].live && t[k].row.txHash == l.txHash && t[k].row.logIndex == l.logIndex.value;
    assert t[k] in t;
    NextLogFollows(c, finalized, m, me);
    FinalLogsAreAt(c.world, m, First(me), me.phase.to, |Consumed(c, m, me)|);
    var n, i :| First(me) <= n <= me.phase.to && 0 <= i < |c.world.LogsAt(m, n)| && c.world.LogsAt(m, n)[i] == l;
    ConflictIsOurs(c, finalized, t[k].row, m, n, i);
    KeyOfSlot(t, m, k);
  }

  lemma StoredRowSource(c: Ctx, finalized: map<Net, int>, m: BridgeMode, me: Indexer)
    requires WellFormed(c.world) && m in MODES && CursorOk(c, me) && PhaseSource(c, finalized, m, me)
    requires me.phase.Storing? && me.phase.todo != [] && Eligible(me.phase.todo[0])
    ensures RowSource(c, finalized, RowFor(m, ModeFor(c.cfg, NetOf(m)), me.phase.todo[0]))
  {
    var ph, l := me.phase, me.phase.todo[0];
    if Finality(c, m) {
      var logs := FinalLogs(c.world, m, ph.from, ph.to);
      FinalLogsAreAt(c.world, m, ph.from, ph.to, |logs| - |ph.todo|);
      var n, i :| ph.from <= n <= ph.to && 0 <= i < |c.world.LogsAt(m, n)| && c.world.LogsAt(m, n)[i] == l;
      assert WellPlaced(c.world, m, n, i);
      assert FromFinal(c, RowFor(m, BlockFinality, l), n, i);
    } else {
      assert l in ph.todo;
    }
  }

  lemma InsertKeepsRows(c: Ctx, finalized: map<Net, int>, t: Table, row: Row)
    requires RowsOk(c, finalized, t) && RowSource(c, finalized, row)
    ensures RowsOk(c, finalized, Insert(t, row))
  {
  }

  lemma StoreOneKeepsRows(c: Ctx, finalized: map<Net, int>, t: Table, m: BridgeMode, me: Indexer, o: StoreOutcome)
    requires WellFormed(c.world) && m in MODES && CursorOk(c, me) && PhaseSource(c, finalized, m, me)
    requires me.phase.Storing? && me.phase.todo != [] && RowsOk(c, finalized, t)
    ensures RowsOk(c, finalized, StoreOne(t, m, ModeFor(c.cfg, NetOf(m)), me.phase.todo[0], o))
  {
    var l := me.phase.todo[0];
    if Eligible(l) {
      StoredRowSource(c, finalized, m, me);
      InsertKeepsRows(c, finalized, t, RowFor(m, ModeFor(c.cfg, NetOf(m)), l));
    }
  }

  lemma StoreKeepsRows(c: Ctx, s: State, m: BridgeMode, o: StoreOutcome)
    requires WellFormed(c.world) && Indexed(c, s) && IndexerEnabled(c, s, m, Store(o))
    ensures RowsOk(c, s.finalized, IndexerDo(c, s, m, Store(o)).table)
  {
    assert ModeOk(c, s.finalized, s.table, m, s.indexers[m]);
    StoreOneKeepsRows(c, s.finalized, s.table, m, s.indexers[m], o);
  }

  /** Going one log further adds it to what has been gone through. */
  lemma StoreConsumes(c: Ctx, finalized: map<Net, int>, m: BridgeMode, me: Indexer, me': Indexer)
    requires PhaseSource(c, finalized, m, me) && Finality(c, m) && me.phase.Storing? && me.phase.todo != []
    requires me'.cursor == me.cursor && me'.chunks == me.chunks && me'.phase == me.phase.(todo := me.phase.todo[1..])
    ensures Consumed(c, m, me') == Consumed(c, m, me) + [me.phase.todo[0]]
  {
    var logs := FinalLogs(c.world, m, me.phase.from, me.phase.to);
    var k := |logs| - |me.phase.todo|;
    assert logs[k] == logs[k..][0];
    assert logs[..k + 1] == logs[..k] + [logs[k]];
    assert DonePart(c, m, me') == DonePart(c, m, me) + [me.phase.todo[0]];
  }

  /** Giving up a chunk goes back to the end of the chunk before it. */
  lemma AbandonForgets(c: Ctx, m: BridgeMode, me: Indexer, k: Key)
    requires CursorOk(c, me) && me.phase.Storing? && k in LogKeys(Consumed(c, m, ChunkFailed(me)))
    ensures k in LogKeys(Consumed(c, m, me))
  {
    assert Consumed(c, m, ChunkFailed(me)) == FinalLogs(c.world, m, First(me), Upto(me)) by {
      if me.chunks == [] { NothingYet(c, m, me); }
    }
    LogKeysConcat(FinalLogs(c.world, m, First(me), Upto(me)), DonePart(c, m, me));
  }

  /** One log dealt with, in terms of keys. */
  lemma NextKeyOk(c: Ctx, finalized: map<Net, int>, t: Table, m: BridgeMode, me: Indexer, o: StoreOutcome)
    requires WellFormed(c.world) && m in MODES && Finality(c, m) && c.cfg.maxBlockRange >= 1 && RowsOk(c, finalized, t)
    requires CursorOk(c, me) && PhaseSource(c, finalized, m, me)
    requires me.phase.Storing? && me.phase.todo != [] && Eligible(me.phase.todo[0]) && !o.SerializeFails?
    requires KeysOk(StoredKeys(t, m), LogKeys(Consumed(c, m, me)), me.failed, me.abandoned)
    ensures var k := LogKey(me.phase.todo[0]);
            KeysOk(StoredKeys(StoreOne(t, m, BlockFinality, me.phase.todo[0], o), m), LogKeys(Consumed(c, m, me)) + [k],
                   if o.InsertFails? then me.failed + {k} else me.failed, me.abandoned)
  {
    var k, stored, passed := LogKey(me.phase.todo[0]), StoredKeys(t, m), LogKeys(Consumed(c, m, me));
    var row := RowFor(m, BlockFinality, me.phase.todo[0]);
    NextKeyIsNew(c, finalized, m, me);
    if o.InsertFails? {
      KeyFails(stored, passed, me.failed, me.abandoned, k);
    } else if Conflicts(t, row) {
      ConflictIsStored(c, finalized, t, m, me);
      KeyConflicts(stored, passed, me.failed, me.abandoned, k);
    } else {
      KeyStored(stored, passed, me.failed, me.abandoned, k);
      StoredKeysSnoc(t, Slot(row, true, 0), m);
    }
  }

  lemma StoreKeepsStored(c: Ctx, s: State, m: BridgeMode, o: StoreOutcome)
    requires WellFormed(c.world) && m in MODES && c.cfg.maxBlockRange >= 1 && RowsOk(c, s.finalized, s.table)
    requires IndexerEnabled(c, s, m, Store(o)) && ModeOk(c, s.finalized, s.table, m, s.indexers[m])
    ensures StoredOk(c, IndexerDo(c, s, m, Store(o)).table, m, IndexerNext(c, s, m, Store(o)))
  {
    if Abandoned(s.indexers[m].phase.todo[0], o) {
      AbandonKeepsStored(c, s.table, m, s.indexers[m]);
    } else {
      DealKeepsStored(c, s.finalized, s.table, m, s.indexers[m], o);
    }
  }

  lemma DealKeepsStored(c: Ctx, finalized: map<Net, int>, t: Table, m: BridgeMode, me: Indexer, o: StoreOutcome)
    requires WellFormed(c.world) && m in MODES && c.cfg.maxBlockRange >= 1 && RowsOk(c, finalized, t)
    requires CursorOk(c, me) && PhaseSource(c, finalized, m, me) && StoredOk(c, t, m, me)
    requires me.phase.Storing? && me.phase.todo != [] && !Abandoned(me.phase.todo[0], o)
    ensures var l := me.phase.todo[0];
            StoredOk(c, StoreOne(t, m, ModeFor(c.cfg, NetOf(m)), l, o), m,
                     me.(phase := me.phase.(todo := me.phase.todo[1..]),
                         failed := if Eligible(l) && o.InsertFails? then me.failed + {LogKey(l)} else me.failed))
  {
    var l := me.phase.todo[0];
    if Finality(c, m) {
      StoreConsumes(c, finalized, m, me, me.(phase := me.phase.(todo := me.phase.todo[1..])));
      ConsumedSame(c, m, me.(phase := me.phase.(todo := me.phase.todo[1..])),
                   if Eligible(l) && o.InsertFails? then me.failed + {LogKey(l)} else me.failed);
      LogKeysSnoc(Consumed(c, m, me), l);
      if Eligible(l) { NextKeyOk(c, finalized, t, m, me, o); }
    }
  }

  /** What was gone through does not depend on what failed. */
  lemma ConsumedSame(c: Ctx, m: BridgeMode, me: Indexer, failed: set<Key>)
    ensures Consumed(c, m, me.(failed := failed)) == Consumed(c, m, me)
  {
  }

  lemma AbandonKeepsStored(c: Ctx, t: Table, m: BridgeMode, me: Indexer)
    requires CursorOk(c, me) && me.phase.Storing? && StoredOk(c, t, m, me)
    ensures StoredOk(c, t, m, ChunkFailed(me).(abandoned := true))
  {
    assert Consumed(c, m, ChunkFailed(me).(abandoned := true)) == Consumed(c, m, ChunkFailed(me));
    forall k | k in LogKeys(Consumed(c, m, ChunkFailed(me))) ensures k in LogKeys(Consumed(c, m, me)) { AbandonForgets(c, m, me, k); }
  }

  lemma StoreKeepsOtherKeys(c: Ctx, t: Table, m: BridgeMode, log: ChainLog, o: StoreOutcome, other: BridgeMode)
    requires other != m
    ensures StoredKeys(StoreOne(t, m, ModeFor(c.cfg, NetOf(m)), log, o), other) == StoredKeys(t, other)
  {
    if Eligible(log) { StoredKeysSnoc(t, Slot(RowFor(m, ModeFor(c.cfg, NetOf(m)), log), true, 0), other); }
  }

  lemma StoreKeepsMode(c: Ctx, s: State, m: BridgeMode, o: StoreOutcome)
    requires WellFormed(c.world) && Indexed(c, s) && IndexerEnabled(c, s, m, Store(o))
    ensures ModeOk(c, s.finalized, IndexerDo(c, s, m, Store(o)).table, m, IndexerNext(c, s, m, Store(o)))
  {
    assert ModeOk(c, s.finalized, s.table, m, s.indexers[m]);
    StepKeepsCursor(c, s, m, Store(o));
    StepKeepsBounds(c, s, m, Store(o));
    StepKeepsPhaseSource(c, s, m, Store(o));
    StoreKeepsStored(c, s, m, o);
  }

  lemma StoreKeepsIndexed(c: Ctx, s: State, m: BridgeMode, o: StoreOutcome)
    requires WellFormed(c.world) && Indexed(c, s) && IndexerEnabled(c, s, m, Store(o))
    ensures Indexed(c, IndexerDo(c, s, m, Store(o)))
  {
    var t' := IndexerDo(c, s, m, Store(o)).table;
    StoreKeepsRows(c, s, m, o);
    StoreKeepsMode(c, s, m, o);
    forall other | other != m ensures StoredKeys(t', other) == StoredKeys(s.table, other) {
      StoreKeepsOtherKeys(c, s.table, m, s.indexers[m].phase.todo[0], o, other);
    }
    ReplaceIndexer(c, s.finalized, s.table, t', s.indexers, m, IndexerNext(c, s, m, Store(o)));
  }

  lemma StepKeepsIndexed(c: Ctx, s: State, a: Action)
    requires WellFormed(c.world) && Indexed(c, s) && Enabled(c, s, a)
    ensures Indexed(c, Do(c, s, a))
  {
    match a {
      case Processor(p, step) => ProcessorKeepsIndexed(c, s, p, step);
      case Sender(step) => SenderKeepsIndexed(c, s, step);
      case Outside(step) => OutsideKeepsIndexed(c, s, step);
      case Index(mode, step) =>
        if step.Store? { StoreKeepsIndexed(c, s, mode, step.outcome); } else { QuietStepKeepsIndexed(c, s, mode, step); }
      case Check(step) => CheckerKeepsIndexed(c, s, step);
    }
  }

  lemma GenesisIndexed(c: Ctx, s: State)
    requires Genesis(c, s)
    ensures Indexed(c, s)
  {
  }

  lemma IndexedNext(c: Ctx, run: Run, n: nat)
    requires Runs(c, run) && n < |run.actions| && WellFormed(c.world) && Indexed(c, run.states[n])
    ensures Indexed(c, run.states[n + 1])
  {
    assert StepAt(c, run, n);
    StepKeepsIndexed(c, run.states[n], run.actions[n]);
  }

  lemma IndexedAt(c: Ctx, run: Run, n: nat)
    requires FromStart(c, run) && n <= |run.actions|
    ensures Indexed(c, run.states[n])
  {
    var holds := (s: State) => Indexed(c, s);
    GenesisIndexed(c, run.states[0]);
    forall i | 0 <= i < |run.actions| && holds(run.states[i]) ensures holds(run.states[i + 1]) { IndexedNext(c, run, i); }
    Invariant(c, run, holds, n);
  }

  lemma AlwaysIndexed(c: Ctx, run: Run)
    requires FromStart(c, run)
    ensures Indexed(c, End(run))
  {
    IndexedAt(c, run, |run.actions|);
  }
}
