/**
 Two runs that show why `Guarantees.InsertedOnce` needs both its conditions. In one, a serialization failure makes an
 indexer read a chunk again after the sender has deleted a row of it, and the deleted row comes back. In the other,
 one INSERT fails, the cursor moves past the block, and the log is never stored.
 */
module Counterexamples {
  import opened Prelude
  import opened XdaiCodec
  import opened EventLogs
  import opened Relay
  import opened SafeBlocks
  import opened Indexing
  import opened Pipeline
  import opened Ownership
  import opened Coverage
  import opened Storage

  // ----- one finalized block with two logs, the first of which is already affirmed -----

  const LOGS: seq<ChainLog> := [
    ChainLog(Some(5), Some("h"), Some("t"), Some(0), true, AmbAffirmation([])),
    ChainLog(Some(5), Some("h"), Some("t"), Some(1), true, AmbAffirmation([]))]

  const ROW: Row := RowFor(AmbEth, BlockFinality, LOGS[0])

  function TheWorld(): World {
    World((net, n) => "h", (m, n) => if m == AmbEth && n == 5 then LOGS else [], tx => Eth, (tx, i: nat) => (AmbEth, 5, i as int))
  }

  function TheCtx(): Ctx {
    Ctx(Config(1, 1, false, false, BlockFinality, BlockFinality, seq(20, i => 0 as byte)), TheWorld())
  }

  const CALL: CallData := AmbEthCall([])

  function Idle(): Indexer { Indexer(0, Resting, [], 0, [], {}, false) }

  function Beginning(): State {
    State([], [], [AtTop, AtTop], [], Receiving, false, map[], [], [], HomeChain(map[KeyOf(CALL) := {US}], 1, 1), [], [],
      map[AmbEth := Idle(), AmbGc := Idle(), XdaiEth := Idle(), XdaiGc := Idle()], CheckIdle, [], {}, map[Eth := 5, Gc := 0])
  }

  lemma BeginningIsGenesis()
    ensures Genesis(TheCtx(), Beginning())
  {
    var w := TheWorld();
    forall m, n, i | m in MODES && 0 <= i < |w.LogsAt(m, n)| ensures WellPlaced(w, m, n, i) {
      assert m == AmbEth && n == 5;
    }
    assert Beginning().indexers == (map m | m in MODES :: Indexer(0, Resting, [], 0, [], {}, false));
  }

  lemma FromBeginning(run: Run)
    requires GoesOn(TheCtx(), Run([Beginning()], []), run, Anyone())
    ensures FromStart(TheCtx(), run)
  {
    BeginningIsGenesis();
    assert run.states[0] == Beginning();
  }

  function Anyone(): Action -> bool { (a: Action) => true }

  // ----- the indexer -----

  function Reading5(me: Indexer): Indexer { Indexer(0, Storing(5, 5, 5, 5, 4, LOGS), [], 5, [], me.failed, me.abandoned) }

  lemma FinalLogsAre()
    ensures FinalLogs(TheWorld(), AmbEth, 5, 5) == LOGS
  {
    assert FinalLogs(TheWorld(), AmbEth, 5, 4) == [];
  }

  /** The indexer fetches the block, for the first time or again. */
  lemma FetchBlock(run: Run, now: Run) returns (more: Run)
    requires GoesOn(TheCtx(), run, now, Anyone())
    requires var s := End(now);
             AmbEth in s.indexers && Eth in s.finalized && s.finalized[Eth] == 5
             && s.indexers[AmbEth].cursor == 0 && s.indexers[AmbEth].phase.Resting? && s.indexers[AmbEth].chunks == []
             && s.indexers[AmbEth].highest <= 5 && s.indexers[AmbEth].bounds == [] && !s.shutdown
    ensures GoesOn(TheCtx(), run, more, Anyone())
    ensures var s := End(now);
            End(more) == s.(indexers := s.indexers[AmbEth := Reading5(s.indexers[AmbEth])])
  {
    FinalLogsAre();
    var s := End(now);
    more := TakeStep(TheCtx(), run, now, Anyone(), Index(AmbEth, Begin([], Some(5))));
    more := TakeStep(TheCtx(), run, more, Anyone(), Index(AmbEth, Fetch(Logs(LOGS))));
    assert End(more).indexers == s.indexers[AmbEth := Reading5(s.indexers[AmbEth])];
  }

  /** The first log is stored: as the row with the next id, unless a live row has its key. */
  lemma StoreFirst(run: Run, now: Run) returns (more: Run)
    requires GoesOn(TheCtx(), run, now, Anyone())
    requires var s := End(now);
             AmbEth in s.indexers && Eth in s.finalized && s.indexers[AmbEth].phase.Storing?
             && s.indexers[AmbEth].phase.todo == LOGS && !Conflicts(s.table, ROW)
    ensures GoesOn(TheCtx(), run, more, Anyone())
    ensures var s, me := End(now), End(now).indexers[AmbEth];
            End(more) == s.(table := s.table + [Slot(ROW, true, 0)],
                            indexers := s.indexers[AmbEth := me.(phase := me.phase.(todo := LOGS[1..]))])
  {
    more := TakeStep(TheCtx(), run, now, Anyone(), Index(AmbEth, Store(Stored)));
  }

  /** The second log cannot be serialized, and the chunk is given up. */
  lemma FailSecond(run: Run, now: Run) returns (more: Run)
    requires GoesOn(TheCtx(), run, now, Anyone())
    requires var s := End(now);
             AmbEth in s.indexers && Eth in s.finalized
             && s.indexers[AmbEth] == Indexer(0, Storing(5, 5, 5, 5, 4, LOGS[1..]), [], 5, [], {}, false)
    ensures GoesOn(TheCtx(), run, more, Anyone())
    ensures var s := End(now); End(more) == s.(indexers := s.indexers[AmbEth := Indexer(0, Resting, [], 5, [], {}, true)])
  {
    more := TakeStep(TheCtx(), run, now, Anyone(), Index(AmbEth, Store(SerializeFails)));
  }

  // ----- the pipeline -----

  /** The stored row is found and locked. */
  lemma LockFirst(run: Run, now: Run) returns (more: Run)
    requires GoesOn(TheCtx(), run, now, Anyone())
    requires var s := End(now); s.table == [Slot(ROW, true, 0)] && s.procs == [AtTop, AtTop] && !s.shutdown
    ensures GoesOn(TheCtx(), run, more, Anyone())
    ensures End(more) == End(now).(procs := [Locked(0, ROW), AtTop])
  {
    more := TakeStep(TheCtx(), run, now, Anyone(), Processor(0, Poll));
    assert LockedIds(End(more).procs) == {};
    more := TakeStep(TheCtx(), run, more, Anyone(), Processor(0, Lock(0)));
  }

  /** And claimed. */
  lemma ClaimFirst(run: Run, now: Run) returns (more: Run)
    requires GoesOn(TheCtx(), run, now, Anyone())
    requires var s := End(now); s.table == [Slot(ROW, true, 0)] && s.procs == [Locked(0, ROW), AtTop]
    ensures GoesOn(TheCtx(), run, more, Anyone())
    ensures End(more) == End(now).(table := [Slot(ROW.(claimed := true), true, 1)], procs := [Holding(0, ROW), AtTop])
  {
    more := TakeStep(TheCtx(), run, now, Anyone(), Processor(0, Mark(true)));
    more := TakeStep(TheCtx(), run, more, Anyone(), Processor(0, Commit(true)));
  }

  /** And sent. */
  lemma SendFirst(run: Run, now: Run) returns (more: Run)
    requires GoesOn(TheCtx(), run, now, Anyone())
    requires var s := End(now); s.procs == [Holding(0, ROW), AtTop] && s.chan == [] && s.sender == Receiving
    ensures GoesOn(TheCtx(), run, more, Anyone())
    ensures var s, s' := End(now), End(more);
            s'.chan == [SenderData(CALL, 0, Home)] && s'.sender == Receiving && s'.table == s.table
            && s'.home == s.home && s'.indexers == s.indexers && s'.finalized == s.finalized && s'.shutdown == s.shutdown
  {
    more := TakeStep(TheCtx(), run, now, Anyone(), Processor(0, Decode(true)));
    more := TakeStep(TheCtx(), run, more, Anyone(), Processor(0, Send));
  }

  /** The sender finds its affirmation recorded. */
  lemma FindRecorded(run: Run, now: Run) returns (more: Run)
    requires GoesOn(TheCtx(), run, now, Anyone())
    requires var s := End(now);
             s.chan == [SenderData(CALL, 0, Home)] && s.sender == Receiving && US in s.home.Signers(KeyOf(CALL))
    ensures GoesOn(TheCtx(), run, more, Anyone())
    ensures var s, s' := End(now), End(more);
            s'.sender == Busy(SenderData(CALL, 0, Home), DeleteRow) && s'.table == s.table
            && s'.indexers == s.indexers && s'.finalized == s.finalized && s'.shutdown == s.shutdown
  {
    more := TakeStep(TheCtx(), run, now, Anyone(), Sender(Receive));
    more := TakeStep(TheCtx(), run, more, Anyone(), Sender(Await(Reply(true, false, 0))));
    more := TakeStep(TheCtx(), run, more, Anyone(), Sender(Await(Reply(true, true, 0))));
  }

  /** So it deletes the row. */
  lemma DeleteFirst(run: Run, now: Run) returns (more: Run)
    requires GoesOn(TheCtx(), run, now, Anyone())
    requires var s := End(now);
             s.sender == Busy(SenderData(CALL, 0, Home), DeleteRow) && s.table == [Slot(ROW.(claimed := true), true, 1)]
    ensures GoesOn(TheCtx(), run, more, Anyone())
    ensures End(more).table == [Slot(ROW.(claimed := true), false, 1)]
    ensures End(more).indexers == End(now).indexers && End(more).finalized == End(now).finalized
    ensures End(more).shutdown == End(now).shutdown
  {
    more := TakeStep(TheCtx(), run, now, Anyone(), Sender(Await(Reply(true, true, 0))));
  }

  /** After one serialization failure a deleted row can come back under a new id. */
  lemma DeletedRowCanComeBack() returns (run: Run)
    ensures FromStart(TheCtx(), run)
    ensures var t := End(run).table;
            |t| == 2 && !t[0].live && t[1].live && SameOrigin(t[0].row, t[1].row) && Finality(TheCtx(), t[0].row.mode)
  {
    var start := Run([Beginning()], []);
    run := FetchBlock(start, start);
    run := StoreFirst(start, run);
    run := FailSecond(start, run);
    run := LockFirst(start, run);
    run := ClaimFirst(start, run);
    run := SendFirst(start, run);
    run := FindRecorded(start, run);
    run := DeleteFirst(start, run);
    run := FetchBlock(start, run);
    run := StoreFirst(start, run);
    FromBeginning(run);
  }

  // ----- a failed INSERT -----

  function Passing(left: seq<ChainLog>): Indexer {
    Indexer(0, Storing(5, 5, 5, 5, 4, left), [], 5, [], {LogKey(LOGS[0])}, false)
  }

  /** The INSERT of the first log fails, and the indexer goes on to the second. */
  lemma LoseFirst(run: Run, now: Run) returns (more: Run)
    requires GoesOn(TheCtx(), run, now, Anyone())
    requires var s := End(now);
             AmbEth in s.indexers && Eth in s.finalized
             && s.indexers[AmbEth] == Indexer(0, Storing(5, 5, 5, 5, 4, LOGS), [], 5, [], {}, false)
    ensures GoesOn(TheCtx(), run, more, Anyone())
    ensures End(more) == End(now).(indexers := End(now).indexers[AmbEth := Passing([LOGS[1]])])
  {
    more := TakeStep(TheCtx(), run, now, Anyone(), Index(AmbEth, Store(InsertFails)));
    assert LOGS[1..] == [LOGS[1]] && {} + {LogKey(LOGS[0])} == {LogKey(LOGS[0])};
  }

  lemma StoreSecond(run: Run, now: Run) returns (more: Run)
    requires GoesOn(TheCtx(), run, now, Anyone())
    requires var s := End(now);
             AmbEth in s.indexers && Eth in s.finalized && s.table == [] && s.indexers[AmbEth] == Passing([LOGS[1]])
    ensures GoesOn(TheCtx(), run, more, Anyone())
    ensures var s := End(now);
            End(more) == s.(table := [Slot(RowFor(AmbEth, BlockFinality, LOGS[1]), true, 0)],
                            indexers := s.indexers[AmbEth := Passing([])])
  {
    more := TakeStep(TheCtx(), run, now, Anyone(), Index(AmbEth, Store(Stored)));
    assert [LOGS[1]][1..] == [];
  }

  lemma LandBlock(run: Run, now: Run) returns (more: Run)
    requires GoesOn(TheCtx(), run, now, Anyone())
    requires var s := End(now);
             AmbEth in s.indexers && Eth in s.finalized
             && s.indexers[AmbEth] == Passing([])
    ensures GoesOn(TheCtx(), run, more, Anyone()) && AmbEth in End(more).indexers && End(more).table == End(now).table
    ensures End(more).indexers[AmbEth] == Indexer(5, Resting, [(5, 5)], 5, [5], {LogKey(LOGS[0])}, false)
  {
    more := TakeStep(TheCtx(), run, now, Anyone(), Index(AmbEth, Advance));
  }

  /** After one failed INSERT the cursor has passed an eligible log that no row was ever made of. */
  lemma FailedInsertLosesLog() returns (run: Run)
    ensures FromStart(TheCtx(), run) && AmbEth in End(run).indexers && Finality(TheCtx(), AmbEth)
    ensures var me := End(run).indexers[AmbEth];
            !me.abandoned && me.cursor == 5 && First(me) == 5 && Upto(me) == 5
    ensures TheWorld().LogsAt(AmbEth, 5) == LOGS && Eligible(LOGS[0])
    ensures End(run).table == [Slot(RowFor(AmbEth, BlockFinality, LOGS[1]), true, 0)]
    ensures RowKey(RowFor(AmbEth, BlockFinality, LOGS[1])) != LogKey(LOGS[0])
  {
    var start := Run([Beginning()], []);
    run := FetchBlock(start, start);
    run := LoseFirst(start, run);
    run := StoreSecond(start, run);
    run := LandBlock(start, run);
    FromBeginning(run);
  }
}
