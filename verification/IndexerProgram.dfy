/**
 A polling cycle as a run of the system: whatever `EventIndexer.PollEvents` does to the table and the cursor,
 one indexer does by its steps in `Pipeline` when it is left alone for a cycle.
 */
module IndexerProgram {
  import opened Prelude
  import opened EventLogs
  import opened Relay
  import opened SafeBlocks
  import opened Indexing
  import opened Pipeline

  /** The steps of one indexer. */
  function Of(m: BridgeMode): Action -> bool { (a: Action) => a.Index? && a.mode == m }

  /** Apart from the memory of what failed. */
  predicate SameIndexer(a: Indexer, b: Indexer) { a == b.(failed := a.failed, abandoned := a.abandoned) }

  /** The indexer after its chunk has landed. */
  function Landed(me: Indexer, to: int): Indexer
    requires me.phase.Fetching?
  {
    var ph, last := me.phase, to == U64_MAX || to + 1 > me.phase.upper;
    me.(chunks := me.chunks + [(ph.from, to)],
        bounds := if ph.from == ph.start then me.bounds + [ph.upper] else me.bounds,
        cursor := if last then to else me.cursor,
        phase := if last then Resting else Fetching(ph.upper, ph.start, to + 1, to))
  }

  /** The state while the first `n` logs of a call have been dealt with. */
  ghost predicate Midway(c: Ctx, s: State, m: BridgeMode, t0: Table, call: Call, n: nat) {
    && m in s.indexers && NetOf(m) in s.finalized && s.indexers[m].phase.Storing?
    && call.answer.Logs? && n <= DealtWith(call.answer.logs, call.outcomes, 0)
    && s.indexers[m].phase.todo == call.answer.logs[n..]
    && s.table == StoreUpTo(t0, m, ModeFor(c.cfg, NetOf(m)), call.answer.logs, call.outcomes, n)
  }

  lemma OneLogStored(c: Ctx, s: State, m: BridgeMode, t0: Table, call: Call, n: nat)
    requires Midway(c, s, m, t0, call, n) && n < |call.answer.logs|
    ensures IndexerEnabled(c, s, m, Store(call.outcomes(n)))
    ensures var s' := IndexerDo(c, s, m, Store(call.outcomes(n)));
            if Abandoned(call.answer.logs[n], call.outcomes(n)) then
              !CallSucceeds(call) && s'.table == CallTable(t0, m, ModeFor(c.cfg, NetOf(m)), call)
              && SameIndexer(s'.indexers[m], ChunkFailed(s.indexers[m]))
            else
              Midway(c, s', m, t0, call, n + 1)
              && SameIndexer(s'.indexers[m], s.indexers[m].(phase := s.indexers[m].phase.(todo := call.answer.logs[n + 1..])))
  {
  }

  /** Storing the rest of a chunk's logs. */
  lemma {:induction false} StoreRest(c: Ctx, run: Run, now: Run, m: BridgeMode, t0: Table, call: Call, n: nat) returns (more: Run)
    requires GoesOn(c, run, now, Of(m)) && Midway(c, End(now), m, t0, call, n)
    ensures GoesOn(c, run, more, Of(m)) && m in End(more).indexers
    ensures End(more).table == CallTable(t0, m, ModeFor(c.cfg, NetOf(m)), call)
    ensures var me, me' := End(now).indexers[m], End(more).indexers[m];
            if CallSucceeds(call) then
              Midway(c, End(more), m, t0, call, |call.answer.logs|) && SameIndexer(me', me.(phase := me.phase.(todo := [])))
            else SameIndexer(me', ChunkFailed(me))
    ensures End(more).finalized == End(now).finalized
    decreases |call.answer.logs| - n
  {
    if n == |call.answer.logs| {
      more := now;
    } else {
      more := StoreNext(c, run, now, m, t0, call, n);
      if !Abandoned(call.answer.logs[n], call.outcomes(n)) {
        more := StoreRest(c, run, more, m, t0, call, n + 1);
      }
    }
  }

  lemma StoreNext(c: Ctx, run: Run, now: Run, m: BridgeMode, t0: Table, call: Call, n: nat) returns (more: Run)
    requires GoesOn(c, run, now, Of(m)) && Midway(c, End(now), m, t0, call, n) && n < |call.answer.logs|
    ensures GoesOn(c, run, more, Of(m)) && m in End(more).indexers && End(more).finalized == End(now).finalized
    ensures var me, me' := End(now).indexers[m], End(more).indexers[m];
            if Abandoned(call.answer.logs[n], call.outcomes(n)) then
              !CallSucceeds(call) && SameIndexer(me', ChunkFailed(me))
              && End(more).table == CallTable(t0, m, ModeFor(c.cfg, NetOf(m)), call)
            else
              Midway(c, End(more), m, t0, call, n + 1)
              && SameIndexer(me', me.(phase := me.phase.(todo := call.answer.logs[n + 1..])))
  {
    OneLogStored(c, End(now), m, t0, call, n);
    more := TakeStep(c, run, now, Of(m), Index(m, Store(call.outcomes(n))));
  }

  lemma Fetched(c: Ctx, s: State, m: BridgeMode, call: Call)
    requires IndexerEnabled(c, s, m, Fetch(call.answer)) && call.answer.Logs?
    ensures var s', me := IndexerDo(c, s, m, Fetch(call.answer)), s.indexers[m];
            Midway(c, s', m, s.table, call, 0) && s'.finalized == s.finalized
            && s'.indexers[m] == me.(phase := Storing(me.phase.upper, me.phase.start, me.phase.from, To(c, me.phase), me.phase.through, call.answer.logs))
  {
  }

  /** One call of `index_block_range` as steps: fetch, store each log, land. */
  lemma OneChunk(c: Ctx, run: Run, now: Run, m: BridgeMode, call: Call) returns (more: Run)
    requires GoesOn(c, run, now, Of(m)) && IndexerEnabled(c, End(now), m, Fetch(call.answer))
    ensures GoesOn(c, run, more, Of(m)) && m in End(more).indexers && End(more).finalized == End(now).finalized
    ensures End(more).table == CallTable(End(now).table, m, ModeFor(c.cfg, NetOf(m)), call)
    ensures var me, me' := End(now).indexers[m], End(more).indexers[m];
            SameIndexer(me', if CallSucceeds(call) then Landed(me, To(c, me.phase)) else ChunkFailed(me))
  {
    if call.answer.Logs? {
      more := OneChunkOfLogs(c, run, now, m, call);
    } else {
      more := TakeStep(c, run, now, Of(m), Index(m, Fetch(call.answer)));
    }
  }

  /** The end of a chunk whose logs `me` was about to fetch. */
  lemma Advanced(c: Ctx, s: State, m: BridgeMode, me: Indexer, to: int)
    requires m in s.indexers && NetOf(m) in s.finalized && me.phase.Fetching?
    requires SameIndexer(s.indexers[m], me.(phase := Storing(me.phase.upper, me.phase.start, me.phase.from, to, me.phase.through, [])))
    ensures IndexerEnabled(c, s, m, Advance)
    ensures var s' := IndexerDo(c, s, m, Advance);
            s'.table == s.table && s'.finalized == s.finalized && SameIndexer(s'.indexers[m], Landed(me, to))
  {
  }

  lemma OneChunkOfLogs(c: Ctx, run: Run, now: Run, m: BridgeMode, call: Call) returns (more: Run)
    requires GoesOn(c, run, now, Of(m)) && call.answer.Logs? && IndexerEnabled(c, End(now), m, Fetch(call.answer))
    ensures GoesOn(c, run, more, Of(m)) && m in End(more).indexers && End(more).finalized == End(now).finalized
    ensures End(more).table == CallTable(End(now).table, m, ModeFor(c.cfg, NetOf(m)), call)
    ensures var me, me' := End(now).indexers[m], End(more).indexers[m];
            SameIndexer(me', if CallSucceeds(call) then Landed(me, To(c, me.phase)) else ChunkFailed(me))
  {
    var s := End(now);
    var me := s.indexers[m];
    more := TakeStep(c, run, now, Of(m), Index(m, Fetch(call.answer)));
    Fetched(c, s, m, call);
    more := StoreRest(c, run, more, m, s.table, call, 0);
    if CallSucceeds(call) {
      Advanced(c, End(more), m, me, To(c, me.phase));
      more := TakeStep(c, run, more, Of(m), Index(m, Advance));
    }
  }

  /** The providers answer truthfully for each chunk. */
  ghost predicate HonestCalls(c: Ctx, m: BridgeMode, start: int, upper: int, calls: nat -> Call) {
    forall k: nat :: calls(k).answer.Logs? ==>
      HonestLogs(c, m, Chunk(start, upper, c.cfg.maxBlockRange, k).0, Chunk(start, upper, c.cfg.maxBlockRange, k).1, calls(k).answer.logs)
  }

  /** The indexer is about to fetch its k-th chunk. */
  ghost predicate AtChunk(c: Ctx, s: State, m: BridgeMode, start: int, upper: int, calls: nat -> Call, t0: Table, cursor: int, k: nat)
    requires c.cfg.maxBlockRange >= 1
  {
    && m in s.indexers && NetOf(m) in s.finalized
    && var from := Chunk(start, upper, c.cfg.maxBlockRange, k).0;
    && 0 <= start && from <= upper <= I64_MAX
    && s.indexers[m].phase == Fetching(upper, start, from, SatSub(from, 1)) && s.indexers[m].cursor == cursor
    && s.table == CallsTable(t0, m, ModeFor(c.cfg, NetOf(m)), calls, k)
  }

  /** What a cycle with `good` good chunks leaves behind: the result of `PollEvents`. */
  ghost predicate CycleDone(c: Ctx, s: State, m: BridgeMode, start: int, upper: int, calls: nat -> Call, t0: Table, cursor: int, good: nat)
    requires c.cfg.maxBlockRange >= 1
  {
    && m in s.indexers && s.indexers[m].phase.Resting?
    && s.table == CallsTable(t0, m, ModeFor(c.cfg, NetOf(m)), calls, Issued(start, upper, c.cfg.maxBlockRange, good))
    && s.indexers[m].cursor == if good == 0 then cursor else Chunk(start, upper, c.cfg.maxBlockRange, good - 1).1
  }

  lemma NextFetchEnabled(c: Ctx, s: State, m: BridgeMode, start: int, upper: int, calls: nat -> Call, t0: Table, cursor: int, k: nat)
    requires c.cfg.maxBlockRange >= 1 && HonestCalls(c, m, start, upper, calls)
    requires AtChunk(c, s, m, start, upper, calls, t0, cursor, k)
    ensures IndexerEnabled(c, s, m, Fetch(calls(k).answer)) && To(c, s.indexers[m].phase) == Chunk(start, upper, c.cfg.maxBlockRange, k).1
  {
    ChunkStep(start, upper, c.cfg.maxBlockRange, k);
  }

  /** Where the k-th chunk leads: to the next one, or to the end of the cycle. */
  lemma ChunkOutcome(c: Ctx, s: State, s': State, m: BridgeMode, start: int, upper: int, calls: nat -> Call, t0: Table,
                     cursor: int, good: nat, k: nat)
    requires c.cfg.maxBlockRange >= 1 && start >= 1 && AtChunk(c, s, m, start, upper, calls, t0, cursor, k)
    requires k <= good && GoodChunks(start, upper, c.cfg.maxBlockRange, calls, good)
    requires m in s'.indexers && s'.finalized == s.finalized
    requires s'.table == CallTable(s.table, m, ModeFor(c.cfg, NetOf(m)), calls(k))
    requires var to := Chunk(start, upper, c.cfg.maxBlockRange, k).1;
             SameIndexer(s'.indexers[m], if CallSucceeds(calls(k)) then Landed(s.indexers[m], to) else ChunkFailed(s.indexers[m]))
    ensures if CallSucceeds(calls(k)) && Chunk(start, upper, c.cfg.maxBlockRange, k).1 < upper then
              k < good && AtChunk(c, s', m, start, upper, calls, t0, cursor, k + 1)
            else CycleDone(c, s', m, start, upper, calls, t0, cursor, good)
  {
    ChunkStep(start, upper, c.cfg.maxBlockRange, k);
    SpanGrows(c.cfg.maxBlockRange, k);
  }

  lemma {:induction false} ChunksFrom(c: Ctx, run: Run, now: Run, m: BridgeMode, start: int, upper: int, calls: nat -> Call,
                                      t0: Table, cursor: int, good: nat, k: nat) returns (more: Run)
    requires GoesOn(c, run, now, Of(m)) && c.cfg.maxBlockRange >= 1 && HonestCalls(c, m, start, upper, calls)
    requires AtChunk(c, End(now), m, start, upper, calls, t0, cursor, k) && start >= 1
    requires k <= good && GoodChunks(start, upper, c.cfg.maxBlockRange, calls, good)
    ensures GoesOn(c, run, more, Of(m)) && CycleDone(c, End(more), m, start, upper, calls, t0, cursor, good)
    decreases good - k
  {
    NextFetchEnabled(c, End(now), m, start, upper, calls, t0, cursor, k);
    more := OneChunk(c, run, now, m, calls(k));
    ChunkOutcome(c, End(now), End(more), m, start, upper, calls, t0, cursor, good, k);
    if CallSucceeds(calls(k)) && Chunk(start, upper, c.cfg.maxBlockRange, k).1 < upper {
      more := ChunksFrom(c, run, more, m, start, upper, calls, t0, cursor, good, k + 1);
    }
  }

  /** The bound of a cycle, if there is one above the cursor. */
  function BoundAbove(c: Ctx, s: State, m: BridgeMode, probes: seq<SafeProbe>, finalized: Option<int>): Option<int>
    requires m in s.indexers
  {
    var bound := UpperBound(ModeFor(c.cfg, NetOf(m)), probes, finalized);
    if bound.Some? && bound.value > s.indexers[m].cursor then bound else None
  }

  /**
   For every resolved bound, or none, and every sequence of answers, the system has a run of this one indexer that
   ends with the table and the cursor of `EventIndexer.Cycle`.
   */
  lemma PollEventsIsARun(c: Ctx, run: Run, m: BridgeMode, probes: seq<SafeProbe>, finalized: Option<int>, calls: nat -> Call, good: nat)
    returns (more: Run)
    requires Runs(c, run) && c.cfg.maxBlockRange >= 1 && IndexerEnabled(c, End(run), m, Begin(probes, finalized))
    requires End(run).indexers[m].cursor >= 0
    requires var bound := BoundAbove(c, End(run), m, probes, finalized);
             bound.Some? ==>
               var start := StartBlock(End(run).indexers[m].cursor, bound.value);
               HonestCalls(c, m, start, bound.value, calls) && GoodChunks(start, bound.value, c.cfg.maxBlockRange, calls, good)
    ensures GoesOn(c, run, more, Of(m)) && m in End(more).indexers
    ensures var bound, cursor := BoundAbove(c, End(run), m, probes, finalized), End(run).indexers[m].cursor;
            if bound.Some? then
              CycleDone(c, End(more), m, StartBlock(cursor, bound.value), bound.value, calls, End(run).table, cursor, good)
            else
              End(more).table == End(run).table && End(more).indexers[m].cursor == cursor && End(more).indexers[m].phase.Resting?
  {
    var cursor, t0, bound := End(run).indexers[m].cursor, End(run).table, BoundAbove(c, End(run), m, probes, finalized);
    more := TakeStep(c, run, run, Of(m), Index(m, Begin(probes, finalized)));
    if bound.Some? {
      more := ChunksFrom(c, run, more, m, StartBlock(cursor, bound.value), bound.value, calls, t0, cursor, good, 0);
    }
  }
}
