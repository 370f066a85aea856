/**
 Retries, order and termination: each claim is paid for by a retry, messages are handled once and in order,
 the work done in any run is bounded by the rows and the ceiling, and a shutdown drains the pipeline.
 */
module Accounting {
  import opened Prelude
  import opened EventLogs
  import opened Relay
  import opened Indexing
  import opened Pipeline
  import opened Ownership
  import opened Relaying

  // ----- invariants -----

  /** Claims made are retries used, plus the claim still open; the ceiling is never passed. */
  predicate AccountedSlot(ceiling: nat, s: Slot) {
    s.claims == s.row.retries + (if s.row.claimed then 1 else 0) &&
    s.row.retries <= ceiling && (s.row.claimed ==> s.row.retries < ceiling)
  }

  ghost predicate Accounted(c: Ctx, s: State) {
    forall i :: 0 <= i < |s.table| ==> AccountedSlot(Ceiling(c.cfg), s.table[i])
  }

  function InHands(t: SenderTask): seq<SenderData> { if t.Busy? then [t.data] else [] }

  /** The channel is a bounded FIFO queue, and the tasks stop in the right order. */
  ghost predicate Orderly(s: State) {
    && s.sent == s.handled + InHands(s.sender) + s.chan
    && |s.chan| <= CAPACITY && |s.procs| == 2
    && (s.sender.Busy? ==> !s.sender.pc.Finished?)
    && (s.sender.Exited? ==> s.chan == [] && forall p :: p in s.procs ==> p.Stopped?)
    && (forall p :: p in s.procs && p.Stopped? ==> s.shutdown)
  }

  /** Rows come from the four indexers, and only decode and release failures strand a claim. */
  ghost predicate Explained(s: State) {
    && s.indexers.Keys == MODES
    && (forall r :: r in s.table ==> r.row.mode in MODES)
    && (forall p :: p in s.procs && p.Holding? ==> p.row.mode in MODES)
    && (forall id :: id in s.stranded ==> s.stranded[id] == DecodeError || s.stranded[id] == ReleaseFailed)
  }

  // ----- retry accounting -----

  lemma StatementKeepsAccounts(t: Table, ceiling: nat, id: nat, pc: Pc, r: Reply)
    requires forall i :: 0 <= i < |t| ==> AccountedSlot(ceiling, t[i])
    requires ClaimedAt(t, id)
    ensures forall i :: 0 <= i < |t| ==> AccountedSlot(ceiling, TableAfter(t, id, pc, r)[i])
  {
  }

  lemma PipelineKeepsAccounts(c: Ctx, s: State, a: Action)
    requires Owned(c, s) && Accounted(c, s) && Enabled(c, s, a) && PipelineAction(a)
    ensures Accounted(c, Do(c, s, a))
  {
    match a {
      case Processor(p, step) =>
      case Sender(step) =>
        if step.Await? {
          assert ConservedAt(s, s.sender.data.id);
          StatementKeepsAccounts(s.table, Ceiling(c.cfg), s.sender.data.id, s.sender.pc, step.reply);
        }
    }
  }

  lemma StepKeepsAccounts(c: Ctx, s: State, a: Action)
    requires Owned(c, s) && Accounted(c, s) && Enabled(c, s, a)
    ensures Accounted(c, Do(c, s, a))
  {
    if PipelineAction(a) { PipelineKeepsAccounts(c, s, a); } else { OthersTables(c, s, a); }
  }

  // ----- order -----

  lemma ProcessorKeepsOrder(c: Ctx, s: State, p: nat, step: ProcStep)
    requires Orderly(s) && ProcessorEnabled(c, s, p, step)
    ensures Orderly(ProcessorDo(c, s, p, step))
  {
    var s' := ProcessorDo(c, s, p, step);
    assert s.procs[p] in s.procs;
    assert s'.sent == s'.handled + InHands(s'.sender) + s'.chan;
  }

  lemma SenderKeepsOrder(c: Ctx, s: State, step: SenderStep)
    requires Orderly(s) && SenderEnabled(s, step)
    ensures Orderly(SenderDo(c, s, step))
  {
    var s' := SenderDo(c, s, step);
    assert step.Receive? ==> s.chan == [s.chan[0]] + s.chan[1..];
    assert s'.sent == s'.handled + InHands(s'.sender) + s'.chan;
  }

  lemma StepKeepsOrder(c: Ctx, s: State, a: Action)
    requires Orderly(s) && Enabled(c, s, a)
    ensures Orderly(Do(c, s, a))
  {
    match a {
      case Processor(p, step) => ProcessorKeepsOrder(c, s, p, step);
      case Sender(step) => SenderKeepsOrder(c, s, step);
      case _ => OthersTables(c, s, a);
    }
  }

  // ----- stranding -----

  lemma AwaitKeepsExplained(c: Ctx, s: State, r: Reply)
    requires Relayed(c, s) && Explained(s) && SenderEnabled(s, Await(r)) && !s.sender.pc.Finished?
    ensures Explained(SenderDo(c, s, Await(r)))
  {
    var data, pc := s.sender.data, s.sender.pc;
    assert s.table[data.id] in s.table;
    AwaitNeverForeignOff(c, s.table, s.home, s.txs, data, pc, r);
    SenderTables(c, s, Await(r));
    ModesStay(s.table, SenderDo(c, s, Await(r)).table);
  }

  /** The program only ends in one of its three database writes. */
  lemma AwaitNeverForeignOff(c: Ctx, t: Table, home: HomeChain, txs: seq<HomeTx>, data: SenderData, pc: Pc, r: Reply)
    requires Annotation(c, t, home, txs, data, pc) && RowOk(c, home, txs, t[data.id])
    ensures Next(c.cfg, data, pc, r).Finished? ==> TerminalWrite(pc)
  {
  }

  lemma ModesStay(t: Table, t': Table)
    requires PipelineChange(t, t') && forall x :: x in t ==> x.row.mode in MODES
    ensures forall x :: x in t' ==> x.row.mode in MODES
  {
    forall x | x in t' ensures x.row.mode in MODES {
      var i :| 0 <= i < |t'| && t'[i] == x;
      assert t[i] in t;
    }
  }

  lemma ProcessorKeepsExplained(c: Ctx, s: State, p: nat, step: ProcStep)
    requires Owned(c, s) && Orderly(s) && Explained(s) && ProcessorEnabled(c, s, p, step)
    ensures Explained(ProcessorDo(c, s, p, step))
  {
    ProcessorTables(c, s, p, step);
    assert s.procs[p] in s.procs;
    ModesStay(s.table, ProcessorDo(c, s, p, step).table);
    if step.Commit? { assert s.table[s.procs[p].id] in s.table; }
  }

  lemma OthersKeepExplained(c: Ctx, s: State, a: Action)
    requires Explained(s) && Enabled(c, s, a) && !PipelineAction(a)
    ensures Explained(Do(c, s, a))
  {
    OthersTables(c, s, a);
    var t' := Do(c, s, a).table;
    forall x | x in t' ensures x.row.mode in MODES {
      var i :| 0 <= i < |t'| && t'[i] == x;
      if i < |s.table| { assert s.table[i] in s.table; }
    }
  }

  lemma StepKeepsExplained(c: Ctx, s: State, a: Action)
    requires Owned(c, s) && Relayed(c, s) && Orderly(s) && Explained(s) && Enabled(c, s, a)
    ensures Explained(Do(c, s, a))
  {
    match a {
      case Processor(p, step) => ProcessorKeepsExplained(c, s, p, step);
      case Sender(step) => if step.Await? { AwaitKeepsExplained(c, s, step.reply); }
      case _ => OthersKeepExplained(c, s, a);
    }
  }

  ghost predicate Sound(c: Ctx, s: State) {
    Owned(c, s) && Relayed(c, s) && Accounted(c, s) && Orderly(s) && Explained(s)
  }

  lemma StepKeepsSound(c: Ctx, s: State, a: Action)
    requires Sound(c, s) && Enabled(c, s, a)
    ensures Sound(c, Do(c, s, a))
  {
    StepKeepsOwned(c, s, a);
    StepKeepsRelayed(c, s, a);
    StepKeepsAccounts(c, s, a);
    StepKeepsOrder(c, s, a);
    StepKeepsExplained(c, s, a);
  }

  lemma GenesisSound(c: Ctx, s: State)
    requires Genesis(c, s)
    ensures Sound(c, s)
  {
    GenesisOwned(c, s);
  }

  lemma SoundNext(c: Ctx, run: Run, n: nat)
    requires Runs(c, run) && n < |run.actions| && Sound(c, run.states[n])
    ensures Sound(c, run.states[n + 1])
  {
    assert StepAt(c, run, n);
    StepKeepsSound(c, run.states[n], run.actions[n]);
  }

  lemma SoundAt(c: Ctx, run: Run, n: nat)
    requires FromStart(c, run) && n <= |run.actions|
    ensures Sound(c, run.states[n])
  {
    var holds := (s: State) => Sound(c, s);
    GenesisSound(c, run.states[0]);
    forall i | 0 <= i < |run.actions| && holds(run.states[i]) ensures holds(run.states[i + 1]) { SoundNext(c, run, i); }
    Invariant(c, run, holds, n);
  }

  lemma AlwaysSound(c: Ctx, run: Run)
    requires FromStart(c, run)
    ensures Sound(c, End(run))
  {
    SoundAt(c, run, |run.actions|);
  }

  // ----- the work of a run -----

  /** Steps that move a row along, as opposed to polling, waiting, and claims that are rolled back. */
  predicate IsWork(a: Action) {
    (a.Processor? && (a.pstep == Commit(true) || a.pstep.Decode? || a.pstep.Send? || a.pstep.SendFails?)) ||
    (a.Sender? && (a.sstep.Receive? || a.sstep.Await?))
  }

  function WorkUnit(): Action -> nat { (a: Action) => if IsWork(a) then 1 else 0 }

  /** Work of one claim at most: commit, decode, send, receive, and the longest path of the sender. */
  const PER_CLAIM: nat := 18

  /** Claims this row can still have. */
  function Budget(ceiling: nat): Slot -> nat {
    (s: Slot) =>
      if !s.live || ceiling < s.row.retries + (if s.row.claimed then 1 else 0) then 0
      else ceiling - s.row.retries - (if s.row.claimed then 1 else 0)
  }

  function HandWork(): Proc -> nat {
    (p: Proc) => match p case Holding(_, _) => 17 case Ready(_) => 16 case _ => 0
  }

  function SenderWork(t: SenderTask): nat { if t.Busy? then Rank(t.pc) else 0 }

  function WorkLeft(c: Ctx, s: State): nat {
    PER_CLAIM * Sum(s.table, Budget(Ceiling(c.cfg))) + Sum(s.procs, HandWork()) + 15 * |s.chan| + SenderWork(s.sender)
  }

  /** The work `rows` rows can cause when each is claimed as often as the ceiling allows. */
  function Allowance(c: Ctx, rows: nat): nat { PER_CLAIM * Ceiling(c.cfg) * rows }

  lemma AllowanceAdds(c: Ctx, m: nat, n: nat)
    ensures Allowance(c, m + n) == Allowance(c, m) + Allowance(c, n)
    ensures Allowance(c, 0) == 0
    ensures Allowance(c, n) == PER_CLAIM * (Ceiling(c.cfg) * n)
  {
  }

  lemma ProcessorWorks(c: Ctx, s: State, p: nat, step: ProcStep)
    requires LocksHeld(c, s) && ProcessorEnabled(c, s, p, step)
    ensures WorkLeft(c, ProcessorDo(c, s, p, step)) + WorkUnit()(Processor(p, step)) <= WorkLeft(c, s)
  {
    var s', me, ceiling := ProcessorDo(c, s, p, step), s.procs[p], Ceiling(c.cfg);
    SumUpdate(s.procs, p, s'.procs[p], HandWork());
    if step == Commit(true) {
      SumUpdate(s.table, me.id, s'.table[me.id], Budget(ceiling));
    }
  }

  lemma SenderWorks(c: Ctx, s: State, step: SenderStep)
    requires SenderEnabled(s, step)
    requires step.Await? ==> ConservedAt(s, s.sender.data.id) && !s.sender.pc.Finished?
    ensures WorkLeft(c, SenderDo(c, s, step)) + WorkUnit()(Sender(step)) <= WorkLeft(c, s)
  {
    if step.Await? {
      var id, s' := s.sender.data.id, SenderDo(c, s, step);
      RankDecreases(c.cfg, s.sender.data, s.sender.pc, step.reply);
      SumUpdate(s.table, id, s'.table[id], Budget(Ceiling(c.cfg)));
      assert s.table[id := s'.table[id]] == s'.table;
    }
  }

  lemma OthersWork(c: Ctx, s: State, s': State)
    requires OthersStep(s, s')
    ensures WorkLeft(c, s') <= WorkLeft(c, s) + Allowance(c, |s'.table| - |s.table|)
  {
    var n, w := |s.table|, Budget(Ceiling(c.cfg));
    var kept, added := s'.table[..n], s'.table[n..];
    assert s'.table == kept + added;
    SumAppend(kept, added, w);
    SumSame(kept, s.table, w);
    SumBounded(added, w, Ceiling(c.cfg));
    AllowanceAdds(c, 0, |added|);
  }

  lemma StepWorks(c: Ctx, s: State, a: Action)
    requires Owned(c, s) && Orderly(s) && Enabled(c, s, a)
    ensures |s.table| <= |Do(c, s, a).table|
    ensures WorkLeft(c, Do(c, s, a)) + WorkUnit()(a) <= WorkLeft(c, s) + Allowance(c, |Do(c, s, a).table| - |s.table|)
  {
    match a {
      case Processor(p, step) => ProcessorTables(c, s, p, step); ProcessorWorks(c, s, p, step);
      case Sender(step) =>
        SenderTables(c, s, step);
        if step.Await? { assert ConservedAt(s, s.sender.data.id); }
        SenderWorks(c, s, step);
      case _ => OthersTables(c, s, a); OthersWork(c, s, Do(c, s, a));
    }
  }

  lemma WorkNext(c: Ctx, run: Run, n: nat)
    requires FromStart(c, run) && n < |run.actions|
    ensures WorkLeft(c, run.states[n + 1]) + WorkUnit()(run.actions[n]) + Allowance(c, |run.states[n].table|)
         <= WorkLeft(c, run.states[n]) + Allowance(c, |run.states[n + 1].table|)
  {
    OwnedAndOrderlyAt(c, run, n);
    assert StepAt(c, run, n);
    StepIsAllowed(c, run.states[n], run.actions[n]);
  }

  lemma OwnedAndOrderlyAt(c: Ctx, run: Run, n: nat)
    requires FromStart(c, run) && n <= |run.actions|
    ensures Owned(c, run.states[n]) && Orderly(run.states[n])
  {
    SoundAt(c, run, n);
  }

  lemma StepIsAllowed(c: Ctx, s: State, a: Action)
    requires Owned(c, s) && Orderly(s) && Enabled(c, s, a)
    ensures var s' := Do(c, s, a);
            WorkLeft(c, s') + WorkUnit()(a) + Allowance(c, |s.table|) <= WorkLeft(c, s) + Allowance(c, |s'.table|)
  {
    StepWorks(c, s, a);
    AllowanceAdds(c, |s.table|, |Do(c, s, a).table| - |s.table|);
  }

  lemma NoWorkYet(c: Ctx, s: State)
    requires Genesis(c, s)
    ensures WorkLeft(c, s) == 0
  {
    SumZero(s.procs, HandWork());
  }

  lemma {:induction false} WorkDone(c: Ctx, run: Run, n: nat)
    requires FromStart(c, run) && n <= |run.actions|
    ensures Sum(run.actions[..n], WorkUnit()) + WorkLeft(c, run.states[n]) <= Allowance(c, |run.states[n].table|)
  {
    if n == 0 {
      NoWorkYet(c, run.states[0]);
    } else {
      WorkDone(c, run, n - 1);
      WorkNext(c, run, n - 1);
      SumSnoc(run.actions, n - 1, WorkUnit());
    }
  }
}
