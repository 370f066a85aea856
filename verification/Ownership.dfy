/**
 Who owns a claimed row. Every claimed row is in exactly one place: a processor's hand, the channel, the
 sender's hand, or the stranded set, and nothing else is claimed.
 */
module Ownership {
  import opened Prelude
  import opened EventLogs
  import opened Relay
  import opened Revalidation
  import opened Indexing
  import opened Pipeline

  // ----- what each side may do to the table -----

  predicate SameOrigin(a: Row, b: Row) {
    a.mode == b.mode && a.log == b.log && a.blockNumber == b.blockNumber && a.blockHash == b.blockHash &&
    a.txHash == b.txHash && a.logIndex == b.logIndex
  }

  /** The pipeline adds no rows, never touches a verdict, and never brings a row or the home stage back. */
  ghost predicate PipelineChange(t: Table, t': Table) {
    |t| == |t'| && forall i :: 0 <= i < |t| ==>
      && SameOrigin(t[i].row, t'[i].row) && t[i].row.fcr == t'[i].row.fcr
      && (t'[i].live ==> t[i].live)
      && (t[i].row.stage == Foreign ==> t'[i].row.stage == Foreign)
      && t[i].row.retries <= t'[i].row.retries
      && (!t[i].live ==> t'[i] == t[i])
  }

  predicate FreshSlot(s: Slot) {
    s.live && !s.row.claimed && s.row.retries == 0 && s.row.stage == Home && s.claims == 0
  }

  /** Indexers append fresh rows; the checker changes verdicts of pending rows; neither touches anything else. */
  ghost predicate OthersChange(t: Table, t': Table) {
    |t| <= |t'| &&
    (forall i :: 0 <= i < |t| ==> t'[i] == t[i].(row := t[i].row.(fcr := t'[i].row.fcr))) &&
    (forall i :: 0 <= i < |t| && t[i].row.fcr != Some(Pending) ==> t'[i].row.fcr == t[i].row.fcr) &&
    (forall i :: |t| <= i < |t'| ==> FreshSlot(t'[i]))
  }

  lemma StatementChanges(t: Table, id: nat, pc: Pc, r: Reply)
    ensures PipelineChange(t, Claim(t, id))
    ensures PipelineChange(t, TableAfter(t, id, pc, r))
  {
  }

  lemma ProcessorTables(c: Ctx, s: State, p: nat, step: ProcStep)
    requires ProcessorEnabled(c, s, p, step)
    ensures PipelineChange(s.table, ProcessorDo(c, s, p, step).table)
  {
    if step.Commit? { StatementChanges(s.table, s.procs[p].id, Finished, Reply(true, true, 0)); }
  }

  lemma SenderTables(c: Ctx, s: State, step: SenderStep)
    requires SenderEnabled(s, step)
    ensures PipelineChange(s.table, SenderDo(c, s, step).table)
  {
    if step.Await? { StatementChanges(s.table, s.sender.data.id, s.sender.pc, step.reply); }
  }

  lemma StoreOneChanges(t: Table, mode: BridgeMode, blockMode: BlockMode, log: ChainLog, o: StoreOutcome)
    ensures OthersChange(t, StoreOne(t, mode, blockMode, log, o))
  {
  }

  lemma VerdictChanges(t: Table, net: Net, block: PendingBlock, v: Verdict)
    ensures OthersChange(t, TableWith(t, net, block, v))
  {
  }

  /** What the indexers, the checker and the outside leave to the pipeline. */
  ghost predicate OthersStep(s: State, s': State) {
    && OthersChange(s.table, s'.table)
    && s'.procs == s.procs && s'.chan == s.chan && s'.sender == s.sender && s'.stranded == s.stranded
    && s'.sent == s.sent && s'.handled == s.handled && s'.executed == s.executed
    && |s'.txs| == |s.txs| && (s.shutdown ==> s'.shutdown)
  }

  lemma IndexerTables(c: Ctx, s: State, mode: BridgeMode, step: IndexStep)
    requires IndexerEnabled(c, s, mode, step)
    ensures OthersStep(s, IndexerDo(c, s, mode, step))
  {
    if step.Store? {
      StoreOneChanges(s.table, mode, ModeFor(c.cfg, NetOf(mode)), s.indexers[mode].phase.todo[0], step.outcome);
    }
  }

  lemma CheckerTables(c: Ctx, s: State, step: CheckStep)
    requires CheckerEnabled(c, s, step)
    ensures OthersStep(s, CheckerDo(c, s, step))
  {
    if step.Write? { VerdictChanges(s.table, s.checker.net, s.checker.todo[0], s.checker.verdict); }
  }

  lemma OutsideTables(s: State, step: OutsideStep)
    requires OutsideEnabled(s, step)
    ensures OthersStep(s, OutsideDo(s, step))
  {
  }

  lemma OthersTables(c: Ctx, s: State, a: Action)
    requires Enabled(c, s, a) && !PipelineAction(a)
    ensures OthersStep(s, Do(c, s, a))
  {
    match a {
      case Outside(step) => OutsideTables(s, step);
      case Index(mode, step) => IndexerTables(c, s, mode, step);
      case Check(step) => CheckerTables(c, s, step);
    }
  }

  // ----- counting owners -----

  /** The row a processor has claimed and not passed on. */
  function HandOf(p: Proc): Option<nat> {
    match p
    case Holding(id, _) => Some(id)
    case Ready(data) => Some(data.id)
    case _ => None
  }

  function InHand(id: nat): Proc -> nat { (p: Proc) => if HandOf(p) == Some(id) then 1 else 0 }

  function IsFor(id: nat): SenderData -> nat { (d: SenderData) => if d.id == id then 1 else 0 }

  function InSender(t: SenderTask, id: nat): nat { if t.Busy? && t.data.id == id then 1 else 0 }

  /** In how many places row `id` is being worked on. */
  function Held(s: State, id: nat): nat {
    Sum(s.procs, InHand(id)) + Sum(s.chan, IsFor(id)) + InSender(s.sender, id)
  }

  ghost predicate ConservedAt(s: State, id: nat) {
    Held(s, id) + (if id in s.stranded then 1 else 0) == if ClaimedAt(s.table, id) then 1 else 0
  }

  ghost predicate Conserved(s: State) { forall id: nat :: ConservedAt(s, id) }

  /** What the claim transaction read, apart from the verdict column, which nobody downstream looks at. */
  predicate SameWork(a: Row, b: Row) { a.mode == b.mode && a.log == b.log && a.stage == b.stage }

  /** Uncommitted claims are on distinct rows that are still claimable and still read the same. */
  ghost predicate LocksHeld(c: Ctx, s: State) {
    (forall p :: 0 <= p < |s.procs| && HoldsLock(s.procs[p]) ==>
       Claimable(s.table, Ceiling(c.cfg), s.procs[p].id) && SameWork(s.procs[p].row, s.table[s.procs[p].id].row)) &&
    (forall p, q :: 0 <= p < q < |s.procs| && HoldsLock(s.procs[p]) && HoldsLock(s.procs[q]) ==>
       s.procs[p].id != s.procs[q].id)
  }

  ghost predicate Owned(c: Ctx, s: State) { Conserved(s) && LocksHeld(c, s) }

  // ----- one processor's step -----

  lemma HandChange(s: State, p: nat, me: Proc, id: nat)
    requires p < |s.procs|
    ensures Sum(s.procs[p := me], InHand(id)) + InHand(id)(s.procs[p]) == Sum(s.procs, InHand(id)) + InHand(id)(me)
  {
    SumUpdate(s.procs, p, me, InHand(id));
  }

  lemma ProcessorConserves(c: Ctx, s: State, p: nat, step: ProcStep, id: nat)
    requires ConservedAt(s, id) && ProcessorEnabled(c, s, p, step)
    requires HoldsLock(s.procs[p]) ==> Claimable(s.table, Ceiling(c.cfg), s.procs[p].id)
    ensures ConservedAt(ProcessorDo(c, s, p, step), id)
  {
    var s', me := ProcessorDo(c, s, p, step), s.procs[p];
    HandChange(s, p, s'.procs[p], id);
    SumAtLeast(s.procs, p, InHand(id));
    if step.Send? { SumAppend(s.chan, [me.data], IsFor(id)); }
  }

  lemma ProcessorKeepsConserved(c: Ctx, s: State, p: nat, step: ProcStep)
    requires Owned(c, s) && ProcessorEnabled(c, s, p, step)
    ensures Conserved(ProcessorDo(c, s, p, step))
  {
    forall id: nat ensures ConservedAt(ProcessorDo(c, s, p, step), id) {
      assert ConservedAt(s, id);
      ProcessorConserves(c, s, p, step, id);
    }
  }

  lemma ProcessorKeepsLocks(c: Ctx, s: State, p: nat, step: ProcStep)
    requires Owned(c, s) && ProcessorEnabled(c, s, p, step)
    ensures LocksHeld(c, ProcessorDo(c, s, p, step))
  {
    if step.Lock? {
      forall q | 0 <= q < |s.procs| && HoldsLock(s.procs[q]) ensures s.procs[q].id != step.id {
        assert s.procs[q].id in LockedIds(s.procs);
      }
    }
  }

  // ----- the sender's step -----

  lemma SenderConserves(c: Ctx, s: State, step: SenderStep, id: nat)
    requires ConservedAt(s, id) && SenderEnabled(s, step)
    requires step.Await? ==> ConservedAt(s, s.sender.data.id)
    ensures ConservedAt(SenderDo(c, s, step), id)
  {
  }

  lemma SenderKeepsConserved(c: Ctx, s: State, step: SenderStep)
    requires Owned(c, s) && SenderEnabled(s, step)
    ensures Conserved(SenderDo(c, s, step))
  {
    forall id: nat ensures ConservedAt(SenderDo(c, s, step), id) {
      assert ConservedAt(s, id);
      if step.Await? { assert ConservedAt(s, s.sender.data.id); }
      SenderConserves(c, s, step, id);
    }
  }

  lemma SenderKeepsLocks(c: Ctx, s: State, step: SenderStep)
    requires Owned(c, s) && SenderEnabled(s, step)
    ensures LocksHeld(c, SenderDo(c, s, step))
  {
    if step.Await? { assert ConservedAt(s, s.sender.data.id); }
  }

  // ----- everybody else's step -----

  lemma OthersKeepOwned(c: Ctx, s: State, s': State)
    requires Owned(c, s) && OthersStep(s, s')
    ensures Owned(c, s')
  {
    forall id: nat ensures ConservedAt(s', id) {
      assert ConservedAt(s, id);
    }
  }

  lemma StepKeepsOwned(c: Ctx, s: State, a: Action)
    requires Owned(c, s) && Enabled(c, s, a)
    ensures Owned(c, Do(c, s, a))
  {
    match a {
      case Processor(p, step) => ProcessorKeepsConserved(c, s, p, step); ProcessorKeepsLocks(c, s, p, step);
      case Sender(step) => SenderKeepsConserved(c, s, step); SenderKeepsLocks(c, s, step);
      case _ => OthersTables(c, s, a); OthersKeepOwned(c, s, Do(c, s, a));
    }
  }

  lemma GenesisOwned(c: Ctx, s: State)
    requires Genesis(c, s)
    ensures Owned(c, s)
  {
    forall id: nat ensures ConservedAt(s, id) { SumZero(s.procs, InHand(id)); }
  }
}
