/**
 What the FCR checker may have written in any run: verdicts agree with the finalized chain, and the audit
 table mirrors the reverted rows exactly.
 */
module Auditing {
  import opened Prelude
  import opened EventLogs
  import opened Relay
  import opened SafeBlocks
  import opened Revalidation
  import opened Indexing
  import opened Pipeline
  import opened Ownership
  import opened Accounting

  /** The stored hash is the finalized one at the stored number, letter case aside. */
  ghost predicate OnFinalChain(c: Ctx, r: Row) {
    r.blockNumber.Some? && r.blockHash.Some? &&
    SameHash(r.blockHash.value, c.world.HashAt(NetOf(r.mode), r.blockNumber.value))
  }

  /** A verdict is only given at or below the finalized block, and it is the right one. */
  ghost predicate VerdictOk(c: Ctx, finalized: map<Net, int>, r: Row) {
    (r.fcr == Some(Confirmed) || r.fcr == Some(Reverted)) ==>
      && r.blockNumber.Some? && r.blockHash.Some?
      && NetOf(r.mode) in finalized && r.blockNumber.value <= finalized[NetOf(r.mode)]
      && (r.fcr == Some(Confirmed) <==> OnFinalChain(c, r))
  }

  /** The audit row describes the reverted row it points to. */
  ghost predicate AuditRowOk(c: Ctx, t: Table, a: AuditRow) {
    a.logId < |t| &&
    var r := t[a.logId].row;
    && r.fcr == Some(Reverted)
    && a.net == NetOf(r.mode) && r.blockNumber == Some(a.number) && r.blockHash == Some(a.storedHash)
    && a.txHash == r.txHash && a.logIndex == r.logIndex
    && IsLowerCase(a.canonicalHash) && SameHash(a.canonicalHash, c.world.HashAt(a.net, a.number))
    && a.number <= a.detectedAt
  }

  ghost predicate CheckerOk(c: Ctx, finalized: map<Net, int>, k: Checker) {
    (k.Listed? || k.Decided? ==>
       k.todo != [] && k.net in finalized && k.finalized <= finalized[k.net] &&
       forall b :: b in k.todo ==> b.number <= k.finalized) &&
    (k.Decided? ==> VerdictRight(c, k.net, k.todo[0], k.verdict))
  }

  ghost predicate VerdictRight(c: Ctx, net: Net, b: PendingBlock, v: Verdict) {
    match v
    case Survived => SameHash(b.hash, c.world.HashAt(net, b.number))
    case ReorgedOut(canonical) =>
      IsLowerCase(canonical) && SameHash(canonical, c.world.HashAt(net, b.number)) && !SameHash(b.hash, c.world.HashAt(net, b.number))
    case Unavailable => true
  }

  ghost predicate Audited(c: Ctx, s: State) {
    && (forall x :: x in s.table ==> VerdictOk(c, s.finalized, x.row))
    && (forall a :: a in s.audit ==> AuditRowOk(c, s.table, a))
    && DistinctRows(s.audit)
    && (forall i :: 0 <= i < |s.table| && s.table[i].row.fcr == Some(Reverted) ==> Mentions(s.audit, i))
    && CheckerOk(c, s.finalized, s.checker)
  }

  // ----- steps that leave verdicts alone -----

  /** Old rows keep origin and verdict; new rows have no verdict yet. */
  ghost predicate VerdictsStable(t: Table, t': Table) {
    |t| <= |t'| &&
    (forall i :: 0 <= i < |t| ==> SameOrigin(t[i].row, t'[i].row) && t'[i].row.fcr == t[i].row.fcr) &&
    (forall i :: |t| <= i < |t'| ==> t'[i].row.fcr != Some(Confirmed) && t'[i].row.fcr != Some(Reverted))
  }

  ghost predicate FinalizedGrows(f: map<Net, int>, f': map<Net, int>) {
    forall net :: net in f ==> net in f' && f[net] <= f'[net]
  }

  lemma AuditedStable(c: Ctx, s: State, s': State)
    requires Audited(c, s) && VerdictsStable(s.table, s'.table) && FinalizedGrows(s.finalized, s'.finalized)
    requires s'.audit == s.audit && s'.checker == s.checker
    ensures Audited(c, s')
  {
    forall x | x in s'.table ensures VerdictOk(c, s'.finalized, x.row) {
      var i :| 0 <= i < |s'.table| && s'.table[i] == x;
      if i < |s.table| { assert s.table[i] in s.table; }
    }
  }

  lemma ProcessorKeepsAudited(c: Ctx, s: State, p: nat, step: ProcStep)
    requires Audited(c, s) && ProcessorEnabled(c, s, p, step)
    ensures Audited(c, ProcessorDo(c, s, p, step))
  {
    ProcessorTables(c, s, p, step);
    AuditedStable(c, s, ProcessorDo(c, s, p, step));
  }

  lemma SenderKeepsAudited(c: Ctx, s: State, step: SenderStep)
    requires Audited(c, s) && SenderEnabled(s, step)
    ensures Audited(c, SenderDo(c, s, step))
  {
    SenderTables(c, s, step);
    AuditedStable(c, s, SenderDo(c, s, step));
  }

  lemma IndexerKeepsAudited(c: Ctx, s: State, mode: BridgeMode, step: IndexStep)
    requires Audited(c, s) && IndexerEnabled(c, s, mode, step)
    ensures Audited(c, IndexerDo(c, s, mode, step))
  {
    AuditedStable(c, s, IndexerDo(c, s, mode, step));
  }

  lemma OutsideKeepsAudited(c: Ctx, s: State, step: OutsideStep)
    requires Audited(c, s) && OutsideEnabled(s, step)
    ensures Audited(c, OutsideDo(s, step))
  {
    AuditedStable(c, s, OutsideDo(s, step));
  }

  // ----- the checker's steps -----

  /** Whatever honest providers answer, a verdict drawn from it is right. */
  lemma LookupIsRight(c: Ctx, net: Net, b: PendingBlock, answers: seq<HashAnswer>)
    requires HonestHashes(c, net, b.number, answers)
    ensures VerdictRight(c, net, b, VerdictFor(CanonicalHash(answers), b))
  {
    CanonicalHashSource(answers);
    if CanonicalHash(answers).Ok? && CanonicalHash(answers).value.Some? {
      var r, w := CanonicalHash(answers).value.value, c.world.HashAt(net, b.number);
      var h :| HashOf(h) in answers && IsLowered(h, r);
      LoweredSame(h, r, w);
      SameHashJoins(r, b.hash, w);
    }
  }

  /** The comparison made decides the comparison meant. */
  lemma SameHashJoins(canonical: Hash, stored: Hash, final: Hash)
    requires SameHash(canonical, final)
    ensures EqIgnoreCase(canonical, stored) <==> SameHash(stored, final)
  {
    EqIgnoreCaseMeaning(canonical, final);
    EqIgnoreCaseMeaning(stored, final);
  }

  lemma AffectedGetsRightVerdict(c: Ctx, finalized: map<Net, int>, x: Slot, net: Net, b: PendingBlock, status: FcrStatus)
    requires Affected(x, net, b) && net in finalized && b.number <= finalized[net]
    requires status == Confirmed || status == Reverted
    requires status == Confirmed <==> SameHash(b.hash, c.world.HashAt(net, b.number))
    ensures VerdictOk(c, finalized, x.row.(fcr := Some(status)))
  {
  }

  lemma WriteKeepsVerdicts(c: Ctx, s: State)
    requires Audited(c, s) && CheckerEnabled(c, s, Write(true))
    ensures forall x :: x in CheckerDo(c, s, Write(true)).table ==> VerdictOk(c, s.finalized, x.row)
  {
    var t', k := CheckerDo(c, s, Write(true)).table, s.checker;
    var b := k.todo[0];
    assert b in k.todo;
    forall x | x in t' ensures VerdictOk(c, s.finalized, x.row) {
      var i :| 0 <= i < |t'| && t'[i] == x;
      assert s.table[i] in s.table;
      if Affected(s.table[i], k.net, b) && !k.verdict.Unavailable? {
        var status := if k.verdict.Survived? then Confirmed else Reverted;
        AffectedGetsRightVerdict(c, s.finalized, s.table[i], k.net, b, status);
      }
    }
  }

  lemma AuditRowStays(c: Ctx, t: Table, net: Net, b: PendingBlock, v: Verdict, a: AuditRow)
    requires AuditRowOk(c, t, a)
    ensures AuditRowOk(c, TableWith(t, net, b, v), a)
  {
    assert !Affected(t[a.logId], net, b);
  }

  lemma AuditRowAdded(c: Ctx, t: Table, net: Net, b: PendingBlock, canonical: Hash, finalized: int, m: nat)
    requires m < |AuditRows(t, net, b, canonical, finalized)| && b.number <= finalized
    requires IsLowerCase(canonical) && SameHash(canonical, c.world.HashAt(net, b.number))
    requires forall x :: x in t ==> x.row.mode in MODES
    ensures AuditRowOk(c, TableWith(t, net, b, ReorgedOut(canonical)), AuditRows(t, net, b, canonical, finalized)[m])
  {
    var id := AffectedIds(t, |t|, net, b)[m];
    assert t[id] in t && Affected(t[id], net, b);
  }

  lemma WriteKeepsAuditRows(c: Ctx, s: State)
    requires Audited(c, s) && Explained(s) && CheckerEnabled(c, s, Write(true))
    ensures var s' := CheckerDo(c, s, Write(true));
            forall a :: a in s'.audit ==> AuditRowOk(c, s'.table, a)
  {
    var s', k := CheckerDo(c, s, Write(true)), s.checker;
    var more := AuditWith(s.table, k.net, k.todo[0], k.verdict, k.finalized);
    assert k.todo[0] in k.todo;
    forall a | a in s'.audit ensures AuditRowOk(c, s'.table, a) {
      if a in s.audit {
        AuditRowStays(c, s.table, k.net, k.todo[0], k.verdict, a);
      } else {
        var m :| 0 <= m < |more| && more[m] == a;
        AuditRowAdded(c, s.table, k.net, k.todo[0], k.verdict.canonical, k.finalized, m);
      }
    }
  }

  /** Rows audited before are reverted already, so the next block does not find them again. */
  lemma AuditStaysDistinct(t: Table, audit: seq<AuditRow>, net: Net, block: PendingBlock, v: Verdict, finalized: int)
    requires DistinctRows(audit)
    requires forall a :: a in audit ==> a.logId < |t| && t[a.logId].row.fcr == Some(Reverted)
    ensures DistinctRows(audit + AuditWith(t, net, block, v, finalized))
  {
    var ids, n, all := AffectedIds(t, |t|, net, block), |audit|, audit + AuditWith(t, net, block, v, finalized);
    forall a, b | 0 <= a < b < |all| ensures all[a].logId != all[b].logId {
      if b >= n {
        assert all[b].logId == ids[b - n];
        if a >= n { assert all[a].logId == ids[a - n]; } else { assert audit[a] in audit; }
      }
    }
  }

  lemma WriteKeepsAuditDistinct(c: Ctx, s: State)
    requires Audited(c, s) && CheckerEnabled(c, s, Write(true))
    ensures DistinctRows(CheckerDo(c, s, Write(true)).audit)
  {
    var k := s.checker;
    AuditStaysDistinct(s.table, s.audit, k.net, k.todo[0], k.verdict, k.finalized);
  }

  lemma WriteKeepsAuditComplete(c: Ctx, s: State, i: nat)
    requires Audited(c, s) && CheckerEnabled(c, s, Write(true))
    requires i < |s.table| && CheckerDo(c, s, Write(true)).table[i].row.fcr == Some(Reverted)
    ensures Mentions(CheckerDo(c, s, Write(true)).audit, i)
  {
    var s', k := CheckerDo(c, s, Write(true)), s.checker;
    if s.table[i].row.fcr == Some(Reverted) {
      var a :| a in s.audit && a.logId == i;
      assert a in s'.audit;
    } else {
      var ids := AffectedIds(s.table, |s.table|, k.net, k.todo[0]);
      var m :| 0 <= m < |ids| && ids[m] == i;
      assert s'.audit[|s.audit| + m].logId == i;
    }
  }

  lemma CheckerKeepsAudited(c: Ctx, s: State, step: CheckStep)
    requires Audited(c, s) && Explained(s) && CheckerEnabled(c, s, step)
    ensures Audited(c, CheckerDo(c, s, step))
  {
    match step {
      case Start(net, fin, listing) =>
        forall b | b in listing ensures b.number <= fin { assert ListedBlock(s.table, net, fin, b); }
      case Lookup(answers) => LookupIsRight(c, s.checker.net, s.checker.todo[0], answers);
      case Write(ok) =>
        if ok {
          WriteKeepsVerdicts(c, s);
          WriteKeepsAuditRows(c, s);
          WriteKeepsAuditDistinct(c, s);
          forall i | 0 <= i < |s.table| && CheckerDo(c, s, step).table[i].row.fcr == Some(Reverted)
            ensures Mentions(CheckerDo(c, s, step).audit, i)
          {
            WriteKeepsAuditComplete(c, s, i);
          }
        }
      case NextPass =>
      case SkipChain =>
      case Quit =>
    }
  }

  lemma StepKeepsAudited(c: Ctx, s: State, a: Action)
    requires Audited(c, s) && Explained(s) && Enabled(c, s, a)
    ensures Audited(c, Do(c, s, a))
  {
    match a {
      case Processor(p, step) => ProcessorKeepsAudited(c, s, p, step);
      case Sender(step) => SenderKeepsAudited(c, s, step);
      case Outside(step) => OutsideKeepsAudited(c, s, step);
      case Index(mode, step) => IndexerKeepsAudited(c, s, mode, step);
      case Check(step) => CheckerKeepsAudited(c, s, step);
    }
  }

  lemma AuditedNext(c: Ctx, run: Run, n: nat)
    requires Runs(c, run) && n < |run.actions| && Explained(run.states[n]) && Audited(c, run.states[n])
    ensures Audited(c, run.states[n + 1])
  {
    assert StepAt(c, run, n);
    StepKeepsAudited(c, run.states[n], run.actions[n]);
  }

  lemma AuditedAt(c: Ctx, run: Run, n: nat)
    requires FromStart(c, run) && n <= |run.actions|
    ensures Audited(c, run.states[n])
  {
    var holds := (s: State) => Audited(c, s);
    forall i | 0 <= i < |run.actions| && holds(run.states[i]) ensures holds(run.states[i + 1]) { SoundAt(c, run, i); AuditedNext(c, run, i); }
    Invariant(c, run, holds, n);
  }

  lemma AlwaysAudited(c: Ctx, run: Run)
    requires FromStart(c, run)
    ensures Audited(c, End(run))
  {
    AuditedAt(c, run, |run.actions|);
  }
}
