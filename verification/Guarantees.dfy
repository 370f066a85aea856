/**
 The guarantees of a whole run, for every run from the start of the process: any interleaving of the tasks, any
 answers of providers, databases and transactions.
 */
module Guarantees {
  import opened Prelude
  import opened EventLogs
  import opened Relay
  import opened SafeBlocks
  import opened Revalidation
  import opened Indexing
  import opened Pipeline
  import opened Ownership
  import opened Relaying
  import opened Accounting
  import opened Draining
  import opened Stopping
  import opened Auditing
  import opened Coverage
  import opened Storage
  import opened Provenance
  import opened Handling

  // ----- ownership -----

  lemma {:induction false} SumTwo<T>(s: seq<T>, i: nat, j: nat, w: T -> nat)
    requires i < j < |s|
    ensures w(s[i]) + w(s[j]) <= Sum(s, w)
  {
    if i == 0 { SumAtLeast(s[1..], j - 1, w); } else { SumTwo(s[1..], i - 1, j - 1, w); }
  }

  /** No row is in two places, and whoever has a row has a live, claimed one. */
  lemma ExclusiveOwnership(c: Ctx, run: Run)
    requires FromStart(c, run)
    ensures var s := End(run);
            && (forall p, q :: 0 <= p < q < |s.procs| && HandOf(s.procs[p]).Some? ==> HandOf(s.procs[p]) != HandOf(s.procs[q]))
            && (forall i, j :: 0 <= i < j < |s.chan| ==> s.chan[i].id != s.chan[j].id)
            && (forall p, i :: 0 <= p < |s.procs| && 0 <= i < |s.chan| ==> HandOf(s.procs[p]) != Some(s.chan[i].id))
            && (forall i :: 0 <= i < |s.chan| && s.sender.Busy? ==> s.chan[i].id != s.sender.data.id)
            && (forall p :: 0 <= p < |s.procs| && s.sender.Busy? ==> HandOf(s.procs[p]) != Some(s.sender.data.id))
    ensures var s := End(run);
            forall id: nat :: Held(s, id) <= 1 && (Held(s, id) == 1 ==> ClaimedAt(s.table, id) && id !in s.stranded)
  {
    var s := End(run);
    AlwaysSound(c, run);
    forall id: nat ensures Held(s, id) <= 1 && (Held(s, id) == 1 ==> ClaimedAt(s.table, id) && id !in s.stranded) {
      assert ConservedAt(s, id);
    }
    forall p, q | 0 <= p < q < |s.procs| && HandOf(s.procs[p]).Some? ensures HandOf(s.procs[p]) != HandOf(s.procs[q]) {
      var id := HandOf(s.procs[p]).value;
      SumTwo(s.procs, p, q, InHand(id));
      assert Held(s, id) <= 1;
    }
    forall i, j | 0 <= i < j < |s.chan| ensures s.chan[i].id != s.chan[j].id {
      SumTwo(s.chan, i, j, IsFor(s.chan[i].id));
      assert Held(s, s.chan[i].id) <= 1;
    }
    forall p, i | 0 <= p < |s.procs| && 0 <= i < |s.chan| ensures HandOf(s.procs[p]) != Some(s.chan[i].id) {
      SumAtLeast(s.procs, p, InHand(s.chan[i].id));
      SumAtLeast(s.chan, i, IsFor(s.chan[i].id));
      assert Held(s, s.chan[i].id) <= 1;
    }
    if s.sender.Busy? {
      var id := s.sender.data.id;
      assert Held(s, id) <= 1;
      forall i | 0 <= i < |s.chan| ensures s.chan[i].id != id { SumAtLeast(s.chan, i, IsFor(id)); }
      forall p | 0 <= p < |s.procs| ensures HandOf(s.procs[p]) != Some(id) { SumAtLeast(s.procs, p, InHand(id)); }
    }
  }

  /** A row is claimed exactly when it is held in one place or stranded, never both; uncommitted claims are on unclaimed rows. */
  lemma ConservationOfClaims(c: Ctx, run: Run, id: nat)
    requires FromStart(c, run)
    ensures var s := End(run);
            && (ClaimedAt(s.table, id) <==> (Held(s, id) == 1) != (id in s.stranded))
            && (!ClaimedAt(s.table, id) ==> Held(s, id) == 0 && id !in s.stranded)
            && (id in LockedIds(s.procs) ==> Held(s, id) == 0 && id < |s.table| && MayClaim(c.cfg, s.table[id]))
  {
    AlwaysSound(c, run);
    assert ConservedAt(End(run), id);
    ClaimMeaning(c.cfg, End(run).table, {}, id);
  }

  /** The only two ways a claim is lost: it cannot be decoded or signed, or the release after an error fails. */
  lemma StrandingExits(c: Ctx, run: Run, a: Action, id: nat)
    requires FromStart(c, run) && Enabled(c, End(run), a)
    requires id !in End(run).stranded && id in Do(c, End(run), a).stranded
    ensures var s := End(run);
            || (a.Processor? && a.pstep.Decode? && HandOf(s.procs[a.p]) == Some(id)
                && (!Decodable(s.procs[a.p].row) || (!a.pstep.keyOk && (s.procs[a.p].row.mode == AmbGc || s.procs[a.p].row.mode == XdaiGc))))
            || (a.Sender? && a.sstep.Await? && s.sender.data.id == id
                && s.sender.pc == ReleaseAfterError && !a.sstep.reply.ok)
  {
    var s := End(run);
    ExtendRuns(c, run, a);
    ExplainedAlways(c, run);
    ExplainedAlways(c, Extend(c, run, a));
    match a {
      case Processor(p, step) => assert s.procs[p] in s.procs; ProcessorStrands(c, s, p, step, id);
      case Sender(step) => SenderStrands(c, s, step, id);
      case _ => OthersTables(c, s, a);
    }
  }

  lemma ExplainedAlways(c: Ctx, run: Run)
    requires FromStart(c, run)
    ensures Explained(End(run))
  {
    AlwaysSound(c, run);
  }

  lemma ProcessorStrands(c: Ctx, s: State, p: nat, step: ProcStep, id: nat)
    requires ProcessorEnabled(c, s, p, step) && (s.procs[p].Holding? ==> s.procs[p].row.mode in MODES)
    requires id !in s.stranded && id in ProcessorDo(c, s, p, step).stranded
    requires ProcessorDo(c, s, p, step).stranded[id] != ChannelClosed
    ensures step.Decode? && HandOf(s.procs[p]) == Some(id) && (!Decodable(s.procs[p].row) || (!step.keyOk && (s.procs[p].row.mode == AmbGc || s.procs[p].row.mode == XdaiGc)))
  {
    BuildCallCarries(c.cfg, s.procs[p].row, AmbEthCall([]));
  }

  lemma SenderStrands(c: Ctx, s: State, step: SenderStep, id: nat)
    requires SenderEnabled(s, step) && id !in s.stranded && id in SenderDo(c, s, step).stranded
    requires SenderDo(c, s, step).stranded[id] != ForeignOff
    ensures step.Await? && s.sender.data.id == id && s.sender.pc == ReleaseAfterError && !step.reply.ok
  {
  }

  /** A stranded row never moves again: it stays claimed, live and out of everybody's hands. */
  lemma StrandedStays(c: Ctx, run: Run, a: Action, id: nat)
    requires FromStart(c, run) && Enabled(c, End(run), a) && id in End(run).stranded
    ensures id in Do(c, End(run), a).stranded
    ensures ClaimedAt(Do(c, End(run), a).table, id)
  {
    var s := End(run);
    AlwaysSound(c, run);
    StepKeepsSound(c, s, a);
    assert ConservedAt(s, id) && ConservedAt(Do(c, s, a), id);
    if !PipelineAction(a) { OthersTables(c, s, a); }
  }

  // ----- freshness and justification -----

  /** The message is about a row, carries its event, and has the stage the row has. */
  ghost predicate SaysWhatRowSays(c: Ctx, t: Table, data: SenderData) {
    data.id < |t| && CarriesEvent(c.cfg, t[data.id].row, data.call) && data.stage == t[data.id].row.stage
  }

  /** Whatever happens meanwhile, a message on its way says what its row says, and the sender finds it so. */
  lemma SnapshotFreshness(c: Ctx, run: Run)
    requires FromStart(c, run)
    ensures var s := End(run);
            && (forall p :: p in s.procs && p.Ready? ==> SaysWhatRowSays(c, s.table, p.data))
            && (forall d :: d in s.chan ==> SaysWhatRowSays(c, s.table, d))
            && (s.sender.Busy? ==>
                  s.sender.data.id < |s.table| && CarriesEvent(c.cfg, s.table[s.sender.data.id].row, s.sender.data.call))
            && (s.sender.Busy? && s.sender.pc.Connect? ==> SaysWhatRowSays(c, s.table, s.sender.data))
  {
    AlwaysSound(c, run);
    var s := End(run);
    forall data | Fresh(c, s.table, data) ensures SaysWhatRowSays(c, s.table, data) {
      BuildCallCarries(c.cfg, s.table[data.id].row, data.call);
    }
    if s.sender.Busy? { BuildCallCarries(c.cfg, s.table[s.sender.data.id].row, s.sender.data.call); }
  }

  /**
   A home transaction is only sent for a row at the home stage, and a foreign execution only for a row we hold a receipt
   for; both under the key of the row's own event.
   */
  lemma SubmitOnlyFromHome(c: Ctx, run: Run)
    requires FromStart(c, run)
    ensures var s := End(run);
            && (s.sender.Busy? && s.sender.pc.Submit? ==>
                  s.sender.data.id < |s.table| && s.table[s.sender.data.id].row.stage == Home)
            && (forall tx :: tx in s.txs ==>
                  tx.stageThen == Home && tx.id < |s.table| && KeySpells(c.cfg, s.table[tx.id].row, tx.key))
            && (forall e :: e in s.executed ==> e.id < |s.table| && KeySpells(c.cfg, s.table[e.id].row, e.key))
  {
    AlwaysSound(c, run);
    AlwaysSpelled(c, run, |run.actions|);
    var s := End(run);
    forall tx | tx in s.txs ensures tx.stageThen == Home { assert TxOk(s.home, tx); }
  }

  /** We are among the signers of a key only if we were from the start, or a transaction of ours for it was mined. */
  lemma OurSignatureIsOurs(c: Ctx, run: Run, k: HomeKey)
    requires FromStart(c, run) && k in End(run).home.signers && US in End(run).home.signers[k]
    ensures (k in run.states[0].home.signers && US in run.states[0].home.signers[k])
            || exists t :: 0 <= t < |End(run).txs| && End(run).txs[t].key == k && End(run).txs[t].mined
  {
    SignedByUs(c, run, |run.actions|, k);
  }

  /** A foreign execution needs the receipt of a home submission of ours and a blob of one byte plus 65 per required signature; so does the foreign stage. */
  lemma ExecuteOnlyAfterSubmission(c: Ctx, run: Run)
    requires FromStart(c, run)
    ensures var s := End(run);
            forall e :: e in s.executed ==> OurReceipt(s.txs, e.key) && e.length == 1 + 65 * s.home.Required(e.key)
  {
    AlwaysSound(c, run);
    var s := End(run);
    forall e | e in s.executed ensures OurReceipt(s.txs, e.key) && e.length == 1 + 65 * s.home.Required(e.key) {
      assert ExecutedOk(s.home, s.txs, e);
    }
  }

  /** The number of validators a bridge asks for. */
  function Threshold(h: HomeChain, mode: BridgeMode): nat {
    if mode == XdaiEth || mode == XdaiGc then h.xdaiRequired else h.ambRequired
  }

  /** The contract has us among the signers of the key, or has the required number of them. */
  ghost predicate RecordedAt(h: HomeChain, k: HomeKey) {
    if k in h.signers then US in h.signers[k] || |h.signers[k]| >= Threshold(h, k.mode) else Threshold(h, k.mode) == 0
  }

  /** The event of the row is recorded at home. */
  ghost predicate EventRecorded(c: Ctx, h: HomeChain, row: Row) {
    exists k :: KeySpells(c.cfg, row, k) && RecordedAt(h, k)
  }

  lemma RecordedMeaning(c: Ctx, h: HomeChain, row: Row, call: CallData)
    requires BuildCall(c.cfg, row) == Some(call)
    ensures EventRecorded(c, h, row) <==> h.Recorded(KeyOf(call))
  {
    BuildCallCarries(c.cfg, row, call);
    forall k ensures KeySpells(c.cfg, row, k) <==> k == KeyOf(call) { KeyOfSpells(c.cfg, row, call, k); }
    assert RecordedAt(h, KeyOf(call)) <==> h.Recorded(KeyOf(call));
  }

  /** The event of a deleted row is recorded at home: signed or affirmed by us, or complete; so is that of a foreign-stage row. */
  lemma JustifiedDeletion(c: Ctx, run: Run, id: nat)
    requires FromStart(c, run) && id < |End(run).table|
    ensures var s := End(run);
            var slot := s.table[id];
            !slot.live || slot.row.stage == Foreign ==> EventRecorded(c, s.home, slot.row)
  {
    AlwaysSound(c, run);
    var s := End(run);
    var slot := s.table[id];
    assert slot in s.table;
    assert RowOk(c, s.home, s.txs, slot);
    if !slot.live || slot.row.stage == Foreign { RecordedMeaning(c, s.home, slot.row, BuildCall(c.cfg, slot.row).value); }
  }

  /** A row goes away only through the sender's delete, and at that moment its event is already recorded. */
  lemma DeletionStep(c: Ctx, run: Run, a: Action, id: nat)
    requires FromStart(c, run) && Enabled(c, End(run), a)
    requires LiveAt(End(run).table, id) && !LiveAt(Do(c, End(run), a).table, id)
    ensures var s := End(run);
            && a.Sender? && a.sstep.Await? && s.sender.Busy? && s.sender.pc.DeleteRow? && s.sender.data.id == id
            && CarriesEvent(c.cfg, s.table[id].row, s.sender.data.call)
            && EventRecorded(c, s.home, s.table[id].row)
  {
    var s := End(run);
    DeletedHow(c, run, a, id);
    BuildCallCarries(c.cfg, s.table[id].row, s.sender.data.call);
    RecordedMeaning(c, s.home, s.table[id].row, s.sender.data.call);
  }

  lemma DeletedHow(c: Ctx, run: Run, a: Action, id: nat)
    requires FromStart(c, run) && Enabled(c, End(run), a)
    requires LiveAt(End(run).table, id) && !LiveAt(Do(c, End(run), a).table, id)
    ensures var s := End(run);
            && a.Sender? && a.sstep.Await? && s.sender.pc.DeleteRow? && s.sender.data.id == id
            && BuildCall(c.cfg, s.table[id].row) == Some(s.sender.data.call)
            && s.home.Recorded(KeyOf(s.sender.data.call))
  {
    var s := End(run);
    AlwaysSound(c, run);
    match a {
      case Processor(p, step) => ProcessorDeletesNothing(c, s, p, step, id);
      case Sender(step) => SenderDeletes(c, s, step, id);
      case _ => OthersTables(c, s, a);
    }
  }

  lemma ProcessorDeletesNothing(c: Ctx, s: State, p: nat, step: ProcStep, id: nat)
    requires ProcessorEnabled(c, s, p, step) && LiveAt(s.table, id)
    ensures LiveAt(ProcessorDo(c, s, p, step).table, id)
  {
  }

  lemma SenderDeletes(c: Ctx, s: State, step: SenderStep, id: nat)
    requires SenderEnabled(s, step) && LiveAt(s.table, id) && !LiveAt(SenderDo(c, s, step).table, id)
    ensures step.Await? && s.sender.pc.DeleteRow? && s.sender.data.id == id
  {
  }

  // ----- what handling a message achieves -----

  /** We sent a home transaction for this key and row, from the home stage, after the first `before`, and hold its receipt. */
  ghost predicate SentAndConfirmed(s: State, before: nat, id: nat, key: HomeKey) {
    exists t {:trigger s.txs[t]} :: before <= t < |s.txs| && s.txs[t] == HomeTx(key, id, Home, true, true)
  }

  /** We sent a foreign execution for this key and row, with 1 + 65 bytes per required signature, after the first `before`. */
  ghost predicate SentToForeign(s: State, before: nat, id: nat, key: HomeKey) {
    exists e {:trigger s.executed[e]} :: before <= e < |s.executed| && s.executed[e] == ForeignCall(id, key, 1 + 65 * Threshold(s.home, key.mode))
  }

  /** From state i to state n there was a moment when we had sent nothing and the event was recorded at home already. */
  ghost predicate RecordedAnyway(run: Run, i: nat, n: nat, key: HomeKey)
    requires n <= |run.actions| < |run.states|
  {
    exists m {:trigger run.states[m]} :: i <= m < n && |run.states[m].txs| == |run.states[i].txs| && RecordedAt(run.states[m].home, key)
  }

  /** From state i to state n the helper gave a blob that is not whole. */
  ghost predicate PartialBlob(run: Run, i: nat, n: nat, key: HomeKey)
    requires n <= |run.actions| < |run.states|
  {
    exists m {:trigger run.states[m]} :: i <= m < n && run.states[m].sender.Busy? && run.states[m].sender.pc.Gather?
      && run.actions[m].Sender? && run.actions[m].sstep.Await?
      && run.actions[m].sstep.reply.num != 1 + 65 * Threshold(run.states[m].home, key.mode)
  }

  predicate ForeignWanted(cfg: Config, mode: BridgeMode) {
    (mode == AmbGc && cfg.ambOnForeign) || (mode == XdaiGc && cfg.xdaiOnForeign)
  }

  /**
   Between the reception of a message (state i) and the end of its handling (state n + 1) let no await fail, whatever
   the other tasks and validators do. Then the row is deleted. If it was at the home stage and its event was not
   recorded anyway, we have sent its affirmation or signature and hold the receipt. If it is also to be executed on the
   foreign chain and the helper's blob was whole, we have sent the execution.
   */
  lemma SuccessfulHandling(c: Ctx, run: Run, i: nat, n: nat, data: SenderData) returns (key: HomeKey)
    requires FromStart(c, run) && n < |run.actions| && HandledWell(run, i, n, data)
    ensures data.id < |run.states[i].table| && data.id < |run.states[n + 1].table|
    ensures var s, s', row := run.states[i], run.states[n + 1], run.states[n + 1].table[data.id].row;
            && !s'.table[data.id].live && s'.handled == run.states[n].handled + [data]
            && KeySpells(c.cfg, row, key)
            && (s.table[data.id].row.stage == Home && !RecordedAnyway(run, i, n, key) ==>
                  SentAndConfirmed(s', |s.txs|, data.id, key))
            && (ForeignWanted(c.cfg, row.mode) && !PartialBlob(run, i, n, key)
                && !(s.table[data.id].row.stage == Home && RecordedAnyway(run, i, n, key)) ==>
                  SentToForeign(s', |s.executed|, data.id, key))
  {
    key := KeyOf(data.call);
    EndsInDeletion(c, run, i, n, data);
    BuildCallCarries(c.cfg, run.states[n].table[data.id].row, data.call);
    KeyOfSpells(c.cfg, run.states[n].table[data.id].row, data.call, key);
    FreshAtStart(c, run, i, data);
    SameReadings(run, i, n, data);
    SentStaysSent(c, run, i, n, data);
  }

  /** When the sender has just received a message, the row has the stage the message says. */
  lemma FreshAtStart(c: Ctx, run: Run, i: nat, data: SenderData)
    requires FromStart(c, run) && i <= |run.actions| && run.states[i].sender == Busy(data, Connect)
    ensures data.id < |run.states[i].table| && run.states[i].table[data.id].row.stage == data.stage
  {
    SoundAt(c, run, i);
  }

  lemma SameReadings(run: Run, i: nat, n: nat, data: SenderData)
    requires n <= |run.actions| < |run.states|
    ensures var key := KeyOf(data.call);
            && (FoundRecorded(run, i, n, data) ==> RecordedAnyway(run, i, n, key))
            && (FoundPartial(run, i, n, data) ==> PartialBlob(run, i, n, key))
  {
    var key := KeyOf(data.call);
    if FoundRecorded(run, i, n, data) {
      var m :| i <= m < n && |run.states[m].txs| == |run.states[i].txs| && run.states[m].home.Recorded(key);
      assert RecordedAt(run.states[m].home, key);
    }
    if FoundPartial(run, i, n, data) {
      var m :| i <= m < n && run.states[m].sender.Busy? && run.states[m].sender.pc.Gather?
        && run.actions[m].Sender? && run.actions[m].sstep.Await?
        && run.actions[m].sstep.reply.num != 1 + 65 * run.states[m].home.Required(key);
      assert run.states[m].home.Required(key) == Threshold(run.states[m].home, key.mode);
    }
  }

  lemma SentStaysSent(c: Ctx, run: Run, i: nat, n: nat, data: SenderData)
    requires i <= n < |run.actions| < |run.states| && run.states[n].sender == Busy(data, DeleteRow)
    requires run.actions[n].Sender? && run.actions[n].sstep.Await? && SenderEnabled(run.states[n], run.actions[n].sstep)
    requires run.states[n + 1] == SenderDo(c, run.states[n], run.actions[n].sstep)
    ensures var key, s, s' := KeyOf(data.call), run.states[n], run.states[n + 1];
            && (SubmissionConfirmed(s, |run.states[i].txs|, data) ==> SentAndConfirmed(s', |run.states[i].txs|, data.id, key))
            && (ExecutionSent(s, |run.states[i].executed|, data) ==> SentToForeign(s', |run.states[i].executed|, data.id, key))
  {
    var key, s, s' := KeyOf(data.call), run.states[n], run.states[n + 1];
    assert s'.txs == s.txs && s'.executed == s.executed && s'.home == s.home;
    assert s.home.Required(key) == Threshold(s.home, key.mode);
    if ExecutionSent(s, |run.states[i].executed|, data) {
      var e :| |run.states[i].executed| <= e < |s.executed| && s.executed[e] == ForeignCall(data.id, key, 1 + 65 * s.home.Required(key));
      assert s'.executed[e] == ForeignCall(data.id, key, 1 + 65 * Threshold(s'.home, key.mode));
    }
  }

  /** A row is deleted only at the end of a handling in which nothing failed. */
  lemma DeletedOnlyAfterSuccess(c: Ctx, run: Run, n: nat, id: nat) returns (i: nat)
    requires FromStart(c, run) && n < |run.actions|
    requires LiveAt(run.states[n].table, id) && !LiveAt(run.states[n + 1].table, id)
    ensures run.states[n].sender.Busy? && run.states[n].sender.data.id == id
    ensures HandledWell(run, i, n, run.states[n].sender.data)
  {
    assert StepAt(c, run, n);
    var s, a := run.states[n], run.actions[n];
    match a {
      case Processor(p, step) => ProcessorDeletesNothing(c, s, p, step, id);
      case Sender(step) => SenderDeletes(c, s, step, id);
      case _ => OthersTables(c, s, a);
    }
    i := WellSince(c, run, n);
  }

  /** The signers the contract has for a key. */
  function SignersAt(h: HomeChain, k: HomeKey): set<Validator> { if k in h.signers then h.signers[k] else {} }

  /**
   A home transaction is sent only once per handling, and only after the contract has shown, since the message was
   received, that we had not signed and that signatures were missing.
   */
  lemma SubmissionWasNeeded(c: Ctx, run: Run, n: nat) returns (i: nat, m1: nat, m2: nat)
    requires FromStart(c, run) && n < |run.actions| && |run.states[n + 1].txs| > |run.states[n].txs|
    ensures i <= m1 < n && i <= m2 < n && |run.states[n].txs| == |run.states[i].txs| && |run.states[n + 1].txs| == |run.states[i].txs| + 1
    ensures run.states[n].sender.Busy?
    ensures var data, tx := run.states[n].sender.data, run.states[n + 1].txs[|run.states[i].txs|];
            && HandlingWell(run, i, n, data) && tx.id == data.id
            && US !in SignersAt(run.states[m1].home, tx.key)
            && |SignersAt(run.states[m2].home, tx.key)| < Threshold(run.states[m2].home, tx.key.mode)
  {
    SubmitsAt(c, run, n);
    var data := run.states[n].sender.data;
    var key := KeyOf(data.call);
    i := WellSince(c, run, n);
    WellAchieves(c, run, i, n, data);
    var required := run.states[n].home.Required(key);
    m1 :| i <= m1 < n && US !in run.states[m1].home.Signers(key);
    m2 :| i <= m2 < n && |run.states[m2].home.Signers(key)| <= required - 1;
    ThresholdsFixed(c, run, m2, n, key);
  }

  lemma SubmitsAt(c: Ctx, run: Run, n: nat)
    requires FromStart(c, run) && n < |run.actions| && |run.states[n + 1].txs| > |run.states[n].txs|
    ensures var s, s' := run.states[n], run.states[n + 1];
            && s.sender.Busy? && s.sender.pc.Submit? && s.sender.pc.required == s.home.Required(KeyOf(s.sender.data.call))
            && |s'.txs| == |s.txs| + 1 && s'.txs[|s.txs|].key == KeyOf(s.sender.data.call) && s'.txs[|s.txs|].id == s.sender.data.id
  {
    assert StepAt(c, run, n);
    SoundAt(c, run, n);
    if !run.actions[n].Sender? { OthersKeepSent(c, run.states[n], run.actions[n]); }
  }

  lemma {:induction false} ThresholdsFixed(c: Ctx, run: Run, m: nat, n: nat, key: HomeKey)
    requires Runs(c, run) && m <= n <= |run.actions|
    ensures run.states[m].home.Required(key) == run.states[n].home.Required(key) == Threshold(run.states[m].home, key.mode)
    decreases n
  {
    if n == m {
    } else {
      ThresholdsFixed(c, run, m, n - 1, key);
      assert StepAt(c, run, n - 1);
      if !run.actions[n - 1].Sender? { OthersKeepSent(c, run.states[n - 1], run.actions[n - 1]); }
    }
  }

  /** A row gets another retry, or loses its claim and stays, only after an await of its handling has failed. */
  lemma ReleasedOnlyAfterFailure(c: Ctx, run: Run, n: nat, id: nat)
    requires FromStart(c, run) && n < |run.actions| && id < |run.states[n].table| && id < |run.states[n + 1].table|
    requires var before, after := run.states[n].table[id].row, run.states[n + 1].table[id].row;
             after.retries != before.retries || (before.claimed && !after.claimed)
    ensures run.actions[n].Sender? && run.states[n].sender.Busy? && run.states[n].sender.data.id == id
    ensures FailedSince(run, n)
  {
    assert StepAt(c, run, n);
    ReleasedHow(c, run.states[n], run.actions[n], id);
    ReleasingMeansFailed(c, run, n);
  }

  // ----- how rows evolve -----

  /** Along any continuation a row keeps its origin, never goes back to the home stage, never loses a verdict, and stays deleted. */
  ghost predicate Evolves(t: Table, t': Table) {
    |t| <= |t'| && forall i :: 0 <= i < |t| ==>
      && SameOrigin(t[i].row, t'[i].row)
      && (t[i].row.stage == Foreign ==> t'[i].row.stage == Foreign)
      && (t[i].row.fcr != Some(Pending) ==> t'[i].row.fcr == t[i].row.fcr)
      && t[i].row.retries <= t'[i].row.retries
      && (!t[i].live ==> t'[i] == t[i])
  }

  lemma StepEvolves(c: Ctx, s: State, a: Action)
    requires Enabled(c, s, a)
    ensures Evolves(s.table, Do(c, s, a).table)
  {
    match a {
      case Processor(p, step) => ProcessorTables(c, s, p, step);
      case Sender(step) => SenderTables(c, s, step);
      case Outside(step) => OutsideTables(s, step);
      case Index(mode, step) => IndexerTables(c, s, mode, step);
      case Check(step) => CheckerEvolves(c, s, step);
    }
  }

  lemma CheckerEvolves(c: Ctx, s: State, step: CheckStep)
    requires CheckerEnabled(c, s, step)
    ensures Evolves(s.table, CheckerDo(c, s, step).table)
  {
  }

  lemma {:induction false} RowsEvolve(c: Ctx, run: Run, i: nat, j: nat)
    requires Runs(c, run) && i <= j <= |run.actions|
    ensures Evolves(run.states[i].table, run.states[j].table)
    decreases j
  {
    if i == j {
    } else {
      RowsEvolve(c, run, i, j - 1);
      assert StepAt(c, run, j - 1);
      StepEvolves(c, run.states[j - 1], run.actions[j - 1]);
    }
  }

  // ----- retries and work -----

  /** Claims made are retries used plus the open claim, and neither passes the configured maximum or what the i32 column holds. */
  lemma RetryAccounting(c: Ctx, run: Run, id: nat)
    requires FromStart(c, run) && id < |End(run).table|
    ensures var slot := End(run).table[id];
            && slot.claims == slot.row.retries + (if slot.row.claimed then 1 else 0)
            && slot.row.retries <= slot.claims <= c.cfg.maxRetryCount && slot.claims <= 0x7fff_ffff
  {
    AlwaysSound(c, run);
    assert AccountedSlot(Ceiling(c.cfg), End(run).table[id]);
  }

  /** A claim can only be committed on a row all of whose earlier claims were released, and that has retries left. */
  lemma ClaimNeedsReleases(c: Ctx, run: Run, p: nat)
    requires FromStart(c, run) && Enabled(c, End(run), Processor(p, Commit(true)))
    ensures var s := End(run);
            var id := s.procs[p].id;
            && id < |s.table| && MayClaim(c.cfg, s.table[id]) && s.table[id].claims == s.table[id].row.retries
            && Do(c, s, Processor(p, Commit(true))).table[id].claims == s.table[id].claims + 1
  {
    AlwaysSound(c, run);
    var s := End(run);
    ClaimMeaning(c.cfg, s.table, {}, s.procs[p].id);
    assert AccountedSlot(Ceiling(c.cfg), s.table[s.procs[p].id]);
  }

  /** However long a run, the work in it is at most 18 steps per row and allowed claim. */
  lemma WorkIsBounded(c: Ctx, run: Run)
    requires FromStart(c, run)
    ensures Sum(run.actions, WorkUnit()) <= 18 * c.cfg.maxRetryCount * |End(run).table|
    ensures Sum(run.actions, WorkUnit()) <= 18 * 0x7fff_ffff * |End(run).table|
  {
    WorkDone(c, run, |run.actions|);
    assert run.actions[..|run.actions|] == run.actions;
    MulMonotone(18 * Ceiling(c.cfg), 18 * c.cfg.maxRetryCount, |End(run).table|);
    MulMonotone(18 * Ceiling(c.cfg), 18 * 0x7fff_ffff, |End(run).table|);
  }

  /** A claim that is rolled back, from the query to the next query. */
  function RolledBack(s: State, p: nat, id: nat): Run
    requires p < |s.procs| && id < |s.table|
  {
    Run([s, s.(procs := s.procs[p := Locked(id, s.table[id].row)]), s.(procs := s.procs[p := Waiting]),
         s.(procs := s.procs[p := AtTop]), s],
        [Processor(p, Lock(id)), Processor(p, Mark(false)), Processor(p, Wake(false)), Processor(p, Poll)])
  }

  /** Counting all steps would not do: a claim that is rolled back, none of whose steps is work, leads back to the very same state. */
  lemma RolledBackClaimChangesNothing(c: Ctx, s: State, p: nat, id: nat)
    requires p < |s.procs| && s.procs[p] == Reading && !s.shutdown
    requires NextToClaim(s.table, Ceiling(c.cfg), LockedIds(s.procs), id)
    ensures Runs(c, RolledBack(s, p, id)) && End(RolledBack(s, p, id)) == s
  {
    var run := RolledBack(s, p, id);
    assert run.states[3].procs[p := Reading] == s.procs;
    forall n | 0 <= n < 4 ensures StepAt(c, run, n) { AloneAt(c, run.states[n], p, run.actions[n]); }
  }

  /** A row with no retries left: as many as configured, or as many as an i32 holds if that is less. */
  predicate AtLimit(cfg: Config, r: Row) {
    r.retries == cfg.maxRetryCount || (r.retries == 0x7fff_ffff && 0x7fff_ffff < cfg.maxRetryCount)
  }

  /** When a processor is looking and nothing but looking is possible, every row left is out of retries or stranded. */
  lemma QuietMeansParked(c: Ctx, run: Run, id: nat)
    requires FromStart(c, run) && Quiet(c, End(run)) && LiveAt(End(run).table, id)
    ensures var s := End(run);
            if s.table[id].row.claimed then id in s.stranded else AtLimit(c.cfg, s.table[id].row)
  {
    AlwaysSound(c, run);
    QuietRow(c, End(run), id);
  }

  // ----- stopping -----

  /** Sends never fail, the channel stays within its bound, and until processors and sender have stopped one of them can step. */
  lemma PipelineProgress(c: Ctx, run: Run)
    requires FromStart(c, run)
    ensures var s := End(run);
            && |s.chan| <= 32
            && (forall p :: !Enabled(c, s, Processor(p, SendFails)))
            && (PipelineStopped(s) || exists a :: PipelineAction(a) && Enabled(c, s, a))
  {
    var s := End(run);
    AlwaysSound(c, run);
    forall p ensures !Enabled(c, s, Processor(p, SendFails)) { SendNeverFails(c, s, p); }
    if !PipelineStopped(s) { var a := SomeTaskCanStep(c, s); }
  }

  ghost predicate CanStep(c: Ctx, s: State, a: Action) { TaskAction(a) && Enabled(c, s, a) }

  /**
   No task is stuck. An indexer that has not ended can always step. The checker waits for nothing but a row lock, and
   the processor that holds the lock does not wait. So until all eight tasks have stopped, one can step.
   */
  lemma NoDeadlock(c: Ctx, run: Run)
    requires FromStart(c, run)
    ensures var s := End(run);
            && (forall m :: m in MODES ==> m in s.indexers && (s.indexers[m].phase.Ended? || CanStep(c, s, Index(m, IndexStepOf(s, s.indexers[m])))))
            && (s.checker.CheckStopped? || CanStep(c, s, Check(CheckStepOf(c, s)))
                || exists p :: 0 <= p < |s.procs| && HoldsLock(s.procs[p]) && CanStep(c, s, Processor(p, EndOfClaim(s.procs[p]))))
            && (AllStopped(s) || exists a :: CanStep(c, s, a))
  {
    var s := End(run);
    IndexersCanStep(c, run);
    CheckerFindsStep(c, run);
    PipelineProgress(c, run);
    if !AllStopped(s) && PipelineStopped(s) && s.checker.CheckStopped? {
      var m :| m in MODES && !s.indexers[m].phase.Ended?;
      assert CanStep(c, s, Index(m, IndexStepOf(s, s.indexers[m])));
    }
    if exists a :: PipelineAction(a) && Enabled(c, s, a) {
      var a :| PipelineAction(a) && Enabled(c, s, a);
      assert CanStep(c, s, a);
    }
  }

  lemma IndexersCanStep(c: Ctx, run: Run)
    requires FromStart(c, run)
    ensures var s := End(run);
            forall m :: m in MODES ==> m in s.indexers && (s.indexers[m].phase.Ended? || CanStep(c, s, Index(m, IndexStepOf(s, s.indexers[m]))))
  {
    IndexersNamed(c, run);
    var s := End(run);
    forall m | m in MODES && !s.indexers[m].phase.Ended? ensures CanStep(c, s, Index(m, IndexStepOf(s, s.indexers[m]))) {
      IndexerCanStep(c, s, m);
    }
  }

  lemma CheckerFindsStep(c: Ctx, run: Run)
    requires FromStart(c, run)
    ensures var s := End(run);
            s.checker.CheckStopped? || CanStep(c, s, Check(CheckStepOf(c, s)))
            || exists p :: 0 <= p < |s.procs| && HoldsLock(s.procs[p]) && CanStep(c, s, Processor(p, EndOfClaim(s.procs[p])))
  {
    AlwaysAudited(c, run);
    var s := End(run);
    if !s.checker.CheckStopped? {
      var a := CheckerCanStep(c, s);
      assert CanStep(c, s, a);
    }
  }

  /** After the shutdown signal at most 537 steps of the processors and the sender remain, whatever fails. */
  lemma ShutdownTerminates(c: Ctx, run: Run, more: Run)
    requires FromStart(c, run) && End(run).shutdown && Runs(c, more) && more.states[0] == End(run)
    ensures Sum(more.actions, PipelineUnit()) <= 537
  {
    AlwaysSound(c, run);
    DrainBound(c, more, |more.actions|);
    assert more.actions[..|more.actions|] == more.actions;
    DrainLeftBounded(End(run));
  }

  /**
   After the signal all eight tasks together take at most the steps they had left, one round more of each loop
   included, plus those for the bounds, logs and blocks they are still handed.
   */
  lemma ShutdownBudget(c: Ctx, run: Run, i: nat, j: nat)
    requires FromStart(c, run) && i <= j <= |run.actions| && run.states[i].shutdown
    ensures Sum(run.actions[i..j], TaskUnit()) <= LeftAt(run, i) + Sum(run.actions[i..j], Answered(c))
  {
    BudgetLeft(c, run, i, j);
  }

  /**
   However a run goes on after the signal, the eight tasks take finitely many steps, and if one of them steps
   whenever one can, all eight end up stopped.
   */
  lemma EverythingStops(c: Ctx, states: nat -> State, actions: nat -> Action, n: nat) returns (k: nat)
    requires Forever(c, states, actions) && states(n).shutdown
    requires forall i :: n <= i && (exists a :: CanStep(c, states(i), a)) ==> exists j :: i <= j && TaskAction(actions(j))
    ensures n <= k && AllStopped(states(k)) && forall j :: k <= j ==> !TaskAction(actions(j))
  {
    k := FinallyNoSteps(c, states, actions, n);
    NoDeadlock(c, Prefix(states, actions, k));
  }

  /** Messages are handled in the order they were sent, each exactly once; after the stop none is left and no claim is in flight. */
  lemma CleanStop(c: Ctx, run: Run)
    requires FromStart(c, run)
    ensures var s := End(run);
            && s.handled <= s.sent
            && (s.sender.Exited? ==>
                  s.handled == s.sent && s.chan == [] && forall id: nat :: Held(s, id) == 0 && (ClaimedAt(s.table, id) <==> id in s.stranded))
  {
    var s := End(run);
    AlwaysSound(c, run);
    if s.sender.Exited? {
      forall id: nat ensures Held(s, id) == 0 && (ClaimedAt(s.table, id) <==> id in s.stranded) {
        assert ConservedAt(s, id);
        SumZero(s.procs, InHand(id));
      }
    }
  }

  // ----- the checker -----

  /**
   Confirmed rows have the hash that was finalized at their number and reverted ones do not, the case of letters
   aside; rows without a hash or a number, or above the finalized block, have no verdict.
   */
  lemma VerdictSoundness(c: Ctx, run: Run, id: nat)
    requires FromStart(c, run) && id < |End(run).table|
    ensures var s := End(run);
            var r := s.table[id].row;
            r.fcr == Some(Confirmed) || r.fcr == Some(Reverted) ==>
              && r.blockHash.Some? && r.blockNumber.Some?
              && NetOf(r.mode) in s.finalized && r.blockNumber.value <= s.finalized[NetOf(r.mode)]
              && var final := c.world.HashAt(NetOf(r.mode), r.blockNumber.value);
                 && (r.fcr == Some(Confirmed) <==> SameHash(r.blockHash.value, final))
                 && (IsLowerCase(r.blockHash.value) && IsLowerCase(final) ==>
                       (r.fcr == Some(Confirmed) <==> r.blockHash.value == final))
  {
    AlwaysAudited(c, run);
    var s := End(run);
    var r := s.table[id].row;
    assert s.table[id] in s.table;
    assert VerdictOk(c, s.finalized, r);
    if r.fcr == Some(Confirmed) || r.fcr == Some(Reverted) {
      var final := c.world.HashAt(NetOf(r.mode), r.blockNumber.value);
      if IsLowerCase(r.blockHash.value) && IsLowerCase(final) { SameLowerCase(r.blockHash.value, final); }
    }
  }

  /** The audit table has exactly one row per reverted row, deleted ones included, with that row's data and the finalized hash. */
  lemma AuditExactness(c: Ctx, run: Run)
    requires FromStart(c, run)
    ensures var s := End(run);
            && DistinctRows(s.audit)
            && (forall id: nat :: Mentions(s.audit, id) <==> id < |s.table| && s.table[id].row.fcr == Some(Reverted))
            && (forall a :: a in s.audit ==> AuditRowOk(c, s.table, a))
            && (forall a :: a in s.audit && IsLowerCase(c.world.HashAt(a.net, a.number)) ==>
                  a.canonicalHash == c.world.HashAt(a.net, a.number))
  {
    AlwaysAudited(c, run);
    var s := End(run);
    forall id: nat ensures Mentions(s.audit, id) <==> id < |s.table| && s.table[id].row.fcr == Some(Reverted) {
      if Mentions(s.audit, id) {
        var a :| a in s.audit && a.logId == id;
        assert AuditRowOk(c, s.table, a);
      }
    }
    forall a | a in s.audit && IsLowerCase(c.world.HashAt(a.net, a.number))
      ensures a.canonicalHash == c.world.HashAt(a.net, a.number)
    {
      assert AuditRowOk(c, s.table, a);
      SameLowerCase(a.canonicalHash, c.world.HashAt(a.net, a.number));
    }
  }

  // ----- the indexers -----

  /** A row has no verdict column exactly on a block-finality chain, and then its block is final, with that very hash. */
  lemma FinalityByStatus(c: Ctx, run: Run, id: nat)
    requires FromStart(c, run) && id < |End(run).table|
    ensures var s := End(run);
            var r := s.table[id].row;
            var net := if r.mode == AmbEth || r.mode == XdaiEth then Eth else Gc;
            && (r.fcr.None? <==> (if net == Eth then c.cfg.ethMode else c.cfg.gcMode) == BlockFinality)
            && (r.fcr.None? ==>
                  r.blockNumber.Some? && net in s.finalized && r.blockNumber.value <= s.finalized[net]
                  && r.blockHash == Some(c.world.HashAt(net, r.blockNumber.value)))
  {
    AlwaysIndexed(c, run);
    var s := End(run);
    var r := s.table[id].row;
    assert s.table[id] in s.table;
    assert RowSource(c, s.finalized, r);
    if r.fcr.None? {
      var n: int, i: nat :| NetOf(r.mode) in s.finalized && n <= s.finalized[NetOf(r.mode)] && FromFinal(c, r, n, i);
      assert FromFinal(c, r, n, i);
      assert WellPlaced(c.world, r.mode, n, i);
    }
  }

  /**
   The chunks indexed so far are consecutive, start with the single block of the bound of the first cycle that
   landed one, end at the cursor between cycles, and no chunk is longer than the limit; at no time are they or
   the cursor beyond the highest bound seen.
   */
  lemma IndexerCoverage(c: Ctx, run: Run, m: BridgeMode)
    requires FromStart(c, run) && m in MODES
    ensures var s := End(run);
            m in s.indexers &&
            var me := s.indexers[m];
            && Tiled(me.chunks) && me.cursor <= me.highest
            && (me.chunks == [] <==> me.bounds == []) && (me.chunks == [] <==> First(me) > Upto(me))
            && (me.chunks != [] ==>
                  && me.chunks[0] == (me.bounds[0], me.bounds[0]) && First(me) == me.bounds[0]
                  && me.chunks[|me.chunks| - 1].1 == Upto(me) <= me.highest)
            && (!Cycling(me.phase) ==> Upto(me) == me.cursor)
            && (forall j :: 0 <= j < |me.chunks| ==> me.chunks[j].1 - me.chunks[j].0 < c.cfg.maxBlockRange)
  {
    CursorAlwaysOk(c, run, m);
    FirstBeforeNext(c, End(run).indexers[m]);
    if End(run).indexers[m].chunks != [] { TiledAscends(End(run).indexers[m].chunks); }
  }

  lemma CursorAlwaysOk(c: Ctx, run: Run, m: BridgeMode)
    requires FromStart(c, run) && m in MODES
    ensures m in End(run).indexers && CursorOk(c, End(run).indexers[m]) && BoundsOk(End(run).indexers[m]) && c.cfg.maxBlockRange >= 1
  {
    AlwaysIndexed(c, run);
    var s := End(run);
    assert ModeOk(c, s.finalized, s.table, m, s.indexers[m]);
  }

  lemma IndexersNamed(c: Ctx, run: Run)
    requires FromStart(c, run)
    ensures End(run).indexers.Keys == MODES && End(run).finalized.Keys == {Eth, Gc}
  {
    AlwaysIndexed(c, run);
  }

  /** Every block from the first to the last chunk lies in exactly one of them. */
  lemma {:induction false} CoveredOnce(chunks: seq<(int, int)>, b: int) returns (k: nat)
    requires Tiled(chunks) && chunks != [] && chunks[0].0 <= b <= chunks[|chunks| - 1].1
    ensures k < |chunks| && chunks[k].0 <= b <= chunks[k].1
    ensures forall j :: 0 <= j < |chunks| && chunks[j].0 <= b <= chunks[j].1 ==> j == k
  {
    var n := |chunks| - 1;
    if n > 0 && b <= chunks[n - 1].1 {
      k := CoveredOnce(chunks[..n], b);
    } else {
      k := n;
      forall j | 0 <= j < n ensures chunks[j].1 < chunks[n].0 { EarlierChunkEnds(chunks, j, n); }
    }
  }

  lemma {:induction false} EarlierChunkEnds(chunks: seq<(int, int)>, j: nat, n: nat)
    requires Tiled(chunks) && j < n < |chunks|
    ensures chunks[j].1 < chunks[n].0
  {
    if j + 1 == n {
    } else {
      EarlierChunkEnds(chunks, j, n - 1);
    }
  }

  /** The chunk this step fails, whether at its request or at a log that cannot be serialized. */
  predicate FailsChunk(me: Indexer, step: IndexStep) {
    step == Fetch(RpcError) ||
    (step.Store? && me.phase.Storing? && me.phase.todo != [] && Abandoned(me.phase.todo[0], step.outcome))
  }

  /**
   The cursor never moves back and no chunk is taken back; the first chunk of all is the single block of its cycle's
   bound; a failed first chunk leaves the cursor, a failed later chunk puts it just before that chunk.
   */
  lemma CursorNeverMovesBack(c: Ctx, run: Run, m: BridgeMode, step: IndexStep)
    requires FromStart(c, run) && IndexerEnabled(c, End(run), m, step)
    ensures var s := End(run);
            var me := s.indexers[m];
            var me' := IndexerDo(c, s, m, step).indexers[m];
            && me.cursor <= me'.cursor && me.chunks <= me'.chunks && me.bounds <= me'.bounds
            && (me.chunks == [] && me'.chunks != [] ==>
                  step.Advance? && me'.chunks == [(me.phase.upper, me.phase.upper)] && me'.bounds == [me.phase.upper])
            && (FailsChunk(me, step) ==>
                  me'.phase == Resting && me'.cursor == if me.phase.from == me.phase.start then me.cursor else me.phase.from - 1)
  {
    OwnCursorOk(c, run, m);
    StepKeepsCursor(c, End(run), m, step);
    CursorSteps(c, End(run), m, step);
  }

  lemma OwnCursorOk(c: Ctx, run: Run, m: BridgeMode)
    requires FromStart(c, run) && m in End(run).indexers
    ensures CursorOk(c, End(run).indexers[m]) && BoundsOk(End(run).indexers[m]) && c.cfg.maxBlockRange >= 1
  {
    IndexersNamed(c, run);
    CursorAlwaysOk(c, run, m);
  }

  lemma CursorSteps(c: Ctx, s: State, m: BridgeMode, step: IndexStep)
    requires IndexerEnabled(c, s, m, step) && CursorOk(c, s.indexers[m]) && BoundsOk(s.indexers[m]) && c.cfg.maxBlockRange >= 1
    ensures var me, me' := s.indexers[m], IndexerNext(c, s, m, step);
            && me.chunks <= me'.chunks && me.bounds <= me'.bounds
            && (me.chunks == [] && me'.chunks != [] ==>
                  step.Advance? && me'.chunks == [(me.phase.upper, me.phase.upper)] && me'.bounds == [me.phase.upper])
            && (FailsChunk(me, step) ==>
                  me'.phase == Resting && me'.cursor == if me.phase.from == me.phase.start then me.cursor else me.phase.from - 1)
  {
  }

  /** In either mode, every row has the block number and hash, transaction, index and data of a log some provider gave its indexer. */
  lemma RowsAreGiven(c: Ctx, run: Run, id: nat) returns (j: nat, log: ChainLog)
    requires FromStart(c, run) && id < |End(run).table|
    ensures var r := End(run).table[id].row;
            && j < |run.actions| && run.actions[j].Index? && run.actions[j].mode == r.mode
            && run.actions[j].istep.Fetch? && run.actions[j].istep.answer.Logs? && log in run.actions[j].istep.answer.logs
            && log.hasTopic && MadeFrom(r, r.mode, log)
  {
    AlwaysGiven(c, run, |run.actions|);
    var r := End(run).table[id].row;
    assert RowGiven(run, |run.actions|, r);
    log :| Given(run, |run.actions|, r.mode, log) && log.hasTopic && MadeFrom(r, r.mode, log);
    j :| 0 <= j < |run.actions| && run.actions[j].Index? && run.actions[j].mode == r.mode && Gives(run.actions[j].istep, log);
  }

  // ----- each log once -----

  /** An eligible log of a finalized block the indexer has covered. */
  predicate CoveredLog(c: Ctx, me: Indexer, m: BridgeMode, n: int, i: nat) {
    First(me) <= n <= Upto(me) && i < |c.world.LogsAt(m, n)| &&
    c.world.LogsAt(m, n)[i].logIndex.Some? && c.world.LogsAt(m, n)[i].hasTopic
  }

  /** The key of the i-th log of the finalized block n. */
  function KeyAt(c: Ctx, m: BridgeMode, n: int, i: nat): Key
    requires i < |c.world.LogsAt(m, n)| && Eligible(c.world.LogsAt(m, n)[i])
  {
    LogKey(c.world.LogsAt(m, n)[i])
  }

  /** Some slot, live or dead, was made from that log. */
  ghost predicate HasSlot(c: Ctx, t: Table, m: BridgeMode, n: int, i: nat) {
    exists id :: 0 <= id < |t| && t[id].row.mode == m && FromFinal(c, t[id].row, n, i)
  }

  /** On a block-finality chain each covered log has a slot unless an INSERT of it failed, whatever was given up and read again. */
  lemma StoredUnlessFailed(c: Ctx, run: Run, m: BridgeMode, n: int, i: nat) returns (id: nat)
    requires FromStart(c, run) && m in MODES && Finality(c, m) && m in End(run).indexers
    requires CoveredLog(c, End(run).indexers[m], m, n, i) && KeyAt(c, m, n, i) !in End(run).indexers[m].failed
    ensures id < |End(run).table| && End(run).table[id].row.mode == m && FromFinal(c, End(run).table[id].row, n, i)
  {
    AlwaysIndexed(c, run);
    var s := End(run);
    assert ModeOk(c, s.finalized, s.table, m, s.indexers[m]);
    CoveredKeyPassed(c, s.indexers[m], m, n, i);
    id := SlotOfKey(s.table, m, KeyAt(c, m, n, i));
    assert s.table[id] in s.table;
    KeyIsFromLog(c, s.finalized, s.table[id].row, m, n, i);
  }

  lemma CoveredKeyPassed(c: Ctx, me: Indexer, m: BridgeMode, n: int, i: nat)
    requires CoveredLog(c, me, m, n, i)
    ensures KeyAt(c, m, n, i) in LogKeys(Consumed(c, m, me))
  {
    var l, done := c.world.LogsAt(m, n)[i], Consumed(c, m, me);
    AtIsInFinalLogs(c.world, m, First(me), Upto(me), n, i);
    assert l in done;
    var p :| 0 <= p < |done| && done[p] == l;
    KeyOfLog(done, p);
  }

  /**
   On a block-finality chain, as long as no chunk of its indexer was given up, no two slots of the whole history have
   the same key, however many INSERTs failed: a row the sender deleted does not come back.
   */
  lemma StoredAtMostOnce(c: Ctx, run: Run, m: BridgeMode, j: nat, k: nat)
    requires FromStart(c, run) && m in MODES && Finality(c, m) && m in End(run).indexers && !End(run).indexers[m].abandoned
    requires j < |End(run).table| && k < |End(run).table| && End(run).table[j].row.mode == m
    requires RowKey(End(run).table[j].row) == RowKey(End(run).table[k].row)
    ensures j == k
  {
    AlwaysIndexed(c, run);
    var s := End(run);
    assert ModeOk(c, s.finalized, s.table, m, s.indexers[m]);
    assert s.table[j] in s.table && s.table[k] in s.table;
    SameKeySameMode(c, s.finalized, s.table[j].row, s.table[k].row);
    if j < k { TwoSlotsTwoKeys(s.table, m, j, k); }
    if k < j { TwoSlotsTwoKeys(s.table, m, k, j); }
  }

  /** A row of a block-finality chain shares its key only with rows of its own bridge. */
  lemma SameKeySameMode(c: Ctx, finalized: map<Net, int>, a: Row, b: Row)
    requires WellFormed(c.world) && Finality(c, a.mode) && RowSource(c, finalized, a) && RowSource(c, finalized, b)
    requires RowKey(a) == RowKey(b)
    ensures a.mode == b.mode
  {
    var n: int, i: nat :| FromFinal(c, a, n, i);
    assert FromFinal(c, a, n, i);
    ConflictIsOurs(c, finalized, b, a.mode, n, i);
  }

  /** So, as long as no chunk was given up, a covered log has a slot if and only if no INSERT of it failed. */
  lemma StoredIffNotFailed(c: Ctx, run: Run, m: BridgeMode, n: int, i: nat)
    requires FromStart(c, run) && m in MODES && Finality(c, m) && m in End(run).indexers && !End(run).indexers[m].abandoned
    requires CoveredLog(c, End(run).indexers[m], m, n, i)
    ensures HasSlot(c, End(run).table, m, n, i) <==> KeyAt(c, m, n, i) !in End(run).indexers[m].failed
  {
    var s := End(run);
    if KeyAt(c, m, n, i) !in s.indexers[m].failed {
      var id := StoredUnlessFailed(c, run, m, n, i);
    } else if HasSlot(c, s.table, m, n, i) {
      AlwaysIndexed(c, run);
      assert ModeOk(c, s.finalized, s.table, m, s.indexers[m]);
      var id :| 0 <= id < |s.table| && s.table[id].row.mode == m && FromFinal(c, s.table[id].row, n, i);
      KeyOfSlot(s.table, m, id);
    }
  }

  /**
   Both together: on a block-finality chain, if no chunk was given up, a covered log none of whose INSERTs failed was
   stored exactly once in the run.
   */
  lemma InsertedOnce(c: Ctx, run: Run, m: BridgeMode, n: int, i: nat) returns (id: nat)
    requires FromStart(c, run) && m in MODES && Finality(c, m) && m in End(run).indexers && !End(run).indexers[m].abandoned
    requires CoveredLog(c, End(run).indexers[m], m, n, i) && KeyAt(c, m, n, i) !in End(run).indexers[m].failed
    ensures id < |End(run).table| && End(run).table[id].row.mode == m && FromFinal(c, End(run).table[id].row, n, i)
    ensures var t := End(run).table; forall k :: 0 <= k < |t| && RowKey(t[k].row) == RowKey(t[id].row) ==> k == id
  {
    id := StoredUnlessFailed(c, run, m, n, i);
    var t := End(run).table;
    forall k | 0 <= k < |t| && RowKey(t[k].row) == RowKey(t[id].row) ensures k == id { StoredAtMostOnce(c, run, m, id, k); }
  }

  /**
   From the chain to the contract: on a block-finality chain, when nothing but looking for work is possible, every
   covered log none of whose INSERTs failed has a row that was deleted with its message recorded at home, or is
   parked at the ceiling, or is stranded.
   */
  lemma CoveredLogIsSettled(c: Ctx, run: Run, m: BridgeMode, n: int, i: nat) returns (id: nat)
    requires FromStart(c, run) && m in MODES && Finality(c, m) && m in End(run).indexers && Quiet(c, End(run))
    requires CoveredLog(c, End(run).indexers[m], m, n, i) && KeyAt(c, m, n, i) !in End(run).indexers[m].failed
    ensures id < |End(run).table| && End(run).table[id].row.mode == m && FromFinal(c, End(run).table[id].row, n, i)
    ensures var s := End(run);
            var slot := s.table[id];
            if slot.live then
              if slot.row.claimed then id in s.stranded else AtLimit(c.cfg, slot.row)
            else
              EventRecorded(c, s.home, slot.row)
  {
    id := StoredUnlessFailed(c, run, m, n, i);
    if End(run).table[id].live { QuietMeansParked(c, run, id); } else { JustifiedDeletion(c, run, id); }
  }

  lemma KeyIsFromLog(c: Ctx, finalized: map<Net, int>, r: Row, m: BridgeMode, n: int, i: nat)
    requires WellFormed(c.world) && m in MODES && Finality(c, m) && RowSource(c, finalized, r) && r.mode == m
    requires i < |c.world.LogsAt(m, n)| && Eligible(c.world.LogsAt(m, n)[i])
    requires RowKey(r) == KeyAt(c, m, n, i)
    ensures FromFinal(c, r, n, i)
  {
    assert WellPlaced(c.world, m, n, i);
    var n': int, i': nat :| FromFinal(c, r, n', i');
    assert FromFinal(c, r, n', i');
    assert WellPlaced(c.world, m, n', i');
  }

  lemma {:induction false} TwoSlotsTwoKeys(t: Table, m: BridgeMode, k: nat, id: nat)
    requires k < id < |t| && t[k].row.mode == m && t[id].row.mode == m && RowKey(t[k].row) == RowKey(t[id].row)
    ensures Repeats(StoredKeys(t, m))
  {
    var n := |t| - 1;
    var keys := StoredKeys(t[..n], m);
    if id < n {
      TwoSlotsTwoKeys(t[..n], m, k, id);
      var a, b :| 0 <= a < b < |keys| && keys[a] == keys[b];
      assert StoredKeys(t, m)[a] == StoredKeys(t, m)[b];
    } else {
      KeyOfSlot(t[..n], m, k);
      var a :| 0 <= a < |keys| && keys[a] == RowKey(t[k].row);
      assert StoredKeys(t, m)[a] == StoredKeys(t, m)[|keys|];
    }
  }

  // ----- a key stored again -----

  /** Two slots of the history have this key. */
  ghost predicate Twice(t: Table, k: Key) {
    exists i, j :: 0 <= i < j < |t| && RowKey(t[i].row) == k && RowKey(t[j].row) == k
  }

  /** The key is in the table's history, and every row with it has been deleted. */
  ghost predicate OnlyDeleted(t: Table, k: Key) {
    (exists i :: 0 <= i < |t| && RowKey(t[i].row) == k) && forall i :: 0 <= i < |t| && RowKey(t[i].row) == k ==> !t[i].live
  }

  /** This step's INSERT of this key goes through. */
  ghost predicate Inserts(s: State, a: Action, k: Key) {
    a.Index? && a.istep == Store(Stored) && a.mode in s.indexers && s.indexers[a.mode].phase.Storing? &&
    s.indexers[a.mode].phase.todo != [] &&
    var l := s.indexers[a.mode].phase.todo[0];
    Eligible(l) && LogKey(l) == k
  }

  /** A key gets another slot exactly when it is inserted while all rows with it have been deleted. */
  lemma StepStoresAgain(c: Ctx, s: State, a: Action, k: Key)
    requires Enabled(c, s, a) && k.0.Some?
    ensures Twice(Do(c, s, a).table, k) <==> Twice(s.table, k) || (Inserts(s, a, k) && OnlyDeleted(s.table, k))
  {
    match a {
      case Processor(p, step) => ProcessorTables(c, s, p, step); SameHistory(s.table, Do(c, s, a).table, k);
      case Sender(step) => SenderTables(c, s, step); SameHistory(s.table, Do(c, s, a).table, k);
      case Outside(step) =>
      case Check(step) => CheckerSameHistory(c, s, step); SameHistory(s.table, Do(c, s, a).table, k);
      case Index(mode, step) =>
        if step.Store? { StoreStoresAgain(s.table, mode, ModeFor(c.cfg, NetOf(mode)), s.indexers[mode].phase.todo[0], step.outcome, k); }
    }
  }

  lemma SameHistory(t: Table, t': Table, k: Key)
    requires |t| == |t'| && forall i :: 0 <= i < |t| ==> RowKey(t[i].row) == RowKey(t'[i].row)
    ensures Twice(t', k) <==> Twice(t, k)
  {
    assert forall i :: 0 <= i < |t| ==> (RowKey(t[i].row) == k <==> RowKey(t'[i].row) == k);
  }

  lemma CheckerSameHistory(c: Ctx, s: State, step: CheckStep)
    requires CheckerEnabled(c, s, step)
    ensures var t' := CheckerDo(c, s, step).table;
            |t'| == |s.table| && forall i :: 0 <= i < |t'| ==> RowKey(t'[i].row) == RowKey(s.table[i].row)
  {
  }

  lemma StoreStoresAgain(t: Table, mode: BridgeMode, blockMode: BlockMode, l: ChainLog, o: StoreOutcome, k: Key)
    requires k.0.Some?
    ensures Twice(StoreOne(t, mode, blockMode, l, o), k)
       <==> Twice(t, k) || (Eligible(l) && o.Stored? && LogKey(l) == k && OnlyDeleted(t, k))
  {
    if Eligible(l) && o.Stored? {
      var row := RowFor(mode, blockMode, l);
      var t' := Insert(t, row);
      assert RowKey(row) == LogKey(l);
      if !Conflicts(t, row) {
        assert t' == t + [Slot(row, true, 0)];
        if Twice(t, k) {
          var i, j :| 0 <= i < j < |t| && RowKey(t[i].row) == k && RowKey(t[j].row) == k;
          assert RowKey(t'[i].row) == k && RowKey(t'[j].row) == k;
        }
        if LogKey(l) == k && OnlyDeleted(t, k) {
          var i :| 0 <= i < |t| && RowKey(t[i].row) == k;
          assert RowKey(t'[i].row) == k && RowKey(t'[|t|].row) == k;
        }
        if Twice(t', k) && !Twice(t, k) {
          var i, j :| 0 <= i < j < |t'| && RowKey(t'[i].row) == k && RowKey(t'[j].row) == k;
          assert t'[i] == t[i] && j == |t|;
        }
      }
    }
  }

  /** Before step n, some INSERT of the key found only deleted rows. */
  ghost predicate StoredAgainBefore(run: Run, k: Key, n: nat)
    requires n <= |run.actions| <= |run.states|
  {
    exists j {:trigger run.actions[j]} :: 0 <= j < n && Inserts(run.states[j], run.actions[j], k) && OnlyDeleted(run.states[j].table, k)
  }

  lemma StoredAgainSnoc(run: Run, k: Key, n: nat)
    requires n < |run.actions| <= |run.states|
    ensures StoredAgainBefore(run, k, n + 1)
       <==> StoredAgainBefore(run, k, n) || (Inserts(run.states[n], run.actions[n], k) && OnlyDeleted(run.states[n].table, k))
  {
  }

  /** Over a run, in any mode: a key has two slots in the history if and only if some INSERT of it found only deleted rows. */
  lemma {:induction false} StoredTwiceIff(c: Ctx, run: Run, k: Key, n: nat)
    requires FromStart(c, run) && k.0.Some? && n <= |run.actions|
    ensures Twice(run.states[n].table, k) <==> StoredAgainBefore(run, k, n)
  {
    if n == 0 {
    } else {
      StoredTwiceIff(c, run, k, n - 1);
      assert StepAt(c, run, n - 1);
      StepStoresAgain(c, run.states[n - 1], run.actions[n - 1], k);
      StoredAgainSnoc(run, k, n - 1);
    }
  }

  /** In every mode, two live rows never share a transaction hash and log index. */
  lemma LiveKeysUnique(c: Ctx, run: Run, i: nat, j: nat)
    requires FromStart(c, run) && i < j < |End(run).table|
    requires LiveAt(End(run).table, i) && LiveAt(End(run).table, j)
    requires End(run).table[i].row.txHash.Some?
    ensures var t := End(run).table;
            t[i].row.txHash != t[j].row.txHash || t[i].row.logIndex != t[j].row.logIndex
  {
    AlwaysIndexed(c, run);
  }
}
