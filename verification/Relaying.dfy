/**
 Why a row may be deleted. The sender's program carries an annotation at every await; together with what is
 known about transactions and rows it gives freshness of the messages and justification of every deletion.

 The contract assumption: a mined transaction of this validator reverts only on a duplicate or on a completed
 message, and neither condition ever goes away (`HomeChain.Accept`).
 */
module Relaying {
  import opened Prelude
  import opened XdaiCodec
  import opened EventLogs
  import opened Relay
  import opened Indexing
  import opened Pipeline
  import opened Ownership

  // ----- the assertions -----

  /** We have seen the receipt of a transaction of ours for this message. */
  ghost predicate OurReceipt(txs: seq<HomeTx>, k: HomeKey) {
    exists i :: 0 <= i < |txs| && txs[i].receipt && txs[i].key == k
  }

  /** Foreign stage means we hold the receipt of our home submission; a deleted row means our part is done. */
  ghost predicate RowOk(c: Ctx, home: HomeChain, txs: seq<HomeTx>, s: Slot) {
    var call := BuildCall(c.cfg, s.row);
    (s.row.stage == Foreign ==>
       call.Some? && ForeignOn(c.cfg, call.value) && home.Recorded(KeyOf(call.value)) && OurReceipt(txs, KeyOf(call.value))) &&
    (!s.live ==> call.Some? && home.Recorded(KeyOf(call.value)))
  }

  predicate TxOk(home: HomeChain, tx: HomeTx) {
    tx.stageThen == Home && (tx.receipt ==> tx.mined) && (tx.mined ==> home.Recorded(tx.key))
  }

  ghost predicate ExecutedOk(home: HomeChain, txs: seq<HomeTx>, e: ForeignCall) {
    e.length == BlobLength(home.Required(e.key)) && OurReceipt(txs, e.key)
  }

  /** The message is about an existing row and is what the row decodes to. */
  predicate About(c: Ctx, t: Table, data: SenderData) {
    data.id < |t| && BuildCall(c.cfg, t[data.id].row) == Some(data.call)
  }

  /** A message on its way still says what its row says. */
  predicate Fresh(c: Ctx, t: Table, data: SenderData) {
    About(c, t, data) && data.stage == t[data.id].row.stage
  }

  predicate HandFresh(c: Ctx, t: Table, p: Proc) {
    match p
    case Holding(id, row) => id < |t| && SameWork(row, t[id].row)
    case Ready(data) => Fresh(c, t, data)
    case _ => true
  }

  /** What holds whenever the sender is about to perform the await `pc`. */
  ghost predicate Annotation(c: Ctx, t: Table, home: HomeChain, txs: seq<HomeTx>, data: SenderData, pc: Pc) {
    About(c, t, data) &&
    var k, row := KeyOf(data.call), t[data.id].row;
    var atHome := data.stage == row.stage == Home;
    match pc
    case Connect => data.stage == row.stage
    case ViewRequired => data.stage == row.stage
    case ViewSigned(required) => atHome && required == home.Required(k)
    case ViewSignedByUs(required) => atHome && required == home.Required(k)
    case ViewAffirmedByUs => atHome
    case ViewAffirmed => atHome
    case ViewAffirmedRequired(signed) => atHome && signed <= |home.Signers(k)|
    case Submit(required) => atHome && required == home.Required(k)
    case Receipt(required, tx) => atHome && required == home.Required(k) && tx < |txs| && txs[tx].key == k
    case StageUpdate(required) =>
      atHome && required == home.Required(k) && ForeignOn(c.cfg, data.call) && home.Recorded(k) && OurReceipt(txs, k)
    case MessageHash(required) => row.stage == Foreign && required == home.Required(k)
    case Gather(required) => row.stage == Foreign && required == home.Required(k)
    case ConnectForeign(length) => row.stage == Foreign && length == BlobLength(home.Required(k))
    case Execute(length) => row.stage == Foreign && length == BlobLength(home.Required(k))
    case ExecuteReceipt => row.stage == Foreign
    case DeleteRow => home.Recorded(k)
    case ReleaseRow => true
    case ReleaseAfterError => true
    case Finished => false
  }

  ghost predicate Relayed(c: Ctx, s: State) {
    && (forall p :: p in s.procs ==> HandFresh(c, s.table, p))
    && (forall d :: d in s.chan ==> Fresh(c, s.table, d))
    && (s.sender.Busy? ==> Annotation(c, s.table, s.home, s.txs, s.sender.data, s.sender.pc))
    && (forall r :: r in s.table ==> RowOk(c, s.home, s.txs, r))
    && (forall tx :: tx in s.txs ==> TxOk(s.home, tx))
    && (forall e :: e in s.executed ==> ExecutedOk(s.home, s.txs, e))
  }

  // ----- stability -----

  /** Contracts only gain signers, so what is recorded stays recorded. */
  ghost predicate HomeGrows(h: HomeChain, h': HomeChain) {
    forall k: HomeKey :: |h.Signers(k)| <= |h'.Signers(k)| && h'.Required(k) == h.Required(k) &&
                         (h.Recorded(k) ==> h'.Recorded(k))
  }

  ghost predicate TxsGrow(txs: seq<HomeTx>, txs': seq<HomeTx>) {
    |txs| <= |txs'| && forall i :: 0 <= i < |txs| ==>
      txs'[i].key == txs[i].key && (txs[i].mined ==> txs'[i].mined) && (txs[i].receipt ==> txs'[i].receipt)
  }

  /** Existing rows keep what the relay reads from them; new rows are fresh. */
  ghost predicate RowsStable(t: Table, t': Table) {
    |t| <= |t'| &&
    (forall i :: 0 <= i < |t| ==> SameOrigin(t[i].row, t'[i].row) && t'[i].row.stage == t[i].row.stage && t'[i].live == t[i].live) &&
    (forall i :: |t| <= i < |t'| ==> FreshSlot(t'[i]))
  }

  lemma ReceiptStays(txs: seq<HomeTx>, txs': seq<HomeTx>, k: HomeKey)
    requires TxsGrow(txs, txs') && OurReceipt(txs, k)
    ensures OurReceipt(txs', k)
  {
    var i :| 0 <= i < |txs| && txs[i].receipt && txs[i].key == k;
    assert txs'[i].receipt;
  }

  lemma SameOriginSameCall(c: Ctx, a: Row, b: Row)
    requires SameOrigin(a, b)
    ensures BuildCall(c.cfg, a) == BuildCall(c.cfg, b)
  {
  }

  lemma RowStable(c: Ctx, h: HomeChain, h': HomeChain, txs: seq<HomeTx>, txs': seq<HomeTx>, a: Slot, b: Slot)
    requires HomeGrows(h, h') && TxsGrow(txs, txs') && RowOk(c, h, txs, a)
    requires SameOrigin(a.row, b.row) && a.row.stage == b.row.stage && a.live == b.live
    ensures RowOk(c, h', txs', b)
  {
    SameOriginSameCall(c, a.row, b.row);
    if a.row.stage == Foreign { ReceiptStays(txs, txs', KeyOf(BuildCall(c.cfg, a.row).value)); }
  }

  lemma AnnotationStable(c: Ctx, t: Table, t': Table, h: HomeChain, h': HomeChain, txs: seq<HomeTx>, txs': seq<HomeTx>,
                         data: SenderData, pc: Pc)
    requires HomeGrows(h, h') && TxsGrow(txs, txs') && Annotation(c, t, h, txs, data, pc)
    requires data.id < |t'| && SameOrigin(t[data.id].row, t'[data.id].row) && t'[data.id].row.stage == t[data.id].row.stage
    ensures Annotation(c, t', h', txs', data, pc)
  {
    SameOriginSameCall(c, t[data.id].row, t'[data.id].row);
    if pc.StageUpdate? { ReceiptStays(txs, txs', KeyOf(data.call)); }
  }

  /** Everything except the sender's own step leaves all assertions standing. */
  lemma RelayStable(c: Ctx, s: State, s': State)
    requires Relayed(c, s)
    requires RowsStable(s.table, s'.table) && HomeGrows(s.home, s'.home) && TxsGrow(s.txs, s'.txs)
    requires s'.sender == s.sender && s'.executed == s.executed
    requires forall tx :: tx in s'.txs ==> TxOk(s'.home, tx)
    ensures forall p :: p in s.procs ==> HandFresh(c, s'.table, p)
    ensures forall d :: Fresh(c, s.table, d) ==> Fresh(c, s'.table, d)
    ensures s.sender.Busy? ==> Annotation(c, s'.table, s'.home, s'.txs, s.sender.data, s.sender.pc)
    ensures forall r :: r in s'.table ==> RowOk(c, s'.home, s'.txs, r)
    ensures forall e :: e in s.executed ==> ExecutedOk(s'.home, s'.txs, e)
  {
    if s.sender.Busy? {
      AnnotationStable(c, s.table, s'.table, s.home, s'.home, s.txs, s'.txs, s.sender.data, s.sender.pc);
    }
    forall r | r in s'.table ensures RowOk(c, s'.home, s'.txs, r) {
      var i :| 0 <= i < |s'.table| && s'.table[i] == r;
      if i < |s.table| {
        assert s.table[i] in s.table;
        RowStable(c, s.home, s'.home, s.txs, s'.txs, s.table[i], r);
      }
    }
    forall e | e in s.executed ensures ExecutedOk(s'.home, s'.txs, e) {
      ReceiptStays(s.txs, s'.txs, e.key);
    }
  }

  // ----- steps of the others -----

  lemma OthersStable(c: Ctx, s: State, s': State)
    requires Relayed(c, s) && OthersStep(s, s') && s'.home == s.home && s'.txs == s.txs
    ensures Relayed(c, s')
  {
    RelayStable(c, s, s');
  }

  lemma OutsideKeepsRelayed(c: Ctx, s: State, step: OutsideStep)
    requires Relayed(c, s) && OutsideEnabled(s, step)
    ensures Relayed(c, OutsideDo(s, step))
  {
    var s' := OutsideDo(s, step);
    match step {
      case Mine(tx) => MineKeepsTxs(s, tx);
      case OtherSigns(k, v) =>
        forall k' ensures |s.home.Signers(k')| <= |s'.home.Signers(k')| { AcceptGrows(s.home, k, v, k'); }
      case _ =>
    }
    RelayStable(c, s, s');
  }

  lemma MineKeepsTxs(s: State, tx: nat)
    requires OutsideEnabled(s, Mine(tx)) && forall x :: x in s.txs ==> TxOk(s.home, x)
    ensures var s' := OutsideDo(s, Mine(tx));
            HomeGrows(s.home, s'.home) && TxsGrow(s.txs, s'.txs) && forall x :: x in s'.txs ==> TxOk(s'.home, x)
  {
    var s', k := OutsideDo(s, Mine(tx)), s.txs[tx].key;
    forall k' ensures |s.home.Signers(k')| <= |s'.home.Signers(k')| { AcceptGrows(s.home, k, US, k'); }
    AcceptGrows(s.home, k, US, k);
    forall x | x in s'.txs ensures TxOk(s'.home, x) {
      var i :| 0 <= i < |s'.txs| && s'.txs[i] == x;
      assert s.txs[i] in s.txs;
    }
  }

  // ----- a processor's step -----

  lemma DecodedIsFresh(c: Ctx, t: Table, id: nat, row: Row, keyOk: bool)
    requires id < |t| && SameWork(row, t[id].row) && Decoded(c.cfg, id, row, keyOk).Ok?
    ensures Fresh(c, t, Decoded(c.cfg, id, row, keyOk).value)
  {
  }

  lemma ProcessorKeepsRelayed(c: Ctx, s: State, p: nat, step: ProcStep)
    requires Owned(c, s) && Relayed(c, s) && ProcessorEnabled(c, s, p, step)
    ensures Relayed(c, ProcessorDo(c, s, p, step))
  {
    var s', me := ProcessorDo(c, s, p, step), s.procs[p];
    assert me in s.procs;
    RelayStable(c, s, s');
    if step.Decode? && Decoded(c.cfg, me.id, me.row, step.keyOk).Ok? { DecodedIsFresh(c, s.table, me.id, me.row, step.keyOk); }
    assert HandFresh(c, s'.table, s'.procs[p]);
  }

  // ----- the sender's step -----

  /** The pre-flight reads establish what the submission or the deletion after them needs. */
  lemma ViewsAnnotated(c: Ctx, s: State, data: SenderData, pc: Pc, r: Reply)
    requires Annotation(c, s.table, s.home, s.txs, data, pc) && RowOk(c, s.home, s.txs, s.table[data.id])
    requires Faithful(s, data, pc, r) && (pc.Connect? || pc.ViewRequired? || pc.ViewSigned? || pc.ViewSignedByUs?
               || pc.ViewAffirmedByUs? || pc.ViewAffirmed? || pc.ViewAffirmedRequired?)
    requires !Next(c.cfg, data, pc, r).Finished?
    ensures Annotation(c, s.table, s.home, s.txs, data, Next(c.cfg, data, pc, r))
  {
  }

  /** A broadcast is remembered, and a receipt proves that the transaction was mined. */
  lemma SubmissionAnnotated(c: Ctx, s: State, data: SenderData, pc: Pc, r: Reply)
    requires Annotation(c, s.table, s.home, s.txs, data, pc) && (forall tx :: tx in s.txs ==> TxOk(s.home, tx))
    requires Faithful(s, data, pc, r) && (pc.Submit? || pc.Receipt?)
    ensures Annotation(c, s.table, s.home, TxsAfter(s.table, s.txs, data, pc, r), data, Next(c.cfg, data, pc, r))
  {
    if pc.Receipt? && r.ok {
      assert s.txs[pc.tx] in s.txs;
      assert TxsAfter(s.table, s.txs, data, pc, r)[pc.tx].receipt;
    }
  }

  /** From the stage update on, the row is at the foreign stage and only whole blobs go on. */
  lemma ForeignLegAnnotated(c: Ctx, s: State, data: SenderData, pc: Pc, r: Reply)
    requires Annotation(c, s.table, s.home, s.txs, data, pc) && RowOk(c, s.home, s.txs, s.table[data.id])
    requires s.table[data.id].live
    requires !pc.Connect? && !pc.ViewRequired? && !pc.ViewSigned? && !pc.ViewSignedByUs? && !pc.ViewAffirmedByUs?
             && !pc.ViewAffirmed? && !pc.ViewAffirmedRequired? && !pc.Submit? && !pc.Receipt?
    requires !Next(c.cfg, data, pc, r).Finished?
    ensures Annotation(c, TableAfter(s.table, data.id, pc, r), s.home, s.txs, data, Next(c.cfg, data, pc, r))
  {
    SameOriginSameCall(c, s.table[data.id].row, TableAfter(s.table, data.id, pc, r)[data.id].row);
  }

  /** No step of the program breaks its annotations, whatever the reply. */
  lemma NextIsAnnotated(c: Ctx, s: State, r: Reply)
    requires Owned(c, s) && Relayed(c, s) && SenderEnabled(s, Await(r))
    requires !Next(c.cfg, s.sender.data, s.sender.pc, r).Finished?
    ensures var s' := SenderDo(c, s, Await(r));
            Annotation(c, s'.table, s'.home, s'.txs, s.sender.data, Next(c.cfg, s.sender.data, s.sender.pc, r))
  {
    var data, pc := s.sender.data, s.sender.pc;
    assert s.table[data.id] in s.table;
    assert ConservedAt(s, data.id);
    match pc {
      case Submit(_) => SubmissionAnnotated(c, s, data, pc, r);
      case Receipt(_, _) => SubmissionAnnotated(c, s, data, pc, r);
      case StageUpdate(_) => ForeignLegAnnotated(c, s, data, pc, r);
      case MessageHash(_) => ForeignLegAnnotated(c, s, data, pc, r);
      case Gather(_) => ForeignLegAnnotated(c, s, data, pc, r);
      case ConnectForeign(_) => ForeignLegAnnotated(c, s, data, pc, r);
      case Execute(_) => ForeignLegAnnotated(c, s, data, pc, r);
      case ExecuteReceipt => ForeignLegAnnotated(c, s, data, pc, r);
      case DeleteRow => ForeignLegAnnotated(c, s, data, pc, r);
      case ReleaseRow => ForeignLegAnnotated(c, s, data, pc, r);
      case ReleaseAfterError =>
      case _ => ViewsAnnotated(c, s, data, pc, r);
    }
  }

  /** The statement the sender runs leaves every row justified. */
  lemma StatementKeepsRows(c: Ctx, s: State, r: Reply)
    requires Relayed(c, s) && SenderEnabled(s, Await(r))
    ensures forall x :: x in SenderDo(c, s, Await(r)).table ==> RowOk(c, s.home, s.txs, x)
  {
    var data, pc, t' := s.sender.data, s.sender.pc, SenderDo(c, s, Await(r)).table;
    forall x | x in t' ensures RowOk(c, s.home, s.txs, x) {
      var i :| 0 <= i < |t'| && t'[i] == x;
      assert s.table[i] in s.table;
    }
  }

  /** Messages elsewhere are about other rows, so they stay fresh. */
  lemma StatementKeepsFresh(c: Ctx, s: State, r: Reply)
    requires Owned(c, s) && Relayed(c, s) && SenderEnabled(s, Await(r))
    ensures var s' := SenderDo(c, s, Await(r));
            (forall p :: p in s.procs ==> HandFresh(c, s'.table, p)) && (forall d :: d in s.chan ==> Fresh(c, s'.table, d))
  {
    assert ConservedAt(s, s.sender.data.id);
    StatementKeepsHands(c, s, r);
    StatementKeepsChannel(c, s, r);
  }

  lemma StatementKeepsHands(c: Ctx, s: State, r: Reply)
    requires Relayed(c, s) && SenderEnabled(s, Await(r)) && ConservedAt(s, s.sender.data.id)
    ensures forall p :: p in s.procs ==> HandFresh(c, SenderDo(c, s, Await(r)).table, p)
  {
    forall p | p in s.procs ensures HandFresh(c, SenderDo(c, s, Await(r)).table, p) {
      var i :| 0 <= i < |s.procs| && s.procs[i] == p;
      SumAtLeast(s.procs, i, InHand(s.sender.data.id));
    }
  }

  lemma StatementKeepsChannel(c: Ctx, s: State, r: Reply)
    requires Relayed(c, s) && SenderEnabled(s, Await(r)) && ConservedAt(s, s.sender.data.id)
    ensures forall d :: d in s.chan ==> Fresh(c, SenderDo(c, s, Await(r)).table, d)
  {
    forall d | d in s.chan ensures Fresh(c, SenderDo(c, s, Await(r)).table, d) {
      var i :| 0 <= i < |s.chan| && s.chan[i] == d;
      SumAtLeast(s.chan, i, IsFor(s.sender.data.id));
    }
  }

  /** A receipt is only recorded for a mined transaction. */
  lemma AwaitKeepsTxs(s: State, data: SenderData, pc: Pc, r: Reply)
    requires Faithful(s, data, pc, r) && (forall tx :: tx in s.txs ==> TxOk(s.home, tx))
    requires pc.Submit? ==> data.id < |s.table| && s.table[data.id].row.stage == Home
    ensures forall tx :: tx in TxsAfter(s.table, s.txs, data, pc, r) ==> TxOk(s.home, tx)
  {
    var txs' := TxsAfter(s.table, s.txs, data, pc, r);
    forall x | x in txs' ensures TxOk(s.home, x) {
      var i :| 0 <= i < |txs'| && txs'[i] == x;
      if i < |s.txs| { assert s.txs[i] in s.txs; }
    }
  }

  lemma AwaitKeepsRelayed(c: Ctx, s: State, r: Reply)
    requires Owned(c, s) && Relayed(c, s) && SenderEnabled(s, Await(r))
    ensures Relayed(c, SenderDo(c, s, Await(r)))
  {
    var s' := SenderDo(c, s, Await(r));
    StatementKeepsFresh(c, s, r);
    StatementKeepsRows(c, s, r);
    assert s.table[s.sender.data.id] in s.table;
    assert TxsGrow(s.txs, s'.txs);
    forall x | x in s'.table ensures RowOk(c, s'.home, s'.txs, x) {
      RowStable(c, s.home, s.home, s.txs, s'.txs, x, x);
    }
    forall e | e in s'.executed ensures ExecutedOk(s'.home, s'.txs, e) {
      if e in s.executed { ReceiptStays(s.txs, s'.txs, e.key); }
    }
    AwaitKeepsTxs(s, s.sender.data, s.sender.pc, r);
    if s'.sender.Busy? { NextIsAnnotated(c, s, r); }
  }

  lemma SenderKeepsRelayed(c: Ctx, s: State, step: SenderStep)
    requires Owned(c, s) && Relayed(c, s) && SenderEnabled(s, step)
    ensures Relayed(c, SenderDo(c, s, step))
  {
    match step {
      case Receive => assert s.chan[0] in s.chan;
      case Await(r) => AwaitKeepsRelayed(c, s, r);
      case Exit =>
    }
  }

  lemma StepKeepsRelayed(c: Ctx, s: State, a: Action)
    requires Owned(c, s) && Relayed(c, s) && Enabled(c, s, a)
    ensures Relayed(c, Do(c, s, a))
  {
    match a {
      case Processor(p, step) => ProcessorKeepsRelayed(c, s, p, step);
      case Sender(step) => SenderKeepsRelayed(c, s, step);
      case Outside(step) => OutsideKeepsRelayed(c, s, step);
      case Index(mode, step) => OthersTables(c, s, a); OthersStable(c, s, Do(c, s, a));
      case Check(step) => OthersTables(c, s, a); OthersStable(c, s, Do(c, s, a));
    }
  }
}
