/**
 What handling a message achieves, over every run: a handling whose awaits all succeed sends what it has to send and
 deletes its row, and a row is only ever released after something failed.
 */
module Handling {
  import opened Prelude
  import opened XdaiCodec
  import opened EventLogs
  import opened Relay
  import opened Indexing
  import opened Pipeline
  import opened Ownership
  import opened Relaying
  import opened Accounting
  import opened SenderRuns

  // ----- one handling -----

  /** Every await of the sender from state i to state n was answered without a failure. */
  ghost predicate NoFailure(run: Run, i: nat, n: nat)
    requires n <= |run.actions|
  {
    forall m :: i <= m < n && run.actions[m].Sender? ==> run.actions[m].sstep.Await? && run.actions[m].sstep.reply.ok
  }

  /** From state i, where the sender has just received `data`, to state n it is busy with it and nothing has failed. */
  ghost predicate HandlingWell(run: Run, i: nat, n: nat, data: SenderData)
    requires n <= |run.actions| < |run.states|
  {
    && i <= n && run.states[i].sender == Busy(data, Connect) && NoFailure(run, i, n)
    && (forall m :: i <= m <= n ==> run.states[m].sender.Busy? && run.states[m].sender.data == data)
  }

  /** Since state i we have sent a home transaction for this message, from the home stage, and been shown its receipt. */
  ghost predicate SubmissionConfirmed(s: State, before: nat, data: SenderData) {
    exists t {:trigger s.txs[t]} :: before <= t < |s.txs| && s.txs[t] == HomeTx(KeyOf(data.call), data.id, Home, true, true)
  }

  /** Since state i we have sent a foreign execution for this row with a whole blob. */
  ghost predicate ExecutionSent(s: State, before: nat, data: SenderData) {
    exists e {:trigger s.executed[e]} :: before <= e < |s.executed|
      && s.executed[e] == ForeignCall(data.id, KeyOf(data.call), 1 + 65 * s.home.Required(KeyOf(data.call)))
  }

  /** At some state from i on, before anything was sent, the message was recorded at home already. */
  ghost predicate FoundRecorded(run: Run, i: nat, n: nat, data: SenderData)
    requires n <= |run.actions| < |run.states|
  {
    exists m {:trigger run.states[m]} :: i <= m < n && |run.states[m].txs| == |run.states[i].txs| && run.states[m].home.Recorded(KeyOf(data.call))
  }

  /** The helper answered with a blob that does not have 1 + 65 bytes per required signature. */
  ghost predicate FoundPartial(run: Run, i: nat, n: nat, data: SenderData)
    requires n <= |run.actions| < |run.states|
  {
    exists m {:trigger run.states[m]} :: i <= m < n && run.states[m].sender.Busy? && run.states[m].sender.pc.Gather?
      && run.actions[m].Sender? && run.actions[m].sstep.Await?
      && run.actions[m].sstep.reply.num != 1 + 65 * run.states[m].home.Required(KeyOf(data.call))
  }

  /** At some state from i on we were not among the signers. */
  ghost predicate SawUsMissing(run: Run, i: nat, n: nat, data: SenderData)
    requires n <= |run.actions| < |run.states|
  {
    exists m {:trigger run.states[m]} :: i <= m < n && US !in run.states[m].home.Signers(KeyOf(data.call))
  }

  /** At some state from i on there were `count` signers, or fewer than that. */
  ghost predicate SawSigners(run: Run, i: nat, n: nat, data: SenderData, count: nat)
    requires n <= |run.actions| < |run.states|
  {
    exists m {:trigger run.states[m]} :: i <= m < n && |run.states[m].home.Signers(KeyOf(data.call))| <= count
  }

  /** The row is to be executed on the foreign chain. */
  predicate ToExecute(cfg: Config, call: CallData) {
    (call.AmbGcCall? && cfg.ambOnForeign) || (call.XdaiGcCall? && cfg.xdaiOnForeign)
  }

  /** What has been achieved when the sender stands at `pc`. */
  ghost predicate Achieved(c: Ctx, run: Run, i: nat, n: nat, data: SenderData, pc: Pc)
    requires i <= n <= |run.actions| < |run.states|
  {
    var s, txs0, ex0 := run.states[n], |run.states[i].txs|, |run.states[i].executed|;
    var confirmed := data.stage == Home ==> SubmissionConfirmed(s, txs0, data);
    match pc
    case ViewSignedByUs(required) => |s.txs| == txs0 && required > 0 && SawSigners(run, i, n, data, required - 1)
    case ViewAffirmed => |s.txs| == txs0 && SawUsMissing(run, i, n, data)
    case ViewAffirmedRequired(signed) =>
      |s.txs| == txs0 && SawUsMissing(run, i, n, data) && SawSigners(run, i, n, data, signed)
    case Submit(required) =>
      |s.txs| == txs0 && SawUsMissing(run, i, n, data) && required > 0 && SawSigners(run, i, n, data, required - 1)
    case Receipt(_, tx) =>
      txs0 <= tx < |s.txs| && s.txs[tx].key == KeyOf(data.call) && s.txs[tx].id == data.id && s.txs[tx].stageThen == Home
    case StageUpdate(_) => confirmed
    case MessageHash(_) => confirmed
    case Gather(_) => confirmed
    case ConnectForeign(length) => confirmed
    case Execute(length) => confirmed
    case ExecuteReceipt => confirmed && ExecutionSent(s, ex0, data)
    case DeleteRow =>
      (data.stage == Home && FoundRecorded(run, i, n, data)) ||
      (confirmed && (ToExecute(c.cfg, data.call) ==> ExecutionSent(s, ex0, data) || FoundPartial(run, i, n, data)))
    case ReleaseRow => false
    case ReleaseAfterError => false
    case Finished => false
    case _ => |s.txs| == txs0
  }

  // ----- steps of others -----

  /** What was sent stays sent. */
  ghost predicate SentStays(s: State, s': State) {
    && |s.txs| == |s'.txs| && s'.executed == s.executed
    && (forall t :: 0 <= t < |s.txs| ==>
          s'.txs[t].key == s.txs[t].key && s'.txs[t].id == s.txs[t].id && s'.txs[t].stageThen == s.txs[t].stageThen
          && (s.txs[t].mined ==> s'.txs[t].mined) && (s.txs[t].receipt ==> s'.txs[t].receipt))
    && s'.home.ambRequired == s.home.ambRequired && s'.home.xdaiRequired == s.home.xdaiRequired
    && s'.sender == s.sender
  }

  lemma OthersKeepSent(c: Ctx, s: State, a: Action)
    requires Enabled(c, s, a) && !a.Sender?
    ensures SentStays(s, Do(c, s, a))
  {
    if !PipelineAction(a) { OthersTables(c, s, a); }
  }

  lemma AchievedStays(c: Ctx, run: Run, i: nat, n: nat, data: SenderData, pc: Pc)
    requires i <= n < |run.actions| < |run.states| && Achieved(c, run, i, n, data, pc)
    requires SentStays(run.states[n], run.states[n + 1])
    ensures Achieved(c, run, i, n + 1, data, pc)
  {
    var s, s', txs0, ex0 := run.states[n], run.states[n + 1], |run.states[i].txs|, |run.states[i].executed|;
    if SubmissionConfirmed(s, txs0, data) {
      var t :| txs0 <= t < |s.txs| && s.txs[t] == HomeTx(KeyOf(data.call), data.id, Home, true, true);
      assert s'.txs[t] == HomeTx(KeyOf(data.call), data.id, Home, true, true);
    }
    if ExecutionSent(s, ex0, data) {
      var e :| ex0 <= e < |s.executed|
        && s.executed[e] == ForeignCall(data.id, KeyOf(data.call), 1 + 65 * s.home.Required(KeyOf(data.call)));
      assert s'.executed[e] == s.executed[e];
    }
    FoundStays(run, i, n, data);
  }

  lemma FoundStays(run: Run, i: nat, n: nat, data: SenderData)
    requires i <= n < |run.actions| < |run.states|
    ensures FoundRecorded(run, i, n, data) ==> FoundRecorded(run, i, n + 1, data)
    ensures FoundPartial(run, i, n, data) ==> FoundPartial(run, i, n + 1, data)
    ensures SawUsMissing(run, i, n, data) ==> SawUsMissing(run, i, n + 1, data)
    ensures forall count: nat :: SawSigners(run, i, n, data, count) ==> SawSigners(run, i, n + 1, data, count)
  {
    if FoundRecorded(run, i, n, data) {
      var m :| i <= m < n && |run.states[m].txs| == |run.states[i].txs| && run.states[m].home.Recorded(KeyOf(data.call));
      assert i <= m < n + 1;
    }
  }

  // ----- the sender's own step -----

  /** The setting of one await that does not fail. */
  ghost predicate AwaitsAt(c: Ctx, run: Run, i: nat, n: nat, data: SenderData, pc: Pc, r: Reply) {
    && i <= n < |run.actions| < |run.states|
    && run.states[n].sender == Busy(data, pc) && run.actions[n] == Sender(Await(r)) && r.ok
    && SenderEnabled(run.states[n], Await(r)) && run.states[n + 1] == SenderDo(c, run.states[n], Await(r))
    && Annotation(c, run.states[n].table, run.states[n].home, run.states[n].txs, data, pc)
    && RowOk(c, run.states[n].home, run.states[n].txs, run.states[n].table[data.id])
    && (forall tx :: tx in run.states[n].txs ==> TxOk(run.states[n].home, tx))
  }

  /** What was achieved is kept by the sender's own next step too. */
  lemma AchievedKept(c: Ctx, run: Run, i: nat, n: nat, data: SenderData, pc: Pc, r: Reply)
    requires AwaitsAt(c, run, i, n, data, pc, r)
    ensures var txs0, ex0 := |run.states[i].txs|, |run.states[i].executed|;
            && (SubmissionConfirmed(run.states[n], txs0, data) ==> SubmissionConfirmed(run.states[n + 1], txs0, data))
            && (ExecutionSent(run.states[n], ex0, data) ==> ExecutionSent(run.states[n + 1], ex0, data))
  {
    var s, s', txs0, ex0 := run.states[n], run.states[n + 1], |run.states[i].txs|, |run.states[i].executed|;
    if SubmissionConfirmed(s, txs0, data) {
      var t :| txs0 <= t < |s.txs| && s.txs[t] == HomeTx(KeyOf(data.call), data.id, Home, true, true);
      assert s'.txs[t] == s.txs[t];
    }
    if ExecutionSent(s, ex0, data) {
      var e :| ex0 <= e < |s.executed|
        && s.executed[e] == ForeignCall(data.id, KeyOf(data.call), 1 + 65 * s.home.Required(KeyOf(data.call)));
      assert s'.executed[e] == s.executed[e];
    }
  }

  /** A message of ours that asks for foreign work always parses. */
  lemma MessageParses(c: Ctx, t: Table, data: SenderData)
    requires About(c, t, data) && data.call.XdaiGcCall?
    ensures ParseXdaiMessage(data.call.message).Ok?
  {
    BuildCallCarries(c.cfg, t[data.id].row, data.call);
  }

  predicate IsPreflight(pc: Pc) {
    pc.Connect? || pc.ViewRequired? || pc.ViewSigned? || pc.ViewSignedByUs? || pc.ViewAffirmedByUs? || pc.ViewAffirmed?
    || pc.ViewAffirmedRequired?
  }

  /** What a view call has shown. */
  lemma ViewShows(c: Ctx, run: Run, i: nat, n: nat, data: SenderData, pc: Pc, r: Reply)
    requires AwaitsAt(c, run, i, n, data, pc, r)
    ensures (pc.ViewSigned? || pc.ViewAffirmed?) ==> SawSigners(run, i, n + 1, data, r.num)
    ensures (pc.ViewSignedByUs? || pc.ViewAffirmedByUs?) && !r.flag ==> SawUsMissing(run, i, n + 1, data)
  {
    assert run.states[n].sender == Busy(data, pc);
  }

  lemma FewerSigners(run: Run, i: nat, n: nat, data: SenderData, a: nat, b: nat)
    requires n <= |run.actions| < |run.states| && SawSigners(run, i, n, data, a) && a <= b
    ensures SawSigners(run, i, n, data, b)
  {
  }

  /** The pre-flight leads to the submission, to a message found recorded, or, from the foreign stage, to the foreign leg. */
  lemma PreflightAchieves(c: Ctx, run: Run, i: nat, n: nat, data: SenderData, pc: Pc, r: Reply)
    requires AwaitsAt(c, run, i, n, data, pc, r) && IsPreflight(pc) && Achieved(c, run, i, n, data, pc)
    ensures Achieved(c, run, i, n + 1, data, Next(c.cfg, data, pc, r))
  {
    if data.call.XdaiGcCall? { MessageParses(c, run.states[n].table, data); }
    FoundStays(run, i, n, data);
    ViewShows(c, run, i, n, data, pc, r);
    if pc.ViewSigned? && r.num < pc.required { FewerSigners(run, i, n + 1, data, r.num, pc.required - 1); }
    if pc.ViewAffirmedRequired? && pc.signed < r.num { FewerSigners(run, i, n + 1, data, pc.signed, r.num - 1); }
    if Next(c.cfg, data, pc, r).DeleteRow? {
      assert run.states[n].home.Recorded(KeyOf(data.call));
      assert FoundRecorded(run, i, n + 1, data);
    }
  }

  /** A submission that does not fail is sent and then shown its receipt. */
  lemma SubmissionAchieves(c: Ctx, run: Run, i: nat, n: nat, data: SenderData, pc: Pc, r: Reply)
    requires AwaitsAt(c, run, i, n, data, pc, r) && (pc.Submit? || pc.Receipt?) && Achieved(c, run, i, n, data, pc)
    ensures Achieved(c, run, i, n + 1, data, Next(c.cfg, data, pc, r))
  {
    var s, s' := run.states[n], run.states[n + 1];
    if pc.Submit? {
      assert s'.txs[|s.txs|] == HomeTx(KeyOf(data.call), data.id, Home, false, false);
    } else {
      assert s.txs[pc.tx] in s.txs;
      assert s'.txs[pc.tx] == HomeTx(KeyOf(data.call), data.id, Home, true, true);
      assert SubmissionConfirmed(s', |run.states[i].txs|, data);
    }
  }

  /** The execution is sent for this row, with a whole blob. */
  lemma ExecutionAchieves(c: Ctx, run: Run, i: nat, n: nat, data: SenderData, pc: Pc, r: Reply)
    requires AwaitsAt(c, run, i, n, data, pc, r) && pc.Execute? && Achieved(c, run, i, n, data, pc)
    requires |run.states[i].executed| <= |run.states[n].executed|
    ensures Achieved(c, run, i, n + 1, data, ExecuteReceipt)
  {
    var s, s' := run.states[n], run.states[n + 1];
    AchievedKept(c, run, i, n, data, pc, r);
    assert s'.executed[|s.executed|] == ForeignCall(data.id, KeyOf(data.call), 1 + 65 * s'.home.Required(KeyOf(data.call)));
    assert ExecutionSent(s', |run.states[i].executed|, data);
  }

  /** Only a blob that is not whole ends the foreign leg before the execution. */
  lemma GatherAchieves(c: Ctx, run: Run, i: nat, n: nat, data: SenderData, pc: Pc, r: Reply)
    requires AwaitsAt(c, run, i, n, data, pc, r) && pc.Gather? && Achieved(c, run, i, n, data, pc)
    ensures Achieved(c, run, i, n + 1, data, Next(c.cfg, data, pc, r))
  {
    AchievedKept(c, run, i, n, data, pc, r);
    if Next(c.cfg, data, pc, r).DeleteRow? {
      var s := run.states[n];
      assert s.sender.pc.Gather? && run.actions[n].sstep.reply.num != 1 + 65 * s.home.Required(KeyOf(data.call));
      assert FoundPartial(run, i, n + 1, data);
    }
  }

  lemma ForeignAchieves(c: Ctx, run: Run, i: nat, n: nat, data: SenderData, pc: Pc, r: Reply)
    requires AwaitsAt(c, run, i, n, data, pc, r) && Achieved(c, run, i, n, data, pc)
    requires pc.StageUpdate? || pc.MessageHash? || pc.ConnectForeign? || pc.ExecuteReceipt?
    ensures Achieved(c, run, i, n + 1, data, Next(c.cfg, data, pc, r))
  {
    AchievedKept(c, run, i, n, data, pc, r);
    if data.call.XdaiGcCall? { MessageParses(c, run.states[n].table, data); }
  }

  /** No await that does not fail leads to a release, and each achieves what it should. */
  lemma AwaitAchieves(c: Ctx, run: Run, i: nat, n: nat, data: SenderData, pc: Pc, r: Reply)
    requires AwaitsAt(c, run, i, n, data, pc, r) && Achieved(c, run, i, n, data, pc)
    requires |run.states[i].executed| <= |run.states[n].executed|
    ensures pc.DeleteRow? || Achieved(c, run, i, n + 1, data, Next(c.cfg, data, pc, r))
  {
    if IsPreflight(pc) { PreflightAchieves(c, run, i, n, data, pc, r); }
    else if pc.Submit? || pc.Receipt? { SubmissionAchieves(c, run, i, n, data, pc, r); }
    else if pc.Gather? { GatherAchieves(c, run, i, n, data, pc, r); }
    else if pc.Execute? { ExecutionAchieves(c, run, i, n, data, pc, r); }
    else if pc.DeleteRow? {}
    else { ForeignAchieves(c, run, i, n, data, pc, r); }
  }

  // ----- along a run -----

  lemma {:induction false} ExecutedGrows(c: Ctx, run: Run, i: nat, n: nat)
    requires Runs(c, run) && i <= n <= |run.actions|
    ensures |run.states[i].executed| <= |run.states[n].executed|
    decreases n
  {
    if n == i {
    } else {
      ExecutedGrows(c, run, i, n - 1);
      assert StepAt(c, run, n - 1);
      if !run.actions[n - 1].Sender? { OthersKeepSent(c, run.states[n - 1], run.actions[n - 1]); }
    }
  }

  /** The facts about the state in which the sender awaits. */
  lemma AwaitSetting(c: Ctx, run: Run, i: nat, n: nat, data: SenderData)
    requires FromStart(c, run) && i <= n < |run.actions| && run.actions[n].Sender? && run.actions[n].sstep.Await?
    requires run.actions[n].sstep.reply.ok && run.states[n].sender.Busy? && run.states[n].sender.data == data
    ensures AwaitsAt(c, run, i, n, data, run.states[n].sender.pc, run.actions[n].sstep.reply)
  {
    assert StepAt(c, run, n);
    SoundAt(c, run, n);
    assert run.states[n].table[data.id] in run.states[n].table;
  }

  lemma {:induction false} WellAchieves(c: Ctx, run: Run, i: nat, n: nat, data: SenderData)
    requires FromStart(c, run) && n <= |run.actions| && HandlingWell(run, i, n, data)
    ensures Achieved(c, run, i, n, data, run.states[n].sender.pc)
    decreases n
  {
    if n == i {
    } else {
      WellAchieves(c, run, i, n - 1, data);
      WellGoesOn(c, run, i, n - 1, data);
    }
  }

  lemma WellGoesOn(c: Ctx, run: Run, i: nat, n: nat, data: SenderData)
    requires FromStart(c, run) && n < |run.actions| && i <= n && HandlingWell(run, i, n + 1, data)
    requires Achieved(c, run, i, n, data, run.states[n].sender.pc)
    ensures Achieved(c, run, i, n + 1, data, run.states[n + 1].sender.pc)
  {
    assert run.states[n].sender.Busy? && run.states[n].sender.data == data;
    assert run.states[n + 1].sender.Busy?;
    var pc := run.states[n].sender.pc;
    if run.actions[n].Sender? {
      AwaitSetting(c, run, i, n, data);
      ExecutedGrows(c, run, i, n);
      AwaitAchieves(c, run, i, n, data, pc, run.actions[n].sstep.reply);
    } else {
      assert StepAt(c, run, n);
      OthersKeepSent(c, run.states[n], run.actions[n]);
      AchievedStays(c, run, i, n, data, pc);
    }
  }

  // ----- the end of a handling -----

  /** State n + 1 is where the handling that began at state i is over, nothing in it having failed. */
  ghost predicate HandledWell(run: Run, i: nat, n: nat, data: SenderData)
    requires n <= |run.actions| < |run.states|
  {
    && HandlingWell(run, i, n, data) && n < |run.actions|
    && run.actions[n].Sender? && run.actions[n].sstep.Await? && run.actions[n].sstep.reply.ok
    && run.states[n + 1].sender == Receiving
  }

  /** It ends with the deletion. */
  lemma EndsInDeletion(c: Ctx, run: Run, i: nat, n: nat, data: SenderData)
    requires FromStart(c, run) && n < |run.actions| && HandledWell(run, i, n, data)
    ensures run.states[n].sender == Busy(data, DeleteRow) && Achieved(c, run, i, n, data, DeleteRow)
    ensures run.states[n + 1] == SenderDo(c, run.states[n], run.actions[n].sstep)
    ensures About(c, run.states[n].table, data)
  {
    var pc, r := run.states[n].sender.pc, run.actions[n].sstep.reply;
    assert run.states[n].sender.Busy? && run.states[n].sender.data == data;
    WellAchieves(c, run, i, n, data);
    AwaitSetting(c, run, i, n, data);
    ExecutedGrows(c, run, i, n);
    AwaitAchieves(c, run, i, n, data, pc, r);
  }

  // ----- a release needs a failure -----

  /** Since the sender last received a message, one of its awaits has failed. */
  ghost predicate FailedSince(run: Run, n: nat)
    requires n <= |run.actions|
  {
    exists m {:trigger run.actions[m]} :: 0 <= m < n && run.actions[m].Sender? && run.actions[m].sstep.Await?
      && !run.actions[m].sstep.reply.ok && forall k :: m < k < n ==> run.actions[k] != Sender(Receive)
  }

  lemma FailedLater(run: Run, n: nat)
    requires n < |run.actions| && FailedSince(run, n) && run.actions[n] != Sender(Receive)
    ensures FailedSince(run, n + 1)
  {
    var m :| 0 <= m < n && run.actions[m].Sender? && run.actions[m].sstep.Await?
      && !run.actions[m].sstep.reply.ok && forall k :: m < k < n ==> run.actions[k] != Sender(Receive);
    assert forall k :: m < k < n + 1 ==> run.actions[k] != Sender(Receive);
  }

  lemma SuccessNeverReleases(c: Ctx, t: Table, home: HomeChain, txs: seq<HomeTx>, data: SenderData, pc: Pc, r: Reply)
    requires Annotation(c, t, home, txs, data, pc) && r.ok
    ensures var next := Next(c.cfg, data, pc, r); !next.ReleaseRow? && !next.ReleaseAfterError?
  {
    if data.call.XdaiGcCall? { MessageParses(c, t, data); }
  }

  predicate Releasing(s: SenderTask) { s.Busy? && (s.pc.ReleaseRow? || s.pc.ReleaseAfterError?) }

  lemma ReleasingNext(c: Ctx, run: Run, n: nat)
    requires FromStart(c, run) && n < |run.actions| && (Releasing(run.states[n].sender) ==> FailedSince(run, n))
    ensures Releasing(run.states[n + 1].sender) ==> FailedSince(run, n + 1)
  {
    assert StepAt(c, run, n);
    var s, a := run.states[n], run.actions[n];
    if Releasing(run.states[n + 1].sender) {
      if !a.Sender? {
        OthersKeepSent(c, s, a);
        FailedLater(run, n);
      } else if !a.sstep.reply.ok {
        assert run.actions[n].sstep.Await?;
      } else {
        SoundAt(c, run, n);
        SuccessNeverReleases(c, s.table, s.home, s.txs, s.sender.data, s.sender.pc, a.sstep.reply);
      }
    }
  }

  lemma {:induction false} ReleasingMeansFailed(c: Ctx, run: Run, n: nat)
    requires FromStart(c, run) && n <= |run.actions|
    ensures Releasing(run.states[n].sender) ==> FailedSince(run, n)
  {
    if n == 0 {
    } else {
      ReleasingMeansFailed(c, run, n - 1);
      ReleasingNext(c, run, n - 1);
    }
  }

  /** While the sender is busy and not about to release, nothing in this handling has failed. */
  lemma {:induction false} WellSince(c: Ctx, run: Run, n: nat) returns (i: nat)
    requires FromStart(c, run) && n <= |run.actions| && run.states[n].sender.Busy? && !Releasing(run.states[n].sender)
    ensures HandlingWell(run, i, n, run.states[n].sender.data)
  {
    i := 0;
    if n > 0 {
      assert StepAt(c, run, n - 1);
      var s, a, data := run.states[n - 1], run.actions[n - 1], run.states[n].sender.data;
      if a == Sender(Receive) {
        i := n;
      } else {
        BusyBefore(c, s, a);
        i := WellSince(c, run, n - 1);
        assert run.states[n].sender.data == data;
      }
    }
  }

  /** The sender was busy with the same message, and was not about to release it, before any step but a reception. */
  lemma BusyBefore(c: Ctx, s: State, a: Action)
    requires Enabled(c, s, a) && a != Sender(Receive)
    requires Do(c, s, a).sender.Busy? && !Releasing(Do(c, s, a).sender)
    ensures s.sender.Busy? && s.sender.data == Do(c, s, a).sender.data && !Releasing(s.sender)
    ensures a.Sender? ==> a.sstep.Await? && a.sstep.reply.ok
  {
    if !a.Sender? { OthersKeepSent(c, s, a); }
  }

  /** Only the sender's release makes a claimed row claimable again or uses up a retry. */
  lemma ReleasedHow(c: Ctx, s: State, a: Action, id: nat)
    requires Enabled(c, s, a) && id < |s.table|
    requires var before, after := s.table[id].row, Do(c, s, a).table[id].row;
             after.retries != before.retries || (before.claimed && !after.claimed)
    ensures a.Sender? && a.sstep.Await? && s.sender.Busy? && s.sender.data.id == id && Releasing(s.sender)
  {
    match a {
      case Processor(p, step) =>
      case Sender(step) =>
      case _ => OthersTables(c, s, a);
    }
  }

  // ----- a handling can always succeed -----

  /** An answer without a failure that the contract can give; the blob is whole. */
  function GoodReply(s: State, data: SenderData, pc: Pc): Reply {
    var k := KeyOf(data.call);
    match pc
    case ViewRequired => Reply(true, false, s.home.Required(k))
    case ViewAffirmedRequired(_) => Reply(true, false, s.home.Required(k))
    case ViewSigned(_) => Reply(true, false, |s.home.Signers(k)|)
    case ViewAffirmed => Reply(true, false, |s.home.Signers(k)|)
    case ViewSignedByUs(_) => Reply(true, US in s.home.Signers(k), 0)
    case ViewAffirmedByUs => Reply(true, US in s.home.Signers(k), 0)
    case Submit(_) => Reply(true, false, |s.txs|)
    case Gather(required) => Reply(true, false, BlobLength(required))
    case _ => Reply(true, false, 0)
  }

  lemma GoodReplyEnabled(c: Ctx, s: State, data: SenderData, pc: Pc)
    requires s.sender == Busy(data, pc) && Annotation(c, s.table, s.home, s.txs, data, pc)
    ensures MinedFirst(s, pc, GoodReply(s, data, pc)) ==> OutsideEnabled(s, Mine(pc.tx))
    ensures SenderEnabled(Answering(s, pc, GoodReply(s, data, pc)), Await(GoodReply(s, data, pc)))
  {
  }

  lemma WellExtends(c: Ctx, run: Run, i: nat, data: SenderData, a: Action)
    requires FromStart(c, run) && HandlingWell(run, i, |run.actions|, data) && Enabled(c, End(run), a)
    requires a.Sender? ==> a.sstep.Await? && a.sstep.reply.ok
    ensures FromStart(c, Extend(c, run, a))
    ensures Do(c, End(run), a).sender.Busy? && Do(c, End(run), a).sender.data == data ==>
              HandlingWell(Extend(c, run, a), i, |run.actions| + 1, data)
    ensures a.Sender? && Do(c, End(run), a).sender == Receiving ==> HandledWell(Extend(c, run, a), i, |run.actions|, data)
  {
    ExtendRuns(c, run, a);
    var more, n := Extend(c, run, a), |run.actions|;
    assert forall m :: 0 <= m <= n ==> more.states[m] == run.states[m];
    assert forall m :: 0 <= m < n ==> more.actions[m] == run.actions[m];
    assert more.states[n + 1] == Do(c, End(run), a);
  }

  lemma {:induction false} CanFinish(c: Ctx, run: Run, i: nat, data: SenderData) returns (more: Run)
    requires FromStart(c, run) && HandlingWell(run, i, |run.actions|, data)
    ensures FromStart(c, more) && |run.actions| < |more.actions| && run.actions <= more.actions
    ensures HandledWell(more, i, |more.actions| - 1, data)
    decreases Rank(run.states[|run.actions|].sender.pc), 1
  {
    var s := End(run);
    assert s == run.states[|run.actions|];
    var pc := s.sender.pc;
    var r := GoodReply(s, data, pc);
    AnnotatedAtEnd(c, run, data);
    GoodReplyEnabled(c, s, data, pc);
    more := run;
    if MinedFirst(s, pc, r) {
      WellExtends(c, run, i, data, Outside(Mine(pc.tx)));
      more := Extend(c, run, Outside(Mine(pc.tx)));
    }
    more := CanAnswer(c, more, i, data, pc, r);
  }

  lemma AnnotatedAtEnd(c: Ctx, run: Run, data: SenderData)
    requires FromStart(c, run) && End(run).sender.Busy? && End(run).sender.data == data
    ensures var s := End(run);
            !s.sender.pc.Finished? && Annotation(c, s.table, s.home, s.txs, data, s.sender.pc)
  {
    AlwaysSound(c, run);
  }

  lemma CanAnswer(c: Ctx, run: Run, i: nat, data: SenderData, pc: Pc, r: Reply) returns (more: Run)
    requires FromStart(c, run) && HandlingWell(run, i, |run.actions|, data) && End(run).sender == Busy(data, pc)
    requires r.ok && !pc.Finished? && SenderEnabled(End(run), Await(r))
    ensures FromStart(c, more) && |run.actions| < |more.actions| && run.actions <= more.actions
    ensures HandledWell(more, i, |more.actions| - 1, data)
    decreases Rank(pc), 0
  {
    var next := Next(c.cfg, data, pc, r);
    RankDecreases(c.cfg, data, pc, r);
    more := OneAnswer(c, run, i, data, pc, r);
    if !next.Finished? { more := CanFinish(c, more, i, data); }
  }

  /** The run with this answer. */
  lemma OneAnswer(c: Ctx, run: Run, i: nat, data: SenderData, pc: Pc, r: Reply) returns (more: Run)
    requires FromStart(c, run) && HandlingWell(run, i, |run.actions|, data) && End(run).sender == Busy(data, pc)
    requires r.ok && !pc.Finished? && SenderEnabled(End(run), Await(r))
    ensures FromStart(c, more) && |more.actions| == |run.actions| + 1 && run.actions <= more.actions
    ensures var next := Next(c.cfg, data, pc, r);
            if next.Finished? then HandledWell(more, i, |run.actions|, data)
            else HandlingWell(more, i, |more.actions|, data) && |more.states| == |more.actions| + 1
                 && more.states[|more.actions|].sender.Busy? && more.states[|more.actions|].sender.pc == next
  {
    NextSender(c, End(run), data, pc, r);
    WellExtends(c, run, i, data, Sender(Await(r)));
    more := Extend(c, run, Sender(Await(r)));
    assert more.states[|more.actions|] == Do(c, End(run), Sender(Await(r)));
  }

  lemma NextSender(c: Ctx, s: State, data: SenderData, pc: Pc, r: Reply)
    requires s.sender == Busy(data, pc) && SenderEnabled(s, Await(r))
    ensures var next := Next(c.cfg, data, pc, r);
            Do(c, s, Sender(Await(r))).sender == if next.Finished? then Receiving else Busy(data, next)
  {
  }

  /** Whenever a message waits for the sender, its handling can go without a failure from there. */
  lemma CanSucceed(c: Ctx, run: Run) returns (more: Run)
    requires FromStart(c, run) && End(run).sender == Receiving && End(run).chan != []
    ensures FromStart(c, more) && run.actions + [Sender(Receive)] <= more.actions
    ensures |run.actions| + 1 < |more.actions| && HandledWell(more, |run.actions| + 1, |more.actions| - 1, End(run).chan[0])
  {
    var data := End(run).chan[0];
    ExtendRuns(c, run, Sender(Receive));
    more := CanFinish(c, Extend(c, run, Sender(Receive)), |run.actions| + 1, data);
  }

  // ----- what is sent is about its row -----

  ghost predicate SpelledFor(c: Ctx, t: Table, id: nat, key: HomeKey) { id < |t| && KeySpells(c.cfg, t[id].row, key) }

  ghost predicate Spelled(c: Ctx, s: State) {
    && (forall tx :: tx in s.txs ==> SpelledFor(c, s.table, tx.id, tx.key))
    && (forall e :: e in s.executed ==> SpelledFor(c, s.table, e.id, e.key))
  }

  ghost predicate SameEvents(t: Table, t': Table) {
    |t| <= |t'| && forall i :: 0 <= i < |t| ==> SameOrigin(t[i].row, t'[i].row)
  }

  lemma SpelledStays(c: Ctx, t: Table, t': Table, id: nat, key: HomeKey)
    requires SameEvents(t, t') && SpelledFor(c, t, id, key)
    ensures SpelledFor(c, t', id, key)
  {
  }

  lemma SenderSpells(c: Ctx, s: State, step: SenderStep)
    requires Spelled(c, s) && SenderEnabled(s, step) && (s.sender.Busy? ==> About(c, s.table, s.sender.data))
    ensures Spelled(c, SenderDo(c, s, step))
  {
    var s' := SenderDo(c, s, step);
    SenderTables(c, s, step);
    forall id: nat, key | SpelledFor(c, s.table, id, key) ensures SpelledFor(c, s'.table, id, key) {
      SpelledStays(c, s.table, s'.table, id, key);
    }
    if step.Await? {
      var data := s.sender.data;
      BuildCallCarries(c.cfg, s.table[data.id].row, data.call);
      KeyOfSpells(c.cfg, s.table[data.id].row, data.call, KeyOf(data.call));
      assert SpelledFor(c, s.table, data.id, KeyOf(data.call));
      TxsSpelled(c, s, data, s.sender.pc, step.reply);
    }
  }

  lemma TxsSpelled(c: Ctx, s: State, data: SenderData, pc: Pc, r: Reply)
    requires Spelled(c, s) && SpelledFor(c, s.table, data.id, KeyOf(data.call))
    ensures forall tx :: tx in TxsAfter(s.table, s.txs, data, pc, r) ==> SpelledFor(c, s.table, tx.id, tx.key)
    ensures forall e :: e in ExecutedAfter(s.executed, data, pc, r) ==> SpelledFor(c, s.table, e.id, e.key)
  {
    var txs' := TxsAfter(s.table, s.txs, data, pc, r);
    forall tx | tx in txs' ensures SpelledFor(c, s.table, tx.id, tx.key) {
      var i :| 0 <= i < |txs'| && txs'[i] == tx;
      if i < |s.txs| { assert s.txs[i] in s.txs; }
    }
  }

  lemma OthersSpell(c: Ctx, s: State, a: Action)
    requires Spelled(c, s) && Enabled(c, s, a) && !a.Sender?
    ensures Spelled(c, Do(c, s, a))
  {
    var s' := Do(c, s, a);
    OthersKeepSent(c, s, a);
    if a.Processor? { ProcessorTables(c, s, a.p, a.pstep); } else { OthersTables(c, s, a); }
    forall tx | tx in s'.txs ensures SpelledFor(c, s'.table, tx.id, tx.key) {
      var i :| 0 <= i < |s'.txs| && s'.txs[i] == tx;
      assert s.txs[i] in s.txs;
      SpelledStays(c, s.table, s'.table, tx.id, tx.key);
    }
    forall e | e in s'.executed ensures SpelledFor(c, s'.table, e.id, e.key) { SpelledStays(c, s.table, s'.table, e.id, e.key); }
  }

  lemma {:induction false} AlwaysSpelled(c: Ctx, run: Run, n: nat)
    requires FromStart(c, run) && n <= |run.actions|
    ensures Spelled(c, run.states[n])
  {
    if n == 0 {
    } else {
      AlwaysSpelled(c, run, n - 1);
      SpelledNext(c, run, n - 1);
    }
  }

  lemma SpelledNext(c: Ctx, run: Run, n: nat)
    requires FromStart(c, run) && n < |run.actions| && Spelled(c, run.states[n])
    ensures Spelled(c, run.states[n + 1])
  {
    assert StepAt(c, run, n);
    var s, a := run.states[n], run.actions[n];
    if a.Sender? {
      SoundAt(c, run, n);
      SenderSpells(c, s, a.sstep);
    } else {
      OthersSpell(c, s, a);
    }
  }

  // ----- who signed -----

  ghost predicate HasUs(h: HomeChain, k: HomeKey) { k in h.signers && US in h.signers[k] }

  ghost predicate MinedFor(s: State, k: HomeKey) { exists t :: 0 <= t < |s.txs| && s.txs[t].key == k && s.txs[t].mined }

  lemma {:induction false} SignedByUs(c: Ctx, run: Run, n: nat, k: HomeKey)
    requires FromStart(c, run) && n <= |run.actions|
    ensures HasUs(run.states[n].home, k) ==> HasUs(run.states[0].home, k) || MinedFor(run.states[n], k)
  {
    if n == 0 {
    } else {
      SignedByUs(c, run, n - 1, k);
      assert StepAt(c, run, n - 1);
      SignerStep(c, run.states[n - 1], run.actions[n - 1], k);
    }
  }

  lemma SignerStep(c: Ctx, s: State, a: Action, k: HomeKey)
    requires Enabled(c, s, a)
    ensures HasUs(Do(c, s, a).home, k) ==> HasUs(s.home, k) || MinedFor(Do(c, s, a), k)
    ensures MinedFor(s, k) ==> MinedFor(Do(c, s, a), k)
  {
    MinedStays(c, s, a, k);
    if a.Outside? { OutsideSigns(s, a.ostep, k); } else { HomeUntouched(c, s, a); }
  }

  lemma MinedStays(c: Ctx, s: State, a: Action, k: HomeKey)
    requires Enabled(c, s, a)
    ensures MinedFor(s, k) ==> MinedFor(Do(c, s, a), k)
  {
    if MinedFor(s, k) {
      var t :| 0 <= t < |s.txs| && s.txs[t].key == k && s.txs[t].mined;
      if !a.Sender? { OthersKeepSent(c, s, a); }
      assert Do(c, s, a).txs[t].key == k && Do(c, s, a).txs[t].mined;
    }
  }

  lemma OutsideSigns(s: State, step: OutsideStep, k: HomeKey)
    requires OutsideEnabled(s, step)
    ensures HasUs(OutsideDo(s, step).home, k) ==> HasUs(s.home, k) || MinedFor(OutsideDo(s, step), k)
  {
    if step.Mine? && s.txs[step.tx].key == k { assert OutsideDo(s, step).txs[step.tx].mined; }
  }

  lemma HomeUntouched(c: Ctx, s: State, a: Action)
    requires Enabled(c, s, a) && !a.Outside?
    ensures Do(c, s, a).home == s.home
  {
  }
}
