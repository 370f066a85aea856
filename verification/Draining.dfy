/** When the pipeline is quiet, and how it stops. */
module Draining {
  import opened Prelude
  import opened EventLogs
  import opened Relay
  import opened Pipeline
  import opened Ownership
  import opened Relaying
  import opened Accounting

  // ----- no deadlock -----

  predicate PipelineStopped(s: State) { s.sender.Exited? && forall p :: p in s.procs ==> p.Stopped? }

  /** Unless everything has stopped, some task of the pipeline can take a step. */
  lemma SomeTaskCanStep(c: Ctx, s: State) returns (a: Action)
    requires Sound(c, s) && !PipelineStopped(s)
    ensures PipelineAction(a) && Enabled(c, s, a)
  {
    if s.sender.Busy? {
      a := Sender(Await(Reply(false, false, 0)));
    } else if s.sender.Receiving? && s.chan != [] {
      a := Sender(Receive);
    } else if forall p :: p in s.procs ==> p.Stopped? {
      a := Sender(Exit);
    } else {
      var i :| 0 <= i < |s.procs| && !s.procs[i].Stopped?;
      assert s.procs[i] in s.procs;
      a := Processor(i, StepOf(s.procs[i]));
    }
  }

  /** A step a processor can always take when the channel is empty. */
  function StepOf(p: Proc): ProcStep {
    match p
    case AtTop => Poll
    case Reading => ReadNothing
    case Locked(_, _) => Mark(true)
    case Marked(_, _) => Commit(true)
    case Holding(_, _) => Decode(true)
    case Ready(_) => Send
    case Waiting => Wake(false)
    case Stopped => Poll
  }

  /** The receiver outlives every processor, so a send never fails. */
  lemma SendNeverFails(c: Ctx, s: State, p: nat)
    requires Sound(c, s)
    ensures !Enabled(c, s, Processor(p, SendFails))
  {
    if p < |s.procs| { assert s.procs[p] in s.procs; }
  }

  // ----- draining after the shutdown signal -----

  function DrainWeight(): Proc -> nat {
    (p: Proc) => match p
      case Stopped => 0
      case AtTop => 1
      case Waiting => 2
      case Ready(_) => 17
      case Holding(_, _) => 18
      case Marked(_, _) => 19
      case Locked(_, _) => 20
      case Reading => 21
  }

  function SenderDrain(t: SenderTask): nat {
    match t case Exited => 0 case Receiving => 1 case Busy(_, pc) => 1 + Rank(pc)
  }

  /** Pipeline steps left at most once the shutdown signal is up. */
  function DrainLeft(s: State): nat { Sum(s.procs, DrainWeight()) + 15 * |s.chan| + SenderDrain(s.sender) }

  lemma ProcessorDrains(c: Ctx, s: State, p: nat, step: ProcStep)
    requires s.shutdown && ProcessorEnabled(c, s, p, step)
    ensures DrainLeft(ProcessorDo(c, s, p, step)) < DrainLeft(s)
  {
    SumUpdate(s.procs, p, ProcessorDo(c, s, p, step).procs[p], DrainWeight());
  }

  lemma SenderDrains(c: Ctx, s: State, step: SenderStep)
    requires Orderly(s) && SenderEnabled(s, step)
    ensures DrainLeft(SenderDo(c, s, step)) < DrainLeft(s)
  {
    if step.Await? { RankDecreases(c.cfg, s.sender.data, s.sender.pc, step.reply); }
  }

  /** Every pipeline step after the signal uses up some of what is left; no other step adds to it. */
  lemma StepDrains(c: Ctx, s: State, a: Action)
    requires Orderly(s) && s.shutdown && Enabled(c, s, a)
    ensures Do(c, s, a).shutdown
    ensures if PipelineAction(a) then DrainLeft(Do(c, s, a)) < DrainLeft(s) else DrainLeft(Do(c, s, a)) == DrainLeft(s)
  {
    match a {
      case Processor(p, step) => ProcessorDrains(c, s, p, step);
      case Sender(step) => SenderDrains(c, s, step);
      case _ => OthersTables(c, s, a);
    }
  }

  function PipelineUnit(): Action -> nat { (a: Action) => if PipelineAction(a) then 1 else 0 }

  /** The queue discipline lasts, from any state that has it. */
  lemma OrderlyNext(c: Ctx, run: Run, n: nat)
    requires Runs(c, run) && n < |run.actions| && Orderly(run.states[n])
    ensures Orderly(run.states[n + 1])
  {
    assert StepAt(c, run, n);
    StepKeepsOrder(c, run.states[n], run.actions[n]);
  }

  lemma OrderlyAt(c: Ctx, run: Run, n: nat)
    requires Runs(c, run) && Orderly(run.states[0]) && n <= |run.actions|
    ensures Orderly(run.states[n])
  {
    var holds := (s: State) => Orderly(s);
    forall i | 0 <= i < |run.actions| && holds(run.states[i]) ensures holds(run.states[i + 1]) { OrderlyNext(c, run, i); }
    Invariant(c, run, holds, n);
  }

  lemma DrainNext(c: Ctx, run: Run, n: nat)
    requires Runs(c, run) && Orderly(run.states[0]) && n < |run.actions| && run.states[n].shutdown
    ensures run.states[n + 1].shutdown
    ensures DrainLeft(run.states[n + 1]) + PipelineUnit()(run.actions[n]) <= DrainLeft(run.states[n])
  {
    OrderlyAt(c, run, n);
    assert StepAt(c, run, n);
    StepDrains(c, run.states[n], run.actions[n]);
  }

  lemma {:induction false} DrainBound(c: Ctx, run: Run, n: nat)
    requires Runs(c, run) && Orderly(run.states[0]) && run.states[0].shutdown && n <= |run.actions|
    ensures run.states[n].shutdown
    ensures Sum(run.actions[..n], PipelineUnit()) + DrainLeft(run.states[n]) <= DrainLeft(run.states[0])
  {
    if n == 0 {
    } else {
      DrainBound(c, run, n - 1);
      DrainNext(c, run, n - 1);
      SumSnoc(run.actions, n - 1, PipelineUnit());
    }
  }

  lemma DrainLeftBounded(s: State)
    requires Orderly(s)
    ensures DrainLeft(s) <= 21 * 2 + 15 * CAPACITY + 15
  {
    SumBounded(s.procs, DrainWeight(), 21);
    if s.sender.Busy? { assert Rank(s.sender.pc) <= 14; }
  }

  // ----- quiet states -----

  predicate IdleStep(a: Action) {
    a.Processor? && (a.pstep.Poll? || a.pstep.ReadNothing? || a.pstep.Wake?)
  }

  /** A processor is looking for work, and nothing but looking can happen in the pipeline. */
  ghost predicate Quiet(c: Ctx, s: State) {
    (exists p :: 0 <= p < |s.procs| && s.procs[p].Reading?) &&
    forall a :: PipelineAction(a) && Enabled(c, s, a) ==> IdleStep(a)
  }

  lemma QuietMeansDisabled(c: Ctx, s: State, a: Action)
    requires Quiet(c, s) && PipelineAction(a) && !IdleStep(a)
    ensures !Enabled(c, s, a)
  {
  }

  lemma NothingHeldWhenQuiet(c: Ctx, s: State, id: nat)
    requires Sound(c, s) && Quiet(c, s)
    ensures Held(s, id) == 0
    ensures forall p :: 0 <= p < |s.procs| ==> !HoldsLock(s.procs[p])
  {
    QuietMeansDisabled(c, s, Sender(Await(Reply(false, false, 0))));
    QuietMeansDisabled(c, s, Sender(Receive));
    var p :| 0 <= p < |s.procs| && s.procs[p].Reading?;
    assert s.procs[p] in s.procs;
    assert s.sender.Receiving? && s.chan == [];
    forall i | 0 <= i < |s.procs| ensures HandOf(s.procs[i]).None? && !HoldsLock(s.procs[i]) {
      QuietMeansDisabled(c, s, Processor(i, Mark(true)));
      QuietMeansDisabled(c, s, Processor(i, Commit(true)));
      QuietMeansDisabled(c, s, Processor(i, Decode(true)));
      QuietMeansDisabled(c, s, Processor(i, Send));
    }
    SumZero(s.procs, InHand(id));
  }

  lemma QuietRow(c: Ctx, s: State, id: nat)
    requires Sound(c, s) && Quiet(c, s) && LiveAt(s.table, id)
    ensures if s.table[id].row.claimed then id in s.stranded else s.table[id].row.retries == Ceiling(c.cfg)
  {
    NothingHeldWhenQuiet(c, s, id);
    assert ConservedAt(s, id);
    if Claimable(s.table, Ceiling(c.cfg), id) {
      assert LockedIds(s.procs) == {};
      var next := ClaimQuery(s.table, |s.table|, Ceiling(c.cfg), {}).value;
      var p :| 0 <= p < |s.procs| && s.procs[p].Reading?;
      QuietMeansDisabled(c, s, Processor(p, Lock(next)));
    }
  }
}
