/** How all eight tasks stop after the shutdown signal: something can always step, and not forever. */
module Stopping {
  import opened Prelude
  import opened EventLogs
  import opened Relay
  import opened SafeBlocks
  import opened Revalidation
  import opened Indexing
  import opened Pipeline
  import opened Ownership
  import opened Relaying
  import opened Accounting
  import opened Draining
  import opened Auditing
  import opened Coverage
  import opened Storage

  /** What `main` joins: four indexers, two processors, the sender and the checker. */
  ghost predicate AllStopped(s: State) {
    && PipelineStopped(s) && s.checker.CheckStopped?
    && forall m :: m in MODES ==> m in s.indexers && s.indexers[m].phase.Ended?
  }

  // ----- nobody is stuck -----

  /** An indexer that has not ended can always step: whatever it asks for may fail, and a signal ends its rest. */
  function IndexStepOf(s: State, me: Indexer): IndexStep {
    match me.phase
    case Resting => if s.shutdown then Halt else Begin([], None)
    case Fetching(_, _, _, _) => Fetch(RpcError)
    case Storing(_, _, _, _, _, todo) => if todo == [] then Advance else Store(InsertFails)
    case Ended => Halt
  }

  lemma IndexerCanStep(c: Ctx, s: State, m: BridgeMode)
    requires m in s.indexers && NetOf(m) in s.finalized && !s.indexers[m].phase.Ended?
    ensures IndexerEnabled(c, s, m, IndexStepOf(s, s.indexers[m]))
  {
  }

  function CheckStepOf(c: Ctx, s: State): CheckStep {
    match s.checker
    case CheckIdle => if s.later != [] then SkipChain else if s.shutdown || FcrNets(c.cfg) == [] then Quit else NextPass
    case Listed(_, _, _) => Lookup([])
    case Decided(_, _, _, _) => Write(true)
    case CheckStopped => Quit
  }

  /** The step that ends the claim transaction of a processor holding a row lock sooner. */
  function EndOfClaim(p: Proc): ProcStep { if p.Locked? then Mark(true) else Commit(true) }

  /** The checker waits only for a row lock, and whoever holds a row lock does not wait. */
  lemma CheckerCanStep(c: Ctx, s: State) returns (a: Action)
    requires CheckerOk(c, s.finalized, s.checker) && !s.checker.CheckStopped?
    ensures Enabled(c, s, a)
    ensures if s.checker.Decided? && !Unlocked(s, s.checker.net, s.checker.todo[0]) then
              a.Processor? && a.p < |s.procs| && HoldsLock(s.procs[a.p])
            else a == Check(CheckStepOf(c, s))
  {
    a := Check(CheckStepOf(c, s));
    if s.checker.Decided? && !Unlocked(s, s.checker.net, s.checker.todo[0]) {
      var id :| id in LockedIds(s.procs) && id < |s.table| && Affected(s.table[id], s.checker.net, s.checker.todo[0]);
      var i :| 0 <= i < |s.procs| && HoldsLock(s.procs[i]) && s.procs[i].id == id;
      a := Processor(i, EndOfClaim(s.procs[i]));
    }
  }

  // ----- not forever -----

  function One(b: bool): nat { if b then 1 else 0 }

  /** Rounds that may still begin after the signal. */
  function Tickets(s: State): nat {
    One(IndexerOf(AmbEth) !in s.overtime) + One(IndexerOf(AmbGc) !in s.overtime) +
    One(IndexerOf(XdaiEth) !in s.overtime) + One(IndexerOf(XdaiGc) !in s.overtime) + One(CheckerLoop !in s.overtime)
  }

  /** Blocks of this cycle that have not been asked for. */
  function BlocksLeft(me: Indexer): nat {
    match me.phase
    case Fetching(upper, _, from, _) => if from <= upper then upper - from + 1 else 0
    case Storing(upper, _, _, to, _, _) => if to <= upper then upper - to else 0
    case _ => 0
  }

  /** Steps of this indexer until it asks for more or rests, and the step that ends it. */
  function IndexerLeft(me: Indexer): nat {
    match me.phase
    case Resting => 1
    case Fetching(_, _, _, _) => 1
    case Storing(_, _, _, _, _, todo) => 2 + |todo|
    case Ended => 0
  }

  function OfAll(s: State, f: Indexer -> nat): nat
    requires s.indexers.Keys == MODES
  {
    f(s.indexers[AmbEth]) + f(s.indexers[AmbGc]) + f(s.indexers[XdaiEth]) + f(s.indexers[XdaiGc])
  }

  function CheckerLeft(k: Checker): nat {
    match k
    case CheckIdle => 1
    case Listed(_, _, todo) => 2 * |todo| + 1
    case Decided(_, _, todo, _) => 2 * |todo|
    case CheckStopped => 0
  }

  /** Requests that may still be made in the rounds that have begun. */
  function Requests(s: State): nat
    requires s.indexers.Keys == MODES
  {
    OfAll(s, BlocksLeft) + |s.later|
  }

  /** Steps until the next request or round. */
  function Rest(s: State): nat
    requires s.indexers.Keys == MODES
  {
    OfAll(s, IndexerLeft) + CheckerLeft(s.checker) + DrainLeft(s)
  }

  /** What the steps after the signal use up: rounds first, then requests, then everything else. */
  predicate Less(a: (nat, nat, nat), b: (nat, nat, nat)) {
    a.0 < b.0 || (a.0 == b.0 && a.1 < b.1) || (a.0 == b.0 && a.1 == b.1 && a.2 < b.2)
  }

  function Measure(s: State): (nat, nat, nat)
    requires s.indexers.Keys == MODES
  {
    (Tickets(s), Requests(s), Rest(s))
  }

  /** What the stopping arguments need of a state. */
  ghost predicate Stoppable(c: Ctx, s: State) {
    && s.shutdown && Orderly(s) && s.indexers.Keys == MODES && c.cfg.maxBlockRange >= 1
    && (forall m :: m in MODES ==> CursorOk(c, s.indexers[m]))
    && CheckerOk(c, s.finalized, s.checker)
  }

  /** Replacing one indexer changes a sum over the indexers by what changed in it. */
  lemma OfAllUpdate(s: State, s': State, m: BridgeMode, f: Indexer -> nat)
    requires s.indexers.Keys == MODES && m in MODES && s'.indexers.Keys == MODES
    requires s'.indexers == s.indexers[m := s'.indexers[m]]
    ensures OfAll(s', f) + f(s.indexers[m]) == OfAll(s, f) + f(s'.indexers[m])
  {
  }

  /** What a step was given to work through: the blocks of a new bound, the logs of an answer, the listed blocks. */
  function Answered(c: Ctx): Action -> nat {
    (a: Action) => match a
      case Index(m, Begin(probes, fin)) =>
        var bound := UpperBound(ModeFor(c.cfg, NetOf(m)), probes, fin);
        if bound.None? || bound.value < 0 then 0 else 2 * bound.value
      case Index(_, Fetch(Logs(logs))) => |logs|
      case Check(Start(_, _, listing)) => 2 * |listing|
      case _ => 0
  }

  /** Steps of the eight tasks left at most after the signal, not counting those for what is still to be answered. */
  function StepsLeft(s: State): nat
    requires s.indexers.Keys == MODES
  {
    Tickets(s) + 2 * One(CheckerLoop !in s.overtime) + 2 * OfAll(s, BlocksLeft) + |s.later| + Rest(s)
  }

  /** A begun round costs its indexer at most the blocks of its bound. */
  lemma BeginCosts(c: Ctx, s: State, m: BridgeMode, step: IndexStep)
    requires s.shutdown && IndexerEnabled(c, s, m, step) && step.Begin? && CursorOk(c, s.indexers[m])
    ensures IndexerOf(m) !in s.overtime
    ensures var me, me' := s.indexers[m], IndexerNext(c, s, m, step);
            2 * BlocksLeft(me') + IndexerLeft(me') <= 2 * BlocksLeft(me) + IndexerLeft(me) + Answered(c)(Index(m, step))
  {
  }

  /** Any other step of an indexer uses up a request or something smaller. */
  lemma IndexerUses(c: Ctx, s: State, m: BridgeMode, step: IndexStep)
    requires IndexerEnabled(c, s, m, step) && !step.Begin? && c.cfg.maxBlockRange >= 1 && CursorOk(c, s.indexers[m])
    ensures var me, me' := s.indexers[m], IndexerNext(c, s, m, step);
            && (BlocksLeft(me') < BlocksLeft(me) || (BlocksLeft(me') == BlocksLeft(me) && IndexerLeft(me') < IndexerLeft(me)))
            && 2 * BlocksLeft(me') + IndexerLeft(me') + 1 <= 2 * BlocksLeft(me) + IndexerLeft(me) + Answered(c)(Index(m, step))
  {
  }

  /** The parts of the state an indexer's step leaves alone. */
  ghost predicate OnlyIndexer(s: State, s': State, m: BridgeMode) {
    && s.indexers.Keys == MODES && s'.indexers.Keys == MODES && m in MODES
    && s'.indexers == s.indexers[m := s'.indexers[m]]
    && s'.procs == s.procs && s'.chan == s.chan && s'.sender == s.sender && s'.checker == s.checker && s'.later == s.later
  }

  lemma TicketUsed(s: State, s': State, l: Looper)
    requires l !in s.overtime && s'.overtime == s.overtime + {l}
    ensures Tickets(s') + One(l == CheckerLoop || l.bridge in MODES) == Tickets(s)
    ensures !l.CheckerLoop? ==> (CheckerLoop in s'.overtime <==> CheckerLoop in s.overtime)
  {
  }

  lemma BeginStops(c: Ctx, s: State, s': State, m: BridgeMode, answered: nat)
    requires OnlyIndexer(s, s', m) && IndexerOf(m) !in s.overtime && s'.overtime == s.overtime + {IndexerOf(m)}
    requires var me, me' := s.indexers[m], s'.indexers[m];
             2 * BlocksLeft(me') + IndexerLeft(me') <= 2 * BlocksLeft(me) + IndexerLeft(me) + answered
    ensures Less(Measure(s'), Measure(s)) && StepsLeft(s') + 1 <= StepsLeft(s) + answered
  {
    TicketUsed(s, s', IndexerOf(m));
    OfAllUpdate(s, s', m, BlocksLeft);
    OfAllUpdate(s, s', m, IndexerLeft);
  }

  lemma OtherStepStops(c: Ctx, s: State, s': State, m: BridgeMode, answered: nat)
    requires OnlyIndexer(s, s', m) && s'.overtime == s.overtime
    requires var me, me' := s.indexers[m], s'.indexers[m];
             && (BlocksLeft(me') < BlocksLeft(me) || (BlocksLeft(me') == BlocksLeft(me) && IndexerLeft(me') < IndexerLeft(me)))
             && 2 * BlocksLeft(me') + IndexerLeft(me') + 1 <= 2 * BlocksLeft(me) + IndexerLeft(me) + answered
    ensures Less(Measure(s'), Measure(s)) && StepsLeft(s') + 1 <= StepsLeft(s) + answered
  {
    OfAllUpdate(s, s', m, BlocksLeft);
    OfAllUpdate(s, s', m, IndexerLeft);
  }

  lemma IndexerStops(c: Ctx, s: State, m: BridgeMode, step: IndexStep)
    requires s.shutdown && s.indexers.Keys == MODES && c.cfg.maxBlockRange >= 1
    requires IndexerEnabled(c, s, m, step) && CursorOk(c, s.indexers[m])
    ensures var s' := IndexerDo(c, s, m, step);
            && s'.indexers.Keys == MODES && Less(Measure(s'), Measure(s))
            && StepsLeft(s') + 1 <= StepsLeft(s) + Answered(c)(Index(m, step))
  {
    var s' := IndexerDo(c, s, m, step);
    assert s'.indexers.Keys == MODES;
    if step.Begin? {
      BeginCosts(c, s, m, step);
      BeginStops(c, s, s', m, Answered(c)(Index(m, step)));
    } else {
      IndexerUses(c, s, m, step);
      OtherStepStops(c, s, s', m, Answered(c)(Index(m, step)));
    }
  }

  /** The parts of the state a step of the checker leaves alone. */
  ghost predicate OnlyChecker(s: State, s': State) {
    && s.indexers.Keys == MODES && s'.indexers == s.indexers
    && s'.procs == s.procs && s'.chan == s.chan && s'.sender == s.sender
  }

  lemma CheckerUses(c: Ctx, s: State, step: CheckStep)
    requires CheckerEnabled(c, s, step) && !step.NextPass?
    ensures var k, s' := s.checker, CheckerDo(c, s, step);
            && (|s'.later| < |s.later| || (|s'.later| == |s.later| && CheckerLeft(s'.checker) < CheckerLeft(k)))
            && |s'.later| + CheckerLeft(s'.checker) + 1 <= |s.later| + CheckerLeft(k) + Answered(c)(Check(step))
  {
  }

  lemma PassStops(c: Ctx, s: State, s': State)
    requires OnlyChecker(s, s') && s'.checker == s.checker && s.later == [] && |s'.later| <= 2
    requires CheckerLoop !in s.overtime && s'.overtime == s.overtime + {CheckerLoop}
    ensures Less(Measure(s'), Measure(s)) && StepsLeft(s') + 1 <= StepsLeft(s)
  {
    TicketUsed(s, s', CheckerLoop);
  }

  lemma CheckStops(s: State, s': State, answered: nat)
    requires OnlyChecker(s, s') && s'.overtime == s.overtime
    requires |s'.later| < |s.later| || (|s'.later| == |s.later| && CheckerLeft(s'.checker) < CheckerLeft(s.checker))
    requires |s'.later| + CheckerLeft(s'.checker) + 1 <= |s.later| + CheckerLeft(s.checker) + answered
    ensures Less(Measure(s'), Measure(s)) && StepsLeft(s') + 1 <= StepsLeft(s) + answered
  {
  }

  lemma CheckerStops(c: Ctx, s: State, step: CheckStep)
    requires s.shutdown && s.indexers.Keys == MODES && CheckerEnabled(c, s, step)
    ensures var s' := CheckerDo(c, s, step);
            && s'.indexers.Keys == MODES && Less(Measure(s'), Measure(s))
            && StepsLeft(s') + 1 <= StepsLeft(s) + Answered(c)(Check(step))
  {
    if step.NextPass? {
      PassStops(c, s, CheckerDo(c, s, step));
    } else {
      CheckerUses(c, s, step);
      CheckStops(s, CheckerDo(c, s, step), Answered(c)(Check(step)));
    }
  }

  /** What the pipeline's steps leave alone. */
  ghost predicate OnlyPipeline(s: State, s': State) {
    s.indexers.Keys == MODES && s'.indexers == s.indexers && s'.checker == s.checker && s'.later == s.later && s'.overtime == s.overtime
  }

  lemma PipelineStops(s: State, s': State)
    requires OnlyPipeline(s, s')
    ensures DrainLeft(s') < DrainLeft(s) ==> Less(Measure(s'), Measure(s)) && StepsLeft(s') + 1 <= StepsLeft(s)
    ensures DrainLeft(s') == DrainLeft(s) ==> Measure(s') == Measure(s) && StepsLeft(s') == StepsLeft(s)
  {
  }

  lemma PipelineStepStops(c: Ctx, s: State, a: Action)
    requires Orderly(s) && s.shutdown && s.indexers.Keys == MODES && Enabled(c, s, a) && !a.Index? && !a.Check?
    ensures var s' := Do(c, s, a);
            && s'.indexers.Keys == MODES
            && (if TaskAction(a) then Less(Measure(s'), Measure(s)) else Measure(s') == Measure(s))
            && StepsLeft(s') + One(TaskAction(a)) <= StepsLeft(s) + Answered(c)(a)
  {
    StepDrains(c, s, a);
    PipelineStops(s, Do(c, s, a));
  }

  /** Every step of the eight tasks uses something up, and no other step gives anything back. */
  lemma StepStops(c: Ctx, s: State, a: Action)
    requires Stoppable(c, s) && Enabled(c, s, a)
    ensures var s' := Do(c, s, a);
            && s'.indexers.Keys == MODES
            && (if TaskAction(a) then Less(Measure(s'), Measure(s)) else Measure(s') == Measure(s))
            && StepsLeft(s') + One(TaskAction(a)) <= StepsLeft(s) + Answered(c)(a)
  {
    match a {
      case Index(m, step) => IndexerStops(c, s, m, step);
      case Check(step) => CheckerStops(c, s, step);
      case _ => PipelineStepStops(c, s, a);
    }
  }

  // ----- along a run -----

  lemma StoppableAt(c: Ctx, run: Run, n: nat)
    requires FromStart(c, run) && n <= |run.actions| && run.states[n].shutdown
    ensures Stoppable(c, run.states[n])
  {
    SoundAt(c, run, n);
    AuditedAt(c, run, n);
    IndexedAt(c, run, n);
    var s := run.states[n];
    forall m | m in MODES ensures CursorOk(c, s.indexers[m]) { assert ModeOk(c, s.finalized, s.table, m, s.indexers[m]); }
  }

  lemma {:induction false} SignalLasts(c: Ctx, run: Run, i: nat, j: nat)
    requires Runs(c, run) && i <= j <= |run.actions| && run.states[i].shutdown
    ensures run.states[j].shutdown
    decreases j
  {
    if i == j {
    } else {
      SignalLasts(c, run, i, j - 1);
      assert StepAt(c, run, j - 1);
      SignalStays(c, run.states[j - 1], run.actions[j - 1]);
    }
  }

  lemma SignalStays(c: Ctx, s: State, a: Action)
    requires Enabled(c, s, a) && s.shutdown
    ensures Do(c, s, a).shutdown
  {
    if !PipelineAction(a) { OthersTables(c, s, a); }
  }

  /** One step of a run after the signal. */
  lemma NextStops(c: Ctx, run: Run, n: nat)
    requires FromStart(c, run) && n < |run.actions| && run.states[n].shutdown
    ensures var s, s', a := run.states[n], run.states[n + 1], run.actions[n];
            && s.indexers.Keys == MODES && s'.indexers.Keys == MODES && s'.shutdown
            && (if TaskAction(a) then Less(Measure(s'), Measure(s)) else Measure(s') == Measure(s))
            && StepsLeft(s') + One(TaskAction(a)) <= StepsLeft(s) + Answered(c)(a)
  {
    StoppableAt(c, run, n);
    assert StepAt(c, run, n);
    StepStops(c, run.states[n], run.actions[n]);
    SignalStays(c, run.states[n], run.actions[n]);
  }

  function TaskUnit(): Action -> nat { (a: Action) => if TaskAction(a) then 1 else 0 }

  lemma BudgetNext(c: Ctx, run: Run, i: nat, n: nat)
    requires FromStart(c, run) && i <= n < |run.actions| && run.states[i].shutdown
    ensures LeftAt(run, n + 1) + TaskUnit()(run.actions[n]) <= LeftAt(run, n) + Answered(c)(run.actions[n])
  {
    SignalLasts(c, run, i, n);
    NextStops(c, run, n);
  }

  /** What may be left in the n-th state of a run. */
  function LeftAt(run: Run, n: nat): nat {
    if n < |run.states| && run.states[n].indexers.Keys == MODES then StepsLeft(run.states[n]) else 0
  }

  function LeftAfter(run: Run, i: nat): nat -> nat { (n: nat) => LeftAt(run, i + n) }

  lemma BudgetSteps(c: Ctx, run: Run, i: nat, j: nat, gained: Action -> nat)
    requires FromStart(c, run) && i <= j <= |run.actions| && run.states[i].shutdown && gained == Answered(c)
    ensures forall n :: 0 <= n < j - i ==>
              LeftAfter(run, i)(n + 1) + TaskUnit()(run.actions[i..j][n]) <= LeftAfter(run, i)(n) + gained(run.actions[i..j][n])
  {
    forall n | 0 <= n < j - i
      ensures LeftAfter(run, i)(n + 1) + TaskUnit()(run.actions[i..j][n]) <= LeftAfter(run, i)(n) + gained(run.actions[i..j][n])
    {
      BudgetNext(c, run, i, i + n);
    }
  }

  lemma BudgetSum(acts: seq<Action>, left: nat -> nat, spent: Action -> nat, gained: Action -> nat, before: nat, after: nat)
    requires forall n :: 0 <= n < |acts| ==> left(n + 1) + spent(acts[n]) <= left(n) + gained(acts[n])
    requires left(0) == before && left(|acts|) == after
    ensures Sum(acts, spent) + after <= before + Sum(acts, gained)
  {
    Telescope(acts, left, spent, gained);
  }

  /** After the signal, the steps taken and what is left stay within what was left and what was answered. */
  lemma BudgetLeft(c: Ctx, run: Run, i: nat, j: nat)
    requires FromStart(c, run) && i <= j <= |run.actions| && run.states[i].shutdown
    ensures Sum(run.actions[i..j], TaskUnit()) + LeftAt(run, j) <= LeftAt(run, i) + Sum(run.actions[i..j], Answered(c))
  {
    BudgetSteps(c, run, i, j, Answered(c));
    BudgetSum(run.actions[i..j], LeftAfter(run, i), TaskUnit(), Answered(c), LeftAt(run, i), LeftAt(run, j));
  }

  // ----- runs that never end -----

  ghost function Prefix(states: nat -> State, actions: nat -> Action, n: nat): Run {
    Run(seq(n + 1, (i: nat) => states(i)), seq(n, (i: nat) => actions(i)))
  }

  /** Every prefix is a run from the start. */
  ghost predicate Forever(c: Ctx, states: nat -> State, actions: nat -> Action) {
    forall n: nat :: FromStart(c, Prefix(states, actions, n))
  }

  /** The measure along the stream; the states after the signal all have one. */
  ghost function MeasureAlong(states: nat -> State): nat -> (nat, nat, nat) {
    (n: nat) => if states(n).indexers.Keys == MODES then Measure(states(n)) else (0, 0, 0)
  }

  /** Whether a task steps. */
  function StepsAlong(actions: nat -> Action): nat -> bool { (n: nat) => TaskAction(actions(n)) }

  lemma StreamStep(c: Ctx, states: nat -> State, actions: nat -> Action, n: nat)
    requires Forever(c, states, actions) && states(n).shutdown
    ensures states(n + 1).shutdown
    ensures var m := MeasureAlong(states);
            if StepsAlong(actions)(n) then Less(m(n + 1), m(n)) else m(n + 1) == m(n)
  {
    NextStops(c, Prefix(states, actions, n + 1), n);
  }

  lemma {:induction false} StreamSignal(c: Ctx, states: nat -> State, actions: nat -> Action, n: nat, j: nat)
    requires Forever(c, states, actions) && states(n).shutdown && n <= j
    ensures states(j).shutdown
    decreases j
  {
    if n == j {
    } else {
      StreamSignal(c, states, actions, n, j - 1);
      StreamStep(c, states, actions, j - 1);
    }
  }

  /** A measure that falls with each step and otherwise stays allows finitely many steps. */
  lemma {:induction false} NoInfiniteDescent(m: nat -> (nat, nat, nat), steps: nat -> bool, n: nat) returns (k: nat)
    requires forall i :: n <= i ==> if steps(i) then Less(m(i + 1), m(i)) else m(i + 1) == m(i)
    ensures n <= k && forall j :: k <= j ==> !steps(j)
    decreases m(n).0, m(n).1, m(n).2
  {
    if forall j :: n <= j ==> !steps(j) {
      k := n;
    } else {
      var some :| n <= some && steps(some);
      var j := FirstStep(m, steps, n, some);
      assert Less(m(j + 1), m(j));
      k := NoInfiniteDescent(m, steps, j + 1);
    }
  }

  lemma {:induction false} FirstStep(m: nat -> (nat, nat, nat), steps: nat -> bool, n: nat, k: nat) returns (j: nat)
    requires forall i :: n <= i ==> if steps(i) then Less(m(i + 1), m(i)) else m(i + 1) == m(i)
    requires n <= k && steps(k)
    ensures n <= j && steps(j) && m(j) == m(n)
    decreases k - n
  {
    if steps(n) {
      j := n;
    } else {
      j := FirstStep(m, steps, n + 1, k);
    }
  }

  /** However long a run goes on after the signal, the eight tasks take finitely many steps in it. */
  lemma FinallyNoSteps(c: Ctx, states: nat -> State, actions: nat -> Action, n: nat) returns (k: nat)
    requires Forever(c, states, actions) && states(n).shutdown
    ensures n <= k && forall j :: k <= j ==> !TaskAction(actions(j))
  {
    var m, steps := MeasureAlong(states), StepsAlong(actions);
    forall i | n <= i ensures if steps(i) then Less(m(i + 1), m(i)) else m(i + 1) == m(i) {
      StreamSignal(c, states, actions, n, i);
      StreamStep(c, states, actions, i);
    }
    k := NoInfiniteDescent(m, steps, n);
    forall j | k <= j ensures !TaskAction(actions(j)) { assert !steps(j); }
  }
}
