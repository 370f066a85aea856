/** Where the rows of a run come from: each was made from a log that a provider answered its indexer's request with. */
module Provenance {
  import opened Prelude
  import opened EventLogs
  import opened Relay
  import opened Indexing
  import opened Pipeline
  import opened Ownership

  /** Before the n-th state, a provider gave this log to the indexer of `m`. */
  ghost predicate Given(run: Run, n: nat, m: BridgeMode, log: ChainLog)
    requires n <= |run.actions|
  {
    exists j {:trigger run.actions[j]} :: 0 <= j < n && run.actions[j].Index? && run.actions[j].mode == m && Gives(run.actions[j].istep, log)
  }

  predicate Gives(step: IndexStep, log: ChainLog) { step.Fetch? && step.answer.Logs? && log in step.answer.logs }

  ghost predicate RowGiven(run: Run, n: nat, r: Row)
    requires n <= |run.actions|
  {
    exists log :: Given(run, n, r.mode, log) && log.hasTopic && MadeFrom(r, r.mode, log)
  }

  ghost predicate AllGiven(run: Run, n: nat)
    requires n <= |run.actions| && n < |run.states|
  {
    && (forall id :: 0 <= id < |run.states[n].table| ==> RowGiven(run, n, run.states[n].table[id].row))
    && (forall m :: m in run.states[n].indexers && run.states[n].indexers[m].phase.Storing? ==>
          forall log :: log in run.states[n].indexers[m].phase.todo ==> Given(run, n, m, log))
  }

  lemma GivenLater(run: Run, n: nat, m: BridgeMode, log: ChainLog)
    requires n < |run.actions| && Given(run, n, m, log)
    ensures Given(run, n + 1, m, log)
  {
    var j :| 0 <= j < n && run.actions[j].Index? && run.actions[j].mode == m && Gives(run.actions[j].istep, log);
    assert run.actions[j].mode == m;
  }

  lemma RowGivenLater(run: Run, n: nat, a: Row, b: Row)
    requires n < |run.actions| && RowGiven(run, n, a) && SameOrigin(a, b)
    ensures RowGiven(run, n + 1, b)
  {
    var log :| Given(run, n, a.mode, log) && log.hasTopic && MadeFrom(a, a.mode, log);
    GivenLater(run, n, a.mode, log);
    assert MadeFrom(b, b.mode, log);
  }

  /** What a step leaves of the rows there were, and what it adds. */
  lemma RowsAfter(c: Ctx, s: State, a: Action, id: nat)
    requires Enabled(c, s, a) && id < |Do(c, s, a).table|
    ensures if id < |s.table| then SameOrigin(s.table[id].row, Do(c, s, a).table[id].row)
            else a.Index? && a.istep.Store? && s.indexers[a.mode].phase.todo[0].hasTopic
                 && MadeFrom(Do(c, s, a).table[id].row, a.mode, s.indexers[a.mode].phase.todo[0])
  {
    match a {
      case Processor(p, step) => ProcessorTables(c, s, p, step);
      case Sender(step) => SenderTables(c, s, step);
      case Outside(step) =>
      case Check(step) => CheckerAdds(c, s, step);
      case Index(m, step) =>
        if step.Store? { StoringOneLog(s.table, m, ModeFor(c.cfg, NetOf(m)), s.indexers[m].phase.todo[0], step.outcome); }
    }
  }

  lemma CheckerAdds(c: Ctx, s: State, step: CheckStep)
    requires CheckerEnabled(c, s, step)
    ensures var t' := CheckerDo(c, s, step).table;
            |t'| == |s.table| && forall i :: 0 <= i < |t'| ==> SameOrigin(s.table[i].row, t'[i].row)
  {
  }

  /** What an indexer still has to store it had before, or has just been given. */
  lemma TodosAfter(c: Ctx, s: State, a: Action, m: BridgeMode, log: ChainLog)
    requires Enabled(c, s, a) && m in Do(c, s, a).indexers && Do(c, s, a).indexers[m].phase.Storing?
    requires log in Do(c, s, a).indexers[m].phase.todo
    ensures (m in s.indexers && s.indexers[m].phase.Storing? && log in s.indexers[m].phase.todo)
            || (a.Index? && a.mode == m && Gives(a.istep, log))
  {
  }

  lemma StepGiven(c: Ctx, run: Run, n: nat)
    requires Runs(c, run) && n < |run.actions| && AllGiven(run, n)
    ensures AllGiven(run, n + 1)
  {
    assert StepAt(c, run, n);
    var s, s', a := run.states[n], run.states[n + 1], run.actions[n];
    forall id | 0 <= id < |s'.table| ensures RowGiven(run, n + 1, s'.table[id].row) {
      RowsAfter(c, s, a, id);
      if id < |s.table| {
        RowGivenLater(run, n, s.table[id].row, s'.table[id].row);
      } else {
        GivenLater(run, n, a.mode, s.indexers[a.mode].phase.todo[0]);
      }
    }
    forall m, log | m in s'.indexers && s'.indexers[m].phase.Storing? && log in s'.indexers[m].phase.todo
      ensures Given(run, n + 1, m, log)
    {
      TodosAfter(c, s, a, m, log);
      if m in s.indexers && s.indexers[m].phase.Storing? && log in s.indexers[m].phase.todo { GivenLater(run, n, m, log); }
    }
  }

  lemma {:induction false} AlwaysGiven(c: Ctx, run: Run, n: nat)
    requires FromStart(c, run) && n <= |run.actions|
    ensures AllGiven(run, n)
  {
    if n == 0 {
    } else {
      AlwaysGiven(c, run, n - 1);
      StepGiven(c, run, n - 1);
    }
  }
}
