/**
 A revalidation cycle as a run of the system: the checker's steps in `Pipeline`, left alone for a cycle, adjudicate
 every row as if alone and write the audit rows that `FcrChecker.CheckChain` writes.
 */
module CheckerProgram {
  import opened Prelude
  import opened EventLogs
  import opened Relay
  import opened SafeBlocks
  import opened Revalidation
  import opened Pipeline

  /** The checker's steps. */
  function ByChecker(): Action -> bool { (a: Action) => a.Check? }

  /** One cycle: the chain, its finalized block, the listing, the providers' answers by block number, and which writes succeed. */
  datatype Cycle = Cycle(net: Net, finalized: int, todo: seq<PendingBlock>, answers: int -> seq<HashAnswer>, writes: nat -> bool)
  {
    function Answers(n: int): seq<HashAnswer> { answers(n) }

    function WriteOk(k: nat): bool { writes(k) }

    function VerdictOn(k: nat): Verdict
      requires k < |todo|
    {
      VerdictFor(CanonicalHash(Answers(todo[k].number)), todo[k])
    }

    /** The cycle gets past its k-th block. */
    predicate Passes(k: nat)
      requires k < |todo|
    {
      VerdictOn(k).Unavailable? || WriteOk(k)
    }

    /** It gets past the first `good` blocks, and past no more. */
    ghost predicate Gets(good: nat) {
      && good <= |todo| && (forall k :: 0 <= k < good ==> Passes(k)) && (good < |todo| ==> !Passes(good))
    }
  }

  /** The first `k` blocks of the listing have been dealt with, starting from the tables of `s0`. */
  ghost predicate AtBlock(s0: State, s: State, cycle: Cycle, k: nat) {
    && k <= |cycle.todo| && s.procs == s0.procs
    && InProgress(s0.table, s0.audit, s.table, s.audit, cycle.net, cycle.finalized, cycle.todo, k, Lookups(cycle.answers))
  }

  ghost predicate Facing(s: State, cycle: Cycle, k: nat) {
    k <= |cycle.todo| && s.checker == NextBlock(cycle.net, cycle.finalized, cycle.todo[k..])
  }

  lemma BlockDecided(c: Ctx, s: State, cycle: Cycle, k: nat)
    requires Facing(s, cycle, k) && k < |cycle.todo|
    requires HonestHashes(c, cycle.net, cycle.todo[k].number, cycle.Answers(cycle.todo[k].number))
    ensures CheckerEnabled(c, s, Lookup(cycle.Answers(cycle.todo[k].number)))
    ensures CheckerDo(c, s, Lookup(cycle.Answers(cycle.todo[k].number)))
         == s.(checker := Decided(cycle.net, cycle.finalized, cycle.todo[k..], cycle.VerdictOn(k)))
  {
  }

  /** The write of a verdict, or the attempt, when no uncommitted claim stands in its way. */
  lemma BlockWritten(c: Ctx, s: State, cycle: Cycle, k: nat, ok: bool)
    requires k < |cycle.todo| && s.checker == Decided(cycle.net, cycle.finalized, cycle.todo[k..], cycle.VerdictOn(k))
    requires Unlocked(s, cycle.net, cycle.todo[k]) && (ok <==> cycle.Passes(k))
    ensures CheckerEnabled(c, s, Write(ok))
    ensures CheckerDo(c, s, Write(ok))
         == if ok then
              s.(checker := NextBlock(cycle.net, cycle.finalized, cycle.todo[k + 1..]),
                 table := TableWith(s.table, cycle.net, cycle.todo[k], cycle.VerdictOn(k)),
                 audit := s.audit + AuditWith(s.table, cycle.net, cycle.todo[k], cycle.VerdictOn(k), cycle.finalized))
            else s.(checker := CheckIdle)
  {
    assert cycle.todo[k..][1..] == cycle.todo[k + 1..];
  }

  /** What was free at the start of the cycle is free when its turn comes. */
  lemma StillUnlocked(s0: State, s: State, cycle: Cycle, k: nat)
    requires AtBlock(s0, s, cycle, k) && k < |cycle.todo| && Unlocked(s0, cycle.net, cycle.todo[k])
    ensures Unlocked(s, cycle.net, cycle.todo[k])
  {
    forall id | id in LockedIds(s.procs) && id < |s.table| ensures !Affected(s.table[id], cycle.net, cycle.todo[k]) {
      BlockFinds(s0.table, s.table, cycle.net, cycle.finalized, cycle.todo, k, Lookups(cycle.answers), id);
    }
  }

  lemma OneBlock(c: Ctx, run: Run, now: Run, cycle: Cycle, k: nat) returns (more: Run)
    requires GoesOn(c, run, now, ByChecker()) && AtBlock(End(run), End(now), cycle, k) && Facing(End(now), cycle, k)
    requires k < |cycle.todo| && Unlocked(End(run), cycle.net, cycle.todo[k])
    requires forall n :: HonestHashes(c, cycle.net, n, cycle.Answers(n))
    ensures GoesOn(c, run, more, ByChecker())
    ensures if cycle.Passes(k) then AtBlock(End(run), End(more), cycle, k + 1) && Facing(End(more), cycle, k + 1)
            else AtBlock(End(run), End(more), cycle, k) && End(more).checker.CheckIdle?
  {
    var block, s := cycle.todo[k], End(now);
    BlockDecided(c, s, cycle, k);
    more := TakeStep(c, run, now, ByChecker(), Check(Lookup(cycle.Answers(block.number))));
    StillUnlocked(End(run), s, cycle, k);
    BlockWritten(c, End(more), cycle, k, cycle.Passes(k));
    more := TakeStep(c, run, more, ByChecker(), Check(Write(cycle.Passes(k))));
    BlockDone(End(run).table, End(run).audit, s.table, s.audit, cycle.net, cycle.finalized, cycle.todo, k, Lookups(cycle.answers));
  }

  lemma {:induction false} BlocksFrom(c: Ctx, run: Run, now: Run, cycle: Cycle, k: nat, good: nat) returns (more: Run)
    requires GoesOn(c, run, now, ByChecker()) && AtBlock(End(run), End(now), cycle, k) && Facing(End(now), cycle, k)
    requires forall j :: 0 <= j < |cycle.todo| ==> Unlocked(End(run), cycle.net, cycle.todo[j])
    requires forall n :: HonestHashes(c, cycle.net, n, cycle.Answers(n))
    requires cycle.Gets(good) && k <= good
    ensures GoesOn(c, run, more, ByChecker()) && AtBlock(End(run), End(more), cycle, good) && End(more).checker.CheckIdle?
    decreases |cycle.todo| - k
  {
    if k == |cycle.todo| {
      more := now;
    } else {
      more := OneBlock(c, run, now, cycle, k);
      if cycle.Passes(k) { more := BlocksFrom(c, run, more, cycle, k + 1, good); }
    }
  }

  /**
   Whatever its lookups and writes do, a cycle leaves the tables of `FcrChecker.CheckChain`: the rows of the blocks it
   got past are adjudicated and audited, and no other row. It needs no row of the listing to be under an uncommitted claim.
   */
  lemma CheckChainIsARun(c: Ctx, run: Run, cycle: Cycle, good: nat) returns (more: Run)
    requires Runs(c, run) && CheckerEnabled(c, End(run), Start(cycle.net, cycle.finalized, cycle.todo))
    requires forall j :: 0 <= j < |cycle.todo| ==> Unlocked(End(run), cycle.net, cycle.todo[j])
    requires forall n :: HonestHashes(c, cycle.net, n, cycle.Answers(n))
    requires cycle.Gets(good)
    ensures GoesOn(c, run, more, ByChecker()) && End(more).checker.CheckIdle?
    ensures Processed(End(run).table, End(more).table, cycle.net, cycle.finalized, cycle.todo, good, Lookups(cycle.answers))
    ensures End(run).audit <= End(more).audit
    ensures AuditedBy(End(run).table, End(more).audit[|End(run).audit|..], cycle.net, cycle.finalized, cycle.todo[..good],
                      Lookups(cycle.answers))
    ensures good == |cycle.todo| ==>
              var t, t' := End(run).table, End(more).table;
              && |t'| == |t| && (forall i :: 0 <= i < |t| ==> t'[i] == Adjudicate(t[i], cycle.net, cycle.finalized, Lookups(cycle.answers)))
              && forall i :: 0 <= i < |t'| && LeftPending(t'[i], cycle.net, cycle.finalized) ==>
                   forall a :: a in cycle.answers(t'[i].row.blockNumber.value) ==> !a.HashOf?
  {
    var s := End(run);
    more := TakeStep(c, run, run, ByChecker(), Check(Start(cycle.net, cycle.finalized, cycle.todo)));
    assert cycle.todo[0..] == cycle.todo && s.audit[|s.audit|..] == [];
    more := BlocksFrom(c, run, more, cycle, 0, good);
    if good == |cycle.todo| {
      BatchRefinesPerRow(s.table, End(more).table, cycle.net, cycle.finalized, cycle.todo, Lookups(cycle.answers));
      NothingElseLeft(s.table, End(more).table, cycle.net, cycle.finalized, cycle.answers);
    }
  }
}
