/**
 Handling a message as a run of the system: when the replies are ones the contract and the mempool can give, the
 program of `SenderProgram` is performed by the sender's steps in `Pipeline`, with our transaction mined before its
 receipt is shown.
 */
module SenderRuns {
  import opened Prelude
  import opened EventLogs
  import opened Relay
  import opened Pipeline
  import opened SenderProgram

  /** The sender's steps, and the mining of our transactions. */
  function BySender(): Action -> bool { (a: Action) => a.Sender? || (a.Outside? && a.ostep.Mine?) }

  predicate MinedFirst(s: State, pc: Pc, r: Reply) {
    pc.Receipt? && r.ok && pc.tx < |s.txs| && !s.txs[pc.tx].mined
  }

  /** The state in which the await is answered. */
  function Answering(s: State, pc: Pc, r: Reply): State {
    if MinedFirst(s, pc, r) then OutsideDo(s, Mine(pc.tx)) else s
  }

  /** From here on every reply is one that `Pipeline` allows; the k-th await gets the k-th reply. */
  ghost predicate FaithfulFrom(c: Ctx, s: State, data: SenderData, pc: Pc, k: nat, replies: nat -> Reply)
    decreases Rank(pc)
  {
    pc.Finished? ||
    var r := replies(k);
    RankDecreases(c.cfg, data, pc, r);
    s.sender == Busy(data, pc) && Faithful(Answering(s, pc, r), data, pc, r) &&
    FaithfulFrom(c, SenderDo(c, Answering(s, pc, r), Await(r)), data, Next(c.cfg, data, pc, r), k + 1, replies)
  }

  lemma AwaitEffects(c: Ctx, s: State, data: SenderData, pc: Pc, r: Reply)
    requires s.sender == Busy(data, pc) && Faithful(Answering(s, pc, r), data, pc, r)
    ensures var s', next := SenderDo(c, Answering(s, pc, r), Await(r)), Next(c.cfg, data, pc, r);
            && s'.table == TableAfter(s.table, data.id, pc, r) && s'.chan == s.chan
            && s'.sender == (if next.Finished? then Receiving else Busy(data, next))
            && s'.handled == if next.Finished? then s.handled + [data] else s.handled
  {
  }

  /** One await, with its mining if it needs one. */
  lemma OneAwait(c: Ctx, run: Run, now: Run, data: SenderData, pc: Pc, r: Reply) returns (more: Run)
    requires GoesOn(c, run, now, BySender()) && End(now).sender == Busy(data, pc)
    requires Faithful(Answering(End(now), pc, r), data, pc, r)
    ensures GoesOn(c, run, more, BySender())
    ensures End(more) == SenderDo(c, Answering(End(now), pc, r), Await(r))
    ensures End(more).table == TableAfter(End(now).table, data.id, pc, r) && End(more).chan == End(now).chan
    ensures var next := Next(c.cfg, data, pc, r);
            && End(more).sender == (if next.Finished? then Receiving else Busy(data, next))
            && End(more).handled == if next.Finished? then End(now).handled + [data] else End(now).handled
  {
    AwaitEffects(c, End(now), data, pc, r);
    more := now;
    if MinedFirst(End(now), pc, r) { more := TakeStep(c, run, now, BySender(), Outside(Mine(pc.tx))); }
    more := TakeStep(c, run, more, BySender(), Sender(Await(r)));
  }

  lemma PlayStep(cfg: Config, data: SenderData, pc: Pc, t: Table, issued: seq<Pc>, replies: nat -> Reply)
    requires !pc.Finished?
    ensures var r := replies(|issued|);
            var next, t' := Next(cfg, data, pc, r), TableAfter(t, data.id, pc, r);
            && (next.Finished? ==> Play(cfg, data, pc, t, issued, replies).0 == t')
            && Play(cfg, data, pc, t, issued, replies) == Play(cfg, data, next, t', issued + [pc], replies)
  {
  }

  lemma {:induction false} HandleFrom(c: Ctx, run: Run, now: Run, data: SenderData, pc: Pc, issued: seq<Pc>, replies: nat -> Reply)
    returns (more: Run)
    requires GoesOn(c, run, now, BySender()) && End(now).sender == Busy(data, pc) && !pc.Finished?
    requires FaithfulFrom(c, End(now), data, pc, |issued|, replies)
    ensures GoesOn(c, run, more, BySender()) && End(more).sender == Receiving
    ensures End(more).table == Play(c.cfg, data, pc, End(now).table, issued, replies).0
    ensures End(more).chan == End(now).chan && End(more).handled == End(now).handled + [data]
    decreases Rank(pc)
  {
    var r := replies(|issued|);
    var next := Next(c.cfg, data, pc, r);
    RankDecreases(c.cfg, data, pc, r);
    more := OneAwait(c, run, now, data, pc, r);
    PlayStep(c.cfg, data, pc, End(now).table, issued, replies);
    if next.Finished? {
    } else {
      more := HandleFrom(c, run, more, data, next, issued + [pc], replies);
    }
  }

  /** Receiving a message and handling it to the end leaves the table that `SenderProgram` computes. */
  lemma HandlingIsARun(c: Ctx, run: Run, issued: seq<Pc>, replies: nat -> Reply) returns (more: Run)
    requires Runs(c, run) && End(run).sender == Receiving && End(run).chan != []
    requires FaithfulFrom(c, SenderDo(c, End(run), Receive), End(run).chan[0], Connect, |issued|, replies)
    ensures GoesOn(c, run, more, BySender()) && End(more).sender == Receiving
    ensures var data := End(run).chan[0];
            && End(more).table == Play(c.cfg, data, Connect, End(run).table, issued, replies).0
            && End(more).chan == End(run).chan[1..] && End(more).handled == End(run).handled + [data]
  {
    var data := End(run).chan[0];
    more := TakeStep(c, run, run, BySender(), Sender(Receive));
    more := HandleFrom(c, run, more, data, Connect, issued, replies);
  }
}
