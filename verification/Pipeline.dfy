/**
 The validator as one transition system: four indexers, the message processors, the bounded channel, the
 on-chain sender and the FCR checker take turns, one await at a time. Answers of providers, databases and
 transactions are part of the action, so every run is a sequence of actions.
 */
module Pipeline {
  import opened Prelude
  import opened EventLogs
  import opened Relay
  import opened SafeBlocks
  import opened Revalidation
  import opened Indexing

  /** Capacity of the channel between the processors and the sender. */
  const CAPACITY: nat := 32

  const I64_MAX: int := 0x7fff_ffff_ffff_ffff

  /**
   What the two chains will finalize; the finalized part of a chain is a growing prefix of this. `txNet` is the
   chain of a transaction, and `place` says which finalized log (bridge, block, position) a transaction hash and
   log index stand for.
   */
  datatype World = World(
    finalHash: (Net, int) -> Hash,
    finalLogs: (BridgeMode, int) -> seq<ChainLog>,
    txNet: Hash -> Net,
    place: (Hash, nat) -> (BridgeMode, int, int))
  {
    function HashAt(net: Net, n: int): Hash { finalHash(net, n) }

    function LogsAt(m: BridgeMode, n: int): seq<ChainLog> { finalLogs(m, n) }

    function NetOfTx(tx: Hash): Net { txNet(tx) }

    function PlaceOf(tx: Hash, logIndex: nat): (BridgeMode, int, int) { place(tx, logIndex) }
  }

  datatype Ctx = Ctx(cfg: Config, world: World)

  // ----- tasks -----

  datatype Proc =
    | AtTop                        // loop head, before the shutdown check
    | Reading                      // in read_from_db, no row selected yet
    | Locked(id: nat, row: Row)    // SELECT ... FOR UPDATE SKIP LOCKED returned this row
    | Marked(id: nat, row: Row)    // UPDATE done, not committed
    | Holding(id: nat, row: Row)   // claim committed
    | Ready(data: SenderData)      // decoded, about to send
    | Waiting                      // in select!: sleep or shutdown
    | Stopped

  datatype SenderTask = Receiving | Busy(data: SenderData, pc: Pc) | Exited

  /** The ways a claimed row stays claimed with nobody working on it. */
  datatype ExitReason = DecodeError | UnknownMode | ChannelClosed | ReleaseFailed | ForeignOff

  /** A transaction this validator broadcast to the home bridge, with the row's stage at that moment; `receipt` once it has been shown its receipt. */
  datatype HomeTx = HomeTx(key: HomeKey, id: nat, stageThen: Stage, mined: bool, receipt: bool)

  datatype ForeignCall = ForeignCall(id: nat, key: HomeKey, length: nat)

  datatype Phase =
    | Resting
    | Fetching(upper: int, start: int, from: int, through: int)
    | Storing(upper: int, start: int, from: int, to: int, through: int, todo: seq<ChainLog>)
    | Ended

  /**
   `cursor` and `phase` are the indexer's own; the rest is the history of the run: the chunks indexed so far, the
   highest bound seen, the bounds of the cycles that landed a chunk, the keys with a failed INSERT, and whether a
   chunk was ever given up because a log could not be serialized.
   */
  datatype Indexer = Indexer(cursor: int, phase: Phase, chunks: seq<(int, int)>, highest: int, bounds: seq<int>,
                             failed: set<Key>, abandoned: bool)

  datatype Checker =
    | CheckIdle
    | Listed(net: Net, finalized: int, todo: seq<PendingBlock>)
    | Decided(net: Net, finalized: int, todo: seq<PendingBlock>, verdict: Verdict)
    | CheckStopped

  /** The tasks that loop over a select! of a timer and the shutdown signal. */
  datatype Looper = IndexerOf(bridge: BridgeMode) | CheckerLoop

  /**
   `later` is what is left of the checker's pass over its chains. `overtime` has the loopers that began another
   round after the signal: their timer had fired as well, and select! may take either branch, but the next
   select! finds only the signal ready.
   */
  datatype State = State(
    table: Table,
    audit: seq<AuditRow>,
    procs: seq<Proc>,
    chan: seq<SenderData>,
    sender: SenderTask,
    shutdown: bool,
    stranded: map<nat, ExitReason>,
    sent: seq<SenderData>,
    handled: seq<SenderData>,
    home: HomeChain,
    txs: seq<HomeTx>,
    executed: seq<ForeignCall>,
    indexers: map<BridgeMode, Indexer>,
    checker: Checker,
    later: seq<Net>,
    overtime: set<Looper>,
    finalized: map<Net, int>)

  /** One await (or loop decision) of a processor. `ok` tells whether the database statement succeeded. */
  datatype ProcStep =
    | Poll
    | Lock(id: nat)
    | ReadNothing
    | Mark(ok: bool)
    | Commit(ok: bool)
    | Wake(stop: bool)
    | Decode(keyOk: bool)
    | Send
    | SendFails

  datatype SenderStep = Receive | Await(reply: Reply) | Exit

  datatype OutsideStep =
    | Shutdown
    | Mine(tx: nat)
    | OtherSigns(key: HomeKey, validator: Validator)
    | Finalize(net: Net, height: int)

  datatype IndexStep =
    | Begin(probes: seq<SafeProbe>, finalizedAnswer: Option<int>)
    | Fetch(answer: FetchAnswer)
    | Store(outcome: StoreOutcome)
    | Advance
    | Halt

  datatype CheckStep =
    | NextPass
    | SkipChain
    | Start(net: Net, finalizedAnswer: int, listing: seq<PendingBlock>)
    | Lookup(answers: seq<HashAnswer>)
    | Write(ok: bool)
    | Quit

  datatype Action =
    | Processor(p: nat, pstep: ProcStep)
    | Sender(sstep: SenderStep)
    | Outside(ostep: OutsideStep)
    | Index(mode: BridgeMode, istep: IndexStep)
    | Check(cstep: CheckStep)

  /** Steps of the claim-and-relay pipeline, as opposed to the indexers, the checker and the outside. */
  predicate PipelineAction(a: Action) { a.Processor? || a.Sender? }

  /** Steps of the eight tasks `main` joins. */
  predicate TaskAction(a: Action) { !a.Outside? }

  // ----- processors -----

  predicate HoldsLock(p: Proc) { p.Locked? || p.Marked? }

  ghost function LockedIds(procs: seq<Proc>): set<nat> {
    set i | 0 <= i < |procs| && HoldsLock(procs[i]) :: procs[i].id
  }

  ghost predicate ProcessorEnabled(c: Ctx, s: State, p: nat, step: ProcStep) {
    p < |s.procs| &&
    var me := s.procs[p];
    match step
    case Poll => me.AtTop?
    case Lock(id) => me.Reading? && NextToClaim(s.table, Ceiling(c.cfg), LockedIds(s.procs), id)
    case ReadNothing => me.Reading?
    case Mark(_) => me.Locked?
    case Commit(_) => me.Marked?
    case Wake(stop) => me.Waiting? && (stop ==> s.shutdown)
    case Decode(keyOk) => me.Holding? && (!keyOk ==> SignsInProcessor(me.row.mode))
    case Send => me.Ready? && |s.chan| < CAPACITY && !s.sender.Exited?
    case SendFails => me.Ready? && s.sender.Exited?
  }

  /** `process_message_or_skip` up to the send: the message to send, or the way the row is lost. */
  function Decoded(cfg: Config, id: nat, row: Row, keyOk: bool): Result<SenderData, ExitReason> {
    var call := BuildCall(cfg, row);
    if row.mode.Unknown? && !row.log.Garbled? then Err(UnknownMode)
    else if call.None? || !keyOk then Err(DecodeError)
    else Ok(SenderData(call.value, id, row.stage))
  }

  /** A processor's own next state. */
  ghost function NextProc(c: Ctx, s: State, p: nat, step: ProcStep): Proc
    requires ProcessorEnabled(c, s, p, step)
  {
    var me := s.procs[p];
    match step
    case Poll => if s.shutdown then Stopped else Reading
    case Lock(id) => Locked(id, s.table[id].row)
    case ReadNothing => Waiting
    case Mark(ok) => if ok then Marked(me.id, me.row) else Waiting
    case Commit(ok) => if ok then Holding(me.id, me.row) else Waiting
    case Wake(stop) => if stop then Stopped else AtTop
    case Decode(keyOk) =>
      (match Decoded(c.cfg, me.id, me.row, keyOk) case Ok(data) => Ready(data) case Err(_) => AtTop)
    case Send => AtTop
    case SendFails => AtTop
  }

  /** The rows this step leaves claimed with nobody working on them. */
  ghost function StrandedByProc(c: Ctx, s: State, p: nat, step: ProcStep): map<nat, ExitReason>
    requires ProcessorEnabled(c, s, p, step)
  {
    var me := s.procs[p];
    match step
    case Decode(keyOk) =>
      (match Decoded(c.cfg, me.id, me.row, keyOk) case Ok(_) => map[] case Err(e) => map[me.id := e])
    case SendFails => map[me.data.id := ChannelClosed]
    case _ => map[]
  }

  ghost function ProcessorDo(c: Ctx, s: State, p: nat, step: ProcStep): State
    requires ProcessorEnabled(c, s, p, step)
  {
    var me := s.procs[p];
    s.(procs := s.procs[p := NextProc(c, s, p, step)],
       table := if step == Commit(true) then Claim(s.table, me.id) else s.table,
       chan := if step.Send? then s.chan + [me.data] else s.chan,
       sent := if step.Send? then s.sent + [me.data] else s.sent,
       stranded := s.stranded + StrandedByProc(c, s, p, step))
  }

  // ----- the sender -----

  /** View calls return what the contract holds now; a receipt exists only for a mined transaction. */
  predicate Faithful(s: State, data: SenderData, pc: Pc, r: Reply) {
    var k := KeyOf(data.call);
    r.ok ==>
      match pc
      case ViewRequired => r.num == s.home.Required(k)
      case ViewAffirmedRequired(_) => r.num == s.home.Required(k)
      case ViewSigned(_) => r.num == |s.home.Signers(k)|
      case ViewAffirmed => r.num == |s.home.Signers(k)|
      case ViewSignedByUs(_) => r.flag == (US in s.home.Signers(k))
      case ViewAffirmedByUs => r.flag == (US in s.home.Signers(k))
      case Submit(_) => r.num == |s.txs|
      case Receipt(_, tx) => tx < |s.txs| && s.txs[tx].mined
      case _ => true
  }

  predicate SenderEnabled(s: State, step: SenderStep) {
    match step
    case Receive => s.sender.Receiving? && s.chan != []
    case Await(r) => s.sender.Busy? && Faithful(s, s.sender.data, s.sender.pc, r)
    case Exit => s.sender.Receiving? && s.chan == [] && forall p :: p in s.procs ==> p.Stopped?
  }

  predicate TerminalWrite(pc: Pc) { pc.DeleteRow? || pc.ReleaseRow? || pc.ReleaseAfterError? }

  /** A failed send() may still have reached the mempool: `flag` of a failed reply says so. */
  predicate Broadcast(r: Reply) { r.ok || r.flag }

  function StrandedByAwait(id: nat, pc: Pc, next: Pc, r: Reply): map<nat, ExitReason> {
    if pc.ReleaseAfterError? && !r.ok then map[id := ReleaseFailed]
    else if next.Finished? && !TerminalWrite(pc) then map[id := ForeignOff]
    else map[]
  }

  function TxsAfter(t: Table, txs: seq<HomeTx>, data: SenderData, pc: Pc, r: Reply): seq<HomeTx> {
    if pc.Submit? && Broadcast(r) && data.id < |t| then
      txs + [HomeTx(KeyOf(data.call), data.id, t[data.id].row.stage, false, false)]
    else if pc.Receipt? && r.ok && pc.tx < |txs| then txs[pc.tx := txs[pc.tx].(receipt := true)]
    else txs
  }

  function ExecutedAfter(executed: seq<ForeignCall>, data: SenderData, pc: Pc, r: Reply): seq<ForeignCall> {
    if pc.Execute? && Broadcast(r) then executed + [ForeignCall(data.id, KeyOf(data.call), pc.length)] else executed
  }

  function SenderDo(c: Ctx, s: State, step: SenderStep): State
    requires SenderEnabled(s, step)
  {
    match step
    case Receive => s.(chan := s.chan[1..], sender := Busy(s.chan[0], Connect))
    case Await(r) =>
      var data, pc := s.sender.data, s.sender.pc;
      var next := Next(c.cfg, data, pc, r);
      s.(table := TableAfter(s.table, data.id, pc, r),
         stranded := s.stranded + StrandedByAwait(data.id, pc, next, r),
         txs := TxsAfter(s.table, s.txs, data, pc, r),
         executed := ExecutedAfter(s.executed, data, pc, r),
         handled := if next.Finished? then s.handled + [data] else s.handled,
         sender := if next.Finished? then Receiving else Busy(data, next))
    case Exit => s.(sender := Exited)
  }

  // ----- the outside -----

  predicate OutsideEnabled(s: State, step: OutsideStep) {
    match step
    case Shutdown => true
    case Mine(tx) => tx < |s.txs| && !s.txs[tx].mined
    case OtherSigns(_, v) => v != US
    case Finalize(net, height) => net in s.finalized && s.finalized[net] <= height
  }

  function OutsideDo(s: State, step: OutsideStep): State
    requires OutsideEnabled(s, step)
  {
    match step
    case Shutdown => s.(shutdown := true)
    case Mine(tx) =>
      s.(home := s.home.Accept(s.txs[tx].key, US), txs := s.txs[tx := s.txs[tx].(mined := true)])
    case OtherSigns(k, v) => s.(home := s.home.Accept(k, v))
    case Finalize(net, height) => s.(finalized := s.finalized[net := height])
  }

  // ----- indexers -----

  /** All logs of one bridge in the finalized blocks from..to, in block order. */
  function FinalLogs(w: World, mode: BridgeMode, from: int, to: int): seq<ChainLog>
    decreases 1 + to - from
  {
    if to < from then [] else FinalLogs(w, mode, from, to - 1) + w.LogsAt(mode, to)
  }

  /** Finalized ranges are answered from the finalized chain; a safe block may still be reorged. */
  ghost predicate HonestLogs(c: Ctx, mode: BridgeMode, from: int, to: int, logs: seq<ChainLog>) {
    if ModeFor(c.cfg, NetOf(mode)) == BlockFinality then logs == FinalLogs(c.world, mode, from, to)
    else forall l :: l in logs && l.txHash.Some? ==> c.world.NetOfTx(l.txHash.value) == NetOf(mode)
  }

  function To(c: Ctx, ph: Phase): int
    requires ph.Fetching?
  {
    ChunkEnd(ph.from, c.cfg.maxBlockRange, ph.upper)
  }

  ghost predicate IndexerEnabled(c: Ctx, s: State, mode: BridgeMode, step: IndexStep) {
    mode in s.indexers && NetOf(mode) in s.finalized &&
    var me := s.indexers[mode];
    match step
    case Begin(probes, fin) =>
      me.phase.Resting? && (s.shutdown ==> IndexerOf(mode) !in s.overtime) &&
      (fin.Some? ==> fin.value <= s.finalized[NetOf(mode)]) &&
      (var bound := UpperBound(ModeFor(c.cfg, NetOf(mode)), probes, fin); bound.Some? ==> bound.value <= I64_MAX)
    case Fetch(answer) =>
      me.phase.Fetching? &&
      (answer.Logs? ==> HonestLogs(c, mode, me.phase.from, To(c, me.phase), answer.logs))
    case Store(_) => me.phase.Storing? && me.phase.todo != []
    case Advance => me.phase.Storing? && me.phase.todo == []
    case Halt => me.phase.Resting? && s.shutdown
  }

  /** The chunk failed: progress is kept when an earlier chunk of the cycle landed. */
  function ChunkFailed(me: Indexer): Indexer
    requires me.phase.Fetching? || me.phase.Storing?
  {
    me.(phase := Resting, cursor := if me.phase.through >= me.phase.start then me.phase.through else me.cursor)
  }

  function Clamp(n: int): int { if n < 0 then 0 else n }

  ghost function IndexerNext(c: Ctx, s: State, mode: BridgeMode, step: IndexStep): Indexer
    requires IndexerEnabled(c, s, mode, step)
  {
    var me := s.indexers[mode];
    match step
    case Begin(probes, fin) =>
      var bound := UpperBound(ModeFor(c.cfg, NetOf(mode)), probes, fin);
      if bound.None? then me else
      var upper := Clamp(bound.value);
      var start := StartBlock(me.cursor, upper);
      me.(highest := if upper > me.highest then upper else me.highest,
          phase := if upper <= me.cursor then Resting else Fetching(upper, start, start, SatSub(start, 1)))
    case Fetch(answer) =>
      (match answer
       case RpcError => ChunkFailed(me)
       case Logs(logs) =>
         me.(phase := Storing(me.phase.upper, me.phase.start, me.phase.from, To(c, me.phase), me.phase.through, logs)))
    case Store(o) =>
      var log := me.phase.todo[0];
      if Abandoned(log, o) then ChunkFailed(me).(abandoned := true)
      else me.(phase := me.phase.(todo := me.phase.todo[1..]),
               failed := if Eligible(log) && o.InsertFails? then me.failed + {LogKey(log)} else me.failed)
    case Advance =>
      var ph := me.phase;
      var last := ph.to == U64_MAX || ph.to + 1 > ph.upper;
      me.(chunks := me.chunks + [(ph.from, ph.to)],
          bounds := if ph.from == ph.start then me.bounds + [ph.upper] else me.bounds,
          cursor := if last then ph.to else me.cursor,
          phase := if last then Resting else Fetching(ph.upper, ph.start, ph.to + 1, ph.to))
    case Halt => me.(phase := Ended)
  }

  ghost function IndexerDo(c: Ctx, s: State, mode: BridgeMode, step: IndexStep): State
    requires IndexerEnabled(c, s, mode, step)
  {
    s.(indexers := s.indexers[mode := IndexerNext(c, s, mode, step)],
       overtime := if step.Begin? && s.shutdown then s.overtime + {IndexerOf(mode)} else s.overtime,
       table := if step.Store? then
                  StoreOne(s.table, mode, ModeFor(c.cfg, NetOf(mode)), s.indexers[mode].phase.todo[0], step.outcome)
                else s.table)
  }

  // ----- the FCR checker -----

  /** A provider either has no answer or reports the finalized hash, in some letter case. */
  ghost predicate HonestHashes(c: Ctx, net: Net, number: int, answers: seq<HashAnswer>) {
    forall h :: HashOf(h) in answers ==> SameHash(h, c.world.HashAt(net, number))
  }

  /** A bulk write waits for the row locks of uncommitted claims. */
  ghost predicate Unlocked(s: State, net: Net, block: PendingBlock) {
    forall id :: id in LockedIds(s.procs) && id < |s.table| ==> !Affected(s.table[id], net, block)
  }

  /** The chains the checker goes through in each pass; with none it exits at once. */
  function FcrNets(cfg: Config): seq<Net> {
    (if cfg.ethMode == Fcr then [Eth] else []) + (if cfg.gcMode == Fcr then [Gc] else [])
  }

  /** Each fcr chain once, and no other. */
  lemma FcrNetsMeaning(cfg: Config, net: Net)
    ensures net in FcrNets(cfg) <==> (if net == Eth then cfg.ethMode else cfg.gcMode) == Fcr
    ensures forall i, j :: 0 <= i < j < |FcrNets(cfg)| ==> FcrNets(cfg)[i] != FcrNets(cfg)[j]
  {
  }

  ghost predicate CheckerEnabled(c: Ctx, s: State, step: CheckStep) {
    match step
    case NextPass =>
      s.checker.CheckIdle? && s.later == [] && FcrNets(c.cfg) != [] && (s.shutdown ==> CheckerLoop !in s.overtime)
    case SkipChain => s.checker.CheckIdle? && s.later != []
    case Start(net, fin, listing) =>
      s.checker.CheckIdle? && s.later != [] && s.later[0] == net &&
      net in s.finalized && fin <= s.finalized[net] && IsListing(s.table, net, fin, listing)
    case Lookup(answers) =>
      s.checker.Listed? && s.checker.todo != [] &&
      HonestHashes(c, s.checker.net, s.checker.todo[0].number, answers)
    case Write(_) =>
      s.checker.Decided? && s.checker.todo != [] && Unlocked(s, s.checker.net, s.checker.todo[0])
    case Quit => s.checker.CheckIdle? && s.later == [] && (s.shutdown || FcrNets(c.cfg) == [])
  }

  function NextBlock(net: Net, finalized: int, todo: seq<PendingBlock>): Checker {
    if todo == [] then CheckIdle else Listed(net, finalized, todo)
  }

  ghost function CheckerNext(c: Ctx, s: State, step: CheckStep): Checker
    requires CheckerEnabled(c, s, step)
  {
    var k := s.checker;
    match step
    case NextPass => CheckIdle
    case SkipChain => CheckIdle
    case Start(net, fin, listing) => NextBlock(net, fin, listing)
    case Lookup(answers) => Decided(k.net, k.finalized, k.todo, VerdictFor(CanonicalHash(answers), k.todo[0]))
    case Write(ok) =>
      if ok || k.verdict.Unavailable? then NextBlock(k.net, k.finalized, k.todo[1..]) else CheckIdle
    case Quit => CheckStopped
  }

  ghost function CheckerDo(c: Ctx, s: State, step: CheckStep): State
    requires CheckerEnabled(c, s, step)
  {
    var k := s.checker;
    s.(checker := CheckerNext(c, s, step),
       later := if step.NextPass? then FcrNets(c.cfg) else if step.SkipChain? || step.Start? then s.later[1..] else s.later,
       overtime := if step.NextPass? && s.shutdown then s.overtime + {CheckerLoop} else s.overtime,
       table := if step == Write(true) then TableWith(s.table, k.net, k.todo[0], k.verdict) else s.table,
       audit := if step == Write(true) then s.audit + AuditWith(s.table, k.net, k.todo[0], k.verdict, k.finalized)
                else s.audit)
  }

  // ----- the whole system -----

  ghost predicate Enabled(c: Ctx, s: State, a: Action) {
    match a
    case Processor(p, step) => ProcessorEnabled(c, s, p, step)
    case Sender(step) => SenderEnabled(s, step)
    case Outside(step) => OutsideEnabled(s, step)
    case Index(mode, step) => IndexerEnabled(c, s, mode, step)
    case Check(step) => CheckerEnabled(c, s, step)
  }

  ghost function Do(c: Ctx, s: State, a: Action): State
    requires Enabled(c, s, a)
  {
    match a
    case Processor(p, step) => ProcessorDo(c, s, p, step)
    case Sender(step) => SenderDo(c, s, step)
    case Outside(step) => OutsideDo(s, step)
    case Index(mode, step) => IndexerDo(c, s, mode, step)
    case Check(step) => CheckerDo(c, s, step)
  }

  const MODES: set<BridgeMode> := {AmbEth, AmbGc, XdaiEth, XdaiGc}

  /**
   A finalized block's logs carry its number and hash, and (transaction, log index) names one log of one chain. The
   chains guarantee all of it but the last: that no transaction is on both chains is an assumption.
   */
  ghost predicate WellFormed(w: World) {
    forall m, n, i :: m in MODES && 0 <= i < |w.LogsAt(m, n)| ==> WellPlaced(w, m, n, i)
  }

  predicate WellPlaced(w: World, m: BridgeMode, n: int, i: nat)
    requires i < |w.LogsAt(m, n)|
  {
    var l := w.LogsAt(m, n)[i];
    l.blockNumber == Some(n) && l.blockHash == Some(w.HashAt(NetOf(m), n)) &&
    l.txHash.Some? && w.NetOfTx(l.txHash.value) == NetOf(m) &&
    (l.logIndex.Some? ==> w.PlaceOf(l.txHash.value, l.logIndex.value) == (m, n, i))
  }

  ghost predicate Genesis(c: Ctx, s: State) {
    && WellFormed(c.world) && c.cfg.maxRetryCount >= 1 && c.cfg.maxBlockRange >= 1
    && s.table == [] && s.audit == [] && s.procs == [AtTop, AtTop] && s.chan == [] && s.sender == Receiving
    && !s.shutdown && s.stranded == map[] && s.sent == [] && s.handled == [] && s.txs == [] && s.executed == []
    && s.indexers == (map m | m in MODES :: Indexer(0, Resting, [], 0, [], {}, false))
    && s.checker == CheckIdle && s.later == FcrNets(c.cfg) && s.overtime == {} && s.finalized.Keys == {Eth, Gc}
  }

  /** The states a run goes through and the actions between them. */
  datatype Run = Run(states: seq<State>, actions: seq<Action>)

  /** The n-th action is enabled where it is taken and leads to the next state. */
  ghost predicate StepAt(c: Ctx, run: Run, n: nat) {
    n < |run.actions| && n + 1 < |run.states| &&
    Enabled(c, run.states[n], run.actions[n]) && run.states[n + 1] == Do(c, run.states[n], run.actions[n])
  }

  ghost predicate Runs(c: Ctx, run: Run) {
    |run.states| == |run.actions| + 1 && forall n :: 0 <= n < |run.actions| ==> StepAt(c, run, n)
  }

  /** A run of the process from its start. */
  ghost predicate FromStart(c: Ctx, run: Run) { Runs(c, run) && Genesis(c, run.states[0]) }

  /** The state a run ends in. */
  function End(run: Run): State
    requires run.states != []
  {
    run.states[|run.states| - 1]
  }

  ghost function Extend(c: Ctx, run: Run, a: Action): Run
    requires run.states != [] && Enabled(c, End(run), a)
  {
    Run(run.states + [Do(c, End(run), a)], run.actions + [a])
  }

  /** A run goes on with any enabled action. */
  lemma ExtendRuns(c: Ctx, run: Run, a: Action)
    requires Runs(c, run) && Enabled(c, End(run), a)
    ensures Runs(c, Extend(c, run, a)) && End(Extend(c, run, a)) == Do(c, End(run), a)
    ensures FromStart(c, run) ==> FromStart(c, Extend(c, run, a))
  {
    var after := Extend(c, run, a);
    forall n | 0 <= n < |after.actions| ensures StepAt(c, after, n) {
      if n < |run.actions| { assert StepAt(c, run, n); }
    }
  }

  /** `more` goes on from `run` by actions of one task alone. */
  ghost predicate GoesOn(c: Ctx, run: Run, more: Run, own: Action -> bool) {
    && Runs(c, run) && Runs(c, more)
    && run.states <= more.states && run.actions <= more.actions
    && forall i :: |run.actions| <= i < |more.actions| ==> own(more.actions[i])
  }

  lemma TakeStep(c: Ctx, run: Run, now: Run, own: Action -> bool, a: Action) returns (more: Run)
    requires GoesOn(c, run, now, own) && own(a) && Enabled(c, End(now), a)
    ensures GoesOn(c, run, more, own) && End(more) == Do(c, End(now), a)
  {
    ExtendRuns(c, now, a);
    more := Extend(c, now, a);
  }

  /** What holds at the start and is kept by every step of a run holds in all its states. */
  lemma {:induction false} Invariant(c: Ctx, run: Run, holds: State -> bool, n: nat)
    requires Runs(c, run) && n <= |run.actions| && holds(run.states[0])
    requires forall i :: 0 <= i < |run.actions| && holds(run.states[i]) ==> holds(run.states[i + 1])
    ensures holds(run.states[n])
  {
    if n == 0 {
    } else {
      Invariant(c, run, holds, n - 1);
    }
  }

  /** Outside commits, decoding and sending, a processor's step changes the processor and nothing else. */
  lemma AloneAt(c: Ctx, s: State, p: nat, a: Action)
    requires a.Processor? && a.p == p && Enabled(c, s, a)
    requires a.pstep != Commit(true) && !a.pstep.Decode? && !a.pstep.Send? && !a.pstep.SendFails?
    ensures Do(c, s, a) == s.(procs := s.procs[p := NextProc(c, s, p, a.pstep)])
  {
  }
}
