/**
 `msg_processor.rs` in its own shape: the claim transaction, the routing of a claimed row, and the loop of
 `start`. `s` is the state of the whole system as this task leaves it and `trace` the steps that led there, so
 each method is proved to perform steps of `Pipeline`, and what is proved of all its runs holds of this program.
 Steps of the other tasks fall between the calls; only the shutdown signal may arrive inside `Start`.
 */
module ProcessorProgram {
  import opened Prelude
  import opened XdaiCodec
  import opened EventLogs
  import opened Relay
  import opened Pipeline

  datatype ReadError = ReadError

  /** What became of a claimed row: it has been dealt with, or its message waits for room in the channel. */
  datatype Handled = Done | WaitsForRoom(data: SenderData)

  /** How a turn of the loop ends. */
  datatype TurnEnd = NextTurn | NoRoom | ShutDown

  lemma LocksUnchanged(procs: seq<Proc>, p: nat, next: Proc)
    requires p < |procs| && !HoldsLock(procs[p]) && !HoldsLock(next)
    ensures LockedIds(procs[p := next]) == LockedIds(procs)
  {
    var after := procs[p := next];
    forall id ensures id in LockedIds(after) <==> id in LockedIds(procs) {
      if id in LockedIds(procs) { var i :| 0 <= i < |procs| && HoldsLock(procs[i]) && procs[i].id == id; assert after[i] == procs[i]; }
      if id in LockedIds(after) { var i :| 0 <= i < |after| && HoldsLock(after[i]) && after[i].id == id; assert after[i] == procs[i]; }
    }
  }

  lemma DecodeDoes(c: Ctx, s: State, p: nat, keyOk: bool, routed: Result<SenderData, ExitReason>)
    requires ProcessorEnabled(c, s, p, Decode(keyOk)) && routed == Decoded(c.cfg, s.procs[p].id, s.procs[p].row, keyOk)
    ensures var next := if routed.Ok? then Ready(routed.value) else AtTop;
            var stranded := if routed.Ok? then s.stranded else s.stranded[s.procs[p].id := routed.error];
            ProcessorDo(c, s, p, Decode(keyOk)) == s.(procs := s.procs[p := next], stranded := stranded)
  {
    var stranded := ProcessorDo(c, s, p, Decode(keyOk)).stranded;
    assert stranded == if routed.Ok? then s.stranded else s.stranded[s.procs[p].id := routed.error];
  }

  /** The event is of its mode's kind, and there is a key where the processor signs. */
  predicate Sendable(row: Row, keyOk: bool) {
    Decodable(row) && (keyOk || (row.mode != AmbGc && row.mode != XdaiGc))
  }

  /** Only an unknown mode is not an error for the caller. */
  function Routing(d: Result<SenderData, ExitReason>): Result<Option<SenderData>, ExitReason> {
    match d
    case Ok(data) => Ok(Some(data))
    case Err(UnknownMode) => Ok(None)
    case Err(e) => Err(e)
  }

  /** What routing a row comes to: its own event, to be sent; nothing for an unknown mode; or the error. */
  ghost predicate Routes(cfg: Config, id: nat, row: Row, keyOk: bool, r: Result<Option<SenderData>, ExitReason>) {
    match r
    case Ok(Some(data)) => Sendable(row, keyOk) && data.id == id && data.stage == row.stage && CarriesEvent(cfg, row, data.call)
    case Ok(None) => row.mode == Unknown && !row.log.Garbled?
    case Err(e) => e == DecodeError && !Sendable(row, keyOk) && (row.mode != Unknown || row.log.Garbled?)
  }

  lemma RoutingMeaning(cfg: Config, id: nat, row: Row, keyOk: bool)
    requires !keyOk ==> row.mode == AmbGc || row.mode == XdaiGc
    ensures Routes(cfg, id, row, keyOk, Routing(Decoded(cfg, id, row, keyOk)))
  {
    var call := BuildCall(cfg, row);
    BuildCallCarries(cfg, row, if call.Some? then call.value else AmbEthCall([]));
  }

  lemma CommitDoes(c: Ctx, s: State, p: nat, ok: bool)
    requires ProcessorEnabled(c, s, p, Commit(ok))
    ensures var me := s.procs[p];
            ProcessorDo(c, s, p, Commit(ok))
              == if ok then s.(procs := s.procs[p := Holding(me.id, me.row)], table := Claim(s.table, me.id))
                 else s.(procs := s.procs[p := Waiting])
  {
  }

  /** A turn of processor `p` began with action `h`: it polled the signal, and without one looked for a row. */
  ghost predicate TurnAt(run: Run, p: nat, h: nat) {
    && h < |run.actions| && h < |run.states| && run.actions[h] == Processor(p, Poll)
    && (!run.states[h].shutdown ==>
          h + 1 < |run.actions| && run.actions[h + 1].Processor? && run.actions[h + 1].p == p &&
          (run.actions[h + 1].pstep.Lock? || run.actions[h + 1].pstep.ReadNothing?))
  }

  /** Turns began at these actions, one after the other, none before `from`. */
  ghost predicate TurnsAt(run: Run, p: nat, from: nat, heads: seq<nat>) {
    && (forall k :: 0 <= k < |heads| ==> from <= heads[k] && TurnAt(run, p, heads[k]))
    && (forall j, k :: 0 <= j < k < |heads| ==> heads[j] < heads[k])
  }

  lemma TurnsStay(run: Run, more: Run, p: nat, from: nat, heads: seq<nat>)
    requires TurnsAt(run, p, from, heads) && run.actions <= more.actions && run.states <= more.states
    ensures TurnsAt(more, p, from, heads)
  {
    forall k | 0 <= k < |heads| ensures TurnAt(more, p, heads[k]) { assert TurnAt(run, p, heads[k]); }
  }

  lemma AnotherTurn(run: Run, more: Run, p: nat, from: nat, heads: seq<nat>)
    requires TurnsAt(run, p, from, heads) && run.actions <= more.actions && run.states <= more.states
    requires from <= |run.actions| && TurnAt(more, p, |run.actions|)
    ensures TurnsAt(more, p, from, heads + [|run.actions|])
  {
    forall k | 0 <= k < |heads| ensures TurnAt(more, p, heads[k]) && heads[k] < |run.actions| {
      assert TurnAt(run, p, heads[k]);
    }
  }

  class MessageProcessor {
    const cfg: Config
    const p: nat
    var table: Table
    var channel: seq<SenderData>
    var shutdown: bool
    ghost const c: Ctx
    ghost var s: State
    ghost var trace: Run

    /** The trace is a run of the system, and the fields show the parts of its state this task works on. */
    ghost predicate Valid()
      reads this
    {
      && Runs(c, trace) && s == End(trace)
      && cfg == c.cfg && p < |s.procs| && table == s.table && channel == s.chan && shutdown == s.shutdown
    }

    constructor (cfg: Config, p: nat, table: Table, channel: seq<SenderData>, shutdown: bool, ghost c: Ctx, ghost s0: State)
      requires cfg == c.cfg && p < |s0.procs| && table == s0.table && channel == s0.chan && shutdown == s0.shutdown
      ensures Valid() && s == s0 && trace == Run([s0], []) && this.p == p && this.c == c
    {
      this.cfg, this.p, this.table, this.channel, this.shutdown := cfg, p, table, channel, shutdown;
      this.c, this.s, this.trace := c, s0, Run([s0], []);
    }

    /** Where this task stands. */
    ghost function Me(): Proc
      reads this
      requires p < |s.procs|
    {
      s.procs[p]
    }

    /** The trace only got steps of this task and shutdown signals. */
    twostate predicate Extended()
      reads this
    {
      old(trace.states) <= trace.states && old(trace.actions) <= trace.actions &&
      forall a :: a in trace.actions[|old(trace.actions)|..] ==> a == Outside(Shutdown) || (a.Processor? && a.p == p)
    }

    /** One step of this task. */
    ghost method Take(step: ProcStep)
      requires Runs(c, trace) && s == End(trace) && ProcessorEnabled(c, s, p, step)
      modifies this`s, this`trace
      ensures Runs(c, trace) && s == End(trace) && Extended()
      ensures s == ProcessorDo(c, old(s), p, step) && trace.actions == old(trace.actions) + [Processor(p, step)]
      ensures step != Commit(true) && !step.Decode? && !step.Send? && !step.SendFails? ==>
                s == old(s).(procs := old(s.procs)[p := NextProc(c, old(s), p, step)])
    {
      ExtendRuns(c, trace, Processor(p, step));
      if step != Commit(true) && !step.Decode? && !step.Send? && !step.SendFails? { AloneAt(c, s, p, Processor(p, step)); }
      s, trace := ProcessorDo(c, s, p, step), Extend(c, trace, Processor(p, step));
    }

    /** `read_from_db`: one row is claimed, or the transaction leaves no trace in the table. */
    method ReadFromDb(locked: set<nat>, statementOk: nat -> bool) returns (r: Result<Option<(nat, Row)>, ReadError>)
      requires Valid() && Me().Reading? && locked == LockedIds(s.procs)
      modifies this`table, this`s, this`trace
      ensures Valid() && Extended()
      ensures ReadOutcome(old(s), old(table), locked, r)
      ensures (forall n :: statementOk(n)) ==> r.Ok?
      ensures Looked(old(trace))
    {
      if !statementOk(0) || !statementOk(1) {
        Take(ReadNothing);
        return Err(ReadError);
      }
      var selected := ClaimQuery(table, |table|, Ceiling(cfg), locked);
      if selected.None? {
        forall k | 0 <= k < |table| && MayClaim(cfg, table[k]) ensures k in locked { ClaimMeaning(cfg, table, locked, k); }
        Take(ReadNothing);
        return if statementOk(3) then Ok(None) else Err(ReadError);
      }
      ClaimMeaning(cfg, table, locked, selected.value);
      r := ClaimRow(selected.value, table[selected.value].row, statementOk);
    }

    /** The first step since `before` was the claim query. */
    ghost predicate Looked(before: Run)
      reads this
    {
      && |before.actions| < |trace.actions|
      && var a := trace.actions[|before.actions|];
         a.Processor? && a.p == p && (a.pstep.Lock? || a.pstep.ReadNothing?)
    }

    ghost predicate ReadOutcome(was: State, before: Table, locked: set<nat>, r: Result<Option<(nat, Row)>, ReadError>)
      requires p < |was.procs|
      reads this
    {
      match r
      case Ok(Some((id, row))) =>
        && FirstInLine(cfg, before, locked, id) && row == before[id].row && table == Claim(before, id)
        && s == was.(procs := was.procs[p := Holding(id, row)], table := table)
      case Ok(None) =>
        && (forall k :: 0 <= k < |table| && MayClaim(cfg, table[k]) ==> k in locked)
        && table == before && s == was.(procs := was.procs[p := Waiting])
      case Err(_) => table == before && s == was.(procs := was.procs[p := Waiting])
    }

    /** The rest of the transaction, once the query has returned a row and locked it. */
    method ClaimRow(id: nat, row: Row, statementOk: nat -> bool) returns (r: Result<Option<(nat, Row)>, ReadError>)
      requires Valid() && Me().Reading? && NextToClaim(table, Ceiling(cfg), LockedIds(s.procs), id) && row == table[id].row
      requires FirstInLine(cfg, table, LockedIds(s.procs), id)
      modifies this`table, this`s, this`trace
      ensures Valid() && Extended()
      ensures ReadOutcome(old(s), old(table), old(LockedIds(s.procs)), r)
      ensures r.Ok? <==> statementOk(2) && statementOk(3)
      ensures Looked(old(trace))
    {
      Take(Lock(id));
      Take(Mark(statementOk(2)));
      assert s.procs == old(s.procs)[p := Me()];
      if !statementOk(2) { return Err(ReadError); }
      r := CommitClaim(id, row, statementOk(3));
    }

    /** COMMIT of the claim. */
    method CommitClaim(id: nat, row: Row, ok: bool) returns (r: Result<Option<(nat, Row)>, ReadError>)
      requires Valid() && Me() == Marked(id, row)
      modifies this`table, this`s, this`trace
      ensures Valid() && Extended() && (r == if ok then Ok(Some((id, row))) else Err(ReadError))
      ensures table == if ok then Claim(old(table), id) else old(table)
      ensures s == old(s).(procs := old(s.procs)[p := if ok then Holding(id, row) else Waiting], table := table)
    {
      CommitDoes(c, s, p, ok);
      Take(Commit(ok));
      if !ok { return Err(ReadError); }
      table := Claim(table, id);
      r := Ok(Some((id, row)));
    }

    /** The decoding step, given what it comes to. */
    ghost method TakeDecode(id: nat, row: Row, keyOk: bool, routed: Result<SenderData, ExitReason>)
      requires Runs(c, trace) && s == End(trace) && p < |s.procs|
      requires Me() == Holding(id, row) && (!keyOk ==> SignsInProcessor(row.mode)) && routed == Decoded(c.cfg, id, row, keyOk)
      modifies this`s, this`trace
      ensures Runs(c, trace) && s == End(trace) && Extended()
      ensures s == old(s).(procs := old(s.procs)[p := if routed.Ok? then Ready(routed.value) else AtTop],
                           stranded := if routed.Ok? then old(s.stranded) else old(s.stranded)[id := routed.error])
    {
      DecodeDoes(c, s, p, keyOk, routed);
      Take(Decode(keyOk));
    }

    /** The routing by bridge mode: the message to send, None for an unknown mode, or the error. */
    method Route(id: nat, row: Row, keyOk: bool) returns (r: Result<Option<SenderData>, ExitReason>)
      requires !keyOk ==> SignsInProcessor(row.mode)
      ensures Routes(cfg, id, row, keyOk, r)
      ensures r == Routing(Decoded(cfg, id, row, keyOk))
    {
      RoutingMeaning(cfg, id, row, keyOk);
      if row.log.Garbled? { return Err(DecodeError); }
      match row.mode {
        case AmbEth =>
          if !row.log.AmbAffirmation? { return Err(DecodeError); }
          r := Ok(Some(SenderData(AmbEthCall(row.log.encodedData), id, row.stage)));
        case AmbGc =>
          if !row.log.AmbSignature? || !keyOk { return Err(DecodeError); }
          r := Ok(Some(SenderData(AmbGcCall(row.log.encodedData), id, row.stage)));
        case XdaiEth =>
          if !row.log.XdaiAffirmation? { return Err(DecodeError); }
          r := Ok(Some(SenderData(XdaiEthCall(row.log.recipient, row.log.value, row.log.nonce), id, row.stage)));
        case XdaiGc =>
          if !row.log.XdaiSignature? { return Err(DecodeError); }
          var text := CreateXdaiMessage(cfg.ethXdaiBridge, row.log.recipient, row.log.value, row.log.nonce, row.log.token);
          if text.Err? || !keyOk { return Err(DecodeError); }
          BuiltXdaiMessageParses(cfg, row);
          var bytes := HexDecode(text.value[2..]);
          r := Ok(Some(SenderData(XdaiGcCall(bytes.value), id, row.stage)));
        case Unknown =>
          r := Ok(None);
      }
    }

    /** `process_message_or_skip`, up to the point where send() has to wait for room. */
    method ProcessMessageOrSkip(id: nat, row: Row, keyOk: bool, receiverGone: bool) returns (r: Result<Handled, ExitReason>)
      requires Valid() && Me() == Holding(id, row) && (!keyOk ==> SignsInProcessor(row.mode))
      requires receiverGone == s.sender.Exited?
      modifies this`channel, this`s, this`trace
      ensures Valid() && Extended()
      ensures s == old(s).(procs := s.procs, chan := channel, sent := s.sent, stranded := s.stranded)
      ensures s.procs == old(s.procs)[p := if r.Ok? && r.value.WaitsForRoom? then Ready(r.value.data) else AtTop]
      ensures if Sendable(row, keyOk) then
                exists call :: CarriesEvent(cfg, row, call) && Sending(old(s), SenderData(call, id, row.stage), receiverGone, r)
              else if row.mode == Unknown && !row.log.Garbled? then
                r == Ok(Done) && channel == old(channel) && s.stranded == old(s.stranded)[id := UnknownMode]
              else
                r == Err(DecodeError) && channel == old(channel) && s.stranded == old(s.stranded)[id := DecodeError]
    {
      var routed := Route(id, row, keyOk);
      ghost var decoded := Decoded(cfg, id, row, keyOk);
      TakeDecode(id, row, keyOk, decoded);
      match routed {
        case Err(e) => r := Err(e);
        case Ok(None) => r := Ok(Done);
        case Ok(Some(data)) =>
          if !receiverGone && |channel| >= CAPACITY {
            r := Ok(WaitsForRoom(data));
          } else {
            r := SendToChannel(data, receiverGone);
          }
      }
    }

    /** What sending comes to: an error without a receiver, a wait without room, else the message at the end of the channel. */
    ghost predicate Sending(was: State, data: SenderData, receiverGone: bool, r: Result<Handled, ExitReason>)
      reads this
    {
      if receiverGone then
        r == Err(ChannelClosed) && channel == was.chan && s.stranded == was.stranded[data.id := ChannelClosed]
      else
        s.stranded == was.stranded &&
        if |was.chan| >= CAPACITY then r == Ok(WaitsForRoom(data)) && channel == was.chan
        else r == Ok(Done) && channel == was.chan + [data]
    }

    /** send(), once there is room or no receiver; a waiting message resumes here. */
    method SendToChannel(data: SenderData, receiverGone: bool) returns (r: Result<Handled, ExitReason>)
      requires Valid() && Me() == Ready(data)
      requires receiverGone == s.sender.Exited? && (receiverGone || |channel| < CAPACITY)
      modifies this`channel, this`s, this`trace
      ensures Valid() && Extended() && Sending(old(s), data, receiverGone, r)
      ensures s == old(s).(procs := old(s.procs)[p := AtTop], chan := channel, sent := s.sent, stranded := s.stranded)
    {
      if receiverGone {
        Take(SendFails);
        return Err(ChannelClosed);
      }
      Take(Send);
      channel := channel + [data];
      r := Ok(Done);
    }

    /** The shutdown signal may arrive before any check of it. */
    method Observe(signal: bool)
      requires Valid()
      modifies this`shutdown, this`s, this`trace
      ensures Valid() && Extended() && shutdown == (old(shutdown) || signal) && s == old(s).(shutdown := shutdown)
    {
      if signal {
        ExtendRuns(c, trace, Outside(Shutdown));
        s, trace := s.(shutdown := true), Extend(c, trace, Outside(Shutdown));
        shutdown := true;
      }
    }

    /**
     `start`, for as many turns of its loop as `turns`: it ends early when the signal is seen, and pauses when a
     message has to wait for room in the channel. `heads` tells where in the trace the turns began.
     */
    method Start(turns: nat, locked: set<nat>, signalBefore: nat -> bool, signalWaiting: nat -> bool,
                 statementOk: (nat, nat) -> bool, keyOk: nat -> bool, receiverGone: bool)
      returns (end: TurnEnd, ghost heads: seq<nat>)
      requires Valid() && Me().AtTop? && locked == LockedIds(s.procs) && receiverGone == s.sender.Exited?
      modifies this`table, this`channel, this`shutdown, this`s, this`trace
      ensures Valid() && Extended() && old(channel) <= channel
      ensures match end
              case NextTurn => Me().AtTop? && |heads| == turns && (turns > 0 ==> !shutdown)
              case NoRoom => Me().Ready? && |channel| >= CAPACITY && 0 < |heads| <= turns
              case ShutDown => Me().Stopped? && shutdown && 0 < |heads| <= turns
      ensures TurnsAt(trace, p, |old(trace.actions)|, heads)
      ensures turns > 0 && (old(shutdown) || signalBefore(0)) ==> end == ShutDown && |heads| == 1
      ensures forall k :: 0 <= k < turns && signalBefore(k) ==> |heads| <= k + 1 && !end.NextTurn?
    {
      heads := [];
      end := NextTurn;
      for i := 0 to turns
        invariant Valid() && Extended() && old(channel) <= channel && Me().AtTop? && end.NextTurn?
        invariant locked == LockedIds(s.procs) && receiverGone == s.sender.Exited?
        invariant |heads| == i && (i > 0 ==> !shutdown && !old(shutdown)) && (i == 0 ==> shutdown == old(shutdown))
        invariant forall k :: 0 <= k < i ==> !signalBefore(k)
        invariant TurnsAt(trace, p, |old(trace.actions)|, heads)
      {
        end, heads := NextTurnOf(|old(trace.actions)|, heads, locked, signalBefore(i), signalWaiting(i),
                                 (n: nat) => statementOk(i, n), keyOk(i), receiverGone);
        if !end.NextTurn? { return; }
      }
    }

    /** The signal as the turn finds it, and the turn. */
    method NextTurnOf(ghost from: nat, ghost heads: seq<nat>, locked: set<nat>, signalBefore: bool, signalWaiting: bool,
                      statementOk: nat -> bool, keyOk: bool, receiverGone: bool)
      returns (end: TurnEnd, ghost more: seq<nat>)
      requires Valid() && Me().AtTop? && locked == LockedIds(s.procs) && receiverGone == s.sender.Exited?
      requires from <= |trace.actions| && TurnsAt(trace, p, from, heads)
      modifies this`table, this`channel, this`shutdown, this`s, this`trace
      ensures Valid() && Extended() && old(channel) <= channel
      ensures TurnsAt(trace, p, from, more) && |more| == |heads| + 1
      ensures old(shutdown) || signalBefore ==> end == ShutDown
      ensures match end
              case NextTurn => Me().AtTop? && !shutdown && locked == LockedIds(s.procs) && receiverGone == s.sender.Exited?
              case NoRoom => Me().Ready? && |channel| >= CAPACITY
              case ShutDown => Me().Stopped? && shutdown
    {
      Observe(signalBefore);
      ghost var head := trace;
      TurnsStay(old(trace), head, p, from, heads);
      end := Turn(locked, signalWaiting, statementOk, keyOk, receiverGone);
      AnotherTurn(head, trace, p, from, heads);
      more := heads + [|head.actions|];
    }

    /** One turn of the loop. A raised signal stops it; without one it looks for a row. */
    method Turn(locked: set<nat>, signal: bool, statementOk: nat -> bool, keyOk: bool, receiverGone: bool) returns (end: TurnEnd)
      requires Valid() && Me().AtTop? && locked == LockedIds(s.procs) && receiverGone == s.sender.Exited?
      modifies this`table, this`channel, this`shutdown, this`s, this`trace
      ensures Valid() && Extended() && old(channel) <= channel && TurnAt(trace, p, |old(trace.actions)|)
      ensures old(shutdown) ==> end == ShutDown && trace.actions == old(trace.actions) + [Processor(p, Poll)]
      ensures match end
              case NextTurn => Me().AtTop? && !shutdown
              case NoRoom => Me().Ready? && |channel| >= CAPACITY
              case ShutDown => Me().Stopped? && shutdown
      ensures end.NextTurn? ==> locked == LockedIds(s.procs) && receiverGone == s.sender.Exited?
    {
      if shutdown {
        Take(Poll);
        return ShutDown;
      }
      var read := Look(locked, statementOk);
      if read.Ok? && read.value.Some? {
        var (id, row) := read.value.value;
        end := Handle(locked, id, row, keyOk, receiverGone);
      } else {
        end := Pause(locked, signal);
      }
    }

    /** No signal: look for a row. */
    method Look(locked: set<nat>, statementOk: nat -> bool) returns (r: Result<Option<(nat, Row)>, ReadError>)
      requires Valid() && Me().AtTop? && !shutdown && locked == LockedIds(s.procs)
      modifies this`table, this`s, this`trace
      ensures Valid() && Extended() && TurnAt(trace, p, |old(trace.actions)|)
      ensures locked == LockedIds(s.procs) && s.sender == old(s.sender)
      ensures Me() == if r.Ok? && r.value.Some? then Holding(r.value.value.0, r.value.value.1) else Waiting
    {
      Take(Poll);
      LocksUnchanged(old(s.procs), p, Reading);
      ghost var before := s.procs;
      r := ReadFromDb(locked, statementOk);
      LocksUnchanged(before, p, Me());
    }

    /** Hand on the claimed row. */
    method Handle(ghost locked: set<nat>, id: nat, row: Row, keyOk: bool, receiverGone: bool) returns (end: TurnEnd)
      requires Valid() && Me() == Holding(id, row) && locked == LockedIds(s.procs) && receiverGone == s.sender.Exited?
      modifies this`channel, this`s, this`trace
      ensures Valid() && Extended() && old(channel) <= channel && !end.ShutDown?
      ensures end.NextTurn? ==> Me().AtTop? && locked == LockedIds(s.procs) && receiverGone == s.sender.Exited?
      ensures end.NoRoom? ==> Me().Ready? && |channel| >= CAPACITY
    {
      var handled := ProcessMessageOrSkip(id, row, keyOk || !SignsInProcessor(row.mode), receiverGone);
      LocksUnchanged(old(s.procs), p, Me());
      end := if handled.Ok? && handled.value.WaitsForRoom? then NoRoom else NextTurn;
    }

    /** Wait for the timer or the signal. */
    method Pause(ghost locked: set<nat>, signal: bool) returns (end: TurnEnd)
      requires Valid() && Me().Waiting? && locked == LockedIds(s.procs) && !shutdown
      modifies this`shutdown, this`s, this`trace
      ensures Valid() && Extended()
      ensures if signal then end == ShutDown && Me().Stopped? && shutdown else end == NextTurn && Me().AtTop? && !shutdown
      ensures locked == LockedIds(s.procs) && s.sender == old(s.sender)
    {
      Observe(signal);
      Take(Wake(signal));
      LocksUnchanged(old(s.procs), p, Me());
      end := if signal then ShutDown else NextTurn;
    }
  }
}
