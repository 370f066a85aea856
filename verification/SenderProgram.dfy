/**
 `on_chain_sender.rs` in its own shape: `process_message` with its early returns, and the receive loop of
 `start`, proved to perform exactly the steps of the program in `Relay` that the whole-system proofs use.
 */
module SenderProgram {
  import opened Prelude
  import opened XdaiCodec
  import opened EventLogs
  import opened Relay

  datatype SenderError = SenderError

  /** Follow the program from `pc` to its end; the k-th await overall gets the k-th reply. */
  function Play(cfg: Config, data: SenderData, pc: Pc, t: Table, issued: seq<Pc>, replies: nat -> Reply): (Table, seq<Pc>)
    decreases Rank(pc)
  {
    if pc.Finished? then (t, issued) else
      var r := replies(|issued|);
      RankDecreases(cfg, data, pc, r);
      Play(cfg, data, Next(cfg, data, pc, r), TableAfter(t, data.id, pc, r), issued + [pc], replies)
  }

  /** Handle the messages of the inbox one after the other. */
  function PlayAll(cfg: Config, inbox: seq<SenderData>, t: Table, issued: seq<Pc>, replies: nat -> Reply): (Table, seq<Pc>) {
    if inbox == [] then (t, issued) else
      var n := |inbox| - 1;
      var before := PlayAll(cfg, inbox[..n], t, issued, replies);
      Play(cfg, inbox[n], Connect, before.0, before.1, replies)
  }

  class OnChainSender {
    const cfg: Config
    const replies: nat -> Reply
    var table: Table
    var issued: seq<Pc>

    constructor (cfg: Config, replies: nat -> Reply, table: Table)
      ensures this.cfg == cfg && this.replies == replies && this.table == table && issued == []
    {
      this.cfg, this.replies, this.table, this.issued := cfg, replies, table, [];
    }

    /** What is still to happen to this message when the program stands at `pc`. */
    ghost function Rest(data: SenderData, pc: Pc): (Table, seq<Pc>)
      reads this
    {
      Play(cfg, data, pc, table, issued, replies)
    }

    /** What is still to happen once the await at `pc` has been answered with `r`. */
    ghost function RestAfter(data: SenderData, pc: Pc, r: Reply): (Table, seq<Pc>)
      reads this
    {
      Play(cfg, data, Next(cfg, data, pc, r), TableAfter(table, data.id, pc, r), issued, replies)
    }

    /** One await. */
    method Ask(ghost data: SenderData, pc: Pc) returns (r: Reply)
      requires !pc.Finished?
      modifies this`issued
      ensures issued == old(issued) + [pc] && r == replies(|old(issued)|)
      ensures old(Rest(data, pc)) == RestAfter(data, pc, r)
    {
      r := replies(|issued|);
      issued := issued + [pc];
    }

    /** `delete_event_log`, as the last statement of a branch. */
    method DeleteEventLog(data: SenderData) returns (r: Result<(), SenderError>)
      modifies this`table, this`issued
      ensures old(Rest(data, DeleteRow)) == if r.Ok? then (table, issued) else Rest(data, ReleaseAfterError)
    {
      var done := Ask(data, DeleteRow);
      if !done.ok { return Err(SenderError); }
      table := Delete(table, data.id);
      r := Ok(());
    }

    /** `increment_retry_count`, as the last statement of a branch. */
    method IncrementRetryCount(data: SenderData) returns (r: Result<(), SenderError>)
      modifies this`table, this`issued
      ensures old(Rest(data, ReleaseRow)) == if r.Ok? then (table, issued) else Rest(data, ReleaseAfterError)
    {
      var done := Ask(data, ReleaseRow);
      if !done.ok { return Err(SenderError); }
      table := Release(table, data.id);
      r := Ok(());
    }

    /** The AmbEth and XdaiEth branches. */
    method ProcessAffirmation(data: SenderData) returns (r: Result<(), SenderError>)
      requires Affirms(data.call)
      modifies this`table, this`issued
      ensures old(Rest(data, Connect)) == if r.Ok? then (table, issued) else Rest(data, ReleaseAfterError)
    {
      var connected := Ask(data, Connect);
      if !connected.ok { return Err(SenderError); }
      var already := Ask(data, ViewAffirmedByUs);
      if !already.ok { return Err(SenderError); }
      if already.flag { r := DeleteEventLog(data); return; }
      r := AffirmUnlessComplete(data);
    }

    /** The second pre-flight check, then executeAffirmation. */
    method AffirmUnlessComplete(data: SenderData) returns (r: Result<(), SenderError>)
      requires Affirms(data.call)
      modifies this`table, this`issued
      ensures old(Rest(data, ViewAffirmed)) == if r.Ok? then (table, issued) else Rest(data, ReleaseAfterError)
    {
      var signed := Ask(data, ViewAffirmed);
      if !signed.ok { return Err(SenderError); }
      var required := Ask(data, ViewAffirmedRequired(signed.num));
      if !required.ok { return Err(SenderError); }
      if signed.num >= required.num { r := DeleteEventLog(data); return; }
      var confirmed := SendAndConfirm(data, Submit(required.num));
      if confirmed { r := DeleteEventLog(data); } else { r := IncrementRetryCount(data); }
    }

    /** Where a confirmed transaction leads. */
    function AfterReceipt(data: SenderData, send: Pc): Pc {
      if send.Execute? || Affirms(data.call) || !ForeignOn(cfg, data.call) then DeleteRow
      else if send.Submit? then StageUpdate(send.required)
      else Finished
    }

    /** send() and get_receipt() of one transaction, as one result. */
    method SendAndConfirm(data: SenderData, send: Pc) returns (confirmed: bool)
      requires send.Submit? || send.Execute?
      modifies this`issued
      ensures old(Rest(data, send)) == Rest(data, if confirmed then AfterReceipt(data, send) else ReleaseRow)
    {
      var sent := Ask(data, send);
      if !sent.ok { return false; }
      var receipt := Ask(data, if send.Submit? then Receipt(send.required, sent.num) else ExecuteReceipt);
      confirmed := receipt.ok;
    }

    /** The AmbGc and XdaiGc branches. */
    method ProcessSignature(data: SenderData) returns (r: Result<(), SenderError>)
      requires !Affirms(data.call)
      modifies this`table, this`issued
      ensures old(Rest(data, Connect)) == if r.Ok? then (table, issued) else Rest(data, ReleaseAfterError)
    {
      var connected := Ask(data, Connect);
      if !connected.ok { return Err(SenderError); }
      var required := Ask(data, ViewRequired);
      if !required.ok { return Err(SenderError); }
      var next := Some(());
      if data.stage != Foreign {
        r, next := SubmitOnHome(data, required.num);
        if next.None? { return; }
      }
      if ForeignOn(cfg, data.call) {
        r := ExecuteOnForeign(data, required.num);
      } else {
        r := Ok(());
      }
    }

    /** The home stage; `next` is None when the branch returns. */
    method SubmitOnHome(data: SenderData, required: nat) returns (r: Result<(), SenderError>, next: Option<()>)
      requires !Affirms(data.call)
      modifies this`table, this`issued
      ensures old(Rest(data, ViewSigned(required))) ==
                if next.Some? then Rest(data, ForeignStage(cfg, data.call, required))
                else if r.Ok? then (table, issued) else Rest(data, ReleaseAfterError)
    {
      next := None;
      var signed := Ask(data, ViewSigned(required));
      if !signed.ok { return Err(SenderError), None; }
      if signed.num >= required { r := DeleteEventLog(data); return; }
      var already := Ask(data, ViewSignedByUs(required));
      if !already.ok { return Err(SenderError), None; }
      if already.flag { r := DeleteEventLog(data); return; }
      assert old(Rest(data, ViewSigned(required))) == Rest(data, Submit(required));
      r, next := SubmitSignature(data, required);
    }

    /** Send submitSignature, wait for its receipt, and move the row to the foreign stage if there is one. */
    method SubmitSignature(data: SenderData, required: nat) returns (r: Result<(), SenderError>, next: Option<()>)
      requires !Affirms(data.call)
      modifies this`table, this`issued
      ensures old(Rest(data, Submit(required))) ==
                if next.Some? then Rest(data, ForeignStage(cfg, data.call, required))
                else if r.Ok? then (table, issued) else Rest(data, ReleaseAfterError)
    {
      next := None;
      var confirmed := SendAndConfirm(data, Submit(required));
      if !confirmed { r := IncrementRetryCount(data); return; }
      if !ForeignOn(cfg, data.call) { r := DeleteEventLog(data); return; }
      var staged := Ask(data, StageUpdate(required));
      if !staged.ok { return Err(SenderError), None; }
      table := MarkForeign(table, data.id);
      r, next := Ok(()), Some(());
    }

    /** The foreign stage. */
    method ExecuteOnForeign(data: SenderData, required: nat) returns (r: Result<(), SenderError>)
      requires !Affirms(data.call) && ForeignOn(cfg, data.call)
      modifies this`table, this`issued
      ensures old(Rest(data, ForeignStage(cfg, data.call, required))) ==
                if r.Ok? then (table, issued) else Rest(data, ReleaseAfterError)
    {
      r := FindMessageHash(data, required);
      if r.Ok? { r := ExecuteSignatures(data, required); }
    }

    /** Collect the signatures; only a complete blob is executed, anything else ends in a deletion. */
    method ExecuteSignatures(data: SenderData, required: nat) returns (r: Result<(), SenderError>)
      modifies this`table, this`issued
      ensures old(Rest(data, Gather(required))) == if r.Ok? then (table, issued) else Rest(data, ReleaseAfterError)
    {
      var signatures := Ask(data, Gather(required));
      if !signatures.ok { return Err(SenderError); }
      if signatures.num == 2 + 65 * required - 1 {
        r := ExecuteBlob(data, signatures.num);
      } else {
        r := DeleteEventLog(data);
      }
    }

    /** The xDai branch parses its message and asks the helper for its hash. */
    method FindMessageHash(data: SenderData, required: nat) returns (r: Result<(), SenderError>)
      requires !Affirms(data.call) && ForeignOn(cfg, data.call)
      modifies this`issued
      ensures old(Rest(data, ForeignStage(cfg, data.call, required))) ==
                Rest(data, if r.Ok? then Gather(required) else ReleaseAfterError)
    {
      if data.call.XdaiGcCall? {
        var parsed := ParseXdaiMessage(data.call.message);
        if parsed.Err? { return Err(SenderError); }
        var hashed := Ask(data, MessageHash(required));
        if !hashed.ok { return Err(SenderError); }
      }
      r := Ok(());
    }

    /** Connect to Ethereum, send the execution, and wait for its receipt. */
    method ExecuteBlob(data: SenderData, length: nat) returns (r: Result<(), SenderError>)
      modifies this`table, this`issued
      ensures old(Rest(data, ConnectForeign(length))) ==
                if r.Ok? then (table, issued) else Rest(data, ReleaseAfterError)
    {
      var connected := Ask(data, ConnectForeign(length));
      if !connected.ok { return Err(SenderError); }
      var confirmed := SendAndConfirm(data, Execute(length));
      if confirmed { r := DeleteEventLog(data); } else { r := IncrementRetryCount(data); }
    }

    /** `start`: handle every message until the channel is closed; an escaped error releases the row. */
    method Start(inbox: seq<SenderData>)
      modifies this`table, this`issued
      ensures (table, issued) == old(PlayAll(cfg, inbox, table, issued, replies))
    {
      for i := 0 to |inbox|
        invariant (table, issued) == old(PlayAll(cfg, inbox[..i], table, issued, replies))
      {
        var data := inbox[i];
        assert inbox[..i + 1][..i] == inbox[..i];
        var handled;
        if Affirms(data.call) { handled := ProcessAffirmation(data); } else { handled := ProcessSignature(data); }
        if handled.Err? {
          var released := Ask(data, ReleaseAfterError);
          if released.ok { table := Release(table, data.id); }
        }
      }
      assert inbox[..|inbox|] == inbox;
    }
  }
}
