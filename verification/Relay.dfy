/**
 What one message goes through after it has been claimed: decoding into call data
 (`process_message_or_skip`), and the sender's `process_message` as a program whose steps are the
 awaits of the source. Between any two steps other services and other validators may act.
 */
module Relay {
  import opened Prelude
  import opened XdaiCodec
  import opened EventLogs

  datatype BlockMode = Fcr | BlockFinality

  datatype Config = Config(
    maxRetryCount: nat,
    maxBlockRange: nat,
    ambOnForeign: bool,
    xdaiOnForeign: bool,
    ethMode: BlockMode,
    gcMode: BlockMode,
    ethXdaiBridge: Address)

  const I32_MAX: nat := 0x7fff_ffff

  /** The retry ceiling as `read_from_db` binds it: an i32, saturated. */
  function Ceiling(cfg: Config): nat {
    if cfg.maxRetryCount <= I32_MAX then cfg.maxRetryCount else I32_MAX
  }

  /** A row the claim query may return: live, unclaimed, and with fewer retries than configured and than an i32 holds. */
  predicate MayClaim(cfg: Config, s: Slot) {
    s.live && !s.row.claimed && s.row.retries < cfg.maxRetryCount && s.row.retries < 0x7fff_ffff
  }

  /** Row `a` does not come after row `b`: smaller block first, then smaller log index; no block number comes last. */
  predicate NoLater(a: Row, b: Row) {
    && (b.blockNumber.Some? ==>
          a.blockNumber.Some? &&
          (a.blockNumber.value < b.blockNumber.value || (a.blockNumber.value == b.blockNumber.value && a.logIndex <= b.logIndex)))
    && (b.blockNumber.None? ==> a.blockNumber.Some? || a.logIndex <= b.logIndex)
  }

  /** No claimable row that is free comes before row `id`, which is one itself. */
  ghost predicate FirstInLine(cfg: Config, t: Table, locked: set<nat>, id: nat) {
    id < |t| && MayClaim(cfg, t[id]) && id !in locked &&
    forall j :: 0 <= j < |t| && MayClaim(cfg, t[j]) && j !in locked ==> NoLater(t[id].row, t[j].row)
  }

  lemma ClaimMeaning(cfg: Config, t: Table, locked: set<nat>, id: nat)
    ensures Claimable(t, Ceiling(cfg), id) <==> id < |t| && MayClaim(cfg, t[id])
    ensures NextToClaim(t, Ceiling(cfg), locked, id) <==> FirstInLine(cfg, t, locked, id)
  {
    assert forall j :: 0 <= j < |t| ==> (Claimable(t, Ceiling(cfg), j) <==> MayClaim(cfg, t[j]));
    assert id < |t| ==> forall j :: 0 <= j < |t| ==> (NoLater(t[id].row, t[j].row) <==> !Before(t[j].row, t[id].row));
  }

  /** `mode_for_chain`. */
  function ModeFor(cfg: Config, net: Net): BlockMode {
    match net case Eth => cfg.ethMode case Gc => cfg.gcMode
  }

  // ----- call data -----

  datatype CallData =
    | AmbEthCall(message: seq<byte>)
    | AmbGcCall(message: seq<byte>)
    | XdaiEthCall(recipient: Address, value: U256, nonce: Bytes32)
    | XdaiGcCall(message: seq<byte>)

  datatype SenderData = SenderData(call: CallData, id: nat, stage: Stage)

  /** Decode a claimed row into the call it asks for; None where the source returns an error. */
  function BuildCall(cfg: Config, row: Row): Option<CallData> {
    match row.mode
    case AmbEth => if row.log.AmbAffirmation? then Some(AmbEthCall(row.log.encodedData)) else None
    case AmbGc => if row.log.AmbSignature? then Some(AmbGcCall(row.log.encodedData)) else None
    case XdaiEth =>
      if row.log.XdaiAffirmation? then Some(XdaiEthCall(row.log.recipient, row.log.value, row.log.nonce)) else None
    case XdaiGc =>
      if !row.log.XdaiSignature? then None else
      (match CreateXdaiMessage(cfg.ethXdaiBridge, row.log.recipient, row.log.value, row.log.nonce, row.log.token)
       case Err(_) => None
       case Ok(text) =>
         if |text| < 2 then None else
         match HexDecode(text[2..])
         case Some(bytes) => Some(XdaiGcCall(bytes))
         case None => None)
    case Unknown => None
  }

  /** Only the two GC-side modes sign, so only they need a key inside the processor. */
  predicate SignsInProcessor(mode: BridgeMode) { mode == AmbGc || mode == XdaiGc }

  /** Every message the processor builds for XDAI_GC parses back to the event's fields. */
  lemma BuiltXdaiMessageParses(cfg: Config, row: Row)
    requires row.mode == XdaiGc && row.log.XdaiSignature?
    ensures var call := BuildCall(cfg, row);
            && call.Some? && call.value.XdaiGcCall?
            && ParseXdaiMessage(call.value.message)
               == Ok(ParsedXdaiMessage(row.log.recipient, row.log.value, row.log.nonce, cfg.ethXdaiBridge, row.log.token))
  {
    XdaiRoundTrip(ParsedXdaiMessage(row.log.recipient, row.log.value, row.log.nonce, cfg.ethXdaiBridge, row.log.token));
  }

  /** The event is of the kind its bridge mode expects. */
  predicate Decodable(row: Row) {
    match row.mode
    case AmbEth => row.log.AmbAffirmation?
    case AmbGc => row.log.AmbSignature?
    case XdaiEth => row.log.XdaiAffirmation?
    case XdaiGc => row.log.XdaiSignature?
    case Unknown => false
  }

  /** The call carries the row's event: the AMB message as it was logged, the xDai fields one by one. */
  ghost predicate CarriesEvent(cfg: Config, row: Row, call: CallData) {
    match call
    case AmbEthCall(m) => row.mode == AmbEth && row.log == AmbAffirmation(m)
    case AmbGcCall(m) => row.mode == AmbGc && row.log == AmbSignature(m)
    case XdaiEthCall(r, v, n) => row.mode == XdaiEth && row.log == XdaiAffirmation(r, v, n)
    case XdaiGcCall(m) =>
      row.mode == XdaiGc && row.log.XdaiSignature? &&
      HasFields(m, row.log.recipient, row.log.value, row.log.nonce, cfg.ethXdaiBridge, row.log.token)
  }

  /** Decoding succeeds for exactly the decodable rows, and gives exactly the call that carries the event. */
  lemma BuildCallCarries(cfg: Config, row: Row, call: CallData)
    ensures BuildCall(cfg, row).Some? <==> Decodable(row)
    ensures BuildCall(cfg, row) == Some(call) <==> CarriesEvent(cfg, row, call)
  {
    if row.mode == XdaiGc && row.log.XdaiSignature? {
      var p := ParsedXdaiMessage(row.log.recipient, row.log.value, row.log.nonce, cfg.ethXdaiBridge, row.log.token);
      XdaiRoundTrip(p);
      XdaiFieldPositions(p, if call.XdaiGcCall? then call.message else []);
    }
  }

  // ----- the home contract -----

  type Validator = nat

  /** This validator; every other number is another validator. */
  const US: Validator := 0

  /** What the contract's hashes identify: the bridge and direction, and the hashed bytes. */
  datatype HomeKey = HomeKey(mode: BridgeMode, preimage: seq<byte>)

  function KeyOf(call: CallData): HomeKey {
    match call
    case AmbEthCall(m) => HomeKey(AmbEth, m)
    case AmbGcCall(m) => HomeKey(AmbGc, m)
    case XdaiEthCall(r, v, n) => HomeKey(XdaiEth, r + ToBeBytes(v, 32) + n)
    case XdaiGcCall(m) => HomeKey(XdaiGc, m)
  }

  /** Two messages share a record in the contract only if they are the same message: the packed fields can be taken apart. */
  lemma KeysTellMessagesApart(a: CallData, b: CallData)
    requires KeyOf(a) == KeyOf(b)
    ensures a == b
  {
    if a.XdaiEthCall? {
      var packed := KeyOf(a).preimage;
      assert packed[..20] == a.recipient && packed[20..52] == ToBeBytes(a.value, 32) && packed[52..] == a.nonce;
      assert packed[..20] == b.recipient && packed[20..52] == ToBeBytes(b.value, 32) && packed[52..] == b.nonce;
      Pow256Of32();
      FromToBe(a.value, 32);
      FromToBe(b.value, 32);
    }
  }

  /** The contract's key for the row's event: its bridge, and the bytes that are hashed. */
  ghost predicate KeySpells(cfg: Config, row: Row, k: HomeKey) {
    k.mode == row.mode && Decodable(row) &&
    match row.log
    case AmbAffirmation(m) => k.preimage == m
    case AmbSignature(m) => k.preimage == m
    case XdaiAffirmation(r, v, n) =>
      |k.preimage| == 84 && k.preimage[0..20] == r && BigEndian(k.preimage[20..52], v) && k.preimage[52..84] == n
    case XdaiSignature(r, v, n, t) => HasFields(k.preimage, r, v, n, cfg.ethXdaiBridge, t)
    case Garbled => false
  }

  /** The key the sender asks about is the key of the event, and no other key is. */
  lemma KeyOfSpells(cfg: Config, row: Row, call: CallData, k: HomeKey)
    requires CarriesEvent(cfg, row, call)
    ensures KeySpells(cfg, row, k) <==> k == KeyOf(call)
  {
    if call.XdaiEthCall? {
      var packed := KeyOf(call).preimage;
      ToBeBytesIsBigEndian(call.value, 32);
      assert packed[0..20] == call.recipient && packed[20..52] == ToBeBytes(call.value, 32) && packed[52..84] == call.nonce;
      if KeySpells(cfg, row, k) {
        BigEndianIs(k.preimage[20..52], call.value);
        assert k.preimage == k.preimage[0..20] + k.preimage[20..52] + k.preimage[52..84];
      }
    }
    if call.XdaiGcCall? {
      var p := ParsedXdaiMessage(row.log.recipient, row.log.value, row.log.nonce, cfg.ethXdaiBridge, row.log.token);
      FieldsAreLayout(p, call.message);
      if KeySpells(cfg, row, k) { FieldsAreLayout(p, k.preimage); }
    }
  }

  /** Per message the set of validators recorded, and one fixed threshold per bridge. */
  datatype HomeChain = HomeChain(signers: map<HomeKey, set<Validator>>, ambRequired: nat, xdaiRequired: nat) {
    function Signers(k: HomeKey): set<Validator> { if k in signers then signers[k] else {} }

    function Required(k: HomeKey): nat {
      if k.mode == XdaiEth || k.mode == XdaiGc then xdaiRequired else ambRequired
    }

    /** The validator's part is done: it is recorded, or the message has its required count. */
    predicate Recorded(k: HomeKey) { US in Signers(k) || |Signers(k)| >= Required(k) }

    /** A mined affirmation or signature; it reverts on a duplicate or a completed message. */
    function Accept(k: HomeKey, v: Validator): HomeChain {
      if v in Signers(k) || |Signers(k)| >= Required(k) then this
      else this.(signers := signers[k := Signers(k) + {v}])
    }
  }

  /** Whatever is mined, signer sets only grow, so `Recorded` is never lost; our own transaction establishes it. */
  lemma AcceptGrows(h: HomeChain, k: HomeKey, v: Validator, k': HomeKey)
    ensures h.Signers(k') <= h.Accept(k, v).Signers(k')
    ensures |h.Signers(k')| <= |h.Accept(k, v).Signers(k')|
    ensures h.Accept(k, v).Required(k') == h.Required(k')
    ensures h.Recorded(k') ==> h.Accept(k, v).Recorded(k')
    ensures v == US ==> h.Accept(k, v).Recorded(k)
  {
  }

  // ----- the sender's program -----

  datatype Pc =
    | Connect                            // validator key, then the Gnosis RPC
    | ViewRequired                       // GC side: requiredSignatures
    | ViewSigned(required: nat)          // GC side: numMessagesSigned
    | ViewSignedByUs(required: nat)      // GC side: messagesSigned
    | ViewAffirmedByUs                   // ETH side: affirmationsSigned
    | ViewAffirmed                       // ETH side: numAffirmationsSigned
    | ViewAffirmedRequired(signed: nat)  // ETH side: requiredSignatures
    | Submit(required: nat)              // executeAffirmation / submitSignature, send()
    | Receipt(required: nat, tx: nat)    // get_receipt() of that transaction
    | StageUpdate(required: nat)         // update_stage
    | MessageHash(required: nat)         // xDai helper: getMessageHash
    | Gather(required: nat)              // helper: getSignatures
    | ConnectForeign(length: nat)        // Ethereum RPC
    | Execute(length: nat)               // foreign execution, send()
    | ExecuteReceipt                     // foreign execution, get_receipt()
    | DeleteRow                          // delete_event_log
    | ReleaseRow                         // increment_retry_count inside process_message
    | ReleaseAfterError                  // increment_retry_count in start()
    | Finished

  /** The answer to one await: failed or not, with a boolean and a number for those that return one. */
  datatype Reply = Reply(ok: bool, flag: bool, num: nat)

  predicate Affirms(call: CallData) { call.AmbEthCall? || call.XdaiEthCall? }

  predicate ForeignOn(cfg: Config, call: CallData) {
    (call.AmbGcCall? && cfg.ambOnForeign) || (call.XdaiGcCall? && cfg.xdaiOnForeign)
  }

  /** The only signature blob that is executed: a count byte and 65 bytes per required signature. */
  function BlobLength(required: nat): nat { 2 + 65 * required - 1 }

  /** Where `process_message` goes when the home stage is over. */
  function ForeignStage(cfg: Config, call: CallData, required: nat): Pc {
    if !ForeignOn(cfg, call) then Finished
    else if call.AmbGcCall? then Gather(required)
    else if ParseXdaiMessage(call.message).Ok? then MessageHash(required)
    else ReleaseAfterError
  }

  /** One await of `process_message` (and of the release in `start`), and the step it leads to. */
  function Next(cfg: Config, data: SenderData, pc: Pc, r: Reply): Pc {
    match pc
    case Connect =>
      if !r.ok then ReleaseAfterError else if Affirms(data.call) then ViewAffirmedByUs else ViewRequired
    case ViewRequired =>
      if !r.ok then ReleaseAfterError
      else if data.stage != Foreign then ViewSigned(r.num)
      else ForeignStage(cfg, data.call, r.num)
    case ViewSigned(required) =>
      if !r.ok then ReleaseAfterError else if r.num >= required then DeleteRow else ViewSignedByUs(required)
    case ViewSignedByUs(required) =>
      if !r.ok then ReleaseAfterError else if r.flag then DeleteRow else Submit(required)
    case ViewAffirmedByUs =>
      if !r.ok then ReleaseAfterError else if r.flag then DeleteRow else ViewAffirmed
    case ViewAffirmed =>
      if !r.ok then ReleaseAfterError else ViewAffirmedRequired(r.num)
    case ViewAffirmedRequired(signed) =>
      if !r.ok then ReleaseAfterError else if signed >= r.num then DeleteRow else Submit(r.num)
    case Submit(required) =>
      if !r.ok then ReleaseRow else Receipt(required, r.num)
    case Receipt(required, _) =>
      if !r.ok then ReleaseRow
      else if Affirms(data.call) || !ForeignOn(cfg, data.call) then DeleteRow
      else StageUpdate(required)
    case StageUpdate(required) =>
      if !r.ok then ReleaseAfterError else ForeignStage(cfg, data.call, required)
    case MessageHash(required) =>
      if !r.ok then ReleaseAfterError else Gather(required)
    case Gather(required) =>
      if !r.ok then ReleaseAfterError
      else if r.num == BlobLength(required) then ConnectForeign(r.num) else DeleteRow
    case ConnectForeign(length) =>
      if !r.ok then ReleaseAfterError else Execute(length)
    case Execute(_) =>
      if !r.ok then ReleaseRow else ExecuteReceipt
    case ExecuteReceipt =>
      if !r.ok then ReleaseRow else DeleteRow
    case DeleteRow => if !r.ok then ReleaseAfterError else Finished
    case ReleaseRow => if !r.ok then ReleaseAfterError else Finished
    case ReleaseAfterError => Finished
    case Finished => Finished
  }

  /** The database statement a step runs; a failed statement is not applied. */
  function TableAfter(t: Table, id: nat, pc: Pc, r: Reply): Table {
    if !r.ok then t else
      match pc
      case StageUpdate(_) => MarkForeign(t, id)
      case DeleteRow => Delete(t, id)
      case ReleaseRow => Release(t, id)
      case ReleaseAfterError => Release(t, id)
      case _ => t
  }

  /** Steps left at most, counting the step itself. */
  function Rank(pc: Pc): nat {
    match pc
    case Finished => 0
    case ReleaseAfterError => 1
    case DeleteRow => 2
    case ReleaseRow => 2
    case ExecuteReceipt => 3
    case Execute(_) => 4
    case ConnectForeign(_) => 5
    case Gather(_) => 6
    case MessageHash(_) => 7
    case StageUpdate(_) => 8
    case Receipt(_, _) => 9
    case Submit(_) => 10
    case ViewSignedByUs(_) => 11
    case ViewAffirmedRequired(_) => 11
    case ViewSigned(_) => 12
    case ViewAffirmed => 12
    case ViewRequired => 13
    case ViewAffirmedByUs => 13
    case Connect => 14
  }

  /** Every step gets closer to the end. */
  lemma RankDecreases(cfg: Config, data: SenderData, pc: Pc, r: Reply)
    requires pc != Finished
    ensures Rank(Next(cfg, data, pc, r)) < Rank(pc) <= 14
  {
  }
}
