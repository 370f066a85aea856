/**
 Block lookups over an ordered list of providers (`safe.rs`): the `safe` resolver, the startup
 preflight that may downgrade a chain, and the canonical hash lookup the FCR checker uses.
 A provider's answer is an input; the loops over the answers are the source's.
 */
module SafeBlocks {
  import opened Prelude
  import opened EventLogs
  import opened Relay

  // ----- one provider -----

  /** A reply to eth_getBlockByNumber("safe"): HTTP and JSON failures, or a JSON-RPC body. */
  datatype SafeReply =
    | NoHttpAnswer
    | BadJson
    | Body(errorObject: bool, resultNull: bool, number: NumberField)

  datatype NumberField = NoNumber | Unparseable | Parsed(n: int)

  datatype SafeProbe = Block(n: int) | Empty | Unsupported | Unreachable

  /** `probe_safe_block`, after the call. */
  function Classify(r: SafeReply): SafeProbe {
    match r
    case NoHttpAnswer => Unreachable
    case BadJson => Unreachable
    case Body(error, resultNull, number) =>
      if error then Unsupported
      else if resultNull then Empty
      else match number
        case NoNumber => Unreachable
        case Unparseable => Unreachable
        case Parsed(n) => Block(n)
  }

  // ----- the safe resolver -----

  datatype LookupError = AllRpcsFailed

  predicate Serves(p: SafeProbe) { p.Block? || p.Empty? }

  function FirstBlock(probes: seq<SafeProbe>): Option<int> {
    if probes == [] then None
    else if probes[0].Block? then Some(probes[0].n)
    else FirstBlock(probes[1..])
  }

  /** What `get_safe_block_number` returns for the given answers. */
  function SafeBlock(probes: seq<SafeProbe>): Result<Option<int>, LookupError> {
    if FirstBlock(probes).Some? then Ok(FirstBlock(probes))
    else if Empty in probes then Ok(None)
    else Err(AllRpcsFailed)
  }

  lemma {:induction false} FirstBlockIsFirst(probes: seq<SafeProbe>)
    ensures FirstBlock(probes).None? <==> forall i :: 0 <= i < |probes| ==> !probes[i].Block?
    ensures forall n :: FirstBlock(probes) == Some(n) <==>
              exists i :: 0 <= i < |probes| && probes[i] == Block(n) && forall j :: 0 <= j < i ==> !probes[j].Block?
  {
    if probes == [] {
    } else if !probes[0].Block? {
      var rest := probes[1..];
      FirstBlockIsFirst(rest);
      forall n ensures FirstBlock(probes) == Some(n) <==>
          exists i :: 0 <= i < |probes| && probes[i] == Block(n) && forall j :: 0 <= j < i ==> !probes[j].Block?
      {
        if i :| 0 <= i < |rest| && rest[i] == Block(n) && forall j :: 0 <= j < i ==> !rest[j].Block? {
          assert probes[i + 1] == Block(n);
          forall j | 0 <= j < i + 1 ensures !probes[j].Block? { assert j > 0 ==> !rest[j - 1].Block?; }
        }
        if i :| 0 <= i < |probes| && probes[i] == Block(n) && forall j :: 0 <= j < i ==> !probes[j].Block? {
          assert rest[i - 1] == Block(n);
          forall j | 0 <= j < i - 1 ensures !rest[j].Block? { assert rest[j] == probes[j + 1]; }
        }
      }
      assert forall i :: 0 <= i < |rest| ==> rest[i] == probes[i + 1];
      if forall i :: 0 <= i < |rest| ==> !rest[i].Block? {
        forall i | 0 <= i < |probes| ensures !probes[i].Block? { assert i > 0 ==> probes[i] == rest[i - 1]; }
      }
    }
  }

  /** The resolver gives the first served block in order, None when none is served but one was empty, else an error. */
  lemma ResolverMeaning(probes: seq<SafeProbe>)
    ensures forall n :: SafeBlock(probes) == Ok(Some(n)) <==>
              exists i :: 0 <= i < |probes| && probes[i] == Block(n) && forall j :: 0 <= j < i ==> !probes[j].Block?
    ensures SafeBlock(probes) == Ok(None) <==>
              Empty in probes && forall i :: 0 <= i < |probes| ==> !probes[i].Block?
    ensures SafeBlock(probes).Err? <==> forall i :: 0 <= i < |probes| ==> !Serves(probes[i])
  {
    FirstBlockIsFirst(probes);
  }

  method GetSafeBlockNumber(probes: seq<SafeProbe>) returns (r: Result<Option<int>, LookupError>)
    ensures r == SafeBlock(probes)
  {
    var sawLegitimateEmpty := false;
    for i := 0 to |probes|
      invariant FirstBlock(probes) == FirstBlock(probes[i..])
      invariant sawLegitimateEmpty <==> Empty in probes[..i]
    {
      match probes[i] {
        case Block(n) => return Ok(Some(n));
        case Empty => sawLegitimateEmpty := true;
        case Unsupported =>
        case Unreachable =>
      }
      assert probes[..i + 1] == probes[..i] + [probes[i]];
    }
    assert probes[..|probes|] == probes;
    if sawLegitimateEmpty { r := Ok(None); } else { r := Err(AllRpcsFailed); }
  }

  // ----- the startup preflight -----

  datatype ChainSafeSupport = ChainSafeSupport(net: Net, supported: bool, reachable: bool, unsupported: seq<string>) {
    predicate KeepsFcr() { supported || !reachable }
  }

  /** The providers that rejected the tag, in order. */
  function Rejecting(rpcs: seq<string>, probes: seq<SafeProbe>): seq<string>
    requires |rpcs| == |probes|
  {
    if rpcs == [] then [] else
      var n := |rpcs| - 1;
      Rejecting(rpcs[..n], probes[..n]) + (if probes[n].Unsupported? then [rpcs[n]] else [])
  }

  method PreflightSafeSupport(net: Net, rpcs: seq<string>, probes: seq<SafeProbe>) returns (s: ChainSafeSupport)
    requires |rpcs| == |probes|
    ensures s.net == net
    ensures s.supported <==> exists i :: 0 <= i < |probes| && Serves(probes[i])
    ensures s.reachable <==> exists i :: 0 <= i < |probes| && !probes[i].Unreachable?
    ensures s.unsupported == Rejecting(rpcs, probes)
  {
    s := ChainSafeSupport(net, false, false, []);
    for i := 0 to |rpcs|
      invariant s.net == net
      invariant s.supported <==> exists k :: 0 <= k < i && Serves(probes[k])
      invariant s.reachable <==> exists k :: 0 <= k < i && !probes[k].Unreachable?
      invariant s.unsupported == Rejecting(rpcs[..i], probes[..i])
    {
      assert rpcs[..i + 1][..i] == rpcs[..i] && probes[..i + 1][..i] == probes[..i];
      match probes[i] {
        case Block(n) => s := s.(supported := true, reachable := true);
        case Empty => s := s.(supported := true, reachable := true);
        case Unsupported => s := s.(reachable := true, unsupported := s.unsupported + [rpcs[i]]);
        case Unreachable =>
      }
    }
    assert rpcs[..|rpcs|] == rpcs && probes[..|rpcs|] == probes;
  }

  /** The verdict on a chain, from its providers' answers alone. */
  ghost predicate Downgrades(probes: seq<SafeProbe>) {
    (forall i :: 0 <= i < |probes| ==> !Serves(probes[i])) &&
    exists i :: 0 <= i < |probes| && probes[i].Unsupported?
  }

  /** A chain is downgraded exactly when the runtime resolver would fail and some provider rejected the tag. */
  lemma PreflightAgreesWithResolver(probes: seq<SafeProbe>, s: ChainSafeSupport)
    requires s.supported <==> exists i :: 0 <= i < |probes| && Serves(probes[i])
    requires s.reachable <==> exists i :: 0 <= i < |probes| && !probes[i].Unreachable?
    ensures !s.KeepsFcr() <==> SafeBlock(probes).Err? && Unsupported in probes
    ensures !s.KeepsFcr() <==> Downgrades(probes)
  {
    ResolverMeaning(probes);
    if !s.KeepsFcr() {
      var i :| 0 <= i < |probes| && !probes[i].Unreachable?;
      assert !Serves(probes[i]);
      assert probes[i] == Unsupported;
    }
    if Unsupported in probes {
      var i :| 0 <= i < |probes| && probes[i] == Unsupported;
      assert !probes[i].Unreachable?;
    }
  }

  function Probes(replies: seq<SafeReply>): seq<SafeProbe> {
    seq(|replies|, i requires 0 <= i < |replies| => Classify(replies[i]))
  }

  predicate RejectsTag(r: SafeReply) { r.Body? && r.errorObject }

  /** A body without an error object that says null or names a block. */
  predicate ServesTag(r: SafeReply) { r.Body? && !r.errorObject && (r.resultNull || r.number.Parsed?) }

  /** In terms of what the providers send: a JSON-RPC error object from one, and from none a null or a block number. */
  lemma DowngradeFromReplies(replies: seq<SafeReply>)
    ensures Downgrades(Probes(replies)) <==>
              (exists i :: 0 <= i < |replies| && RejectsTag(replies[i])) &&
              (forall i :: 0 <= i < |replies| ==> !ServesTag(replies[i]))
  {
    var probes := Probes(replies);
    assert forall i :: 0 <= i < |replies| ==> (probes[i].Unsupported? <==> RejectsTag(replies[i]));
    assert forall i :: 0 <= i < |replies| ==> (Serves(probes[i]) <==> ServesTag(replies[i]));
  }

  /** The configuration while the process boots. */
  class BootConfig {
    var ethRpc: seq<string>
    var gcRpc: seq<string>
    var ethMode: BlockMode
    var gcMode: BlockMode

    constructor (ethRpc: seq<string>, gcRpc: seq<string>, ethMode: BlockMode, gcMode: BlockMode)
      ensures this.ethRpc == ethRpc && this.gcRpc == gcRpc && this.ethMode == ethMode && this.gcMode == gcMode
    {
      this.ethRpc, this.gcRpc, this.ethMode, this.gcMode := ethRpc, gcRpc, ethMode, gcMode;
    }

    function Mode(net: Net): BlockMode
      reads this
    {
      match net case Eth => ethMode case Gc => gcMode
    }

    function Rpcs(net: Net): seq<string>
      reads this
    {
      match net case Eth => ethRpc case Gc => gcRpc
    }

    method SetModeForChain(net: Net, mode: BlockMode)
      modifies this`ethMode, this`gcMode
      ensures Mode(net) == mode
      ensures forall other :: other != net ==> Mode(other) == old(Mode(other))
    {
      match net {
        case Eth => ethMode := mode;
        case Gc => gcMode := mode;
      }
    }

    method FcrChains() returns (chains: seq<(Net, seq<string>)>)
      ensures ethMode == Fcr ==> |chains| > 0 && chains[0].0 == Eth
      ensures gcMode == Fcr ==> |chains| > 0 && chains[|chains| - 1].0 == Gc
      ensures forall i :: 0 <= i < |chains| ==> Mode(chains[i].0) == Fcr && chains[i].1 == Rpcs(chains[i].0)
      ensures forall i, j :: 0 <= i < j < |chains| ==> chains[i].0 != chains[j].0
    {
      chains := [];
      if ethMode == Fcr { chains := chains + [(Eth, ethRpc)]; }
      if gcMode == Fcr { chains := chains + [(Gc, gcRpc)]; }
    }

    /** Each chain's mode changes exactly by its own verdict. */
    method RunFcrPreflight(answers: map<Net, seq<SafeProbe>>)
      requires forall net :: net in answers && |answers[net]| == |Rpcs(net)|
      modifies this`ethMode, this`gcMode
      ensures forall net ::
                Mode(net) == if old(Mode(net)) == Fcr && Downgrades(answers[net]) then BlockFinality else old(Mode(net))
    {
      var chains := FcrChains();
      for i := 0 to |chains|
        invariant forall j :: 0 <= j < i ==>
                    Mode(chains[j].0) == if Downgrades(answers[chains[j].0]) then BlockFinality else Fcr
        invariant forall j :: i <= j < |chains| ==> Mode(chains[j].0) == Fcr
        invariant forall net :: old(Mode(net)) != Fcr ==> Mode(net) == old(Mode(net))
      {
        var net := chains[i].0;
        assert old(Mode(net)) == Fcr;
        var support := PreflightSafeSupport(net, chains[i].1, answers[net]);
        PreflightAgreesWithResolver(answers[net], support);
        if !support.KeepsFcr() { SetModeForChain(net, BlockFinality); }
      }
      forall net | old(Mode(net)) == Fcr
        ensures Mode(net) == if Downgrades(answers[net]) then BlockFinality else Fcr
      {
        assert chains[if net == Eth then 0 else |chains| - 1].0 == net;
      }
    }
  }

  /** `resolve_upper_bound`: the safe block in fcr mode, and the finalized block when there is none. */
  function UpperBound(mode: BlockMode, probes: seq<SafeProbe>, finalized: Option<int>): Option<int> {
    if mode == Fcr && SafeBlock(probes).Ok? && SafeBlock(probes).value.Some? then SafeBlock(probes).value
    else finalized
  }

  /** A block-finality chain is only ever bounded by the finalized block; an fcr chain falls back to it exactly when no provider serves a safe block. */
  lemma UpperBoundMeaning(mode: BlockMode, probes: seq<SafeProbe>, finalized: Option<int>, n: int)
    ensures UpperBound(mode, probes, finalized) == Some(n) <==>
              || (mode == Fcr && exists i :: 0 <= i < |probes| && probes[i] == Block(n) && forall j :: 0 <= j < i ==> !probes[j].Block?)
              || ((mode == BlockFinality || forall i :: 0 <= i < |probes| ==> !probes[i].Block?) && finalized == Some(n))
  {
    ResolverMeaning(probes);
    FirstBlockIsFirst(probes);
  }

  // ----- the canonical hash lookup -----

  function LowerChar(c: char): char {
    if 'A' <= c <= 'Z' then (c as int + 32) as char else c
  }

  function ToLower(s: string): (r: string)
    ensures |r| == |s|
  {
    seq(|s|, i requires 0 <= i < |s| => LowerChar(s[i]))
  }

  /** `r` is `s` with 'A'..'Z' moved to 'a'..'z' and every other character kept. */
  ghost predicate IsLowered(s: string, r: string) {
    |r| == |s| && forall i :: 0 <= i < |s| ==>
      if 'A' <= s[i] <= 'Z' then r[i] as int == s[i] as int + 32 else r[i] == s[i]
  }

  lemma ToLowerMeaning(s: string, r: string)
    ensures IsLowered(s, r) <==> r == ToLower(s)
  {
    if IsLowered(s, r) {
      forall i | 0 <= i < |s| ensures r[i] == ToLower(s)[i] {}
    }
  }

  predicate IsLowerCase(s: string) { forall i :: 0 <= i < |s| ==> !('A' <= s[i] <= 'Z') }

  predicate SameLetter(a: char, b: char) {
    a == b || ('A' <= a <= 'Z' && b as int == a as int + 32) || ('A' <= b <= 'Z' && a as int == b as int + 32)
  }

  /** The same hash, the case of ASCII letters aside. */
  ghost predicate SameHash(a: Hash, b: Hash) { |a| == |b| && forall i :: 0 <= i < |a| ==> SameLetter(a[i], b[i]) }

  predicate EqIgnoreCase(a: string, b: string) { ToLower(a) == ToLower(b) }

  lemma EqIgnoreCaseMeaning(a: string, b: string)
    ensures EqIgnoreCase(a, b) <==> SameHash(a, b)
  {
    if EqIgnoreCase(a, b) {
      assert |a| == |ToLower(a)| == |b|;
      forall i | 0 <= i < |a| ensures SameLetter(a[i], b[i]) { assert ToLower(a)[i] == ToLower(b)[i]; }
    }
    if SameHash(a, b) {
      forall i | 0 <= i < |a| ensures ToLower(a)[i] == ToLower(b)[i] { assert SameLetter(a[i], b[i]); }
    }
  }

  /** Between lower-case hashes the comparison is equality. */
  lemma SameLowerCase(a: Hash, b: Hash)
    requires IsLowerCase(a) && IsLowerCase(b)
    ensures SameHash(a, b) <==> a == b
  {
    if SameHash(a, b) {
      forall i | 0 <= i < |a| ensures a[i] == b[i] { assert SameLetter(a[i], b[i]); }
    }
  }

  /** A hash and its lower-case form compare alike with any other. */
  lemma LoweredSame(h: Hash, r: Hash, other: Hash)
    requires IsLowered(h, r)
    ensures IsLowerCase(r) && (SameHash(r, other) <==> SameHash(h, other))
  {
    ToLowerMeaning(h, r);
    assert forall i :: 0 <= i < |h| ==> LowerChar(LowerChar(h[i])) == LowerChar(h[i]);
    assert ToLower(r) == ToLower(h);
    EqIgnoreCaseMeaning(r, other);
    EqIgnoreCaseMeaning(h, other);
  }

  /** NoAnswer covers transport, HTTP, JSON and JSON-RPC errors; NoBlock is an answer without a hash. */
  datatype HashAnswer = NoAnswer | NoBlock | HashOf(hash: Hash)

  function FirstHash(answers: seq<HashAnswer>): Option<Hash> {
    if answers == [] then None
    else if answers[0].HashOf? then Some(ToLower(answers[0].hash))
    else FirstHash(answers[1..])
  }

  function CanonicalHash(answers: seq<HashAnswer>): Result<Option<Hash>, LookupError> {
    if FirstHash(answers).Some? then Ok(FirstHash(answers))
    else if NoBlock in answers then Ok(None)
    else Err(AllRpcsFailed)
  }

  method GetCanonicalBlockHash(answers: seq<HashAnswer>) returns (r: Result<Option<Hash>, LookupError>)
    ensures r == CanonicalHash(answers)
  {
    var anyProviderAnswered := false;
    for i := 0 to |answers|
      invariant FirstHash(answers) == FirstHash(answers[i..])
      invariant anyProviderAnswered <==> NoBlock in answers[..i]
    {
      assert answers[..i + 1] == answers[..i] + [answers[i]];
      if answers[i].NoAnswer? { continue; }
      anyProviderAnswered := true;
      if answers[i].HashOf? { return Ok(Some(ToLower(answers[i].hash))); }
    }
    assert answers[..|answers|] == answers;
    if anyProviderAnswered { r := Ok(None); } else { r := Err(AllRpcsFailed); }
  }

  lemma {:induction false} FirstHashIsFirst(answers: seq<HashAnswer>)
    ensures FirstHash(answers).None? <==> forall i :: 0 <= i < |answers| ==> !answers[i].HashOf?
    ensures FirstHash(answers).Some? ==>
              exists i :: FirstHashAt(answers, i) && FirstHash(answers) == Some(ToLower(answers[i].hash))
  {
    if answers == [] {
    } else if answers[0].HashOf? {
      assert FirstHashAt(answers, 0);
    } else {
      var rest := answers[1..];
      FirstHashIsFirst(rest);
      assert forall i :: 0 <= i < |rest| ==> rest[i] == answers[i + 1];
      if FirstHash(answers).Some? {
        var i :| FirstHashAt(rest, i) && FirstHash(rest) == Some(ToLower(rest[i].hash));
        assert forall j :: 0 < j < i + 1 ==> answers[j] == rest[j - 1];
        assert FirstHashAt(answers, i + 1);
      } else {
        assert forall i :: 0 < i < |answers| ==> answers[i] == rest[i - 1];
      }
    }
  }

  /** The i-th provider is the first to give a hash. */
  ghost predicate FirstHashAt(answers: seq<HashAnswer>, i: int) {
    0 <= i < |answers| && answers[i].HashOf? && forall j :: 0 <= j < i ==> !answers[j].HashOf?
  }

  /** The first hash in order, in lower case; None when some provider answers but none has a hash; an error when none answers. */
  lemma CanonicalMeaning(answers: seq<HashAnswer>)
    ensures forall h :: CanonicalHash(answers) == Ok(Some(h)) <==>
              exists i :: FirstHashAt(answers, i) && IsLowered(answers[i].hash, h)
    ensures CanonicalHash(answers) == Ok(None) <==>
              NoBlock in answers && forall i :: 0 <= i < |answers| ==> !answers[i].HashOf?
    ensures CanonicalHash(answers).Err? <==> forall i :: 0 <= i < |answers| ==> answers[i].NoAnswer?
  {
    FirstHashIsFirst(answers);
    forall i, j | FirstHashAt(answers, i) && FirstHashAt(answers, j) ensures i == j {
      assert !(i < j) && !(j < i);
    }
    forall h: Hash, i | FirstHashAt(answers, i) ensures IsLowered(answers[i].hash, h) <==> h == ToLower(answers[i].hash) {
      ToLowerMeaning(answers[i].hash, h);
    }
  }

  /** A hash comes from some provider that returned it, letter case aside. */
  lemma CanonicalHashSource(answers: seq<HashAnswer>)
    ensures CanonicalHash(answers).Ok? && CanonicalHash(answers).value.Some? ==>
              exists h :: HashOf(h) in answers && IsLowered(h, CanonicalHash(answers).value.value)
  {
    FirstHashIsFirst(answers);
    if FirstHash(answers).Some? {
      var i :| FirstHashAt(answers, i) && FirstHash(answers) == Some(ToLower(answers[i].hash));
      assert HashOf(answers[i].hash) in answers;
      ToLowerMeaning(answers[i].hash, ToLower(answers[i].hash));
    }
  }
}
