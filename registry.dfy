/**
 * The values the community lifecycle manager keeps and exchanges: registry
 * entries, operator handles, the promise table's states, chain log filters,
 * and the calls it makes on collaborators it does not own.
 */
module Registry {
  import opened Basics
  import Hex

  /** A canonical (checksummed) Ethereum address as returned by getAddress. */
  type Addr = string

  /** The operator configuration object; its values are opaque here. */
  type Config = map<string, string>

  const CONTRACT_ADDRESS_KEY: string := "contractAddress"

  /** The constants a manager is built with. */
  datatype ServerConfig = ServerConfig(
    self: Addr,               // wallet.address
    storeDir: string,
    operatorConfig: Config,
    eventTopic: string)       // keccak256 of "OperatorChanged(address)", computed by ethers

  /**
   * An operator process once constructed: which object it is, the contract
   * it serves, the configuration it was started with, its join/part
   * channel's stream id, its store directory, and whether it has attached
   * the contract object that the abuse check looks for. Two operators built
   * for one contract agree on everything but `id`.
   */
  datatype OperatorHandle = OperatorHandle(
    id: nat,                  // how many operators were constructed before this one
    contract: Addr,
    config: Config,
    streamId: string,
    storePath: string,
    contractAttached: bool)

  /** A registry entry; a missing entry is the third, "unowned", state. */
  datatype Entry =
    | Launching(eventDetectedAt: int)
    | Running(address: Addr, operator: OperatorHandle, joinPartStreamId: string)

  /** The test that decides between abuse mitigation and repeat/handover. */
  predicate HasAttachedOperator(e: Entry) {
    e.Running? && e.operator.contractAttached
  }

  datatype StartError =
    | OperatorReadFailed
    | NotForUs(onChain: Addr)
    | ChannelFailed
    | StoreFailed
    | OperatorStartFailed

  /** A communityIsRunning promise: settled at most once. */
  datatype PromiseState = Pending | Resolved(community: Entry) | Rejected(reason: StartError)

  /** A JavaScript promise ignores every settlement after the first. */
  function Settle(p: PromiseState, v: PromiseState): (r: PromiseState)
    ensures p.Pending? ==> r == v
    ensures !p.Pending? ==> r == p
  {
    if p.Pending? then v else p
  }

  /** What the collaborators do once the re-check of operator() has passed. */
  datatype SetupOutcome =
    | ChannelUnavailable                          // joinPartStream read or getStream failed
    | StoreUnavailable                            // the file store could not be opened
    | StartRejected                               // operator.start(config) rejected
    | Started(joinPartStreamId: string, contractAttached: bool)

  datatype BlockTag = Number(n: nat) | Latest

  datatype Filter = Filter(fromBlock: Option<BlockTag>, toBlock: Option<BlockTag>, topics: seq<string>)

  datatype Log = Log(address: string, topics: seq<string>)

  /** A log matches a filter when each topic the filter lists equals the log's topic at that position. */
  predicate Matches(f: Filter, log: Log) {
    |f.topics| <= |log.topics| && forall i :: 0 <= i < |f.topics| ==> f.topics[i] == log.topics[i]
  }

  /** Calls on collaborators, recorded in the order the manager issues them. */
  datatype Call =
    | GetLogs(filter: Filter)
    | Subscribe(filter: Filter)
    | OperatorStart(address: Addr, config: Config)
    | OperatorShutdown(address: Addr, operator: OperatorHandle)

  /**
   * The manager's state: the registry, the promise table, the trace of
   * calls, (for the step model) the launches and handovers whose
   * continuation is still suspended, and the number of operator objects
   * constructed so far, which gives each new one its identity.
   */
  datatype State = State(
    communities: map<Addr, Entry>,
    promises: map<Addr, PromiseState>,
    trace: seq<Call>,
    starting: multiset<Addr>,
    stopping: multiset<(Addr, OperatorHandle)>,
    built: nat)               // how many operators have been constructed

  /** Object.assign({}, operatorConfig, {contractAddress: address}). */
  function OperatorConfigFor(base: Config, a: Addr): (c: Config)
    ensures c.Keys == base.Keys + {CONTRACT_ADDRESS_KEY}
    ensures c[CONTRACT_ADDRESS_KEY] == a
    ensures forall k :: k in base && k != CONTRACT_ADDRESS_KEY ==> c[k] == base[k]
  {
    base[CONTRACT_ADDRESS_KEY := a]
  }

  /** The directory getStoreFor opens for a community: `${storeDir}/${address}`. */
  function StorePath(storeDir: string, a: Addr): (p: string)
    ensures |p| == |storeDir| + 1 + |a|
    ensures p[..|storeDir|] == storeDir && p[|storeDir|] == '/'
    ensures p[|storeDir| + 1..] == a
  {
    storeDir + "/" + a
  }

  /** Under one store directory, distinct communities never share a store. */
  lemma StorePathInjective(storeDir: string, a: Addr, b: Addr)
    requires StorePath(storeDir, a) == StorePath(storeDir, b)
    ensures a == b
  {
    assert a == StorePath(storeDir, a)[|storeDir| + 1..];
  }

  /** The replay filter's second topic: hexZeroPad(wallet.address, 32).toLowerCase(). */
  function ReplayTopic(self: Addr): (r: Result<string, Hex.PadError>)
    ensures r.Ok? <==> Hex.IsHexString(self) && |self| <= 66
  {
    match Hex.HexZeroPad(self, 32)
    case Ok(padded) => Ok(Hex.ToLower(padded))
    case Err(e) => Err(e)
  }

  /**
   * For a well-formed wallet address the topic is "0x", 24 zero digits and
   * the 40 address digits in lower case, all lower-case hex, denoting the
   * same number as the address, which fits in 20 bytes; reading back its low 40 digits gives the
   * lower-cased address.
   */
  lemma ReplayTopicShape(self: Addr)
    requires Hex.IsAddressString(self)
    ensures ReplayTopic(self).Ok?
    ensures var t := ReplayTopic(self).value;
      && |t| == 66 && t[..2] == "0x"
      && t[2..26] == Hex.Zeros(24)
      && t[26..] == Hex.ToLower(self[2..])
      && (forall i :: 2 <= i < 66 ==> Hex.IsLowerHexDigit(t[i]))
      && Hex.HexValue(t[2..]) == Hex.HexValue(self[2..])
      && Hex.HexValue(t[2..]) < Hex.Pow16(40)
      && "0x" + t[26..] == Hex.ToLower(self)
  {
    var padded := Hex.HexZeroPad(self, 32).value;
    var t := Hex.ToLower(padded);
    assert padded[2..26] == Hex.Zeros(24);
    assert padded[26..] == self[2..];
    Hex.LowerKeepsHexValue(padded[2..]);
    assert Hex.ToLower(padded[2..]) == t[2..];
    assert t[26..] == Hex.ToLower(self[2..]);
    assert t[2..26] == Hex.Zeros(24);
    assert forall i :: 2 <= i < 66 ==> t[i] == t[2..][i - 2];
    assert Hex.ToLower(padded[2..]) == Hex.ToLower(padded)[2..];
    assert "0x" + t[26..] == Hex.ToLower(self);
  }

  /** Two wallets get the same replay topic only if their addresses agree up to letter case. */
  lemma ReplayTopicDeterminesAddress(a: Addr, b: Addr)
    requires Hex.IsAddressString(a) && Hex.IsAddressString(b)
    requires ReplayTopic(a) == ReplayTopic(b)
    ensures Hex.ToLower(a) == Hex.ToLower(b)
  {
    ReplayTopicShape(a);
    ReplayTopicShape(b);
  }

  /** The historical query: blocks 1 to latest, OperatorChanged events naming this wallet. */
  function ReplayFilter(cfg: ServerConfig): (r: Result<Filter, Hex.PadError>)
    ensures r.Ok? <==> ReplayTopic(cfg.self).Ok?
    ensures r.Ok? ==> r.value.fromBlock == Some(Number(1)) && r.value.toBlock == Some(Latest)
    ensures r.Ok? ==> r.value.topics == [cfg.eventTopic, ReplayTopic(cfg.self).value]
  {
    match ReplayTopic(cfg.self)
    case Ok(t) => Ok(Filter(Some(Number(1)), Some(Latest), [cfg.eventTopic, t]))
    case Err(e) => Err(e)
  }

  /** The live subscription: every OperatorChanged event, whoever the new operator is. */
  function LiveFilter(cfg: ServerConfig): Filter {
    Filter(None, None, [cfg.eventTopic])
  }

  /**
   * The live filter accepts every OperatorChanged log, whatever address it
   * names; the replay filter accepts exactly those whose second topic is
   * this wallet's padded address.
   */
  lemma FilterScopes(cfg: ServerConfig, log: Log)
    requires |log.topics| >= 2 && log.topics[0] == cfg.eventTopic
    ensures Matches(LiveFilter(cfg), log)
    ensures ReplayFilter(cfg).Ok? ==>
      (Matches(ReplayFilter(cfg).value, log) <==> log.topics[1] == ReplayTopic(cfg.self).value)
  {
  }
}
