/**
 * The read side of the HTTP API over a snapshot of the registry: the
 * per-community middleware that turns an address into a status or a pass
 * to the community's own routes, and the summary of every community.
 */
module Routers {
  import opened Basics
  import opened Registry
  import Lifecycle
  import Interleaving

  const BAD_ADDRESS: string := "Bad Ethereum address: "
  const NOT_OPERATING: string := "We're not operating the community @ "
  const BEING_STARTED: string := "Community is being started @ "

  datatype Body =
    | ErrorBody(error: string)
    | StartingBody(error: string, community: Entry)   // the launching entry echoed back

  /** What parseDataunionState does with a request: answer it, or call next() with the operator's state attached. */
  datatype Response =
    | Status(code: nat, body: Body)
    | PassThrough(operator: OperatorHandle, joinPartStreamId: string)

  /**
   * parseDataunionState: an address getAddress rejects is a 400 naming the
   * raw input; a canonical address without an entry is a 404, one whose
   * entry has no operator yet a 503 echoing the entry, and only a running
   * entry lets the request through, with its operator's stream id.
   */
  function ParseDataunionState(raw: string, canon: string -> Option<Addr>, communities: map<Addr, Entry>): (r: Response)
    ensures r.Status? && r.code == 400 <==> canon(raw).None?
    ensures r.Status? && r.code == 404 <==> canon(raw).Some? && canon(raw).value !in communities
    ensures r.Status? && r.code == 503 <==>
      canon(raw).Some? && canon(raw).value in communities && communities[canon(raw).value].Launching?
    ensures r.PassThrough? <==>
      canon(raw).Some? && canon(raw).value in communities && communities[canon(raw).value].Running?
    ensures r.Status? ==> r.code in {400, 404, 503}
    ensures r.Status? && r.code == 400 ==> r.body == ErrorBody(BAD_ADDRESS + raw)
    ensures r.Status? && r.code == 404 ==> r.body == ErrorBody(NOT_OPERATING + canon(raw).value)
    ensures r.Status? && r.code == 503 ==>
      r.body == StartingBody(BEING_STARTED + canon(raw).value, communities[canon(raw).value])
    ensures r.PassThrough? ==>
      var e := communities[canon(raw).value];
      r.operator == e.operator && r.joinPartStreamId == e.operator.streamId
  {
    match canon(raw)
    case None => Status(400, ErrorBody(BAD_ADDRESS + raw))
    case Some(a) =>
      if a !in communities then Status(404, ErrorBody(NOT_OPERATING + a))
      else
        var community := communities[a];
        if !community.Running? then Status(503, StartingBody(BEING_STARTED + a, community))
        else PassThrough(community.operator, community.operator.streamId)
  }

  /** While a launch of the address is in flight, status requests for it get 503. */
  lemma LaunchInFlightIs503(s: State, raw: string, canon: string -> Option<Addr>)
    requires Interleaving.Inv(s)
    requires canon(raw).Some? && canon(raw).value in s.starting
    ensures var r := ParseDataunionState(raw, canon, s.communities);
      r.Status? && r.code == 503
  {
    assert Interleaving.StartsLaunching(s);
  }

  /**
   * In every reachable state a request that passes through carries the
   * stream id stored in the entry, and the entry is the one of the address
   * asked for.
   */
  lemma PassThroughMatchesEntry(s: State, raw: string, canon: string -> Option<Addr>)
    requires Interleaving.Inv(s)
    requires ParseDataunionState(raw, canon, s.communities).PassThrough?
    ensures var a := canon(raw).value;
      var r := ParseDataunionState(raw, canon, s.communities);
      && r.joinPartStreamId == s.communities[a].joinPartStreamId
      && r.operator.contract == s.communities[a].address == a
  {
    assert Interleaving.RunningWellFormed(s);
  }

  /**
   * After an event handled to completion: a successful launch makes the
   * address pass through with the new operator's stream id, a failed one
   * leaves it at 503, and a successful handover makes it 404.
   */
  lemma StatusAfterEvent(s: State, cfg: ServerConfig, a: Addr, env: Lifecycle.Env, raw: string, canon: string -> Option<Addr>)
    requires canon(raw) == Some(a)
    ensures var (s1, res) := Lifecycle.HandleEvent(s, cfg, a, env);
      var r := ParseDataunionState(raw, canon, s1.communities);
      && (res == Ok(Lifecycle.Launch) && env.setup.Started? && env.recheck == Some(cfg.self) ==>
            r.PassThrough? && r.operator.contract == a && r.joinPartStreamId == env.setup.joinPartStreamId)
      && (res == Ok(Lifecycle.Launch) && !(env.setup.Started? && env.recheck == Some(cfg.self)) ==>
            r.Status? && r.code == 503)
      && (res == Ok(Lifecycle.Handover) ==> r.Status? && r.code == 404)
  {
    var (s1, res) := Lifecycle.HandleEvent(s, cfg, a, env);
    if res == Ok(Lifecycle.Launch) {
      var s0 := Lifecycle.OnOperatorRead(s, cfg, a, env.read.value, env.now).0;
      assert a in s0.communities && s0.communities[a] == Launching(env.now);
    }
  }

  /** The fields of an OperatorStats object the summary shows. */
  datatype MemberCount = MemberCount(total: int, active: int, inactive: int)
  datatype Stats = Stats(memberCount: MemberCount, totalEarnings: int)

  /** One community in the summary: its statistics, the join/part stream once running, and its state. */
  datatype Record = Record(stats: Stats, joinPartStreamId: Option<string>, state: string)

  datatype Summary = Summary(config: Config, dataunions: map<Addr, Record>)

  const ZERO_STATS: Stats := Stats(MemberCount(0, 0, 0), 0)

  /** The `state` string an entry carries. */
  function StateName(e: Entry): (name: string)
    ensures name == "launching" <==> e.Launching?
    ensures name == "running" <==> e.Running?
  {
    match e
    case Launching(_) => "launching"
    case Running(_, _, _) => "running"
  }

  /** What the summary says about one entry; `getStats` is the statistics of an operator's plasma state. */
  ghost predicate RecordDescribes(rec: Record, e: Entry, getStats: OperatorHandle -> Stats) {
    && rec.state == StateName(e)
    && (e.Launching? ==> rec.stats == ZERO_STATS && rec.joinPartStreamId.None?)
    && (e.Running? ==> rec.stats == getStats(e.operator) && rec.joinPartStreamId == Some(e.operator.streamId))
  }

  /** getSummary: the server's operator configuration and one record per registry address. */
  method GetSummary(communities: map<Addr, Entry>, operatorConfig: Config, getStats: OperatorHandle -> Stats) returns (summary: Summary)
    ensures summary.config == operatorConfig
    ensures summary.dataunions.Keys == communities.Keys
    ensures forall a :: a in communities ==> RecordDescribes(summary.dataunions[a], communities[a], getStats)
  {
    var dataunions: map<Addr, Record> := map[];
    var remaining := communities.Keys;
    while remaining != {}
      invariant remaining <= communities.Keys
      invariant dataunions.Keys == communities.Keys - remaining
      invariant forall a :: a in dataunions ==> RecordDescribes(dataunions[a], communities[a], getStats)
      decreases |remaining|
    {
      var a :| a in remaining;
      var c := communities[a];
      var record;
      if c.Running? {
        record := Record(getStats(c.operator), Some(c.operator.streamId), StateName(c));
      } else {
        record := Record(ZERO_STATS, None, StateName(c));
      }
      dataunions := dataunions[a := record];
      remaining := remaining - {a};
    }
    summary := Summary(operatorConfig, dataunions);
  }

  /**
   * The summary and the middleware agree: an address is listed exactly
   * when its requests are not a 404, and a listed community shows a
   * join/part stream exactly when its requests pass through, the same one.
   */
  lemma SummaryAgreesWithStatus(communities: map<Addr, Entry>, summary: Summary, getStats: OperatorHandle -> Stats,
                                raw: string, canon: string -> Option<Addr>)
    requires summary.dataunions.Keys == communities.Keys
    requires forall a :: a in communities ==> RecordDescribes(summary.dataunions[a], communities[a], getStats)
    requires canon(raw).Some?
    ensures var a := canon(raw).value;
      var r := ParseDataunionState(raw, canon, communities);
      && (a in summary.dataunions <==> !(r.Status? && r.code == 404))
      && (a in summary.dataunions ==>
            (summary.dataunions[a].joinPartStreamId.Some? <==> r.PassThrough?)
            && (r.PassThrough? ==> summary.dataunions[a].joinPartStreamId == Some(r.joinPartStreamId)))
  {
  }
}
