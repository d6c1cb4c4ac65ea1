/**
 * CommunityProductServer as a class: the registry and the promise table
 * are map fields that the methods update in place, the calls made on
 * collaborators are kept in a ghost trace, and the tasks suspended in
 * startOperating or shutdown() are ghost multisets. Each method that runs
 * a segment of the handler, the handler as a whole, the replay or start()
 * is proved to leave the object in the state the matching Lifecycle
 * function computes from the state before the call, so the lemmas of
 * Lifecycle are statements about these methods. FinishShutdown matches the
 * corrected Interleaving.FinishShutdownGuarded instead of the delete as
 * written; OnLiveEvent and Stop state their new state directly, and the
 * constructor yields the initial state.
 */
module Server {
  import opened Basics
  import opened Registry
  import opened Lifecycle
  import opened Interleaving

  class CommunityProductServer {
    const self: Addr                 // wallet.address
    const storeDir: string
    const operatorConfig: Config
    const eventTopic: string         // id("OperatorChanged(address)")

    var communities: map<Addr, Entry>
    var promises: map<Addr, PromiseState>
    var liveFilter: Option<Filter>   // the live subscription, once start() has made it

    ghost var trace: seq<Call>
    ghost var starting: multiset<Addr>
    ghost var stopping: multiset<(Addr, OperatorHandle)>
    var built: nat                   // MonoplasmaOperator objects constructed so far

    function Cfg(): ServerConfig {
      ServerConfig(self, storeDir, operatorConfig, eventTopic)
    }

    ghost function Snapshot(): State
      reads this
    {
      State(communities, promises, trace, starting, stopping, built)
    }

    /** An absent operator configuration becomes the empty one; both tables start empty. */
    constructor (wallet: Addr, storeDir: string, operatorConfig: Option<Config>, eventTopic: string)
      ensures Cfg() == ServerConfig(wallet, storeDir, if operatorConfig.Some? then operatorConfig.value else map[], eventTopic)
      ensures Snapshot() == InitState() && liveFilter == None
    {
      this.self := wallet;
      this.storeDir := storeDir;
      this.operatorConfig := if operatorConfig.Some? then operatorConfig.value else map[];
      this.eventTopic := eventTopic;
      communities := map[];
      promises := map[];
      liveFilter := None;
      trace := [];
      starting := multiset{};
      stopping := multiset{};
      built := 0;
    }

    /** communityIsRunning: insert a pending handle if the address has none; answer the stored one. */
    method CommunityIsRunning(a: Addr) returns (p: PromiseState)
      modifies this
      ensures (Snapshot(), p) == Lifecycle.CommunityIsRunning(old(Snapshot()), a)
      ensures liveFilter == old(liveFilter)
    {
      if a !in promises {
        promises := promises[a := Pending];
      }
      p := promises[a];
    }

    /** The handler's segment once operator() has answered `onChain`. */
    method OnOperatorRead(a: Addr, onChain: Addr, now: int) returns (action: Action)
      modifies this
      ensures (Snapshot(), action) == Lifecycle.OnOperatorRead(old(Snapshot()), Cfg(), a, onChain, now)
      ensures liveFilter == old(liveFilter)
    {
      var weShouldOperate := onChain == self;
      if a !in communities {
        if weShouldOperate {
          communities := communities[a := Launching(now)];
          var _ := CommunityIsRunning(a);
          starting := starting + multiset{a};
          action := Launch;
        } else {
          action := Ignore;
        }
      } else {
        var community := communities[a];
        if !HasAttachedOperator(community) {
          action := Abuse;
        } else if weShouldOperate {
          action := Repeat;
        } else {
          trace := trace + [OperatorShutdown(a, community.operator)];
          stopping := stopping + multiset{(a, community.operator)};
          action := Handover;
        }
      }
    }

    /** startOperating: refuse unless the re-read operator is us, build and start the operator, store the running entry. */
    method StartOperating(a: Addr, recheck: Option<Addr>, setup: SetupOutcome) returns (result: Result<Entry, StartError>)
      modifies this
      ensures (Snapshot(), result) == Lifecycle.StartOperating(old(Snapshot()), Cfg(), a, recheck, setup)
      ensures liveFilter == old(liveFilter)
    {
      if recheck.None? {
        return Err(OperatorReadFailed);
      }
      if recheck.value != self {
        return Err(NotForUs(recheck.value));
      }
      if setup.ChannelUnavailable? {
        return Err(ChannelFailed);
      }
      if setup.StoreUnavailable? {
        return Err(StoreFailed);
      }
      var config := OperatorConfigFor(operatorConfig, a);
      var id := built;
      built := built + 1;
      trace := trace + [OperatorStart(a, config)];
      if setup.StartRejected? {
        return Err(OperatorStartFailed);
      }
      var operator := OperatorHandle(id, a, config, setup.joinPartStreamId, StorePath(storeDir, a), setup.contractAttached);
      var community := Running(a, operator, setup.joinPartStreamId);
      communities := communities[a := community];
      result := Ok(community);
    }

    /** The launch branch's resumption: settle the address's promise with startOperating's outcome. */
    method FinishLaunch(a: Addr, recheck: Option<Addr>, setup: SetupOutcome)
      modifies this
      ensures Snapshot() == Lifecycle.FinishLaunch(old(Snapshot()), Cfg(), a, recheck, setup)
      ensures liveFilter == old(liveFilter)
    {
      var result := StartOperating(a, recheck, setup);
      if a in promises {
        promises := promises[a := Settle(promises[a], Outcome(result))];
      }
      starting := starting - multiset{a};
    }

    /**
     * The handover branch's resumption after shutdown() of `h`, with the
     * delete guarded so that it removes only the entry that was shut down.
     */
    method FinishShutdown(a: Addr, h: OperatorHandle, ok: bool)
      modifies this
      ensures Snapshot() == FinishShutdownGuarded(old(Snapshot()), a, h, ok)
      ensures liveFilter == old(liveFilter)
    {
      stopping := stopping - multiset{(a, h)};
      if ok && a in communities && communities[a].Running? && communities[a].operator.id == h.id {
        communities := communities - {a};
      }
    }

    /** onOperatorChangedEventAt run to completion, with the chain's and collaborators' answers in `env`. */
    method OnOperatorChangedEventAt(a: Addr, env: Env) returns (r: Result<Action, HandlerError>)
      modifies this
      ensures (Snapshot(), r) == HandleEvent(old(Snapshot()), Cfg(), a, env)
      ensures liveFilter == old(liveFilter)
    {
      if env.read.None? {
        return Err(ReadFailed);
      }
      ghost var s0 := Snapshot();
      var action := OnOperatorRead(a, env.read.value, env.now);
      if action == Launch {
        FinishLaunch(a, env.recheck, env.setup);
        r := Ok(Launch);
      } else if action == Handover {
        var h := communities[a].operator;
        GuardHoldsWhenSequential(s0, Cfg(), a, env);
        FinishShutdown(a, h, env.shutdownOk);
        r := if env.shutdownOk then Ok(Handover) else Err(ShutdownFailed);
      } else {
        r := Ok(action);
      }
    }

    /** playbackPastOperatorChangedEvents: fetch the logs naming us, handle each in order, stop at the first failure. */
    method PlaybackPastOperatorChangedEvents(w: World) returns (res: Result<(), ReplayError>)
      modifies this
      ensures (Snapshot(), res) == Replay(old(Snapshot()), Cfg(), w)
      ensures liveFilter == old(liveFilter)
    {
      var filter := ReplayFilter(Cfg());
      if filter.Err? {
        return Err(TopicPadFailed(filter.error));
      }
      trace := trace + [GetLogs(filter.value)];
      var fetched := w.getLogs(filter.value);
      if fetched.None? {
        return Err(GetLogsFailed);
      }
      var logs := fetched.value;
      ghost var s1 := Snapshot();
      var i := 0;
      while i < |logs|
        invariant 0 <= i <= |logs|
        invariant ReplayLogs(Snapshot(), Cfg(), logs[i..], w, i) == ReplayLogs(s1, Cfg(), logs, w, 0)
        invariant liveFilter == old(liveFilter)
      {
        assert logs[i..][0] == logs[i] && logs[i..][1..] == logs[i + 1..];
        var address := w.canon(logs[i].address);
        if address.None? {
          return Err(BadLogAddress(logs[i].address));
        }
        var handled := OnOperatorChangedEventAt(address.value, w.answers(i));
        if handled.Err? {
          return Err(EventFailed(address.value, handled.error));
        }
        i := i + 1;
      }
      assert logs[i..] == [];
      res := Ok(());
    }

    /** start(): the replay, then, only if it completed, the subscription to the live filter. */
    method Start(w: World) returns (res: Result<(), ReplayError>)
      modifies this
      ensures (Snapshot(), res) == StartServer(old(Snapshot()), Cfg(), w)
      ensures liveFilter == if res.Ok? then Some(LiveFilter(Cfg())) else old(liveFilter)
    {
      res := PlaybackPastOperatorChangedEvents(w);
      if res.Ok? {
        trace := trace + [Subscribe(LiveFilter(Cfg()))];
        liveFilter := Some(LiveFilter(Cfg()));
      }
    }

    /**
     * The live subscription's callback for one log: canonicalise its
     * address and run the handler; the handler's failure is only logged,
     * so the result is dropped.
     */
    method OnLiveEvent(log: Log, canon: string -> Option<Addr>, env: Env)
      modifies this
      ensures canon(log.address).None? ==> Snapshot() == old(Snapshot())
      ensures canon(log.address).Some? ==> Snapshot() == HandleEvent(old(Snapshot()), Cfg(), canon(log.address).value, env).0
      ensures liveFilter == old(liveFilter)
    {
      var address := canon(log.address);
      if address.Some? {
        var _ := OnOperatorChangedEventAt(address.value, env);
      }
    }

    /** stop(): drop the live subscription; launches and handovers in flight are left to finish. */
    method Stop()
      modifies this
      ensures liveFilter == None && Snapshot() == old(Snapshot())
    {
      liveFilter := None;
    }
  }
}
