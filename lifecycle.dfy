/**
 * The lifecycle manager's behaviour as functions on its State.
 *
 * onOperatorChangedEventAt suspends at `await contract.operator()`, at
 * `await this.startOperating(address)` and at `await operator.shutdown()`.
 * Each synchronous segment between those points is one function here:
 * OnOperatorRead (what runs once operator() has answered), FinishLaunch
 * (startOperating's outcome and the promise settlement) and FinishShutdown
 * (the deletion after shutdown). HandleEvent runs the three in sequence, as
 * the replay does; Replay and StartServer follow start() and
 * playbackPastOperatorChangedEvents.
 */
module Lifecycle {
  import opened Basics
  import opened Registry
  import Hex

  /** The branch onOperatorChangedEventAt takes. */
  datatype Action = Launch | Ignore | Abuse | Repeat | Handover

  function InitState(): State {
    State(map[], map[], [], multiset{}, multiset{}, 0)
  }

  /** communityIsRunning: create a pending handle if the address has none, then return the stored one. */
  function CommunityIsRunning(s: State, a: Addr): (r: (State, PromiseState))
    ensures r.0 == s.(promises := r.0.promises)
    ensures r.0.promises.Keys == s.promises.Keys + {a}
    ensures forall b :: b in s.promises ==> r.0.promises[b] == s.promises[b]
    ensures r.1 == r.0.promises[a]
    ensures a !in s.promises ==> r.1 == Pending
  {
    if a in s.promises then (s, s.promises[a])
    else (s.(promises := s.promises[a := Pending]), Pending)
  }

  /** Asking twice is the same as asking once. */
  lemma CommunityIsRunningIdempotent(s: State, a: Addr)
    ensures CommunityIsRunning(CommunityIsRunning(s, a).0, a) == CommunityIsRunning(s, a)
  {
  }

  /**
   * The segment after `await contract.operator()` answered `onChain`: the
   * decision table over (entry present, operator is us). The launch branch
   * creates the launching entry and the promise before its first await.
   */
  function OnOperatorRead(s: State, cfg: ServerConfig, a: Addr, onChain: Addr, now: int): (r: (State, Action))
    ensures r.1 == Launch <==> a !in s.communities && onChain == cfg.self
    ensures r.1 == Ignore <==> a !in s.communities && onChain != cfg.self
    ensures r.1 == Abuse <==> a in s.communities && !HasAttachedOperator(s.communities[a])
    ensures r.1 == Repeat <==> a in s.communities && HasAttachedOperator(s.communities[a]) && onChain == cfg.self
    ensures r.1 == Handover <==> a in s.communities && HasAttachedOperator(s.communities[a]) && onChain != cfg.self
    ensures r.1 in {Ignore, Abuse, Repeat} ==> r.0 == s
    ensures r.1 == Launch ==>
      && r.0.communities == s.communities[a := Launching(now)]
      && r.0.promises == CommunityIsRunning(s, a).0.promises
      && r.0.starting == s.starting + multiset{a}
      && r.0.trace == s.trace && r.0.stopping == s.stopping && r.0.built == s.built
    ensures r.1 == Handover ==>
      var h := s.communities[a].operator;
      r.0 == s.(trace := s.trace + [OperatorShutdown(a, h)], stopping := s.stopping + multiset{(a, h)})
  {
    var weShouldOperate := onChain == cfg.self;
    if a !in s.communities then
      if weShouldOperate then
        var launching := s.(communities := s.communities[a := Launching(now)]);
        var withPromise := CommunityIsRunning(launching, a).0;
        (withPromise.(starting := withPromise.starting + multiset{a}), Launch)
      else
        (s, Ignore)
    else
      var community := s.communities[a];
      if !HasAttachedOperator(community) then (s, Abuse)
      else if weShouldOperate then (s, Repeat)
      else
        var h := community.operator;
        (s.(trace := s.trace + [OperatorShutdown(a, h)], stopping := s.stopping + multiset{(a, h)}), Handover)
  }

  /** Whether startOperating gets as far as calling operator.start(config). */
  predicate CallsOperatorStart(cfg: ServerConfig, recheck: Option<Addr>, setup: SetupOutcome) {
    recheck == Some(cfg.self) && (setup.StartRejected? || setup.Started?)
  }

  /** Whether startOperating resolves: the re-read operator is us and the operator started. */
  predicate StartSucceeds(cfg: ServerConfig, recheck: Option<Addr>, setup: SetupOutcome) {
    recheck == Some(cfg.self) && setup.Started?
  }

  /**
   * startOperating: re-read the operator (recheck) and refuse unless it is
   * us, then build channel, store and operator and start it; on success the
   * running entry with its handle, the operator object numbered `id`.
   */
  function StartOperatingResult(cfg: ServerConfig, a: Addr, recheck: Option<Addr>, setup: SetupOutcome, id: nat): (r: Result<Entry, StartError>)
    ensures r.Ok? <==> recheck == Some(cfg.self) && setup.Started?
    ensures recheck.Some? && recheck.value != cfg.self ==> r == Err(NotForUs(recheck.value))
    ensures r.Ok? ==>
      && r.value.Running? && r.value.address == a
      && r.value.operator.id == id && r.value.operator.contract == a
      && r.value.operator.config == OperatorConfigFor(cfg.operatorConfig, a)
      && r.value.operator.storePath == StorePath(cfg.storeDir, a)
      && r.value.joinPartStreamId == r.value.operator.streamId == setup.joinPartStreamId
      && r.value.operator.contractAttached == setup.contractAttached
  {
    match recheck
    case None => Err(OperatorReadFailed)
    case Some(op) =>
      if op != cfg.self then Err(NotForUs(op))
      else
        match setup
        case ChannelUnavailable => Err(ChannelFailed)
        case StoreUnavailable => Err(StoreFailed)
        case StartRejected => Err(OperatorStartFailed)
        case Started(streamId, attached) =>
          var handle := OperatorHandle(id, a, OperatorConfigFor(cfg.operatorConfig, a), streamId, StorePath(cfg.storeDir, a), attached);
          Ok(Running(a, handle, streamId))
  }

  /**
   * startOperating's effect: the operator object constructed and its
   * start() called, and on success the entry written at `address`.
   */
  function StartOperating(s: State, cfg: ServerConfig, a: Addr, recheck: Option<Addr>, setup: SetupOutcome): (r: (State, Result<Entry, StartError>))
    ensures r.1 == StartOperatingResult(cfg, a, recheck, setup, s.built)
    ensures r.0.built == if CallsOperatorStart(cfg, recheck, setup) then s.built + 1 else s.built
    ensures r.0.trace == s.trace + (if CallsOperatorStart(cfg, recheck, setup) then [OperatorStart(a, OperatorConfigFor(cfg.operatorConfig, a))] else [])
    ensures r.0.communities == if r.1.Ok? then s.communities[a := r.1.value] else s.communities
    ensures r.0.promises == s.promises && r.0.starting == s.starting && r.0.stopping == s.stopping
  {
    var result := StartOperatingResult(cfg, a, recheck, setup, s.built);
    var traced := if CallsOperatorStart(cfg, recheck, setup)
      then s.(trace := s.trace + [OperatorStart(a, OperatorConfigFor(cfg.operatorConfig, a))], built := s.built + 1)
      else s;
    match result
    case Ok(community) => (traced.(communities := traced.communities[a := community]), result)
    case Err(_) => (traced, result)
  }

  /** The value a promise is settled with: the running entry, or the error. */
  function Outcome(result: Result<Entry, StartError>): PromiseState {
    match result
    case Ok(e) => Resolved(e)
    case Err(err) => Rejected(err)
  }

  /** setRunning(result) or setFailed(err) on the address's promise, if it is there. */
  function SettleAt(promises: map<Addr, PromiseState>, a: Addr, v: PromiseState): (r: map<Addr, PromiseState>)
    ensures r.Keys == promises.Keys
    ensures forall b :: b in promises && b != a ==> r[b] == promises[b]
    ensures a in promises ==> r[a] == Settle(promises[a], v)
  {
    if a in promises then promises[a := Settle(promises[a], v)] else promises
  }

  /**
   * The launch branch after `await this.startOperating(address)` settles:
   * the promise is resolved with the running entry or rejected with the
   * error; on failure the entry is left launching.
   */
  function FinishLaunch(s: State, cfg: ServerConfig, a: Addr, recheck: Option<Addr>, setup: SetupOutcome): (r: State)
    ensures r.starting == s.starting - multiset{a} && r.stopping == s.stopping
    ensures r.built == if CallsOperatorStart(cfg, recheck, setup) then s.built + 1 else s.built
    ensures r.promises.Keys == s.promises.Keys
    ensures r.trace == s.trace + (if CallsOperatorStart(cfg, recheck, setup) then [OperatorStart(a, OperatorConfigFor(cfg.operatorConfig, a))] else [])
    ensures r.communities ==
      if StartOperatingResult(cfg, a, recheck, setup, s.built).Ok?
      then s.communities[a := StartOperatingResult(cfg, a, recheck, setup, s.built).value]
      else s.communities
    ensures forall b :: b in s.promises && b != a ==> r.promises[b] == s.promises[b]
    ensures a in s.promises ==>
      r.promises[a] == Settle(s.promises[a], Outcome(StartOperatingResult(cfg, a, recheck, setup, s.built)))
  {
    var (started, result) := StartOperating(s, cfg, a, recheck, setup);
    var settled := SettleAt(started.promises, a, Outcome(result));
    started.(promises := settled, starting := started.starting - multiset{a})
  }

  /** The handover branch after `await community.operator.shutdown()`: on success `delete this.communities[address]`. */
  function FinishShutdown(s: State, a: Addr, h: OperatorHandle, ok: bool): (r: State)
    ensures r.communities == if ok then s.communities - {a} else s.communities
    ensures r.promises == s.promises && r.trace == s.trace && r.starting == s.starting && r.built == s.built
    ensures r.stopping == s.stopping - multiset{(a, h)}
  {
    var resumed := s.(stopping := s.stopping - multiset{(a, h)});
    if ok then resumed.(communities := resumed.communities - {a}) else resumed
  }

  /** What the chain and the collaborators answer while one event is handled. */
  datatype Env = Env(
    read: Option<Addr>,      // operator() at line 105; None when the read or getAddress fails
    recheck: Option<Addr>,   // operator() again inside startOperating
    setup: SetupOutcome,
    shutdownOk: bool,
    now: int)

  datatype HandlerError = ReadFailed | ShutdownFailed

  /** The calls an event handler may issue: operator start and operator shutdown. */
  predicate IsHandlerCall(c: Call) {
    c.OperatorStart? || c.OperatorShutdown?
  }

  /** `after` is `before` followed by handler calls only. */
  ghost predicate AppendsHandlerCalls(before: seq<Call>, after: seq<Call>) {
    |after| >= |before| && after[..|before|] == before
    && forall i :: |before| <= i < |after| ==> IsHandlerCall(after[i])
  }

  /**
   * onOperatorChangedEventAt run to completion with nothing interleaved.
   * Errors from startOperating are caught inside; a failed read or a failed
   * shutdown rejects the handler.
   */
  function HandleEvent(s: State, cfg: ServerConfig, a: Addr, env: Env): (r: (State, Result<Action, HandlerError>))
    ensures env.read.None? ==> r == (s, Err(ReadFailed))
    ensures r.1 == Err(ShutdownFailed) ==> r.0.communities == s.communities
    ensures r.0.starting == s.starting && r.0.stopping == s.stopping
    ensures r.0.promises.Keys >= s.promises.Keys
  {
    match env.read
    case None => (s, Err(ReadFailed))
    case Some(onChain) =>
      var (s1, action) := OnOperatorRead(s, cfg, a, onChain, env.now);
      if action == Launch then
        (FinishLaunch(s1, cfg, a, env.recheck, env.setup), Ok(Launch))
      else if action == Handover then
        var s2 := FinishShutdown(s1, a, s.communities[a].operator, env.shutdownOk);
        (s2, if env.shutdownOk then Ok(Handover) else Err(ShutdownFailed))
      else
        (s1, Ok(action))
  }

  /** A handler only ever appends operator start and shutdown calls to the trace. */
  lemma HandleEventAppendsHandlerCalls(s: State, cfg: ServerConfig, a: Addr, env: Env)
    ensures AppendsHandlerCalls(s.trace, HandleEvent(s, cfg, a, env).0.trace)
  {
    if env.read.Some? {
      var (s1, action) := OnOperatorRead(s, cfg, a, env.read.value, env.now);
      var added: seq<Call>;
      if action == Launch {
        added := if CallsOperatorStart(cfg, env.recheck, env.setup) then [OperatorStart(a, OperatorConfigFor(cfg.operatorConfig, a))] else [];
        assert HandleEvent(s, cfg, a, env).0.trace == s.trace + added;
      } else if action == Handover {
        added := [OperatorShutdown(a, s.communities[a].operator)];
        assert HandleEvent(s, cfg, a, env).0.trace == s.trace + added;
      } else {
        added := [];
        assert HandleEvent(s, cfg, a, env).0.trace == s.trace + added;
      }
      assert forall c :: c in added ==> IsHandlerCall(c);
    }
  }

  /** An OperatorChanged event naming some other operator for an address we do not hold changes nothing. */
  lemma ForeignAssignmentIgnored(s: State, cfg: ServerConfig, a: Addr, env: Env)
    requires a !in s.communities
    requires env.read.Some? && env.read.value != cfg.self
    ensures HandleEvent(s, cfg, a, env) == (s, Ok(Ignore))
  {
  }

  /** An entry without an attached operator absorbs every event: no state change, no start, no shutdown. */
  lemma LaunchingEntryAbsorbsEvents(s: State, cfg: ServerConfig, a: Addr, env: Env)
    requires a in s.communities && !HasAttachedOperator(s.communities[a])
    requires env.read.Some?
    ensures HandleEvent(s, cfg, a, env) == (s, Ok(Abuse))
  {
  }

  /**
   * A launch whose start fails leaves the entry launching, so every later
   * event for that address, including "operator is us" again, is absorbed
   * and never starts a second operator.
   */
  lemma FailedLaunchBlocksAddress(s: State, cfg: ServerConfig, a: Addr, env1: Env, env2: Env)
    requires a !in s.communities
    requires env1.read == Some(cfg.self) && !StartSucceeds(cfg, env1.recheck, env1.setup)
    requires env2.read.Some?
    ensures var s1 := HandleEvent(s, cfg, a, env1).0;
      && s1.communities == s.communities[a := Launching(env1.now)]
      && s1.promises[a] == Settle(CommunityIsRunning(s, a).1, Rejected(StartOperatingResult(cfg, a, env1.recheck, env1.setup, s.built).error))
      && HandleEvent(s1, cfg, a, env2) == (s1, Ok(Abuse))
  {
    var s1 := HandleEvent(s, cfg, a, env1).0;
    assert a in s1.communities && s1.communities[a] == Launching(env1.now);
  }

  /** A launch whose start succeeds: one operator.start call, the running entry stored, the promise settled with it. */
  lemma SuccessfulLaunch(s: State, cfg: ServerConfig, a: Addr, env: Env)
    requires a !in s.communities && env.read == Some(cfg.self)
    requires StartSucceeds(cfg, env.recheck, env.setup)
    ensures var (s1, r1) := HandleEvent(s, cfg, a, env);
      var e := StartOperatingResult(cfg, a, env.recheck, env.setup, s.built).value;
      && r1 == Ok(Launch) && e.operator.id == s.built && s1.built == s.built + 1
      && s1.communities == s.communities[a := e]
      && s1.trace == s.trace + [OperatorStart(a, OperatorConfigFor(cfg.operatorConfig, a))]
      && s1.promises == s.promises[a := Settle(CommunityIsRunning(s, a).1, Resolved(e))]
  {
  }

  /** A handover whose shutdown succeeds: one shutdown call on the running handle, then only that entry removed. */
  lemma SuccessfulHandover(s: State, cfg: ServerConfig, a: Addr, env: Env)
    requires a in s.communities && HasAttachedOperator(s.communities[a])
    requires env.read.Some? && env.read.value != cfg.self && env.shutdownOk
    ensures var (s1, r1) := HandleEvent(s, cfg, a, env);
      && r1 == Ok(Handover)
      && s1.communities == s.communities - {a}
      && s1.trace == s.trace + [OperatorShutdown(a, s.communities[a].operator)]
      && s1.promises == s.promises
  {
  }

  /**
   * Handover completeness: "operator is us" then "operator is someone else"
   * for an address we did not hold starts one operator, shuts exactly that
   * one down exactly once, and leaves no entry for the address; other
   * addresses keep their entries.
   */
  lemma HandoverCompleteness(s: State, cfg: ServerConfig, a: Addr, env1: Env, env2: Env)
    requires a !in s.communities
    requires env1.read == Some(cfg.self) && env1.recheck == Some(cfg.self)
    requires env1.setup.Started? && env1.setup.contractAttached
    requires env2.read.Some? && env2.read.value != cfg.self && env2.shutdownOk
    ensures var (s1, r1) := HandleEvent(s, cfg, a, env1);
      var (s2, r2) := HandleEvent(s1, cfg, a, env2);
      var h := s1.communities[a].operator;
      && r1 == Ok(Launch) && r2 == Ok(Handover)
      && h.contract == a && h.streamId == env1.setup.joinPartStreamId
      && s2.trace == s.trace + [OperatorStart(a, h.config), OperatorShutdown(a, h)]
      && s2.communities == s.communities
      && a !in s2.communities
      && s2.promises[a] == Settle(CommunityIsRunning(s, a).1, Resolved(s1.communities[a]))
  {
    SuccessfulLaunch(s, cfg, a, env1);
    var s1 := HandleEvent(s, cfg, a, env1).0;
    SuccessfulHandover(s1, cfg, a, env2);
    assert s.communities[a := s1.communities[a]] - {a} == s.communities;
  }

  /**
   * The promise table is never pruned: after a launch, a handover and a
   * relaunch that fails, communityIsRunning still answers with the first
   * launch's settled value, not the new failure, while the address is left
   * launching.
   */
  lemma {:induction false} RelaunchKeepsFirstPromise(s: State, cfg: ServerConfig, a: Addr, env1: Env, env2: Env, env3: Env)
    requires a !in s.communities
    requires env1.read == Some(cfg.self) && StartSucceeds(cfg, env1.recheck, env1.setup) && env1.setup.contractAttached
    requires env2.read.Some? && env2.read.value != cfg.self && env2.shutdownOk
    requires env3.read == Some(cfg.self) && !StartSucceeds(cfg, env3.recheck, env3.setup)
    ensures var s1 := HandleEvent(s, cfg, a, env1).0;
      var s3 := HandleEvent(HandleEvent(s1, cfg, a, env2).0, cfg, a, env3).0;
      && a in s3.communities && s3.communities[a] == Launching(env3.now)
      && CommunityIsRunning(s3, a).1 == CommunityIsRunning(s1, a).1
      && (a !in s.promises ==> CommunityIsRunning(s1, a).1 == Resolved(StartOperatingResult(cfg, a, env1.recheck, env1.setup, s.built).value))
  {
    SuccessfulLaunch(s, cfg, a, env1);
    var s1 := HandleEvent(s, cfg, a, env1).0;
    assert HasAttachedOperator(s1.communities[a]);
    SuccessfulHandover(s1, cfg, a, env2);
    var s2 := HandleEvent(s1, cfg, a, env2).0;
    FailedLaunchBlocksAddress(s2, cfg, a, env3, env3);
    assert s1.promises[a] != Pending;
  }

  /**
   * The chain and collaborators as seen during replay. Every replayed log
   * is handled against the chain as it is by then, so the answers are
   * given per position in the fetched list: the operator read, the
   * re-check, the setup, the shutdown and the clock may all differ from
   * one log to the next, including for two logs of the same contract.
   */
  datatype World = World(
    getLogs: Filter -> Option<seq<Log>>,
    canon: string -> Option<Addr>,       // ethers getAddress; None when it throws
    answers: nat -> Env)                 // what handling the log at that position sees

  datatype ReplayError =
    | TopicPadFailed(padError: Hex.PadError)
    | GetLogsFailed
    | BadLogAddress(logAddress: string)
    | EventFailed(address: Addr, cause: HandlerError)

  /** One historical log: canonicalise its address, then handle it fully; a failure is rethrown. */
  function ReplayOne(s: State, cfg: ServerConfig, log: Log, i: nat, w: World): (r: (State, Result<(), ReplayError>))
  {
    match w.canon(log.address)
    case None => (s, Err(BadLogAddress(log.address)))
    case Some(a) =>
      var (s1, res) := HandleEvent(s, cfg, a, w.answers(i));
      if res.Err? then (s1, Err(EventFailed(a, res.error))) else (s1, Ok(()))
  }

  /** What replaying one log at a position does: the state after it, and whether it succeeded. */
  type Step = (State, Log, nat) -> (State, Result<(), ReplayError>)

  /** A replay loop over an arbitrary step from position `i`: logs in list order, stopping at the first failure. */
  function RunSteps(step: Step, s: State, logs: seq<Log>, i: nat): (State, Result<(), ReplayError>)
    decreases |logs|
  {
    if logs == [] then (s, Ok(()))
    else
      var (s1, res) := step(s, logs[0], i);
      if res.Err? then (s1, res) else RunSteps(step, s1, logs[1..], i + 1)
  }

  /** The replay loop from position `i` of the fetched list. */
  function ReplayLogs(s: State, cfg: ServerConfig, logs: seq<Log>, w: World, i: nat): (State, Result<(), ReplayError>)
  {
    RunSteps((st: State, log: Log, j: nat) => ReplayOne(st, cfg, log, j, w), s, logs, i)
  }

  /** The replay of a non-empty list: its first log, then, if that succeeded, the rest. */
  lemma ReplayLogsUnfold(s: State, cfg: ServerConfig, logs: seq<Log>, w: World, i: nat)
    requires logs != []
    ensures var step := ReplayOne(s, cfg, logs[0], i, w);
      ReplayLogs(s, cfg, logs, w, i) == if step.1.Err? then step else ReplayLogs(step.0, cfg, logs[1..], w, i + 1)
  {
  }

  /** Running any step over a concatenation: the first part, then, only if it succeeded, the second from where it left off. */
  lemma {:induction false} RunStepsAppend(step: Step, s: State, first: seq<Log>, rest: seq<Log>, i: nat)
    ensures var r := RunSteps(step, s, first, i);
      RunSteps(step, s, first + rest, i) == if r.1.Err? then r else RunSteps(step, r.0, rest, i + |first|)
    decreases |first|
  {
    if first == [] {
      assert first + rest == rest;
    } else {
      assert (first + rest)[0] == first[0];
      assert (first + rest)[1..] == first[1..] + rest;
      var (s1, res) := step(s, first[0], i);
      if res.Ok? {
        RunStepsAppend(step, s1, first[1..], rest, i + 1);
      }
    }
  }

  /** Running any step over two logs that both succeed ends where the second left off. */
  lemma RunStepsCompose(step: Step, s: State, x: Log, y: Log, i: nat, s1: State, s2: State)
    requires step(s, x, i) == (s1, Ok(())) && step(s1, y, i + 1) == (s2, Ok(()))
    ensures RunSteps(step, s, [x, y], i) == (s2, Ok(()))
  {
    assert [x, y][1..] == [y] && [y][1..] == [];
    assert RunSteps(step, s1, [y], i + 1) == RunSteps(step, s2, [], i + 2);
  }

  /**
   * Replaying a concatenation is replaying the first part and, only if it
   * succeeded, the second part from where the first left off: no log after
   * a failing one is processed, and logs are handled in list order.
   */
  lemma ReplayLogsAppend(s: State, cfg: ServerConfig, first: seq<Log>, rest: seq<Log>, w: World, i: nat)
    ensures var r := ReplayLogs(s, cfg, first, w, i);
      ReplayLogs(s, cfg, first + rest, w, i) == if r.1.Err? then r else ReplayLogs(r.0, cfg, rest, w, i + |first|)
  {
    RunStepsAppend((st: State, log: Log, j: nat) => ReplayOne(st, cfg, log, j, w), s, first, rest, i);
  }

  /** One replayed log issues handler calls only and leaves no task suspended. */
  lemma ReplayOneIssuesOnlyHandlerCalls(s: State, cfg: ServerConfig, log: Log, i: nat, w: World)
    ensures var r := ReplayOne(s, cfg, log, i, w).0;
      && AppendsHandlerCalls(s.trace, r.trace)
      && r.starting == s.starting && r.stopping == s.stopping
  {
    if w.canon(log.address).Some? {
      HandleEventAppendsHandlerCalls(s, cfg, w.canon(log.address).value, w.answers(i));
    }
  }

  /** Appending handler calls twice appends handler calls. */
  lemma AppendsHandlerCallsTransitive(t0: seq<Call>, t1: seq<Call>, t2: seq<Call>)
    requires AppendsHandlerCalls(t0, t1) && AppendsHandlerCalls(t1, t2)
    ensures AppendsHandlerCalls(t0, t2)
  {
    assert t2[..|t0|] == t1[..|t1|][..|t0|];
    forall k | |t0| <= k < |t2| ensures IsHandlerCall(t2[k]) {
      if k < |t1| { assert t2[k] == t1[k]; }
    }
  }

  lemma {:induction false} ReplayLogsIssuesOnlyHandlerCalls(s: State, cfg: ServerConfig, logs: seq<Log>, w: World, i: nat)
    ensures var r := ReplayLogs(s, cfg, logs, w, i).0;
      && AppendsHandlerCalls(s.trace, r.trace)
      && r.starting == s.starting && r.stopping == s.stopping
    decreases |logs|
  {
    if logs == [] {
      assert ReplayLogs(s, cfg, logs, w, i).0 == s;
    } else {
      var step := ReplayOne(s, cfg, logs[0], i, w);
      ReplayOneIssuesOnlyHandlerCalls(s, cfg, logs[0], i, w);
      if step.1.Err? {
        assert ReplayLogs(s, cfg, logs, w, i).0 == step.0;
      } else {
        assert ReplayLogs(s, cfg, logs, w, i) == ReplayLogs(step.0, cfg, logs[1..], w, i + 1);
        ReplayLogsIssuesOnlyHandlerCalls(step.0, cfg, logs[1..], w, i + 1);
        AppendsHandlerCallsTransitive(s.trace, step.0.trace, ReplayLogs(step.0, cfg, logs[1..], w, i + 1).0.trace);
      }
    }
  }

  /** The log at position `j` is for an address we do not hold, and the chain then names another operator for it. */
  predicate ForeignLog(s: State, cfg: ServerConfig, log: Log, w: World, j: nat) {
    && w.canon(log.address).Some? && w.canon(log.address).value !in s.communities
    && w.answers(j).read.Some? && w.answers(j).read.value != cfg.self
  }

  /**
   * Replay of logs none of whose contracts currently name us as operator,
   * from a registry that holds none of them, changes neither the registry
   * nor the promise table and calls no operator.
   */

  lemma {:induction false} ReplayOfForeignLogs(s: State, cfg: ServerConfig, logs: seq<Log>, w: World, i: nat)
    requires forall k :: 0 <= k < |logs| ==> ForeignLog(s, cfg, logs[k], w, i + k)
    ensures ReplayLogs(s, cfg, logs, w, i) == (s, Ok(()))
    decreases |logs|
  {
    if logs != [] {
      assert ForeignLog(s, cfg, logs[0], w, i + 0);
      ForeignAssignmentIgnored(s, cfg, w.canon(logs[0].address).value, w.answers(i));
      forall k | 0 <= k < |logs[1..]| ensures ForeignLog(s, cfg, logs[1..][k], w, i + 1 + k) {
        assert logs[1..][k] == logs[k + 1] && i + 1 + k == i + (k + 1);
        assert ForeignLog(s, cfg, logs[k + 1], w, i + (k + 1));
      }
      ReplayOfForeignLogs(s, cfg, logs[1..], w, i + 1);
    }
  }

  /** Replaying two logs that both succeed ends where the second left off. */
  lemma ReplayLogsCompose(s: State, cfg: ServerConfig, x: Log, y: Log, w: World, i: nat, s1: State, s2: State)
    requires ReplayOne(s, cfg, x, i, w) == (s1, Ok(())) && ReplayOne(s1, cfg, y, i + 1, w) == (s2, Ok(()))
    ensures ReplayLogs(s, cfg, [x, y], w, i) == (s2, Ok(()))
  {
    RunStepsCompose((st: State, log: Log, j: nat) => ReplayOne(st, cfg, log, j, w), s, x, y, i, s1, s2);
  }

  lemma AppendTwo<T>(t: seq<T>, x: T, y: T)
    ensures t + [x] + [y] == t + [x, y]
  {
  }

  lemma AddThenRemove<K, V>(m: map<K, V>, k: K, v: V)
    requires k !in m
    ensures m[k := v] - {k} == m
  {
  }

  /** A replayed log that makes us operator of an address we do not hold launches it, as a live event would. */
  lemma ReplayOneLaunches(s: State, cfg: ServerConfig, log: Log, i: nat, w: World, a: Addr) returns (r: State)
    requires a !in s.communities && w.canon(log.address) == Some(a)
    requires w.answers(i).read == Some(cfg.self) && StartSucceeds(cfg, w.answers(i).recheck, w.answers(i).setup)
    ensures ReplayOne(s, cfg, log, i, w) == (r, Ok(()))
    ensures var e := StartOperatingResult(cfg, a, w.answers(i).recheck, w.answers(i).setup, s.built).value;
      && r.communities == s.communities[a := e]
      && r.trace == s.trace + [OperatorStart(a, e.operator.config)]
  {
    SuccessfulLaunch(s, cfg, a, w.answers(i));
    r := HandleEvent(s, cfg, a, w.answers(i)).0;
  }

  /** A replayed log that names someone else for a running address hands it over, as a live event would. */
  lemma ReplayOneHandsOver(s: State, cfg: ServerConfig, log: Log, i: nat, w: World, a: Addr) returns (r: State)
    requires a in s.communities && HasAttachedOperator(s.communities[a]) && w.canon(log.address) == Some(a)
    requires w.answers(i).read.Some? && w.answers(i).read.value != cfg.self && w.answers(i).shutdownOk
    ensures ReplayOne(s, cfg, log, i, w) == (r, Ok(()))
    ensures r.communities == s.communities - {a}
    ensures r.trace == s.trace + [OperatorShutdown(a, s.communities[a].operator)]
  {
    SuccessfulHandover(s, cfg, a, w.answers(i));
    r := HandleEvent(s, cfg, a, w.answers(i)).0;
  }

  /** The two replay steps of ReplayOfChangingOperator, at positions `i` and `i + 1`. */
  lemma LaunchThenHandover(s: State, cfg: ServerConfig, w: World, first: Log, second: Log, a: Addr, i: nat) returns (r: State)
    requires a !in s.communities
    requires w.canon(first.address) == Some(a) && w.canon(second.address) == Some(a)
    requires w.answers(i).read == Some(cfg.self) && StartSucceeds(cfg, w.answers(i).recheck, w.answers(i).setup)
    requires w.answers(i).setup.contractAttached
    requires w.answers(i + 1).read.Some? && w.answers(i + 1).read.value != cfg.self && w.answers(i + 1).shutdownOk
    ensures var e := StartOperatingResult(cfg, a, w.answers(i).recheck, w.answers(i).setup, s.built).value;
      && ReplayLogs(s, cfg, [first, second], w, i) == (r, Ok(()))
      && r.communities == s.communities[a := e] - {a}
      && r.trace == s.trace + [OperatorStart(a, e.operator.config)] + [OperatorShutdown(a, e.operator)]
  {
    var s1 := ReplayOneLaunches(s, cfg, first, i, w, a);
    r := ReplayOneHandsOver(s1, cfg, second, i + 1, w, a);
    ReplayLogsCompose(s, cfg, first, second, w, i, s1, r);
  }

  /**
   * The chain may move on while the replay runs: two logs of one contract,
   * the first handled while we are its operator and the second after it
   * has named someone else, launch and then hand over, leaving the
   * registry as it was.
   */
  lemma ReplayOfChangingOperator(s: State, cfg: ServerConfig, w: World, first: Log, second: Log, a: Addr)
    requires a !in s.communities
    requires w.canon(first.address) == Some(a) && w.canon(second.address) == Some(a)
    requires w.answers(0).read == Some(cfg.self) && w.answers(0).recheck == Some(cfg.self)
    requires w.answers(0).setup.Started? && w.answers(0).setup.contractAttached
    requires w.answers(1).read.Some? && w.answers(1).read.value != cfg.self && w.answers(1).shutdownOk
    ensures var (r, res) := ReplayLogs(s, cfg, [first, second], w, 0);
      var h := StartOperatingResult(cfg, a, Some(cfg.self), w.answers(0).setup, s.built).value.operator;
      && res.Ok?
      && r.communities == s.communities
      && r.trace == s.trace + [OperatorStart(a, h.config), OperatorShutdown(a, h)]
  {
    var e := StartOperatingResult(cfg, a, Some(cfg.self), w.answers(0).setup, s.built).value;
    var r := LaunchThenHandover(s, cfg, w, first, second, a, 0);
    AppendTwo(s.trace, OperatorStart(a, e.operator.config), OperatorShutdown(a, e.operator));
    AddThenRemove(s.communities, a, e);
  }

  /** playbackPastOperatorChangedEvents: build the filter, fetch the logs, replay them. */
  function Replay(s: State, cfg: ServerConfig, w: World): (r: (State, Result<(), ReplayError>))
  {
    match ReplayFilter(cfg)
    case Err(e) => (s, Err(TopicPadFailed(e)))
    case Ok(f) =>
      var fetched := s.(trace := s.trace + [GetLogs(f)]);
      match w.getLogs(f)
      case None => (fetched, Err(GetLogsFailed))
      case Some(logs) => ReplayLogs(fetched, cfg, logs, w, 0)
  }

  /** start(): the replay, then, only if it completed, the live subscription. */
  function StartServer(s: State, cfg: ServerConfig, w: World): (r: (State, Result<(), ReplayError>))
  {
    var (replayed, res) := Replay(s, cfg, w);
    if res.Err? then (replayed, res)
    else (replayed.(trace := replayed.trace + [Subscribe(LiveFilter(cfg))]), res)
  }

  /**
   * start() fetches history with the replay filter before anything else,
   * handles every replayed log before subscribing, and subscribes (to the
   * unrestricted live filter, once, as its last call) exactly when the
   * replay completed.
   */
  lemma StartReplaysBeforeSubscribing(s: State, cfg: ServerConfig, w: World)
    ensures var (r, res) := StartServer(s, cfg, w);
      && |r.trace| >= |s.trace| && r.trace[..|s.trace|] == s.trace
      && (ReplayFilter(cfg).Ok? ==> |r.trace| > |s.trace| && r.trace[|s.trace|] == GetLogs(ReplayFilter(cfg).value))
      && (res.Ok? <==> Replay(s, cfg, w).1.Ok?)
      && (res.Ok? ==> r.trace[|r.trace| - 1] == Subscribe(LiveFilter(cfg)))
      && (forall i :: |s.trace| <= i < |r.trace| && r.trace[i].Subscribe? ==> res.Ok? && i == |r.trace| - 1)
      && r.starting == s.starting && r.stopping == s.stopping
  {
    var (r, res) := StartServer(s, cfg, w);
    match ReplayFilter(cfg)
    case Err(_) =>
    case Ok(f) =>
      var fetched := s.(trace := s.trace + [GetLogs(f)]);
      match w.getLogs(f)
      case None =>
      case Some(logs) =>
        ReplayLogsIssuesOnlyHandlerCalls(fetched, cfg, logs, w, 0);
        assert Replay(s, cfg, w) == ReplayLogs(fetched, cfg, logs, w, 0);
        var replayed := ReplayLogs(fetched, cfg, logs, w, 0).0;
        assert replayed.trace[..|s.trace|] == fetched.trace[..|s.trace|] == s.trace;
        assert replayed.trace[|s.trace|] == fetched.trace[|s.trace|];
  }

  /**
   * The two-event history "self at block 10, someone else at block 20"
   * leaves the address unowned after replay: the replay filter returns
   * only the first event, and the chain read, which is of the current
   * operator, says someone else.
   */
  lemma ReplayOfSupersededAssignment(cfg: ServerConfig, w: World, log: Log, a: Addr, other: Addr)
    requires ReplayFilter(cfg).Ok? && w.getLogs(ReplayFilter(cfg).value) == Some([log])
    requires w.canon(log.address) == Some(a) && w.answers(0).read == Some(other) && other != cfg.self
    ensures var (r, res) := Replay(InitState(), cfg, w);
      res.Ok? && r.communities == map[] && r.promises == map[] && r.trace == [GetLogs(ReplayFilter(cfg).value)]
  {
    var f := ReplayFilter(cfg).value;
    assert ReplayFilter(cfg) == Ok(f);
    var fetched := InitState().(trace := InitState().trace + [GetLogs(f)]);
    assert Replay(InitState(), cfg, w) == ReplayLogs(fetched, cfg, [log], w, 0);
    ReplayOfForeignLogs(fetched, cfg, [log], w, 0);
  }
}
