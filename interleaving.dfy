/**
 * Handlers for live events are not serialised: each is a task that runs
 * one synchronous segment at a time, and segments of different tasks
 * interleave at the await points. A Step is one such segment; Run applies
 * a schedule of them. The registry write of a launch sits in the same
 * segment as the absence check, which is what keeps startups single; the
 * delete after `await operator.shutdown()` does not re-check the entry,
 * which is what breaks it when two handovers overlap.
 */
module Interleaving {
  import opened Basics
  import opened Registry
  import opened Lifecycle

  datatype Step =
    | EventRead(a: Addr, onChain: Addr, now: int)                     // a handler resumes after operator()
    | StartSettled(a: Addr, recheck: Option<Addr>, setup: SetupOutcome) // a launch resumes after startOperating
    | ShutdownSettled(a: Addr, operator: OperatorHandle, ok: bool)     // a handover resumes after shutdown()
    | StatusAsked(a: Addr)                                             // an outside caller of communityIsRunning

  /** A continuation can only resume if its task is suspended. */
  predicate Enabled(s: State, step: Step) {
    match step
    case StartSettled(a, _, _) => a in s.starting
    case ShutdownSettled(a, h, _) => (a, h) in s.stopping
    case _ => true
  }

  /**
   * The handover's resumption with the delete guarded: only the entry that
   * still runs the very operator object that was shut down (the same `id`)
   * is removed, not whatever entry the address holds by then.
   */
  function FinishShutdownGuarded(s: State, a: Addr, h: OperatorHandle, ok: bool): (r: State)
    ensures r.communities ==
      if ok && a in s.communities && s.communities[a].Running? && s.communities[a].operator.id == h.id
      then s.communities - {a} else s.communities
    ensures r.promises == s.promises && r.trace == s.trace && r.starting == s.starting && r.built == s.built
    ensures r.stopping == s.stopping - multiset{(a, h)}
  {
    var resumed := s.(stopping := s.stopping - multiset{(a, h)});
    if ok && a in s.communities && s.communities[a].Running? && s.communities[a].operator.id == h.id
    then resumed.(communities := resumed.communities - {a})
    else resumed
  }

  /** In a handler run to completion the guard always holds: the fix changes nothing sequentially. */
  lemma GuardHoldsWhenSequential(s: State, cfg: ServerConfig, a: Addr, env: Env)
    requires env.read.Some? && OnOperatorRead(s, cfg, a, env.read.value, env.now).1 == Handover
    ensures var s1 := OnOperatorRead(s, cfg, a, env.read.value, env.now).0;
      var h := s.communities[a].operator;
      && FinishShutdownGuarded(s1, a, h, env.shutdownOk) == FinishShutdown(s1, a, h, env.shutdownOk)
      && HandleEvent(s, cfg, a, env).0 == FinishShutdownGuarded(s1, a, h, env.shutdownOk)
  {
  }

  /** One segment; `guarded` selects the corrected handover resumption. */
  function Apply(s: State, cfg: ServerConfig, step: Step, guarded: bool): State {
    match step
    case EventRead(a, onChain, now) => OnOperatorRead(s, cfg, a, onChain, now).0
    case StartSettled(a, recheck, setup) => FinishLaunch(s, cfg, a, recheck, setup)
    case ShutdownSettled(a, h, ok) =>
      if guarded then FinishShutdownGuarded(s, a, h, ok) else FinishShutdown(s, a, h, ok)
    case StatusAsked(a) => CommunityIsRunning(s, a).0
  }

  /** A schedule; a step whose task is not suspended is skipped. */
  function Run(s: State, cfg: ServerConfig, steps: seq<Step>, guarded: bool): State
    decreases |steps|
  {
    if steps == [] then s
    else Run(if Enabled(s, steps[0]) then Apply(s, cfg, steps[0], guarded) else s, cfg, steps[1..], guarded)
  }

  /**
   * At most one startOperating per address in flight; an address with a
   * launch in flight has a launching entry and a promise; a running entry
   * is stored under its own address, with an operator for that contract
   * and that operator's stream id; every operator stored or awaiting its
   * shutdown was constructed already.
   */
  ghost predicate Inv(s: State) {
    StartsSingle(s) && StartsLaunching(s) && RunningWellFormed(s) && IdsBuilt(s)
  }

  ghost predicate StartsSingle(s: State) {
    forall a :: s.starting[a] <= 1
  }

  ghost predicate StartsLaunching(s: State) {
    forall a :: a in s.starting ==> a in s.communities && s.communities[a].Launching? && a in s.promises
  }

  ghost predicate RunningWellFormed(s: State) {
    forall a :: a in s.communities && s.communities[a].Running? ==>
      && s.communities[a].address == a && s.communities[a].operator.contract == a
      && s.communities[a].joinPartStreamId == s.communities[a].operator.streamId
  }

  ghost predicate IdsBuilt(s: State) {
    && (forall a :: a in s.communities && s.communities[a].Running? ==> s.communities[a].operator.id < s.built)
    && (forall p :: p in s.stopping ==> p.1.id < s.built)
  }

  lemma InitSatisfiesInv()
    ensures Inv(InitState())
  {
  }

  lemma EventReadPreservesInv(s: State, cfg: ServerConfig, a: Addr, onChain: Addr, now: int)
    requires Inv(s)
    ensures Inv(OnOperatorRead(s, cfg, a, onChain, now).0)
  {
    var (r, action) := OnOperatorRead(s, cfg, a, onChain, now);
    if action == Launch {
      assert a !in s.starting;
      assert StartsSingle(r) by {
        forall b ensures r.starting[b] <= 1 {
          if b == a { assert r.starting[b] == 1; } else { assert r.starting[b] == s.starting[b]; }
        }
      }
      assert StartsLaunching(r) by {
        forall b | b in r.starting ensures b in r.communities && r.communities[b].Launching? && b in r.promises {
          if b != a { assert b in s.starting; }
        }
      }
      assert RunningWellFormed(r) by {
        forall b | b in r.communities && r.communities[b].Running?
          ensures r.communities[b].address == b && r.communities[b].joinPartStreamId == r.communities[b].operator.streamId
        {
          assert b != a && r.communities[b] == s.communities[b];
        }
      }
    }
  }

  lemma StartSettledPreservesInv(s: State, cfg: ServerConfig, a: Addr, recheck: Option<Addr>, setup: SetupOutcome)
    requires Inv(s) && a in s.starting
    ensures Inv(FinishLaunch(s, cfg, a, recheck, setup))
  {
    var r := FinishLaunch(s, cfg, a, recheck, setup);
    assert StartsSingle(r) by {
      forall b ensures r.starting[b] <= 1 {
        assert r.starting[b] <= s.starting[b];
      }
    }
    assert StartsLaunching(r) by {
      forall b | b in r.starting ensures b in r.communities && r.communities[b].Launching? && b in r.promises {
        assert b in s.starting && b != a;
      }
    }
  }

  lemma ShutdownSettledGuardedPreservesInv(s: State, a: Addr, h: OperatorHandle, ok: bool)
    requires Inv(s)
    ensures Inv(FinishShutdownGuarded(s, a, h, ok))
  {
    var r := FinishShutdownGuarded(s, a, h, ok);
    assert StartsLaunching(r) by {
      forall b | b in r.starting ensures b in r.communities && r.communities[b].Launching? && b in r.promises {
        assert b in s.starting;
      }
    }
  }

  lemma ApplyGuardedPreservesInv(s: State, cfg: ServerConfig, step: Step)
    requires Inv(s) && Enabled(s, step)
    ensures Inv(Apply(s, cfg, step, true))
  {
    match step
    case EventRead(a, onChain, now) => EventReadPreservesInv(s, cfg, a, onChain, now);
    case StartSettled(a, recheck, setup) => StartSettledPreservesInv(s, cfg, a, recheck, setup);
    case ShutdownSettled(a, h, ok) => ShutdownSettledGuardedPreservesInv(s, a, h, ok);
    case StatusAsked(a) =>
  }

  lemma {:induction false} RunGuardedPreservesInv(s: State, cfg: ServerConfig, steps: seq<Step>)
    requires Inv(s)
    ensures Inv(Run(s, cfg, steps, true))
    decreases |steps|
  {
    if steps != [] {
      var next := if Enabled(s, steps[0]) then Apply(s, cfg, steps[0], true) else s;
      if Enabled(s, steps[0]) {
        ApplyGuardedPreservesInv(s, cfg, steps[0]);
      }
      RunGuardedPreservesInv(next, cfg, steps[1..]);
    }
  }

  /** With the guarded delete, under every schedule, no address ever has two startups in flight. */
  lemma AtMostOneStartInFlight(cfg: ServerConfig, steps: seq<Step>, a: Addr)
    ensures var s := Run(InitState(), cfg, steps, true);
      s.starting[a] <= 1 && (a in s.starting ==> a in s.communities && s.communities[a].Launching?)
  {
    InitSatisfiesInv();
    RunGuardedPreservesInv(InitState(), cfg, steps);
  }

  /**
   * A launch that settles while an earlier handover of the same address
   * still awaits its operator's shutdown builds a new operator object, so
   * that handover's guarded delete keeps the new entry: an operator is
   * removed only by a handover that shut it down.
   */
  lemma RelaunchSurvivesEarlierShutdown(s: State, cfg: ServerConfig, a: Addr, h: OperatorHandle,
                                        recheck: Option<Addr>, setup: SetupOutcome, ok: bool)
    requires Inv(s) && (a, h) in s.stopping
    requires StartSucceeds(cfg, recheck, setup)
    ensures var s1 := FinishLaunch(s, cfg, a, recheck, setup);
      && a in s1.communities && s1.communities[a].operator.id != h.id
      && FinishShutdownGuarded(s1, a, h, ok).communities == s1.communities
  {
    assert h.id < s.built;
  }

  /**
   * Two "operator is us" events for an address with no entry, whatever
   * else is in flight: the first launches, the second sees the launching
   * entry and is absorbed; when the launch settles, operator.start has been
   * called once.
   */
  lemma ConcurrentLaunchStartsOnce(s: State, cfg: ServerConfig, a: Addr, now1: int, now2: int, setup: SetupOutcome)
    requires Inv(s) && a !in s.communities
    ensures var s1 := Apply(s, cfg, EventRead(a, cfg.self, now1), true);
      var s2 := Apply(s1, cfg, EventRead(a, cfg.self, now2), true);
      var s3 := Apply(s2, cfg, StartSettled(a, Some(cfg.self), setup), true);
      && OnOperatorRead(s, cfg, a, cfg.self, now1).1 == Launch
      && OnOperatorRead(s1, cfg, a, cfg.self, now2).1 == Abuse
      && s2 == s1 && s1.starting[a] == 1
      && Enabled(s2, StartSettled(a, Some(cfg.self), setup))
      && s3.starting[a] == 0
      && s3.trace == s.trace + (if setup.StartRejected? || setup.Started? then [OperatorStart(a, OperatorConfigFor(cfg.operatorConfig, a))] else [])
  {
    assert a !in s.starting;
  }

  /** The interleaving that defeats the unguarded delete. */
  function DoubleHandoverSchedule(cfg: ServerConfig, a: Addr, other: Addr, streamId: string): seq<Step> {
    var h := ScheduleHandle(cfg, a, streamId);
    [ EventRead(a, cfg.self, 0)                            // we are made operator: launch
    , StartSettled(a, Some(cfg.self), Started(streamId, true)) // running with handle h
    , EventRead(a, other, 1)                               // operator changed: handover, shutdown(h) awaited
    , EventRead(a, other, 2)                               // another change: entry still running, shutdown(h) again
    , ShutdownSettled(a, h, true)                          // first handover deletes the entry
    , EventRead(a, cfg.self, 3)                            // we are operator again: launch, startOperating awaited
    , ShutdownSettled(a, h, true)                          // second handover deletes the launching entry
    , EventRead(a, cfg.self, 4)                            // no entry: a second launch
    ]
  }

  lemma RunAt(s: State, cfg: ServerConfig, steps: seq<Step>, i: nat, guarded: bool)
    requires i < |steps|
    ensures Run(s, cfg, steps[i..], guarded) ==
      Run(if Enabled(s, steps[i]) then Apply(s, cfg, steps[i], guarded) else s, cfg, steps[i + 1..], guarded)
  {
    assert steps[i..][0] == steps[i];
    assert steps[i..][1..] == steps[i + 1..];
  }

  function EntryAt(s: State, a: Addr): Option<Entry> {
    if a in s.communities then Some(s.communities[a]) else None
  }

  /**
   * What the schedule's lemmas follow of a state: the entry at `a`, how
   * many launches of `a` and shutdowns of `h` are in flight, and how many
   * times shutdown() has been called on `h`.
   */
  ghost predicate Shape(s: State, a: Addr, h: OperatorHandle, entry: Option<Entry>, starts: nat, stops: nat, shutdowns: nat) {
    EntryAt(s, a) == entry && s.starting[a] == starts && s.stopping[(a, h)] == stops
    && multiset(s.trace)[OperatorShutdown(a, h)] == shutdowns
  }

  lemma AdvanceLaunch(s: State, cfg: ServerConfig, steps: seq<Step>, i: nat, guarded: bool,
                      a: Addr, h: OperatorHandle, now: int, starts: nat, stops: nat, shutdowns: nat) returns (next: State)
    requires i < |steps| && steps[i] == EventRead(a, cfg.self, now)
    requires Shape(s, a, h, None, starts, stops, shutdowns)
    ensures Run(s, cfg, steps[i..], guarded) == Run(next, cfg, steps[i + 1..], guarded)
    ensures Shape(next, a, h, Some(Launching(now)), starts + 1, stops, shutdowns) && next.built == s.built
  {
    RunAt(s, cfg, steps, i, guarded);
    next := Apply(s, cfg, steps[i], guarded);
  }

  lemma AdvanceStarted(s: State, cfg: ServerConfig, steps: seq<Step>, i: nat, guarded: bool,
                       a: Addr, h: OperatorHandle, streamId: string, entry: Option<Entry>, starts: nat, stops: nat, shutdowns: nat) returns (next: State)
    requires i < |steps| && steps[i] == StartSettled(a, Some(cfg.self), Started(streamId, true))
    requires h == ScheduleHandle(cfg, a, streamId) && s.built == 0
    requires Shape(s, a, h, entry, starts, stops, shutdowns) && starts > 0
    ensures Run(s, cfg, steps[i..], guarded) == Run(next, cfg, steps[i + 1..], guarded)
    ensures Shape(next, a, h, Some(Running(a, h, streamId)), starts - 1, stops, shutdowns)
  {
    RunAt(s, cfg, steps, i, guarded);
    next := Apply(s, cfg, steps[i], guarded);
    assert multiset(next.trace)[OperatorShutdown(a, h)] == shutdowns;
  }

  lemma AdvanceHandover(s: State, cfg: ServerConfig, steps: seq<Step>, i: nat, guarded: bool,
                        a: Addr, h: OperatorHandle, streamId: string, other: Addr, now: int, starts: nat, stops: nat, shutdowns: nat) returns (next: State)
    requires i < |steps| && steps[i] == EventRead(a, other, now) && other != cfg.self && h.contractAttached
    requires Shape(s, a, h, Some(Running(a, h, streamId)), starts, stops, shutdowns)
    ensures Run(s, cfg, steps[i..], guarded) == Run(next, cfg, steps[i + 1..], guarded)
    ensures Shape(next, a, h, Some(Running(a, h, streamId)), starts, stops + 1, shutdowns + 1)
  {
    RunAt(s, cfg, steps, i, guarded);
    next := Apply(s, cfg, steps[i], guarded);
    assert next.trace == s.trace + [OperatorShutdown(a, h)];
  }

  lemma AdvanceAbsorbed(s: State, cfg: ServerConfig, steps: seq<Step>, i: nat, guarded: bool,
                        a: Addr, h: OperatorHandle, onChain: Addr, now: int, since: int, starts: nat, stops: nat, shutdowns: nat)
    requires i < |steps| && steps[i] == EventRead(a, onChain, now)
    requires Shape(s, a, h, Some(Launching(since)), starts, stops, shutdowns)
    ensures Run(s, cfg, steps[i..], guarded) == Run(s, cfg, steps[i + 1..], guarded)
  {
    RunAt(s, cfg, steps, i, guarded);
  }

  lemma AdvanceShutdown(s: State, cfg: ServerConfig, steps: seq<Step>, i: nat, guarded: bool,
                        a: Addr, h: OperatorHandle, entry: Option<Entry>, starts: nat, stops: nat, shutdowns: nat) returns (next: State)
    requires i < |steps| && steps[i] == ShutdownSettled(a, h, true)
    requires Shape(s, a, h, entry, starts, stops, shutdowns) && stops > 0
    ensures Run(s, cfg, steps[i..], guarded) == Run(next, cfg, steps[i + 1..], guarded)
    ensures var deletes := !guarded || (entry.Some? && entry.value.Running? && entry.value.operator.id == h.id);
      Shape(next, a, h, if deletes then None else entry, starts, stops - 1, shutdowns)
  {
    RunAt(s, cfg, steps, i, guarded);
    next := Apply(s, cfg, steps[i], guarded);
  }

  /** The handle the schedule's launch produces: the first operator constructed. */
  function ScheduleHandle(cfg: ServerConfig, a: Addr, streamId: string): OperatorHandle {
    OperatorHandle(0, a, OperatorConfigFor(cfg.operatorConfig, a), streamId, StorePath(cfg.storeDir, a), true)
  }

  /** Steps 0-1 of the schedule: launch, then startOperating settles with a running operator. */
  lemma LaunchPhase(s: State, cfg: ServerConfig, a: Addr, streamId: string, steps: seq<Step>, i: nat, guarded: bool) returns (next: State)
    requires i + 2 <= |steps| && steps[i] == EventRead(a, cfg.self, 0) && steps[i + 1] == StartSettled(a, Some(cfg.self), Started(streamId, true))
    requires Shape(s, a, ScheduleHandle(cfg, a, streamId), None, 0, 0, 0) && s.built == 0
    ensures Run(s, cfg, steps[i..], guarded) == Run(next, cfg, steps[i + 2..], guarded)
    ensures Shape(next, a, ScheduleHandle(cfg, a, streamId), Some(Running(a, ScheduleHandle(cfg, a, streamId), streamId)), 0, 0, 0)
  {
    var h := ScheduleHandle(cfg, a, streamId);
    var s1 := AdvanceLaunch(s, cfg, steps, i, guarded, a, h, 0, 0, 0, 0);
    next := AdvanceStarted(s1, cfg, steps, i + 1, guarded, a, h, streamId, Some(Launching(0)), 1, 0, 0);
  }

  /** Steps 2-3: two operator changes while running; each calls shutdown() on the same handle. */
  lemma HandoverPhase(s: State, cfg: ServerConfig, a: Addr, other: Addr, streamId: string, guarded: bool) returns (next: State)
    requires other != cfg.self
    requires Shape(s, a, ScheduleHandle(cfg, a, streamId), Some(Running(a, ScheduleHandle(cfg, a, streamId), streamId)), 0, 0, 0)
    ensures var steps := DoubleHandoverSchedule(cfg, a, other, streamId);
      Run(s, cfg, steps[2..], guarded) == Run(next, cfg, steps[4..], guarded)
    ensures Shape(next, a, ScheduleHandle(cfg, a, streamId), Some(Running(a, ScheduleHandle(cfg, a, streamId), streamId)), 0, 2, 2)
  {
    var h := ScheduleHandle(cfg, a, streamId);
    var steps := DoubleHandoverSchedule(cfg, a, other, streamId);
    var s3 := AdvanceHandover(s, cfg, steps, 2, guarded, a, h, streamId, other, 1, 0, 0, 0);
    next := AdvanceHandover(s3, cfg, steps, 3, guarded, a, h, streamId, other, 2, 0, 1, 1);
  }

  /** Steps 4-5: the first shutdown settles and deletes the running entry; we are made operator again. */
  lemma RelaunchPhase(s: State, cfg: ServerConfig, a: Addr, other: Addr, streamId: string, guarded: bool) returns (next: State)
    requires Shape(s, a, ScheduleHandle(cfg, a, streamId), Some(Running(a, ScheduleHandle(cfg, a, streamId), streamId)), 0, 2, 2)
    ensures var steps := DoubleHandoverSchedule(cfg, a, other, streamId);
      Run(s, cfg, steps[4..], guarded) == Run(next, cfg, steps[6..], guarded)
    ensures Shape(next, a, ScheduleHandle(cfg, a, streamId), Some(Launching(3)), 1, 1, 2)
  {
    var h := ScheduleHandle(cfg, a, streamId);
    var steps := DoubleHandoverSchedule(cfg, a, other, streamId);
    var s5 := AdvanceShutdown(s, cfg, steps, 4, guarded, a, h, Some(Running(a, h, streamId)), 0, 2, 2);
    next := AdvanceLaunch(s5, cfg, steps, 5, guarded, a, h, 3, 0, 1, 2);
  }

  /** Steps 6-7 as written: the second shutdown deletes the launching entry, and the next event launches again. */
  lemma StaleDeletePhase(s: State, cfg: ServerConfig, a: Addr, other: Addr, streamId: string) returns (next: State)
    requires Shape(s, a, ScheduleHandle(cfg, a, streamId), Some(Launching(3)), 1, 1, 2)
    ensures var steps := DoubleHandoverSchedule(cfg, a, other, streamId);
      Run(s, cfg, steps[6..], false) == next
    ensures Shape(next, a, ScheduleHandle(cfg, a, streamId), Some(Launching(4)), 2, 0, 2)
  {
    var h := ScheduleHandle(cfg, a, streamId);
    var steps := DoubleHandoverSchedule(cfg, a, other, streamId);
    var s7 := AdvanceShutdown(s, cfg, steps, 6, false, a, h, Some(Launching(3)), 1, 1, 2);
    next := AdvanceLaunch(s7, cfg, steps, 7, false, a, h, 4, 1, 0, 2);
    assert steps[8..] == [];
  }

  /** Steps 6-7 with the guarded delete: the launching entry survives and absorbs the last event. */
  lemma GuardedDeletePhase(s: State, cfg: ServerConfig, a: Addr, other: Addr, streamId: string) returns (next: State)
    requires Shape(s, a, ScheduleHandle(cfg, a, streamId), Some(Launching(3)), 1, 1, 2)
    ensures var steps := DoubleHandoverSchedule(cfg, a, other, streamId);
      Run(s, cfg, steps[6..], true) == next
    ensures Shape(next, a, ScheduleHandle(cfg, a, streamId), Some(Launching(3)), 1, 0, 2)
  {
    var h := ScheduleHandle(cfg, a, streamId);
    var steps := DoubleHandoverSchedule(cfg, a, other, streamId);
    next := AdvanceShutdown(s, cfg, steps, 6, true, a, h, Some(Launching(3)), 1, 1, 2);
    AdvanceAbsorbed(next, cfg, steps, 7, true, a, h, cfg.self, 4, 3, 1, 0, 2);
    assert steps[8..] == [];
  }

  /**
   * As written (server.js:139-140), the schedule above leaves two
   * startOperating calls in flight for one address and has called
   * shutdown() twice on the same operator.
   */
  lemma AsWrittenDoubleHandoverStartsTwice(cfg: ServerConfig, a: Addr, other: Addr, streamId: string)
    requires other != cfg.self
    ensures var s := Run(InitState(), cfg, DoubleHandoverSchedule(cfg, a, other, streamId), false);
      var h := ScheduleHandle(cfg, a, streamId);
      && s.starting[a] == 2
      && multiset(s.trace)[OperatorShutdown(a, h)] == 2
      && !Inv(s)
  {
    var s0 := InitState();
    assert Shape(s0, a, ScheduleHandle(cfg, a, streamId), None, 0, 0, 0);
    var steps := DoubleHandoverSchedule(cfg, a, other, streamId);
    assert steps[0..] == steps;
    var s2 := LaunchPhase(s0, cfg, a, streamId, steps, 0, false);
    var s4 := HandoverPhase(s2, cfg, a, other, streamId, false);
    var s6 := RelaunchPhase(s4, cfg, a, other, streamId, false);
    var s8 := StaleDeletePhase(s6, cfg, a, other, streamId);
    assert !StartsSingle(s8);
  }

  /** With the guarded delete the same schedule keeps one launch in flight: the last event is absorbed. */
  lemma GuardedDoubleHandoverStartsOnce(cfg: ServerConfig, a: Addr, other: Addr, streamId: string)
    requires other != cfg.self
    ensures var s := Run(InitState(), cfg, DoubleHandoverSchedule(cfg, a, other, streamId), true);
      s.starting[a] == 1 && EntryAt(s, a) == Some(Launching(3))
  {
    var s0 := InitState();
    assert Shape(s0, a, ScheduleHandle(cfg, a, streamId), None, 0, 0, 0);
    var steps := DoubleHandoverSchedule(cfg, a, other, streamId);
    assert steps[0..] == steps;
    var s2 := LaunchPhase(s0, cfg, a, streamId, steps, 0, true);
    var s4 := HandoverPhase(s2, cfg, a, other, streamId, true);
    var s6 := RelaunchPhase(s4, cfg, a, other, streamId, true);
    var s8 := GuardedDeletePhase(s6, cfg, a, other, streamId);
  }
}
