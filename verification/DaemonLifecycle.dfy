/** The app-server daemon: operations on the stored settings, the managed backend and the
    updater, serialised by an operation lock.

    The backend, the socket and the file system are seen through their outcomes: `Env`
    says which calls of an operation fail and what the socket answers. */
module DaemonLifecycle {
  import opened Sequences

  /** The calls of an operation that may fail. A status call may be made twice. */
  datatype Site =
    | LoadSettings | SaveSettings | BackendStatus | BackendStatusAgain | BackendStop | BackendStart
    | UpdaterStatus | UpdaterStop | UpdaterStart | ManagedBinary | ManagedVersion | Readiness | Reexec

  /** `answers`: the socket answers a probe at the start of the operation; `stopKills`: a
      stop that reports failure has nevertheless ended the process; `sameVersion`: the
      server already runs the managed version. */
  datatype Env = Env(faults: set<Site>, answers: bool, stopKills: bool, sameVersion: bool) {
    predicate Fails(site: Site) { site in faults }
  }

  /** What the operations share. The backend remembers the remote-control flag it was
      started with; `effects` records what was done to the world. */
  datatype World = World(remoteControl: bool, backend: Option<bool>, updater: bool, effects: seq<Effect>)

  datatype Effect =
    | SettingsSaved(remoteControl: bool)
    | Stopped | Started(remoteControl: bool)
    | UpdaterStopped | UpdaterStarted
    | UpdaterReexecuted

  datatype Status =
    | AlreadyRunning | NowRunning | NowRestarted | NowStopped | NotRunning | Running
    | Changed | Unchanged | Bootstrapped
    | Busy | NotReady | AlreadyCurrent

  datatype Outcome = Ok(status: Status) | Unmanaged | Failed(site: Site)

  datatype RestartMode = IfVersionChanged | Always
  datatype RefreshMode = NoRefresh | ReexecIfManagedBinaryChanged

  datatype Result = Result(world: World, outcome: Outcome)

  // ----- Primitive effects -----

  function Save(w: World, enabled: bool): World {
    w.(remoteControl := enabled, effects := w.effects + [SettingsSaved(enabled)])
  }

  function StopBackend(w: World): World {
    w.(backend := None, effects := w.effects + [Stopped])
  }

  /** Starting is a no-op while the managed process is alive. */
  function StartBackend(w: World, enabled: bool): World {
    if w.backend.Some? then w else w.(backend := Some(enabled), effects := w.effects + [Started(enabled)])
  }

  function StopUpdater(w: World): World {
    w.(updater := false, effects := w.effects + [UpdaterStopped])
  }

  function LaunchUpdater(w: World): World {
    w.(updater := true, effects := w.effects + [UpdaterStarted])
  }

  function ReexecuteUpdater(w: World): World {
    w.(effects := w.effects + [UpdaterReexecuted])
  }

  /** What a failed stop leaves behind. */
  function StopFailed(w: World, e: Env): World {
    if e.stopKills then StopBackend(w) else w
  }

  /** Starts the backend with the stored setting and waits for the socket. */
  function StartAndWait(w: World, e: Env, status: Status): Result {
    if e.Fails(BackendStart) then Result(w, Failed(BackendStart))
    else
      var w := StartBackend(w, w.remoteControl);
      Result(w, if e.Fails(Readiness) then Failed(Readiness) else Ok(status))
  }

  /** Stops the backend if it runs, then starts it with the stored setting. */
  function Replace(w: World, e: Env, status: Status): Result {
    if w.backend.Some? && e.Fails(BackendStop) then Result(StopFailed(w, e), Failed(BackendStop))
    else StartAndWait(if w.backend.Some? then StopBackend(w) else w, e, status)
  }

  // ----- Operations -----

  function Start(w: World, e: Env): Result {
    if e.Fails(LoadSettings) then Result(w, Failed(LoadSettings))
    else if e.Fails(BackendStatus) then Result(w, Failed(BackendStatus))
    else if e.answers then Result(w, Ok(AlreadyRunning))
    else if w.backend.Some? then Result(w, if e.Fails(Readiness) then Failed(Readiness) else Ok(AlreadyRunning))
    else if e.Fails(ManagedBinary) then Result(w, Failed(ManagedBinary))
    else StartAndWait(w, e, NowRunning)
  }

  function Restart(w: World, e: Env): Result {
    if e.Fails(LoadSettings) then Result(w, Failed(LoadSettings))
    else if e.answers && e.Fails(BackendStatus) then Result(w, Failed(BackendStatus))
    else if e.answers && w.backend.None? then Result(w, Unmanaged)
    else if e.Fails(ManagedBinary) then Result(w, Failed(ManagedBinary))
    else if e.Fails(BackendStatusAgain) then Result(w, Failed(BackendStatusAgain))
    else Replace(w, e, NowRestarted)
  }

  function Stop(w: World, e: Env): Result {
    if e.Fails(LoadSettings) then Result(w, Failed(LoadSettings))
    else if e.Fails(BackendStatus) then Result(w, Failed(BackendStatus))
    else if w.backend.Some? then
      if e.Fails(BackendStop) then Result(StopFailed(w, e), Failed(BackendStop))
      else Result(StopBackend(w), Ok(NowStopped))
    else Result(w, if e.answers then Unmanaged else Ok(NotRunning))
  }

  function Version(w: World, e: Env): Result {
    Result(w, if e.Fails(LoadSettings) then Failed(LoadSettings)
              else if !e.answers then Failed(Readiness)
              else if e.Fails(BackendStatus) then Failed(BackendStatus)
              else Ok(Running))
  }

  datatype Decision = DecideNotReady | DecideCurrent | DecideRestart

  function RestartDecision(mode: RestartMode, answered: bool, sameVersion: bool): Decision {
    match mode
    case IfVersionChanged => if !answered then DecideNotReady else if sameVersion then DecideCurrent else DecideRestart
    case Always => DecideRestart
  }

  predicate ShouldReexec(refresh: RefreshMode, outcome: Outcome) {
    refresh.ReexecIfManagedBinaryChanged? && outcome == Ok(NowRestarted)
  }

  /** `try_restart_if_running` once it holds the lock, up to the re-exec. */
  function RestartIfRunning(w: World, e: Env, mode: RestartMode): Result {
    if e.Fails(LoadSettings) then Result(w, Failed(LoadSettings))
    else if e.Fails(BackendStatus) then Result(w, Failed(BackendStatus))
    else if w.backend.None? then Result(w, if e.answers then Unmanaged else Ok(NotRunning))
    else if e.answers && e.Fails(ManagedVersion) then Result(w, Failed(ManagedVersion))
    else
      match RestartDecision(mode, e.answers, e.sameVersion)
      case DecideNotReady => Result(w, Ok(NotReady))
      case DecideCurrent => Result(w, Ok(AlreadyCurrent))
      case DecideRestart => Replace(w, e, NowRestarted)
  }

  /** A successful exec never returns; a failed one is an error of the operation. */
  function Refresh(r: Result, e: Env, refresh: RefreshMode): Result {
    if !ShouldReexec(refresh, r.outcome) then r
    else if e.Fails(Reexec) then Result(r.world, Failed(Reexec))
    else Result(ReexecuteUpdater(r.world), r.outcome)
  }

  function TryRestart(w: World, e: Env, mode: RestartMode, refresh: RefreshMode): Result {
    Refresh(RestartIfRunning(w, e, mode), e, refresh)
  }

  function SetRemoteControl(w: World, e: Env, enabled: bool): Result {
    if e.Fails(LoadSettings) then Result(w, Failed(LoadSettings))
    else if e.Fails(BackendStatus) then Result(w, Failed(BackendStatus))
    else if w.backend.None? && e.answers then Result(w, Unmanaged)
    else if w.remoteControl == enabled then
      Result(w, if w.backend.Some? && e.Fails(Readiness) then Failed(Readiness) else Ok(Unchanged))
    else if e.Fails(SaveSettings) then Result(w, Failed(SaveSettings))
    else
      var w := Save(w, enabled);
      if w.backend.None? then Result(w, Ok(Changed))
      else if e.Fails(ManagedBinary) then Result(w, Failed(ManagedBinary))
      else Replace(w, e, Changed)
  }

  function StartUpdater(w: World, e: Env): Result {
    if e.Fails(UpdaterStatus) then Result(w, Failed(UpdaterStatus))
    else if w.updater && e.Fails(UpdaterStop) then Result(w, Failed(UpdaterStop))
    else
      var w := if w.updater then StopUpdater(w) else w;
      if e.Fails(UpdaterStart) then Result(w, Failed(UpdaterStart))
      else Result(LaunchUpdater(w), if e.Fails(Readiness) then Failed(Readiness) else Ok(Bootstrapped))
  }

  function Bootstrap(w: World, e: Env, enabled: bool): Result {
    if e.Fails(ManagedBinary) then Result(w, Failed(ManagedBinary))
    else if e.answers && e.Fails(BackendStatus) then Result(w, Failed(BackendStatus))
    else if e.answers && w.backend.None? then Result(w, Unmanaged)
    else if e.Fails(SaveSettings) then Result(w, Failed(SaveSettings))
    else
      var w := Save(w, enabled);
      if e.Fails(BackendStatusAgain) then Result(w, Failed(BackendStatusAgain))
      else if w.backend.Some? && e.Fails(BackendStop) then Result(StopFailed(w, e), Failed(BackendStop))
      else
        var w := if w.backend.Some? then StopBackend(w) else w;
        if e.Fails(BackendStart) then Result(w, Failed(BackendStart))
        else StartUpdater(StartBackend(w, enabled), e)
  }

  /** Each part of the operation meets its own environment. */
  function EnsureRemoteControl(w: World, e: Env, setEnv: Env, startEnv: Env): Result {
    if e.Fails(LoadSettings) then Result(w, Failed(LoadSettings))
    else if e.Fails(UpdaterStatus) then Result(w, Failed(UpdaterStatus))
    else if w.updater then
      var r := SetRemoteControl(w, setEnv, true);
      if !r.outcome.Ok? then r else Start(r.world, startEnv)
    else Bootstrap(w, setEnv, true)
  }

  datatype Operation =
    | DoStart(env: Env)
    | DoRestart(env: Env)
    | DoStop(env: Env)
    | DoVersion(env: Env)
    | DoTryRestart(env: Env, mode: RestartMode, refresh: RefreshMode)
    | DoSetRemoteControl(env: Env, enabled: bool)
    | DoBootstrap(env: Env, enabled: bool)
    | DoEnsureRemoteControl(env: Env, setEnv: Env, startEnv: Env)

  function Exec(w: World, op: Operation): Result {
    match op
    case DoStart(e) => Start(w, e)
    case DoRestart(e) => Restart(w, e)
    case DoStop(e) => Stop(w, e)
    case DoVersion(e) => Version(w, e)
    case DoTryRestart(e, mode, refresh) => TryRestart(w, e, mode, refresh)
    case DoSetRemoteControl(e, enabled) => SetRemoteControl(w, e, enabled)
    case DoBootstrap(e, enabled) => Bootstrap(w, e, enabled)
    case DoEnsureRemoteControl(e, e1, e2) => EnsureRemoteControl(w, e, e1, e2)
  }

  /** Between operations the backend or the updater may die on its own. */
  datatype Happening = Operate(op: Operation) | BackendDies | UpdaterDies

  function Happen(w: World, h: Happening): World {
    match h
    case Operate(op) => Exec(w, op).world
    case BackendDies => w.(backend := None)
    case UpdaterDies => w.(updater := false)
  }

  function Run(w: World, hs: seq<Happening>): World {
    if hs == [] then w else Happen(Run(w, hs[..|hs| - 1]), hs[|hs| - 1])
  }

  // ----- What each operation does -----

  /** The world after the given effects, with the given setting, backend and updater. */
  function After(w: World, remoteControl: bool, backend: Option<bool>, updater: bool, more: seq<Effect>): World {
    World(remoteControl, backend, updater, w.effects + more)
  }

  /** What an attempt of the updater does when no call fails: it replaces a running managed
      backend if told to always, or if the server answers with another version. */
  function PromisedRestart(w: World, e: Env, mode: RestartMode, refresh: RefreshMode): Result {
    if w.backend.None? then Result(w, if e.answers then Unmanaged else Ok(NotRunning))
    else if mode == IfVersionChanged && !e.answers then Result(w, Ok(NotReady))
    else if mode == IfVersionChanged && e.sameVersion then Result(w, Ok(AlreadyCurrent))
    else
      var restart := [Stopped, Started(w.remoteControl)];
      Result(After(w, w.remoteControl, Some(w.remoteControl), w.updater,
                   if refresh == NoRefresh then restart else restart + [UpdaterReexecuted]),
             Ok(NowRestarted))
  }

  function PromisedSet(w: World, e: Env, enabled: bool): Result {
    if w.backend.None? && e.answers then Result(w, Unmanaged)
    else if w.remoteControl == enabled then Result(w, Ok(Unchanged))
    else if w.backend.None? then Result(After(w, enabled, None, w.updater, [SettingsSaved(enabled)]), Ok(Changed))
    else
      Result(After(w, enabled, Some(enabled), w.updater, [SettingsSaved(enabled), Stopped, Started(enabled)]),
             Ok(Changed))
  }

  function PromisedStart(w: World, e: Env): Result {
    if e.answers || w.backend.Some? then Result(w, Ok(AlreadyRunning))
    else
      Result(After(w, w.remoteControl, Some(w.remoteControl), w.updater, [Started(w.remoteControl)]), Ok(NowRunning))
  }

  function PromisedBootstrap(w: World, e: Env, enabled: bool): Result {
    if w.backend.None? && e.answers then Result(w, Unmanaged)
    else
      var replace := if w.backend.Some? then [Stopped, Started(enabled)] else [Started(enabled)];
      var update := if w.updater then [UpdaterStopped, UpdaterStarted] else [UpdaterStarted];
      Result(After(w, enabled, Some(enabled), true, [SettingsSaved(enabled)] + replace + update), Ok(Bootstrapped))
  }

  /** What each operation does when no call fails. */
  function Promised(w: World, op: Operation): Result {
    match op
    case DoStart(e) => PromisedStart(w, e)
    case DoRestart(e) =>
      if w.backend.None? && e.answers then Result(w, Unmanaged)
      else
        var restart := if w.backend.Some? then [Stopped, Started(w.remoteControl)] else [Started(w.remoteControl)];
        Result(After(w, w.remoteControl, Some(w.remoteControl), w.updater, restart), Ok(NowRestarted))
    case DoStop(e) =>
      if w.backend.Some? then Result(After(w, w.remoteControl, None, w.updater, [Stopped]), Ok(NowStopped))
      else Result(w, if e.answers then Unmanaged else Ok(NotRunning))
    case DoVersion(e) => Result(w, if e.answers then Ok(Running) else Failed(Readiness))
    case DoTryRestart(e, mode, refresh) => PromisedRestart(w, e, mode, refresh)
    case DoSetRemoteControl(e, enabled) => PromisedSet(w, e, enabled)
    case DoBootstrap(e, enabled) => PromisedBootstrap(w, e, enabled)
    case DoEnsureRemoteControl(_, setEnv, startEnv) =>
      if !w.updater then PromisedBootstrap(w, setEnv, true)
      else
        var r := PromisedSet(w, setEnv, true);
        if r.outcome.Ok? then PromisedStart(r.world, startEnv) else r
  }

  /** An operation that reports no failed call has done all it promises; one that does has
      met that failure, and has done a first part of it. */
  predicate Keeps(w: World, r: Result, promised: Result, faults: set<Site>) {
    && (!r.outcome.Failed? ==> r == promised)
    && (r.outcome.Failed? ==> r.outcome == promised.outcome || r.outcome.site in faults)
    && w.effects <= r.world.effects <= promised.world.effects
  }

  function AllFaults(op: Operation): set<Site> {
    match op
    case DoEnsureRemoteControl(e, setEnv, startEnv) => e.faults + setEnv.faults + startEnv.faults
    case _ => op.env.faults
  }

  lemma StartKeeps(w: World, e: Env)
    ensures Keeps(w, Start(w, e), PromisedStart(w, e), e.faults)
  {
  }

  lemma ReplaceKeeps(w: World, e: Env, status: Status)
    ensures var more := if w.backend.Some? then [Stopped, Started(w.remoteControl)] else [Started(w.remoteControl)];
            Keeps(w, Replace(w, e, status),
                  Result(After(w, w.remoteControl, Some(w.remoteControl), w.updater, more), Ok(status)), e.faults)
  {
    var stopped := if w.backend.Some? then StopBackend(w) else w;
    var started := StartBackend(stopped, w.remoteControl);
    ReplaceOutcome(w, e, status);
    assert w.effects + [Stopped] + [Started(w.remoteControl)] == w.effects + [Stopped, Started(w.remoteControl)];
    assert Replace(w, e, status).world in {w, stopped, started};
    assert w.effects <= stopped.effects <= started.effects;
  }

  lemma TryRestartKeeps(w: World, e: Env, mode: RestartMode, refresh: RefreshMode)
    ensures Keeps(w, TryRestart(w, e, mode, refresh), PromisedRestart(w, e, mode, refresh), e.faults)
  {
    var restart := [Stopped, Started(w.remoteControl)];
    ReplaceKeeps(w, e, NowRestarted);
    assert w.effects + (restart + [UpdaterReexecuted]) == w.effects + restart + [UpdaterReexecuted];
    RestartKeeps(w, e, mode);
    RefreshKeeps(w, RestartIfRunning(w, e, mode), PromisedRestart(w, e, mode, NoRefresh), e, refresh);
  }

  lemma RestartKeeps(w: World, e: Env, mode: RestartMode)
    ensures Keeps(w, RestartIfRunning(w, e, mode), PromisedRestart(w, e, mode, NoRefresh), e.faults)
  {
    if w.backend.Some? { ReplaceKeeps(w, e, NowRestarted); }
  }

  lemma RefreshKeeps(w: World, r: Result, promised: Result, e: Env, refresh: RefreshMode)
    requires Keeps(w, r, promised, e.faults) && !promised.outcome.Failed?
    ensures var restarted := refresh != NoRefresh && promised.outcome == Ok(NowRestarted);
            var more := if restarted then [UpdaterReexecuted] else [];
            var whole := promised.(world := promised.world.(effects := promised.world.effects + more));
            Keeps(w, Refresh(r, e, refresh), whole, e.faults)
  {
    assert promised.world.effects + [] == promised.world.effects;
  }

  lemma SetKeeps(w: World, e: Env, enabled: bool)
    ensures Keeps(w, SetRemoteControl(w, e, enabled), PromisedSet(w, e, enabled), e.faults)
  {
    ReplaceKeeps(Save(w, enabled), e, Changed);
    assert w.effects + [SettingsSaved(enabled)] + [Stopped, Started(enabled)] ==
           w.effects + [SettingsSaved(enabled), Stopped, Started(enabled)];
  }

  lemma UpdaterKeeps(w: World, e: Env)
    ensures var more := if w.updater then [UpdaterStopped, UpdaterStarted] else [UpdaterStarted];
            Keeps(w, StartUpdater(w, e),
                  Result(After(w, w.remoteControl, w.backend, true, more), Ok(Bootstrapped)), e.faults)
  {
    assert w.effects + [UpdaterStopped] + [UpdaterStarted] == w.effects + [UpdaterStopped, UpdaterStarted];
  }

  lemma BootstrapKeeps(w: World, e: Env, enabled: bool)
    ensures Keeps(w, Bootstrap(w, e, enabled), PromisedBootstrap(w, e, enabled), e.faults)
  {
    var saved := Save(w, enabled);
    var stopped := if w.backend.Some? then StopBackend(saved) else saved;
    var started := StartBackend(stopped, enabled);
    BootstrapOutcome(w, e, enabled);
    assert saved.effects <= stopped.effects <= started.effects;
    var replace := if w.backend.Some? then [Stopped, Started(enabled)] else [Started(enabled)];
    var update := if w.updater then [UpdaterStopped, UpdaterStarted] else [UpdaterStarted];
    assert started.effects == w.effects + [SettingsSaved(enabled)] + replace;
    assert w.effects + ([SettingsSaved(enabled)] + replace + update) == started.effects + update;
    UpdaterKeeps(started, e);
  }

  lemma EnsureKeeps(w: World, e: Env, setEnv: Env, startEnv: Env)
    ensures var op := DoEnsureRemoteControl(e, setEnv, startEnv); Keeps(w, Exec(w, op), Promised(w, op), AllFaults(op))
  {
    var change := SetRemoteControl(w, setEnv, true);
    BootstrapKeeps(w, setEnv, true);
    SetKeeps(w, setEnv, true);
    StartKeeps(change.world, startEnv);
    var promised := PromisedSet(w, setEnv, true);
    assert change.outcome.Ok? ==> change == promised;
    assert promised.world.effects <= PromisedStart(promised.world, startEnv).world.effects;
  }

  /** In every world and whatever fails, each operation keeps its promise. */
  lemma OperationsExactly(w: World, op: Operation)
    ensures Keeps(w, Exec(w, op), Promised(w, op), AllFaults(op))
  {
    match op
    case DoStart(e) => StartKeeps(w, e);
    case DoRestart(e) => ReplaceKeeps(w, e, NowRestarted);
    case DoStop(_) =>
    case DoVersion(_) =>
    case DoTryRestart(e, mode, refresh) => TryRestartKeeps(w, e, mode, refresh);
    case DoSetRemoteControl(e, enabled) => SetKeeps(w, e, enabled);
    case DoBootstrap(e, enabled) => BootstrapKeeps(w, e, enabled);
    case DoEnsureRemoteControl(e, setEnv, startEnv) => EnsureKeeps(w, e, setEnv, startEnv);
  }

  // ----- Which failures are met -----

  /** The calls an operation makes as long as none of them fails. */
  predicate Makes(w: World, op: Operation, site: Site) {
    var e, runs := op.env, w.backend.Some?;
    var managed := runs || !e.answers;
    match op
    case DoStart(_) =>
      match site {
        case LoadSettings => true
        case BackendStatus => true
        case ManagedBinary => !runs && !e.answers
        case BackendStart => !runs && !e.answers
        case Readiness => !e.answers
        case _ => false
      }
    case DoRestart(_) =>
      match site {
        case LoadSettings => true
        case BackendStatus => e.answers
        case ManagedBinary => managed
        case BackendStatusAgain => managed
        case BackendStop => runs
        case BackendStart => managed
        case Readiness => managed
        case _ => false
      }
    case DoStop(_) => site == LoadSettings || site == BackendStatus || (site == BackendStop && runs)
    case DoVersion(_) => site == LoadSettings || (site == BackendStatus && e.answers)
    case DoTryRestart(_, mode, refresh) =>
      var restarts := runs && (mode == Always || (e.answers && !e.sameVersion));
      match site {
        case LoadSettings => true
        case BackendStatus => true
        case ManagedVersion => runs && e.answers
        case BackendStop => restarts
        case BackendStart => restarts
        case Readiness => restarts
        case Reexec => restarts && refresh != NoRefresh
        case _ => false
      }
    case DoSetRemoteControl(_, enabled) =>
      var changes := w.remoteControl != enabled;
      match site {
        case LoadSettings => true
        case BackendStatus => true
        case SaveSettings => managed && changes
        case ManagedBinary => runs && changes
        case BackendStop => runs && changes
        case BackendStart => runs && changes
        case Readiness => runs
        case _ => false
      }
    case DoBootstrap(_, _) =>
      match site {
        case ManagedBinary => true
        case BackendStatus => e.answers
        case BackendStop => runs
        case UpdaterStop => managed && w.updater
        case LoadSettings => false
        case ManagedVersion => false
        case Reexec => false
        case _ => managed
      }
    case DoEnsureRemoteControl(_, _, _) => site == LoadSettings || site == UpdaterStatus
  }

  /** The order in which an operation makes its calls. */
  function Order(op: Operation, site: Site): nat {
    match site
    case LoadSettings => 0
    case BackendStatus => 1
    case SaveSettings => 2
    case ManagedVersion => 2
    case ManagedBinary => if op.DoBootstrap? then 0 else 3
    case BackendStatusAgain => 4
    case BackendStop => 5
    case BackendStart => 6
    case UpdaterStatus => 7
    case UpdaterStop => 8
    case UpdaterStart => 9
    case Readiness => 10
    case Reexec => 11
  }

  /** The first of the operation's calls that fails. */
  predicate FirstFailure(w: World, op: Operation, site: Site) {
    && Makes(w, op, site) && op.env.Fails(site)
    && forall other: Site :: Makes(w, op, other) && Order(op, other) < Order(op, site) ==> !op.env.Fails(other)
  }

  predicate MeetsNoFailure(w: World, op: Operation) {
    forall site: Site :: Makes(w, op, site) ==> !op.env.Fails(site)
  }

  /** The outcome names the first failing call, and there is none if it names none; a version
      query also fails, at the last, if nobody answers. */
  predicate Reports(w: World, op: Operation, outcome: Outcome) {
    if op.DoVersion? && outcome == Failed(Readiness) then !op.env.Fails(LoadSettings) && !op.env.answers
    else if outcome.Failed? then FirstFailure(w, op, outcome.site)
    else MeetsNoFailure(w, op) && (op.DoVersion? ==> op.env.answers)
  }

  lemma StartReports(w: World, e: Env)
    ensures Reports(w, DoStart(e), Exec(w, DoStart(e)).outcome)
  {
  }

  lemma RestartReports(w: World, e: Env)
    ensures Reports(w, DoRestart(e), Exec(w, DoRestart(e)).outcome)
  {
  }

  lemma TryRestartReports(w: World, e: Env, mode: RestartMode, refresh: RefreshMode)
    ensures Reports(w, DoTryRestart(e, mode, refresh), Exec(w, DoTryRestart(e, mode, refresh)).outcome)
  {
    var op := DoTryRestart(e, mode, refresh);
    var outcome := Exec(w, op).outcome;
    AttemptOutcome(w, e, mode, refresh);
    if outcome.Failed? {
      forall other: Site | Makes(w, op, other) && Order(op, other) < Order(op, outcome.site) ensures !e.Fails(other) {
        match other
        case LoadSettings =>
        case BackendStatus =>
        case ManagedVersion =>
        case _ =>
      }
    }
  }

  lemma AttemptOutcome(w: World, e: Env, mode: RestartMode, refresh: RefreshMode)
    ensures TryRestart(w, e, mode, refresh).outcome ==
            if e.Fails(LoadSettings) then Failed(LoadSettings)
            else if e.Fails(BackendStatus) then Failed(BackendStatus)
            else if w.backend.None? then if e.answers then Unmanaged else Ok(NotRunning)
            else if e.answers && e.Fails(ManagedVersion) then Failed(ManagedVersion)
            else if mode == IfVersionChanged && !e.answers then Ok(NotReady)
            else if mode == IfVersionChanged && e.sameVersion then Ok(AlreadyCurrent)
            else if e.Fails(BackendStop) then Failed(BackendStop)
            else if e.Fails(BackendStart) then Failed(BackendStart)
            else if e.Fails(Readiness) then Failed(Readiness)
            else if refresh != NoRefresh && e.Fails(Reexec) then Failed(Reexec)
            else Ok(NowRestarted)
  {
    ReplaceOutcome(w, e, NowRestarted);
  }

  lemma SetReports(w: World, e: Env, enabled: bool)
    ensures Reports(w, DoSetRemoteControl(e, enabled), Exec(w, DoSetRemoteControl(e, enabled)).outcome)
  {
  }

  lemma BootstrapReports(w: World, e: Env, enabled: bool)
    ensures Reports(w, DoBootstrap(e, enabled), Exec(w, DoBootstrap(e, enabled)).outcome)
  {
    var op, outcome := DoBootstrap(e, enabled), Exec(w, DoBootstrap(e, enabled)).outcome;
    BootstrapOutcome(w, e, enabled);
    if outcome.Failed? {
      forall other: Site | Makes(w, op, other) && Order(op, other) < Order(op, outcome.site) ensures !e.Fails(other) {
        match other
        case ManagedBinary =>
        case BackendStatus =>
        case SaveSettings =>
        case _ =>
      }
    }
  }

  lemma UpdaterOutcome(w: World, e: Env)
    ensures StartUpdater(w, e).outcome ==
            if e.Fails(UpdaterStatus) then Failed(UpdaterStatus)
            else if w.updater && e.Fails(UpdaterStop) then Failed(UpdaterStop)
            else if e.Fails(UpdaterStart) then Failed(UpdaterStart)
            else if e.Fails(Readiness) then Failed(Readiness)
            else Ok(Bootstrapped)
  {
  }

  lemma BootstrapOutcome(w: World, e: Env, enabled: bool)
    ensures Bootstrap(w, e, enabled).outcome ==
            if e.Fails(ManagedBinary) then Failed(ManagedBinary)
            else if e.answers && e.Fails(BackendStatus) then Failed(BackendStatus)
            else if e.answers && w.backend.None? then Unmanaged
            else if e.Fails(SaveSettings) then Failed(SaveSettings)
            else if e.Fails(BackendStatusAgain) then Failed(BackendStatusAgain)
            else if w.backend.Some? && e.Fails(BackendStop) then Failed(BackendStop)
            else if e.Fails(BackendStart) then Failed(BackendStart)
            else if e.Fails(UpdaterStatus) then Failed(UpdaterStatus)
            else if w.updater && e.Fails(UpdaterStop) then Failed(UpdaterStop)
            else if e.Fails(UpdaterStart) then Failed(UpdaterStart)
            else if e.Fails(Readiness) then Failed(Readiness)
            else Ok(Bootstrapped)
  {
    var saved := Save(w, enabled);
    UpdaterOutcome(StartBackend(if w.backend.Some? then StopBackend(saved) else saved, enabled), e);
  }

  lemma ReplaceOutcome(w: World, e: Env, status: Status)
    ensures Replace(w, e, status).outcome ==
            if w.backend.Some? && e.Fails(BackendStop) then Failed(BackendStop)
            else if e.Fails(BackendStart) then Failed(BackendStart)
            else if e.Fails(Readiness) then Failed(Readiness)
            else Ok(status)
  {
  }

  lemma FailuresExactly(w: World, op: Operation)
    requires !op.DoEnsureRemoteControl?
    ensures Reports(w, op, Exec(w, op).outcome)
  {
    match op
    case DoStart(e) => StartReports(w, e);
    case DoRestart(e) => RestartReports(w, e);
    case DoStop(_) =>
    case DoVersion(_) =>
    case DoTryRestart(e, mode, refresh) => TryRestartReports(w, e, mode, refresh);
    case DoSetRemoteControl(e, enabled) => SetReports(w, e, enabled);
    case DoBootstrap(e, enabled) => BootstrapReports(w, e, enabled);
  }

  /** Past its own two calls, `ensure_remote_control_started` is a change of the setting and
      a start if the updater runs, and a bootstrap if not. */
  lemma EnsureIsItsParts(w: World, e: Env, setEnv: Env, startEnv: Env)
    ensures var op := DoEnsureRemoteControl(e, setEnv, startEnv);
            var change := Exec(w, DoSetRemoteControl(setEnv, true));
            Exec(w, op) ==
            if !MeetsNoFailure(w, op)
            then Result(w, Failed(if e.Fails(LoadSettings) then LoadSettings else UpdaterStatus))
            else if !w.updater then Exec(w, DoBootstrap(setEnv, true))
            else if change.outcome.Ok? then Exec(change.world, DoStart(startEnv))
            else change
  {
    var op := DoEnsureRemoteControl(e, setEnv, startEnv);
    assert Makes(w, op, LoadSettings) && Makes(w, op, UpdaterStatus);
  }

  // ----- An unmanaged server is left alone -----

  predicate Answers(op: Operation) {
    op.env.answers && (op.DoEnsureRemoteControl? ==> op.setEnv.answers && op.startEnv.answers)
  }

  /** With no managed backend but a socket that answers, nothing is saved, started or
      stopped; only a start or a version query can report success. */
  lemma UnmanagedIsUntouched(w: World, op: Operation)
    requires w.backend.None? && Answers(op)
    ensures Exec(w, op).world == w
    ensures Exec(w, op).outcome.Ok? ==> op.DoStart? || op.DoVersion?
  {
  }

  // ----- Settings and backend agree -----

  predicate Agrees(w: World) {
    w.backend.Some? ==> w.backend.value == w.remoteControl
  }

  /** The backend is told to stop and goes on running. */
  predicate StopLeavesRunning(e: Env) {
    e.Fails(BackendStop) && !e.stopKills
  }

  /** Changing the setting goes wrong after the save and before the old backend is gone. */
  predicate SetBreaks(w: World, e: Env, enabled: bool) {
    && w.backend.Some? && w.remoteControl != enabled
    && !e.Fails(LoadSettings) && !e.Fails(BackendStatus) && !e.Fails(SaveSettings)
    && (e.Fails(ManagedBinary) || StopLeavesRunning(e))
  }

  predicate BootstrapBreaks(w: World, e: Env, enabled: bool) {
    && w.backend.Some? && w.remoteControl != enabled
    && !e.Fails(ManagedBinary) && !(e.answers && e.Fails(BackendStatus)) && !e.Fails(SaveSettings)
    && (e.Fails(BackendStatusAgain) || StopLeavesRunning(e))
  }

  /** The calls whose failure parts the backend from the stored setting. */
  predicate Breaks(w: World, op: Operation) {
    match op
    case DoSetRemoteControl(e, enabled) => SetBreaks(w, e, enabled)
    case DoBootstrap(e, enabled) => BootstrapBreaks(w, e, enabled)
    case DoEnsureRemoteControl(e, setEnv, _) =>
      !e.Fails(LoadSettings) && !e.Fails(UpdaterStatus) &&
      if w.updater then SetBreaks(w, setEnv, true) else BootstrapBreaks(w, setEnv, true)
    case _ => false
  }

  /** Exactly when an operation breaks the agreement; it then reports an error. */
  lemma DisagreementExactly(w: World, op: Operation)
    requires Agrees(w)
    ensures !Agrees(Exec(w, op).world) <==> Breaks(w, op)
    ensures Breaks(w, op) ==> Exec(w, op).outcome.Failed?
  {
    match op
    case DoSetRemoteControl(e, enabled) => SetDisagreement(w, e, enabled);
    case DoBootstrap(e, enabled) => BootstrapDisagreement(w, e, enabled);
    case DoEnsureRemoteControl(_, setEnv, _) =>
      SetDisagreement(w, setEnv, true);
      BootstrapDisagreement(w, setEnv, true);
    case _ =>
  }

  lemma SetDisagreement(w: World, e: Env, enabled: bool)
    requires Agrees(w)
    ensures var r := SetRemoteControl(w, e, enabled);
            && (!Agrees(r.world) <==> SetBreaks(w, e, enabled))
            && (SetBreaks(w, e, enabled) ==> r.outcome.Failed?)
  {
  }

  lemma BootstrapDisagreement(w: World, e: Env, enabled: bool)
    requires Agrees(w)
    ensures var r := Bootstrap(w, e, enabled);
            && (!Agrees(r.world) <==> BootstrapBreaks(w, e, enabled))
            && (BootstrapBreaks(w, e, enabled) ==> r.outcome.Failed?)
  {
  }

  lemma SuccessKeepsAgreement(w: World, op: Operation)
    requires Agrees(w) && Exec(w, op).outcome.Ok?
    ensures Agrees(Exec(w, op).world)
  {
    DisagreementExactly(w, op);
  }

  predicate AllSucceed(w: World, hs: seq<Happening>) {
    hs == [] ||
    (AllSucceed(w, hs[..|hs| - 1]) &&
     match hs[|hs| - 1] { case Operate(op) => Exec(Run(w, hs[..|hs| - 1]), op).outcome.Ok? case _ => true })
  }

  /** In any run of successful operations the running backend has the stored setting. */
  lemma {:induction false} AgreementOverRuns(w: World, hs: seq<Happening>)
    requires Agrees(w) && AllSucceed(w, hs)
    ensures Agrees(Run(w, hs))
  {
    if hs != [] {
      var prev := Run(w, hs[..|hs| - 1]);
      AgreementOverRuns(w, hs[..|hs| - 1]);
      if hs[|hs| - 1].Operate? { SuccessKeepsAgreement(prev, hs[|hs| - 1].op); }
    }
  }

  /** A missing managed binary, noticed only after the save, leaves the two apart. */
  lemma SavedButNotRestarted()
    ensures var w := World(false, Some(false), false, []);
            var r := SetRemoteControl(w, Env({ManagedBinary}, true, false, false), true);
            Agrees(w) && !Agrees(r.world) && r.outcome == Failed(ManagedBinary)
  {
  }

  /** What success means: the setting asked for, and a backend that runs with it wherever a
      running one is promised; a start is content with any server that answers. */
  lemma PromisedSetting(w: World, op: Operation)
    requires Exec(w, op).outcome.Ok?
    ensures var w' := Exec(w, op).world;
            match op
            case DoStart(e) => w'.backend.Some? || e.answers
            case DoRestart(_) => w'.backend == Some(w.remoteControl)
            case DoStop(_) => w'.backend.None?
            case DoVersion(e) => e.answers && w' == w
            case DoTryRestart(_, _, _) =>
              Exec(w, op).outcome == Ok(NowRestarted) ==> w'.backend == Some(w.remoteControl)
            case DoSetRemoteControl(_, enabled) =>
              && w'.remoteControl == enabled && (w'.backend.Some? <==> w.backend.Some?)
              && (w.backend.Some? && w.backend.value == w.remoteControl ==> w'.backend == Some(enabled))
            case DoBootstrap(_, enabled) => w'.remoteControl == enabled && w'.backend == Some(enabled) && w'.updater
            case DoEnsureRemoteControl(_, _, startEnv) =>
              && w'.remoteControl && (w'.backend.Some? || startEnv.answers)
              && (Agrees(w) && w'.backend.Some? ==> w'.backend == Some(true))
  {
    OperationsExactly(w, op);
  }

  // ----- The updater -----

  /** The updater is replaced only when its binary differs and a restart has completed: the
      backend was stopped and started again with the stored setting before it. */
  lemma ReexecOnlyAfterRestart(w: World, e: Env, mode: RestartMode, refresh: RefreshMode)
    ensures var r := TryRestart(w, e, mode, refresh);
            && w.effects <= r.world.effects
            && (UpdaterReexecuted in r.world.effects[|w.effects|..] <==>
                  ShouldReexec(refresh, RestartIfRunning(w, e, mode).outcome) && !e.Fails(Reexec))
            && (UpdaterReexecuted in r.world.effects[|w.effects|..] ==>
                  && refresh.ReexecIfManagedBinaryChanged? && r.outcome == Ok(NowRestarted)
                  && w.backend.Some?
                  && r.world.effects == w.effects + [Stopped, Started(w.remoteControl), UpdaterReexecuted])
  {
    var r := RestartIfRunning(w, e, mode);
    RestartAddsStopAndStart(w, e, mode);
    var more := r.world.effects[|w.effects|..];
    assert r.world.effects == w.effects + more;
    assert (r.world.effects + [UpdaterReexecuted])[|w.effects|..] == more + [UpdaterReexecuted];
  }

  lemma RestartAddsStopAndStart(w: World, e: Env, mode: RestartMode)
    ensures var r := RestartIfRunning(w, e, mode);
            && w.effects <= r.world.effects
            && UpdaterReexecuted !in r.world.effects[|w.effects|..]
            && (r.outcome == Ok(NowRestarted) ==>
                  w.backend.Some? && r.world.effects == w.effects + [Stopped, Started(w.remoteControl)])
  {
    if w.backend.Some? { ReplaceAddsStopAndStart(w, e); }
  }

  lemma ReplaceAddsStopAndStart(w: World, e: Env)
    requires w.backend.Some?
    ensures var r := Replace(w, e, NowRestarted);
            && w.effects <= r.world.effects
            && UpdaterReexecuted !in r.world.effects[|w.effects|..]
            && (r.outcome == Ok(NowRestarted) ==> r.world.effects == w.effects + [Stopped, Started(w.remoteControl)])
  {
    var stopped := StopBackend(w);
    var started := StartBackend(stopped, w.remoteControl);
    assert stopped.effects == w.effects + [Stopped];
    assert started.effects == w.effects + [Stopped, Started(w.remoteControl)];
    assert Replace(w, e, NowRestarted).world in {w, stopped, started};
  }

  function ModesFor(sameIdentity: bool): (RestartMode, RefreshMode) {
    if sameIdentity then (IfVersionChanged, NoRefresh) else (Always, ReexecIfManagedBinaryChanged)
  }

  /** In the terms of the updater: it re-executes exactly if the managed binary is not its
      own, a managed backend was running and has been restarted, and the exec succeeds. */
  lemma UpdaterReexecExactly(w: World, e: Env, sameIdentity: bool)
    ensures var (mode, refresh) := ModesFor(sameIdentity);
            var r := TryRestart(w, e, mode, refresh);
            && w.effects <= r.world.effects
            && (UpdaterReexecuted in r.world.effects[|w.effects|..] <==>
                  !sameIdentity && r.outcome == Ok(NowRestarted))
            && (UpdaterReexecuted in r.world.effects[|w.effects|..] ==>
                  r.world.effects == w.effects + [Stopped, Started(w.remoteControl), UpdaterReexecuted])
  {
    var (mode, refresh) := ModesFor(sameIdentity);
    ReexecOnlyAfterRestart(w, e, mode, refresh);
  }

  /** An update with a running managed backend, unless a call fails: an updater that is the
      managed binary replaces the backend only if the server answers with another version,
      and stays; one that is not always replaces the backend, and then itself. */
  predicate Updates(w: World, e: Env, sameIdentity: bool, r: Result) {
    w.backend.Some? && !r.outcome.Failed? ==>
      if !sameIdentity then
        && r.outcome == Ok(NowRestarted)
        && r.world == After(w, w.remoteControl, Some(w.remoteControl), w.updater,
                            [Stopped, Started(w.remoteControl), UpdaterReexecuted])
      else if e.answers && !e.sameVersion then
        && r.outcome == Ok(NowRestarted)
        && r.world == After(w, w.remoteControl, Some(w.remoteControl), w.updater, [Stopped, Started(w.remoteControl)])
      else
        r == Result(w, Ok(if e.answers then AlreadyCurrent else NotReady))
  }

  lemma UpdateKeeps(w: World, e: Env, sameIdentity: bool)
    ensures var (mode, refresh) := ModesFor(sameIdentity); Updates(w, e, sameIdentity, TryRestart(w, e, mode, refresh))
  {
    var (mode, refresh) := ModesFor(sameIdentity);
    TryRestartKeeps(w, e, mode, refresh);
    var restart := [Stopped, Started(w.remoteControl)];
    assert restart + [UpdaterReexecuted] == [Stopped, Started(w.remoteControl), UpdaterReexecuted];
  }

  // ----- The daemon as it runs -----

  /** One process working on the shared world. `lockHeld` says whether it holds the
      operation lock; everything that changes the world demands it, and asking for the lock
      demands not to hold it already. */
  class Daemon {
    var world: World
    var lockHeld: bool

    constructor (world: World)
      ensures this.world == world && !lockHeld
    {
      this.world := world;
      lockHeld := false;
    }

    method AcquireLock(granted: bool)
      requires !lockHeld
      modifies `lockHeld
      ensures lockHeld == granted
    {
      lockHeld := granted;
    }

    method ReleaseLock()
      requires lockHeld
      modifies `lockHeld
      ensures !lockHeld
    {
      lockHeld := false;
    }

    method SaveSettingsFile(e: Env, enabled: bool) returns (ok: bool)
      requires lockHeld
      modifies `world
      ensures ok == !e.Fails(SaveSettings) && world == if ok then Save(old(world), enabled) else old(world)
    {
      ok := !e.Fails(SaveSettings);
      if ok { world := Save(world, enabled); }
    }

    method StopManaged(e: Env) returns (ok: bool)
      requires lockHeld
      modifies `world
      ensures ok == !e.Fails(BackendStop)
      ensures world == if ok then StopBackend(old(world)) else StopFailed(old(world), e)
    {
      ok := !e.Fails(BackendStop);
      if ok || e.stopKills { world := StopBackend(world); }
    }

    method StartManaged(e: Env, enabled: bool) returns (ok: bool)
      requires lockHeld
      modifies `world
      ensures ok == !e.Fails(BackendStart) && world == if ok then StartBackend(old(world), enabled) else old(world)
    {
      ok := !e.Fails(BackendStart);
      if ok { world := StartBackend(world, enabled); }
    }

    method StopUpdaterProcess(e: Env) returns (ok: bool)
      requires lockHeld
      modifies `world
      ensures ok == !e.Fails(UpdaterStop) && world == if ok then StopUpdater(old(world)) else old(world)
    {
      ok := !e.Fails(UpdaterStop);
      if ok { world := StopUpdater(world); }
    }

    method StartUpdaterProcess(e: Env) returns (ok: bool)
      requires lockHeld
      modifies `world
      ensures ok == !e.Fails(UpdaterStart) && world == if ok then LaunchUpdater(old(world)) else old(world)
    {
      ok := !e.Fails(UpdaterStart);
      if ok { world := LaunchUpdater(world); }
    }

    method ReexecManagedUpdater(e: Env) returns (ok: bool)
      requires lockHeld
      modifies `world
      ensures ok == !e.Fails(Reexec) && world == if ok then ReexecuteUpdater(old(world)) else old(world)
    {
      ok := !e.Fails(Reexec);
      if ok { world := ReexecuteUpdater(world); }
    }

    /** Stop what runs, start with the given settings, wait until the socket answers. */
    method ReplaceBackend(e: Env, status: Status) returns (outcome: Outcome)
      requires lockHeld
      modifies `world
      ensures Result(world, outcome) == Replace(old(world), e, status)
    {
      var settings := world.remoteControl;
      if world.backend.Some? {
        var stopped := StopManaged(e);
        if !stopped { return Failed(BackendStop); }
      }
      var started := StartManaged(e, settings);
      if !started { return Failed(BackendStart); }
      if e.Fails(Readiness) { return Failed(Readiness); }
      return Ok(status);
    }

    method StartOperation(e: Env) returns (outcome: Outcome)
      requires lockHeld
      modifies `world
      ensures Result(world, outcome) == Start(old(world), e)
    {
      if e.Fails(LoadSettings) { return Failed(LoadSettings); }
      if e.Fails(BackendStatus) { return Failed(BackendStatus); }
      if e.answers { return Ok(AlreadyRunning); }
      if world.backend.Some? {
        if e.Fails(Readiness) { return Failed(Readiness); }
        return Ok(AlreadyRunning);
      }
      if e.Fails(ManagedBinary) { return Failed(ManagedBinary); }
      outcome := ReplaceBackend(e, NowRunning);
    }

    method RestartOperation(e: Env) returns (outcome: Outcome)
      requires lockHeld
      modifies `world
      ensures Result(world, outcome) == Restart(old(world), e)
    {
      if e.Fails(LoadSettings) { return Failed(LoadSettings); }
      if e.answers {
        if e.Fails(BackendStatus) { return Failed(BackendStatus); }
        if world.backend.None? { return Unmanaged; }
      }
      if e.Fails(ManagedBinary) { return Failed(ManagedBinary); }
      if e.Fails(BackendStatusAgain) { return Failed(BackendStatusAgain); }
      outcome := ReplaceBackend(e, NowRestarted);
    }

    method StopOperation(e: Env) returns (outcome: Outcome)
      requires lockHeld
      modifies `world
      ensures Result(world, outcome) == Stop(old(world), e)
    {
      if e.Fails(LoadSettings) { return Failed(LoadSettings); }
      if e.Fails(BackendStatus) { return Failed(BackendStatus); }
      if world.backend.Some? {
        var stopped := StopManaged(e);
        if !stopped { return Failed(BackendStop); }
        return Ok(NowStopped);
      }
      if e.answers { return Unmanaged; }
      return Ok(NotRunning);
    }

    method SetRemoteControlLocked(e: Env, enabled: bool) returns (outcome: Outcome)
      requires lockHeld
      modifies `world
      ensures Result(world, outcome) == SetRemoteControl(old(world), e, enabled)
    {
      if e.Fails(LoadSettings) { return Failed(LoadSettings); }
      if e.Fails(BackendStatus) { return Failed(BackendStatus); }
      var running := world.backend.Some?;
      if !running && e.answers { return Unmanaged; }
      if world.remoteControl == enabled {
        if running && e.Fails(Readiness) { return Failed(Readiness); }
        return Ok(Unchanged);
      }
      var saved := SaveSettingsFile(e, enabled);
      if !saved { return Failed(SaveSettings); }
      if !running { return Ok(Changed); }
      if e.Fails(ManagedBinary) { return Failed(ManagedBinary); }
      outcome := ReplaceBackend(e, Changed);
    }

    method BootstrapLocked(e: Env, enabled: bool) returns (outcome: Outcome)
      requires lockHeld
      modifies `world
      ensures Result(world, outcome) == Bootstrap(old(world), e, enabled)
    {
      if e.Fails(ManagedBinary) { return Failed(ManagedBinary); }
      if e.answers {
        if e.Fails(BackendStatus) { return Failed(BackendStatus); }
        if world.backend.None? { return Unmanaged; }
      }
      var saved := SaveSettingsFile(e, enabled);
      if !saved { return Failed(SaveSettings); }
      if e.Fails(BackendStatusAgain) { return Failed(BackendStatusAgain); }
      if world.backend.Some? {
        var stopped := StopManaged(e);
        if !stopped { return Failed(BackendStop); }
      }
      var started := StartManaged(e, enabled);
      if !started { return Failed(BackendStart); }
      outcome := RestartUpdater(e);
    }

    method RestartUpdater(e: Env) returns (outcome: Outcome)
      requires lockHeld
      modifies `world
      ensures Result(world, outcome) == StartUpdater(old(world), e)
    {
      if e.Fails(UpdaterStatus) { return Failed(UpdaterStatus); }
      if world.updater {
        var stopped := StopUpdaterProcess(e);
        if !stopped { return Failed(UpdaterStop); }
      }
      var started := StartUpdaterProcess(e);
      if !started { return Failed(UpdaterStart); }
      if e.Fails(Readiness) { return Failed(Readiness); }
      return Ok(Bootstrapped);
    }

    /** The public entry points: each takes the lock once and gives it back on every path. */
    method Perform(op: Operation, granted: bool) returns (outcome: Option<Outcome>)
      requires !lockHeld && !op.DoTryRestart?
      modifies this
      ensures !lockHeld
      ensures op.DoVersion? || granted ==> outcome.Some? && Result(world, outcome.value) == Exec(old(world), op)
      ensures !op.DoVersion? && !granted ==> outcome.None? && world == old(world)
    {
      if op.DoVersion? { return Some(Version(world, op.env).outcome); }
      AcquireLock(granted);
      if !lockHeld { return None; }
      var result := Unmanaged;
      match op {
        case DoStart(e) => result := StartOperation(e);
        case DoRestart(e) => result := RestartOperation(e);
        case DoStop(e) => result := StopOperation(e);
        case DoSetRemoteControl(e, enabled) => result := SetRemoteControlLocked(e, enabled);
        case DoBootstrap(e, enabled) => result := BootstrapLocked(e, enabled);
        case DoEnsureRemoteControl(e, setEnv, startEnv) => result := EnsureLocked(e, setEnv, startEnv);
      }
      ReleaseLock();
      outcome := Some(result);
    }

    method EnsureLocked(e: Env, setEnv: Env, startEnv: Env) returns (outcome: Outcome)
      requires lockHeld
      modifies `world
      ensures Result(world, outcome) == EnsureRemoteControl(old(world), e, setEnv, startEnv)
    {
      if e.Fails(LoadSettings) { return Failed(LoadSettings); }
      if e.Fails(UpdaterStatus) { return Failed(UpdaterStatus); }
      if !world.updater {
        outcome := BootstrapLocked(setEnv, true);
        return;
      }
      outcome := SetRemoteControlLocked(setEnv, true);
      if !outcome.Ok? { return; }
      outcome := StartOperation(startEnv);
    }

    method TryRestartIfRunning(e: Env, mode: RestartMode, refresh: RefreshMode, free: bool) returns (outcome: Outcome)
      requires !lockHeld
      modifies this
      ensures !lockHeld
      ensures free ==> Result(world, outcome) == TryRestart(old(world), e, mode, refresh)
      ensures free ==>
                Keeps(old(world), Result(world, outcome), PromisedRestart(old(world), e, mode, refresh), e.faults)
      ensures !free ==> world == old(world) && outcome == Ok(Busy)
    {
      TryRestartKeeps(world, e, mode, refresh);
      AcquireLock(free);
      if !lockHeld { return Ok(Busy); }
      outcome := RestartRunning(e, mode);
      if refresh.ReexecIfManagedBinaryChanged? && outcome == Ok(NowRestarted) {
        var replaced := ReexecManagedUpdater(e);
        if !replaced { outcome := Failed(Reexec); }
      }
      ReleaseLock();
    }

    method RestartRunning(e: Env, mode: RestartMode) returns (outcome: Outcome)
      requires lockHeld
      modifies `world
      ensures Result(world, outcome) == RestartIfRunning(old(world), e, mode)
    {
      if e.Fails(LoadSettings) { return Failed(LoadSettings); }
      if e.Fails(BackendStatus) { return Failed(BackendStatus); }
      if world.backend.None? {
        if e.answers { return Unmanaged; }
        return Ok(NotRunning);
      }
      if e.answers && e.Fails(ManagedVersion) { return Failed(ManagedVersion); }
      match RestartDecision(mode, e.answers, e.sameVersion) {
        case DecideNotReady => return Ok(NotReady);
        case DecideCurrent => return Ok(AlreadyCurrent);
        case DecideRestart => outcome := ReplaceBackend(e, NowRestarted);
      }
    }

    /** The retry loop of `update_once`: it makes the first attempt that finds the lock free
        unless it is terminated before; the busy ones change nothing. */
    method UpdateOnce(sameIdentity: bool, attempts: seq<Attempt>) returns (tried: Option<nat>, outcome: Outcome)
      requires !lockHeld
      modifies this
      ensures !lockHeld
      ensures tried.None? ==> world == old(world) && outcome == Ok(Busy) && forall i: nat :: !Turn(attempts, i)
      ensures tried.Some? ==>
                && Turn(attempts, tried.value)
                && (var (mode, refresh) := ModesFor(sameIdentity);
                    Result(world, outcome) == TryRestart(old(world), attempts[tried.value].env, mode, refresh))
                && Updates(old(world), attempts[tried.value].env, sameIdentity, Result(world, outcome))
    {
      var (mode, refresh) := ModesFor(sameIdentity);
      tried, outcome := None, Ok(Busy);
      for i := 0 to |attempts|
        invariant !lockHeld && world == old(world) && tried.None? && outcome == Ok(Busy)
        invariant forall k :: 0 <= k < i ==> !attempts[k].free && !attempts[k].terminated
      {
        if attempts[i].terminated { return; }
        UpdateKeeps(world, attempts[i].env, sameIdentity);
        outcome := TryRestartIfRunning(attempts[i].env, mode, refresh, attempts[i].free);
        if attempts[i].free { return Some(i), outcome; }
      }
    }
  }

  /** One turn of the retry loop: whether a termination signal came first, and whether the
      lock was free. */
  datatype Attempt = Attempt(terminated: bool, free: bool, env: Env)

  /** The first attempt that finds the lock free, with no termination before it. */
  predicate Turn(attempts: seq<Attempt>, i: nat) {
    && i < |attempts| && attempts[i].free && !attempts[i].terminated
    && forall k :: 0 <= k < i ==> !attempts[k].free && !attempts[k].terminated
  }
}
