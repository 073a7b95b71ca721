/** A daemon operation as one process performs it: a control point, what it remembers of
    what it has read, and one call of the backend, the file system or the updater at a time.

    Without deaths in between, the steps add up to the operation (`CompleteIsExec`). When
    the backend or the updater dies between any two of them, they still add up to a serial
    run of operations and deaths (`SectionIsSerial`). */
module DaemonSteps {
  import opened Sequences
  import opened DaemonLifecycle

  /** The call an operation makes next. */
  datatype Point =
    | AtLoad | AtBinary | AtStatus | AtSave | AtStatusAgain | AtVersion | AtStop | AtStart
    | AtUpdaterStatus | AtUpdaterStop | AtUpdaterStart
    | AtReady(status: Status) | AtReexec

  /** `settings` is the remote-control flag last loaded or to be set, `running` whether the
      backend was seen running, `after` the start that follows a successful change of the
      setting in `ensure_remote_control_started`. */
  datatype Control =
    | At(op: Operation, point: Point, settings: bool, running: bool, after: Option<Env>)
    | Returned(outcome: Outcome)

  datatype Moved = Moved(world: World, control: Control)

  function Begin(op: Operation): Control {
    match op
    case DoBootstrap(_, enabled) => At(op, AtBinary, enabled, false, None)
    case _ => At(op, AtLoad, false, false, None)
  }

  function PointRank(op: Operation, point: Point): nat {
    match point
    case AtLoad => 14
    case AtBinary => if op.DoBootstrap? then 13 else 10
    case AtStatus => 12
    case AtSave => 11
    case AtStatusAgain => 9
    case AtVersion => 9
    case AtStop => 8
    case AtStart => 7
    case AtUpdaterStatus => 6
    case AtUpdaterStop => 5
    case AtUpdaterStart => 4
    case AtReady(_) => 3
    case AtReexec => 2
  }

  /** Every call brings the operation nearer to its end. */
  function Rank(c: Control): nat {
    match c
    case Returned(_) => 0
    case At(op, point, _, _, after) =>
      PointRank(op, point) + (if op.DoEnsureRemoteControl? then 40 else 0) + (if after.Some? then 20 else 0)
  }

  function Error(site: Site): Control {
    Returned(Failed(site))
  }

  function Succeed(c: Control, status: Status): (next: Control)
    requires c.At?
    ensures Rank(next) < Rank(c)
  {
    if c.after.Some? then Begin(DoStart(c.after.value)) else Returned(Ok(status))
  }

  function Wanted(op: Operation): bool {
    match op
    case DoSetRemoteControl(_, enabled) => enabled
    case DoBootstrap(_, enabled) => enabled
    case _ => true
  }

  function StatusOf(op: Operation): Status {
    match op
    case DoStart(_) => NowRunning
    case DoSetRemoteControl(_, _) => Changed
    case _ => NowRestarted
  }

  // ----- Where control goes -----

  function Loaded(c: Control): (next: Control)
    requires c.At? && c.point.AtLoad?
    ensures Rank(next) < Rank(c)
  {
    match c.op
    case DoRestart(e) => c.(point := if e.answers then AtStatus else AtBinary)
    case DoVersion(e) => if e.answers then c.(point := AtStatus) else Error(Readiness)
    case DoEnsureRemoteControl(_, _, _) => c.(point := AtUpdaterStatus)
    case _ => c.(point := AtStatus)
  }

  function Seen(c: Control): (next: Control)
    requires c.At? && c.point.AtStatus?
    ensures Rank(next) < Rank(c)
  {
    match c.op
    case DoStart(e) =>
      if e.answers then Succeed(c, AlreadyRunning)
      else c.(point := if c.running then AtReady(AlreadyRunning) else AtBinary)
    case DoRestart(_) => if c.running then c.(point := AtBinary) else Returned(Unmanaged)
    case DoStop(e) =>
      if c.running then c.(point := AtStop)
      else if e.answers then Returned(Unmanaged) else Succeed(c, NotRunning)
    case DoTryRestart(e, _, _) =>
      if c.running then c.(point := AtVersion)
      else if e.answers then Returned(Unmanaged) else Succeed(c, NotRunning)
    case DoSetRemoteControl(e, enabled) =>
      if !c.running && e.answers then Returned(Unmanaged)
      else if c.settings != enabled then c.(point := AtSave)
      else if c.running then c.(point := AtReady(Unchanged))
      else Succeed(c, Unchanged)
    case DoBootstrap(_, _) => if c.running then c.(point := AtSave) else Returned(Unmanaged)
    case _ => Succeed(c, Running)
  }

  function Checked(c: Control): (next: Control)
    requires c.At? && c.point.AtBinary?
    ensures Rank(next) < Rank(c)
  {
    match c.op
    case DoRestart(_) => c.(point := AtStatusAgain)
    case DoSetRemoteControl(_, _) => c.(point := AtStop)
    case DoBootstrap(e, _) => c.(point := if e.answers then AtStatus else AtSave)
    case _ => c.(point := AtStart)
  }

  function Decided(c: Control): (next: Control)
    requires c.At? && c.point.AtVersion?
    ensures Rank(next) < Rank(c)
  {
    match c.op
    case DoTryRestart(e, mode, _) =>
      if e.answers && e.Fails(ManagedVersion) then Error(ManagedVersion)
      else
        (match RestartDecision(mode, e.answers, e.sameVersion)
         case DecideNotReady => Succeed(c, NotReady)
         case DecideCurrent => Succeed(c, AlreadyCurrent)
         case DecideRestart => c.(point := AtStop))
    case _ => c.(point := AtStop)
  }

  function UpdaterSeen(c: Control, running: bool): (next: Control)
    requires c.At? && c.point.AtUpdaterStatus?
    ensures Rank(next) < Rank(c)
  {
    match c.op
    case DoEnsureRemoteControl(_, setEnv, startEnv) =>
      if running then At(DoSetRemoteControl(setEnv, true), AtLoad, false, false, Some(startEnv))
      else Begin(DoBootstrap(setEnv, true))
    case _ => c.(point := if running then AtUpdaterStop else AtUpdaterStart)
  }

  function Ready(c: Control, status: Status): (next: Control)
    requires c.At? && c.point.AtReady?
    ensures Rank(next) < Rank(c)
  {
    if c.op.DoTryRestart? && ShouldReexec(c.op.refresh, Ok(status)) then c.(point := AtReexec) else Succeed(c, status)
  }

  /** The process makes its next call. */
  function Act(w: World, c: Control): Moved
    requires c.At?
  {
    var e := c.op.env;
    match c.point
    case AtLoad =>
      Moved(w, if e.Fails(LoadSettings) then Error(LoadSettings) else Loaded(c.(settings := w.remoteControl)))
    case AtBinary => Moved(w, if e.Fails(ManagedBinary) then Error(ManagedBinary) else Checked(c))
    case AtStatus =>
      Moved(w, if e.Fails(BackendStatus) then Error(BackendStatus) else Seen(c.(running := w.backend.Some?)))
    case AtSave =>
      if e.Fails(SaveSettings) then Moved(w, Error(SaveSettings))
      else Moved(Save(w, Wanted(c.op)), Saved(c.(settings := Wanted(c.op))))
    case AtStatusAgain =>
      Moved(w, if e.Fails(BackendStatusAgain) then Error(BackendStatusAgain)
               else c.(running := w.backend.Some?, point := if w.backend.Some? then AtStop else AtStart))
    case AtVersion => Moved(w, Decided(c))
    case AtStop =>
      if e.Fails(BackendStop) then Moved(StopFailed(w, e), Error(BackendStop))
      else Moved(StopBackend(w), if c.op.DoStop? then Succeed(c, NowStopped) else c.(point := AtStart))
    case AtStart =>
      if e.Fails(BackendStart) then Moved(w, Error(BackendStart))
      else Moved(StartBackend(w, c.settings),
                 c.(point := if c.op.DoBootstrap? then AtUpdaterStatus else AtReady(StatusOf(c.op))))
    case AtUpdaterStatus => Moved(w, if e.Fails(UpdaterStatus) then Error(UpdaterStatus) else UpdaterSeen(c, w.updater))
    case AtUpdaterStop =>
      if e.Fails(UpdaterStop) then Moved(w, Error(UpdaterStop)) else Moved(StopUpdater(w), c.(point := AtUpdaterStart))
    case AtUpdaterStart =>
      if e.Fails(UpdaterStart) then Moved(w, Error(UpdaterStart))
      else Moved(LaunchUpdater(w), c.(point := AtReady(Bootstrapped)))
    case AtReady(status) => Moved(w, if e.Fails(Readiness) then Error(Readiness) else Ready(c, status))
    case AtReexec =>
      if e.Fails(Reexec) then Moved(w, Error(Reexec)) else Moved(ReexecuteUpdater(w), Succeed(c, NowRestarted))
  }

  function Saved(c: Control): (next: Control)
    requires c.At? && c.point.AtSave?
    ensures Rank(next) < Rank(c)
  {
    if c.op.DoBootstrap? then c.(point := AtStatusAgain)
    else if c.running then c.(point := AtBinary)
    else Succeed(c, Changed)
  }

  // ----- Running to the end -----

  lemma RankFalls(w: World, c: Control)
    requires c.At?
    ensures Rank(Act(w, c).control) < Rank(c)
  {
  }

  /** The rest of the operation, undisturbed. */
  function Complete(w: World, c: Control): Result
    decreases Rank(c)
  {
    match c
    case Returned(outcome) => Result(w, outcome)
    case At(_, _, _, _, _) =>
      RankFalls(w, c);
      var m := Act(w, c);
      Complete(m.world, m.control)
  }

  function Next(m: Moved): Moved
    requires m.control.At?
  {
    Act(m.world, m.control)
  }

  // ----- Undisturbed, the steps are the operation -----

  /** A restart of the updater's own making goes on to the re-exec. */
  function Finish(c: Control, r: Result): Result
    requires c.At?
  {
    if c.op.DoTryRestart? then Refresh(r, c.op.env, c.op.refresh) else r
  }

  lemma CompleteFromReady(w: World, c: Control)
    requires c.At? && c.after.None? && c.point.AtReady? && (c.op.DoTryRestart? ==> c.point.status == NowRestarted)
    ensures Complete(w, c) ==
            Finish(c, Result(w, if c.op.env.Fails(Readiness) then Failed(Readiness) else Ok(c.point.status)))
  {
    var m := Act(w, c);
    assert Complete(w, c) == Complete(m.world, m.control);
    if m.control.At? {
      var n := Next(m);
      assert Complete(m.world, m.control) == Complete(n.world, n.control);
    }
  }

  lemma CompleteFromStart(w: World, c: Control)
    requires c.At? && c.after.None? && c.point.AtStart? && !c.op.DoBootstrap?
    requires w.backend.None? && c.settings == w.remoteControl
    ensures Complete(w, c) == Finish(c, StartAndWait(w, c.op.env, StatusOf(c.op)))
  {
    var m := Act(w, c);
    assert Complete(w, c) == Complete(m.world, m.control);
    if m.control.At? { CompleteFromReady(m.world, m.control); }
  }

  lemma CompleteFromStop(w: World, c: Control)
    requires c.At? && c.after.None? && c.point.AtStop? && !c.op.DoBootstrap? && !c.op.DoStop?
    requires w.backend.Some? && c.settings == w.remoteControl
    ensures Complete(w, c) == Finish(c, Replace(w, c.op.env, StatusOf(c.op)))
  {
    var m := Act(w, c);
    assert Complete(w, c) == Complete(m.world, m.control);
    if m.control.At? { CompleteFromStart(m.world, m.control); }
  }

  lemma CompleteFromUpdater(w: World, c: Control)
    requires c.At? && c.after.None? && c.point.AtUpdaterStatus? && c.op.DoBootstrap?
    ensures Complete(w, c) == StartUpdater(w, c.op.env)
  {
    var m := Act(w, c);
    assert Complete(w, c) == Complete(m.world, m.control);
    if m.control.At? {
      if m.control.point.AtUpdaterStop? {
        var n := Next(m);
        assert Complete(m.world, m.control) == Complete(n.world, n.control);
        if n.control.At? { CompleteFromUpdaterStart(n.world, n.control); }
      } else {
        CompleteFromUpdaterStart(m.world, m.control);
      }
    }
  }

  lemma CompleteFromUpdaterStart(w: World, c: Control)
    requires c.At? && c.after.None? && c.point.AtUpdaterStart? && c.op.DoBootstrap?
    ensures Complete(w, c) ==
            if c.op.env.Fails(UpdaterStart) then Result(w, Failed(UpdaterStart))
            else Result(LaunchUpdater(w), if c.op.env.Fails(Readiness) then Failed(Readiness) else Ok(Bootstrapped))
  {
    var m := Act(w, c);
    assert Complete(w, c) == Complete(m.world, m.control);
    if m.control.At? { CompleteFromReady(m.world, m.control); }
  }

  /** The second half of a restart or a bootstrap, from its second look at the backend. */
  function FromStatusAgain(w: World, op: Operation): Result
    requires op.DoRestart? || op.DoBootstrap?
  {
    var e := op.env;
    if e.Fails(BackendStatusAgain) then Result(w, Failed(BackendStatusAgain))
    else if op.DoRestart? then Replace(w, e, NowRestarted)
    else if w.backend.Some? && e.Fails(BackendStop) then Result(StopFailed(w, e), Failed(BackendStop))
    else
      var w := if w.backend.Some? then StopBackend(w) else w;
      if e.Fails(BackendStart) then Result(w, Failed(BackendStart))
      else StartUpdater(StartBackend(w, op.enabled), e)
  }

  lemma CompleteFromStatusAgain(w: World, c: Control)
    requires c.At? && c.after.None? && c.point.AtStatusAgain? && (c.op.DoRestart? || c.op.DoBootstrap?)
    requires c.settings == w.remoteControl && (c.op.DoBootstrap? ==> c.settings == c.op.enabled)
    ensures Complete(w, c) == FromStatusAgain(w, c.op)
  {
    var m := Act(w, c);
    assert Complete(w, c) == Complete(m.world, m.control);
    if m.control.At? {
      if c.op.DoRestart? {
        if w.backend.Some? { CompleteFromStop(w, m.control); } else { CompleteFromStart(w, m.control); }
      } else if w.backend.Some? {
        var n := Next(m);
        assert Complete(m.world, m.control) == Complete(n.world, n.control);
        if n.control.At? { BootstrapFromStart(n.world, n.control); }
      } else {
        BootstrapFromStart(w, m.control);
      }
    }
  }

  lemma BootstrapFromStart(w: World, c: Control)
    requires c.At? && c.after.None? && c.point.AtStart? && c.op.DoBootstrap? && c.settings == c.op.enabled
    ensures Complete(w, c) ==
            if c.op.env.Fails(BackendStart) then Result(w, Failed(BackendStart))
            else StartUpdater(StartBackend(w, c.op.enabled), c.op.env)
  {
    var m := Act(w, c);
    assert Complete(w, c) == Complete(m.world, m.control);
    if m.control.At? { CompleteFromUpdater(m.world, m.control); }
  }

  /** The process has loaded the settings and is about to look at the backend. */
  lemma CompleteFromStatus(w: World, c: Control)
    requires c.At? && c.after.None? && c.point.AtStatus? && c.settings == w.remoteControl
    requires !c.op.DoBootstrap? && !c.op.DoEnsureRemoteControl? && !c.op.env.Fails(LoadSettings)
    requires c.op.DoRestart? || c.op.DoVersion? ==> c.op.env.answers
    ensures Complete(w, c) == Exec(w, c.op)
  {
    var m := Act(w, c);
    assert Complete(w, c) == Complete(m.world, m.control);
    if m.control.At? {
      match c.op
      case DoStart(_) =>
        if m.control.point.AtReady? { CompleteFromReady(w, m.control); } else { CompleteFromBinary(w, m.control); }
      case DoRestart(_) => CompleteFromBinary(w, m.control);
      case DoStop(_) =>
        var n := Next(m);
        assert Complete(m.world, m.control) == Complete(n.world, n.control);
      case DoTryRestart(_, _, _) => CompleteFromVersion(w, m.control);
      case DoSetRemoteControl(_, _) =>
        if m.control.point.AtReady? { CompleteFromReady(w, m.control); } else { CompleteFromSave(w, m.control); }
    }
  }

  lemma CompleteFromBinary(w: World, c: Control)
    requires c.At? && c.after.None? && c.point.AtBinary? && c.settings == w.remoteControl
    requires c.op.DoStart? || c.op.DoRestart?
    requires c.op.DoStart? ==> w.backend.None?
    ensures Complete(w, c) ==
            if c.op.env.Fails(ManagedBinary) then Result(w, Failed(ManagedBinary))
            else if c.op.DoStart? then StartAndWait(w, c.op.env, NowRunning)
            else FromStatusAgain(w, c.op)
  {
    var m := Act(w, c);
    assert Complete(w, c) == Complete(m.world, m.control);
    if m.control.At? {
      if c.op.DoStart? { CompleteFromStart(w, m.control); } else { CompleteFromStatusAgain(w, m.control); }
    }
  }

  lemma CompleteFromVersion(w: World, c: Control)
    requires c.At? && c.after.None? && c.point.AtVersion? && c.settings == w.remoteControl
    requires c.op.DoTryRestart? && w.backend.Some? && !c.op.env.Fails(LoadSettings) && !c.op.env.Fails(BackendStatus)
    ensures Complete(w, c) == Exec(w, c.op)
  {
    var m := Act(w, c);
    assert Complete(w, c) == Complete(m.world, m.control);
    if m.control.At? { CompleteFromStop(w, m.control); }
  }

  lemma CompleteFromSave(w: World, c: Control)
    requires c.At? && c.after.None? && c.point.AtSave? && c.op.DoSetRemoteControl?
    requires c.running == w.backend.Some?
    ensures Complete(w, c) ==
            if c.op.env.Fails(SaveSettings) then Result(w, Failed(SaveSettings))
            else
              var w := Save(w, c.op.enabled);
              if w.backend.None? then Result(w, Ok(Changed))
              else if c.op.env.Fails(ManagedBinary) then Result(w, Failed(ManagedBinary))
              else Replace(w, c.op.env, Changed)
  {
    var m := Act(w, c);
    assert Complete(w, c) == Complete(m.world, m.control);
    if m.control.At? {
      var n := Next(m);
      assert Complete(m.world, m.control) == Complete(n.world, n.control);
      if n.control.At? { CompleteFromStop(n.world, n.control); }
    }
  }

  lemma CompleteBootstrap(w: World, c: Control)
    requires c.At? && c.after.None? && c.op.DoBootstrap? && c.settings == c.op.enabled
    ensures c.point.AtBinary? ==> Complete(w, c) == Exec(w, c.op)
    ensures c.point.AtStatus? && c.op.env.answers && !c.op.env.Fails(ManagedBinary) ==> Complete(w, c) == Exec(w, c.op)
    ensures c.point.AtSave? ==>
              Complete(w, c) == if c.op.env.Fails(SaveSettings) then Result(w, Failed(SaveSettings))
                                else FromStatusAgain(Save(w, c.op.enabled), c.op)
    decreases Rank(c)
  {
    if c.point.AtBinary? || c.point.AtStatus? || c.point.AtSave? {
      RankFalls(w, c);
      var m := Act(w, c);
      assert Complete(w, c) == Complete(m.world, m.control);
      if m.control.At? {
        if c.point.AtSave? { CompleteFromStatusAgain(m.world, m.control); } else { CompleteBootstrap(w, m.control); }
      }
    }
  }

  /** The same control, but for the start that is to follow. */
  predicate SameButStart(op: Operation, after: Env, m: Control, n: Control) {
    match n
    case At(_, _, _, _, _) => n.op == op && m == n.(after := Some(after))
    case Returned(outcome) => m == if outcome.Ok? then Begin(DoStart(after)) else n
  }

  lemma ActWithStart(w: World, c: Control)
    requires c.At? && c.after.Some? && c.op.DoSetRemoteControl?
    ensures var m, n := Act(w, c), Act(w, c.(after := None));
            m.world == n.world && SameButStart(c.op, c.after.value, m.control, n.control)
  {
    var c0 := c.(after := None);
    match c.point
    case AtLoad =>
    case AtBinary =>
    case AtStatus => SeenWithStart(c.(running := w.backend.Some?));
    case AtSave => assert Saved(c0.(settings := Wanted(c.op))).At? <==> c.running;
    case AtStatusAgain =>
    case AtVersion =>
    case AtStop =>
    case AtStart =>
    case AtUpdaterStatus =>
    case AtUpdaterStop =>
    case AtUpdaterStart =>
    case AtReady(_) =>
    case AtReexec =>
  }

  lemma SeenWithStart(c: Control)
    requires c.At? && c.after.Some? && c.op.DoSetRemoteControl? && c.point.AtStatus?
    ensures SameButStart(c.op, c.after.value, Seen(c), Seen(c.(after := None)))
  {
  }

  /** What follows a successful change of the setting is a start. */
  lemma {:induction false} CompleteWithStart(w: World, c: Control)
    requires c.At? && c.after.Some? && c.op.DoSetRemoteControl?
    ensures var r := Complete(w, c.(after := None));
            Complete(w, c) == if r.outcome.Ok? then Complete(r.world, Begin(DoStart(c.after.value))) else r
    decreases Rank(c)
  {
    var m, n := Act(w, c), Act(w, c.(after := None));
    ActWithStart(w, c);
    RankFalls(w, c);
    assert Complete(w, c) == Complete(m.world, m.control);
    assert Complete(w, c.(after := None)) == Complete(n.world, n.control);
    if n.control.At? {
      AfterStaysNone(w, c.(after := None));
      assert m.control.(after := None) == n.control;
      CompleteWithStart(m.world, m.control);
    }
  }

  lemma AfterStaysNone(w: World, c: Control)
    requires c.At? && c.after.None? && c.op.DoSetRemoteControl?
    ensures Act(w, c).control.At? ==> Act(w, c).control.after.None?
  {
  }

  /** An operation taken in steps, with nothing in between, is the operation. */
  lemma CompleteIsExec(w: World, op: Operation)
    ensures Complete(w, Begin(op)) == Exec(w, op)
    decreases Rank(Begin(op))
  {
    var c := Begin(op);
    if op.DoBootstrap? {
      CompleteBootstrap(w, c);
    } else {
      var m := Act(w, c);
      assert Complete(w, c) == Complete(m.world, m.control);
      if m.control.At? {
        if op.DoEnsureRemoteControl? { CompleteEnsure(w, m.control); }
        else if m.control.point.AtBinary? { CompleteFromBinary(w, m.control); }
        else { CompleteFromStatus(w, m.control); }
      }
    }
  }

  lemma CompleteEnsure(w: World, c: Control)
    requires c.At? && c.point.AtUpdaterStatus? && c.op.DoEnsureRemoteControl? && !c.op.env.Fails(LoadSettings)
    ensures Complete(w, c) == Exec(w, c.op)
    decreases Rank(c)
  {
    var m := Act(w, c);
    assert Complete(w, c) == Complete(m.world, m.control);
    if m.control.At? {
      if w.updater {
        var set1, start := DoSetRemoteControl(c.op.setEnv, true), DoStart(c.op.startEnv);
        CompleteWithStart(w, m.control);
        assert m.control.(after := None) == Begin(set1);
        CompleteIsExec(w, set1);
        CompleteIsExec(Exec(w, set1).world, start);
      } else {
        CompleteBootstrap(w, m.control);
      }
    }
  }

  // ----- The record of effects is complete -----

  /** One change to the world, as recorded. */
  function Apply(w: World, effect: Effect): World {
    var w := w.(effects := w.effects + [effect]);
    match effect
    case SettingsSaved(enabled) => w.(remoteControl := enabled)
    case Stopped => w.(backend := None)
    case Started(enabled) => w.(backend := Some(enabled))
    case UpdaterStopped => w.(updater := false)
    case UpdaterStarted => w.(updater := true)
    case UpdaterReexecuted => w
  }

  function Replay(w: World, effects: seq<Effect>): World
    decreases |effects|
  {
    if effects == [] then w else Replay(Apply(w, effects[0]), effects[1..])
  }

  /** The second world is the first after the effects it has gained. */
  ghost predicate Reaches(w: World, w': World) {
    w.effects <= w'.effects && Replay(w, w'.effects[|w.effects|..]) == w'
  }

  lemma ReachesOn(w: World, effect: Effect, w': World)
    requires Reaches(Apply(w, effect), w')
    ensures Reaches(w, w')
  {
    var more := w'.effects[|w.effects|..];
    assert more[0] == effect && more[1..] == w'.effects[|w.effects| + 1..];
  }

  /** A step makes at most one change, and it is recorded. */
  function EffectOf(w: World, c: Control): Option<Effect>
    requires c.At?
  {
    var e := c.op.env;
    match c.point
    case AtSave => if e.Fails(SaveSettings) then None else Some(SettingsSaved(Wanted(c.op)))
    case AtStop => if StopLeavesRunning(e) then None else Some(Stopped)
    case AtStart => if e.Fails(BackendStart) || w.backend.Some? then None else Some(Started(c.settings))
    case AtUpdaterStop => if e.Fails(UpdaterStop) then None else Some(UpdaterStopped)
    case AtUpdaterStart => if e.Fails(UpdaterStart) then None else Some(UpdaterStarted)
    case AtReexec => if e.Fails(Reexec) then None else Some(UpdaterReexecuted)
    case _ => None
  }

  lemma ActIsOneEffect(w: World, c: Control)
    requires c.At?
    ensures Act(w, c).world == match EffectOf(w, c) case None => w case Some(effect) => Apply(w, effect)
  {
  }

  lemma {:induction false} CompleteReaches(w: World, c: Control)
    ensures Reaches(w, Complete(w, c).world)
    decreases Rank(c)
  {
    if c.At? {
      var m, effect := Act(w, c), EffectOf(w, c);
      RankFalls(w, c);
      ActIsOneEffect(w, c);
      CompleteReaches(m.world, m.control);
      if effect.Some? { ReachesOn(w, effect.value, Complete(w, c).world); }
    }
  }

  lemma ExecReaches(w: World, op: Operation)
    ensures Reaches(w, Exec(w, op).world)
  {
    CompleteIsExec(w, op);
    CompleteReaches(w, Begin(op));
  }
}
