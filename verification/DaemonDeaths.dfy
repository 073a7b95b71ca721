/** The backend or the updater may die between any two steps of an operation. Whatever they
    do, an operation and the deaths that fell into it have the effect, step for step in the
    record, and the outcome of a serial run: deaths before, the operation, deaths after. A
    death the operation does not notice is either made good by its own stop and start, or
    counts as one after it. */
module DaemonDeaths {
  import opened Sequences
  import opened DaemonLifecycle
  import opened DaemonSteps

  function Kill(w: World, backend: bool, updater: bool): World {
    w.(backend := if backend then None else w.backend, updater := w.updater && !updater)
  }

  function Lost(r: Result, backend: bool, updater: bool): Result {
    r.(world := Kill(r.world, backend, updater))
  }

  /** The control points an operation can reach. */
  predicate Proper(c: Control)
    requires c.At?
  {
    && (c.after.Some? ==> c.op.DoSetRemoteControl?)
    && match c.point
       case AtLoad => c.(after := None) == Begin(c.op)
       case AtBinary => c.op.DoStart? || c.op.DoRestart? || c.op.DoSetRemoteControl? || c.op.DoBootstrap?
       case AtStatus => !c.op.DoEnsureRemoteControl?
       case AtSave => c.op.DoSetRemoteControl? || c.op.DoBootstrap?
       case AtStatusAgain => c.op.DoRestart? || c.op.DoBootstrap?
       case AtVersion => c.op.DoTryRestart?
       case AtStop => !c.op.DoStart? && !c.op.DoVersion? && !c.op.DoEnsureRemoteControl?
       case AtStart => !c.op.DoStop? && !c.op.DoVersion? && !c.op.DoEnsureRemoteControl?
       case AtUpdaterStatus => c.op.DoBootstrap? || c.op.DoEnsureRemoteControl?
       case AtUpdaterStop => c.op.DoBootstrap?
       case AtUpdaterStart => c.op.DoBootstrap?
       case AtReady(_) => !c.op.DoStop? && !c.op.DoVersion? && !c.op.DoEnsureRemoteControl?
       case AtReexec => c.op.DoTryRestart?
  }

  /** What the process remembers is not contradicted by a running backend. */
  predicate Sane(w: World, c: Control)
    requires c.At?
  {
    && Proper(c)
    && (c.point.AtStart? || (c.point.AtBinary? && c.op.DoStart?) ==> w.backend.None?)
    && (c.op.DoSetRemoteControl? && c.point.AtSave? && w.backend.Some? ==> c.running)
  }

  /** The operation will still look at the backend before it acts on it. */
  predicate WillLook(c: Control)
    requires c.At?
  {
    match c.op
    case DoRestart(_) => c.point.AtLoad? || c.point.AtStatus? || c.point.AtBinary? || c.point.AtStatusAgain?
    case DoBootstrap(_, _) => c.point.AtBinary? || c.point.AtStatus? || c.point.AtSave? || c.point.AtStatusAgain?
    case DoEnsureRemoteControl(_, _, _) => true
    case _ => c.point.AtLoad? || c.point.AtStatus?
  }

  /** A bootstrap that will still look at the updater. */
  predicate WillLookAtUpdater(c: Control)
    requires c.At?
  {
    c.op.DoBootstrap? && PointRank(c.op, c.point) >= 6
  }

  lemma ActStaysSane(w: World, c: Control)
    requires c.At? && c.after.None? && Sane(w, c) && !WillLook(c)
    ensures var m := Act(w, c);
            m.control.At? ==> Sane(m.world, m.control) && !WillLook(m.control)
                              && m.control.op == c.op && m.control.after.None?
  {
    match c.point
    case AtBinary =>
    case AtSave =>
    case AtVersion =>
    case AtStop =>
    case AtStart =>
    case AtUpdaterStatus =>
    case AtReady(_) =>
    case _ =>
  }

  // ----- Deaths the operation does not notice -----

  /** The backend will be stopped whether it is alive or not. */
  predicate MakesGoodBackend(c: Control)
    requires c.At?
  {
    var e := c.op.env;
    !StopLeavesRunning(e) &&
    match c.point
    case AtStop => true
    case AtVersion =>
      && c.op.DoTryRestart? && !(e.answers && e.Fails(ManagedVersion))
      && RestartDecision(c.op.mode, e.answers, e.sameVersion).DecideRestart?
    case AtBinary => !e.Fails(ManagedBinary)
    case AtSave => !e.Fails(SaveSettings) && !e.Fails(ManagedBinary)
    case _ => false
  }

  lemma ActAfterBackendDeath(w: World, c: Control)
    requires c.At? && c.after.None? && Sane(w, c) && !WillLook(c) && w.backend.Some?
    ensures var m, n := Act(w, c), Act(Kill(w, true, false), c);
            && n.control == m.control
            && n.world == if c.point.AtStop? && MakesGoodBackend(c) then m.world else Kill(m.world, true, false)
    ensures var m := Act(w, c);
            if c.point.AtStop? then m.control.At? ==> MakesGoodBackend(c)
            else && m.world.backend.Some?
                 && (MakesGoodBackend(c) <==> m.control.At? && MakesGoodBackend(m.control))
  {
    match c.point
    case AtStop =>
    case AtVersion =>
    case AtBinary =>
    case AtSave =>
    case AtUpdaterStatus =>
    case AtUpdaterStop =>
    case AtUpdaterStart =>
    case AtReady(_) =>
    case AtReexec =>
    case _ =>
  }

  lemma {:induction false} BackendDeath(w: World, c: Control)
    requires c.At? && c.after.None? && Sane(w, c) && !WillLook(c) && w.backend.Some?
    ensures Complete(Kill(w, true, false), c) ==
            if MakesGoodBackend(c) then Complete(w, c) else Lost(Complete(w, c), true, false)
    decreases Rank(c)
  {
    var m, n := Act(w, c), Act(Kill(w, true, false), c);
    RankFalls(w, c);
    ActAfterBackendDeath(w, c);
    ActStaysSane(w, c);
    assert Complete(w, c) == Complete(m.world, m.control);
    assert Complete(Kill(w, true, false), c) == Complete(n.world, n.control);
    if !c.point.AtStop? && m.control.At? { BackendDeath(m.world, m.control); }
  }

  predicate MakesGoodUpdater(c: Control)
    requires c.At?
  {
    match c.point
    case AtUpdaterStop => !c.op.env.Fails(UpdaterStop)
    case AtUpdaterStart => !c.op.env.Fails(UpdaterStart)
    case _ => false
  }

  lemma ActIgnoresUpdater(w: World, c: Control)
    requires c.At? && !c.point.AtUpdaterStatus? && !c.point.AtUpdaterStop? && !c.point.AtUpdaterStart?
    ensures Act(Kill(w, false, true), c) == Act(w, c).(world := Kill(Act(w, c).world, false, true))
  {
    match c.point
    case AtSave =>
    case AtStop =>
    case AtStart =>
    case AtReexec =>
    case _ =>
  }

  lemma {:induction false} UpdaterDeath(w: World, c: Control)
    requires c.At? && c.after.None? && Sane(w, c) && !WillLook(c) && !WillLookAtUpdater(c) && w.updater
    ensures Complete(Kill(w, false, true), c) ==
            if MakesGoodUpdater(c) then Complete(w, c) else Lost(Complete(w, c), false, true)
    decreases Rank(c)
  {
    var m, n := Act(w, c), Act(Kill(w, false, true), c);
    RankFalls(w, c);
    ActStaysSane(w, c);
    assert Complete(w, c) == Complete(m.world, m.control);
    assert Complete(Kill(w, false, true), c) == Complete(n.world, n.control);
    if !c.point.AtUpdaterStop? && !c.point.AtUpdaterStart? {
      ActIgnoresUpdater(w, c);
      if m.control.At? { UpdaterDeath(m.world, m.control); }
    }
  }

  // ----- Deaths the operation still notices -----

  /** The probe of the socket came before the death: without it, the socket would not answer. */
  function Unanswered(op: Operation): Operation {
    match op
    case DoRestart(e) => DoRestart(e.(answers := false))
    case DoBootstrap(e, enabled) => DoBootstrap(e.(answers := false), enabled)
    case _ => op
  }

  /** A restart or a bootstrap that has looked once and will look again. */
  predicate HasLooked(c: Control)
    requires c.At?
  {
    || (c.op.DoRestart? && (c.point.AtBinary? || c.point.AtStatusAgain?))
    || (c.op.DoBootstrap? && (c.point.AtSave? || c.point.AtStatusAgain?))
  }

  /** What an operation that will still look at the backend has been through. */
  predicate Passed(w: World, c: Control)
    requires c.At?
  {
    var e := c.op.env;
    match c.op
    case DoBootstrap(_, enabled) =>
      && c.settings == enabled
      && (!c.point.AtBinary? ==> !e.Fails(ManagedBinary))
      && (c.point.AtStatus? ==> e.answers)
      && (HasLooked(c) && e.answers ==> !e.Fails(BackendStatus))
      && (c.point.AtStatusAgain? ==> !e.Fails(SaveSettings))
    case DoRestart(_) =>
      c.point.AtLoad? ||
      (&& !e.Fails(LoadSettings) && c.settings == w.remoteControl
       && (c.point.AtStatus? ==> e.answers)
       && (HasLooked(c) && e.answers ==> !e.Fails(BackendStatus))
       && (c.point.AtStatusAgain? ==> !e.Fails(ManagedBinary)))
    case _ =>
      c.point.AtLoad? ||
      (!e.Fails(LoadSettings) && c.settings == w.remoteControl && (c.op.DoVersion? ==> e.answers))
  }

  /** So far the operation has done no more than save the setting of a bootstrap, so it is
      as good as not begun in `start`. */
  predicate Early(start: World, op: Operation, w: World, c: Control) {
    && c.At? && Proper(c) && WillLook(c) && Passed(w, c)
    && w == (if c.op.DoBootstrap? && c.point.AtStatusAgain? then Save(start, c.op.enabled) else start)
    && op == (if HasLooked(c) && start.backend.None? then Unanswered(c.op) else c.op)
  }

  lemma EarlyRestart(start: World, op: Operation, w: World, c: Control)
    requires Early(start, op, w, c) && c.op.DoRestart? && HasLooked(c)
    ensures Complete(w, c) == Exec(start, op)
  {
    if c.point.AtBinary? { CompleteFromBinary(w, c); } else { CompleteFromStatusAgain(w, c); }
  }

  lemma EarlyBootstrap(start: World, op: Operation, w: World, c: Control)
    requires Early(start, op, w, c) && c.op.DoBootstrap? && HasLooked(c)
    ensures Complete(w, c) == Exec(start, op)
  {
    if c.point.AtSave? { CompleteBootstrap(w, c); } else { CompleteFromStatusAgain(w, c); }
  }

  lemma EarlyIsExec(start: World, op: Operation, w: World, c: Control)
    requires Early(start, op, w, c)
    ensures Complete(w, c.(after := None)) == Exec(start, op)
  {
    var c := c.(after := None);
    if HasLooked(c) {
      if c.op.DoRestart? { EarlyRestart(start, op, w, c); } else { EarlyBootstrap(start, op, w, c); }
    } else if c.op.DoBootstrap? {
      CompleteBootstrap(w, c);
    } else if c.point.AtLoad? {
      CompleteIsExec(w, c.op);
    } else if c.op.DoEnsureRemoteControl? {
      CompleteEnsure(w, c);
    } else {
      CompleteFromStatus(w, c);
    }
  }

  /** A death is one before the operation began. */
  lemma EarlyDeath(start: World, op: Operation, w: World, c: Control, backend: bool, updater: bool)
    requires Early(start, op, w, c)
    ensures Early(Kill(start, backend, updater),
                  if backend && HasLooked(c) then Unanswered(c.op) else op, Kill(w, backend, updater), c)
  {
  }

  lemma EarlyAct(start: World, op: Operation, w: World, c: Control)
    requires Early(start, op, w, c) && c.after.None? && !c.op.DoEnsureRemoteControl?
    ensures var m := Act(w, c);
            m.control.At? ==>
              && m.control.op == c.op && m.control.after.None?
              && if WillLook(m.control) then Early(start, op, m.world, m.control) else Sane(m.world, m.control)
  {
    match c.point
    case AtLoad =>
    case AtBinary =>
    case AtStatus =>
    case AtSave =>
    case AtStatusAgain =>
  }

  // ----- The tale of an operation -----

  /** What an operation under way will have been: `op` begun in `start`, and then the loss
      of the backend or the updater. */
  datatype Tale = Tale(start: World, op: Operation, lostBackend: bool, lostUpdater: bool) {
    function Ending(): Result { Lost(Exec(start, op), lostBackend, lostUpdater) }
  }

  /** Past its last look at the backend, the operation will end as its tale does; and if the
      updater died before it looks at that, as the tale of a death before it began. */
  predicate Late(t: Tale, w: World, c: Control) {
    && c.At? && Sane(w, c) && !WillLook(c)
    && Complete(w, c.(after := None)) == t.Ending()
    && (WillLookAtUpdater(c) ==>
          && !t.lostUpdater
          && Complete(Kill(w, false, true), c) == t.(start := Kill(t.start, false, true)).Ending())
  }

  predicate Explains(t: Tale, w: World, c: Control) {
    c.At? && if WillLook(c) then t == Tale(t.start, t.op, false, false) && Early(t.start, t.op, w, c) else Late(t, w, c)
  }

  lemma EarlyBecomesLate(t: Tale, w: World, c: Control)
    requires Explains(t, w, c) && c.after.None? && WillLook(c) && !c.op.DoEnsureRemoteControl?
    requires Act(w, c).control.At? && !WillLook(Act(w, c).control)
    ensures Late(t, Act(w, c).world, Act(w, c).control)
  {
    var m := Act(w, c);
    EarlyAct(t.start, t.op, w, c);
    EarlyIsExec(t.start, t.op, w, c);
    assert Complete(w, c) == Complete(m.world, m.control);
    if WillLookAtUpdater(m.control) {
      var w1 := Kill(w, false, true);
      assert Complete(w1, c) == Exec(Kill(t.start, false, true), t.op) by {
        EarlyDeath(t.start, t.op, w, c, false, true);
        EarlyIsExec(Kill(t.start, false, true), t.op, w1, c);
      }
      ActIgnoresUpdater(w, c);
    }
  }

  lemma LateAct(t: Tale, w: World, c: Control)
    requires Late(t, w, c) && c.after.None? && Act(w, c).control.At?
    ensures Late(t, Act(w, c).world, Act(w, c).control)
  {
    var m := Act(w, c);
    ActStaysSane(w, c);
    RankFalls(w, c);
    assert Complete(w, c) == Complete(m.world, m.control);
    if WillLookAtUpdater(m.control) { ActIgnoresUpdater(w, c); }
  }

  /** A step of the process goes on with the tale or ends it. */
  lemma ActExplains(t: Tale, w: World, c: Control)
    requires Explains(t, w, c) && c.after.None? && !c.op.DoEnsureRemoteControl?
    ensures var m := Act(w, c);
            match m.control
            case At(_, _, _, _, _) => m.control.op == c.op && m.control.after.None? && Explains(t, m.world, m.control)
            case Returned(outcome) => Result(m.world, outcome) == t.Ending()
  {
    var m := Act(w, c);
    assert Complete(w, c) == Complete(m.world, m.control);
    if WillLook(c) {
      EarlyAct(t.start, t.op, w, c);
      EarlyIsExec(t.start, t.op, w, c);
      if m.control.At? && !WillLook(m.control) { EarlyBecomesLate(t, w, c); }
    } else {
      ActStaysSane(w, c);
      if m.control.At? { LateAct(t, w, c); }
    }
  }

  function TaleOfBackendDeath(t: Tale, w: World, c: Control): Tale
    requires c.At?
  {
    if WillLook(c) then
      t.(start := Kill(t.start, true, false), op := if HasLooked(c) then Unanswered(c.op) else t.op)
    else if w.backend.None? || MakesGoodBackend(c) then t
    else t.(lostBackend := true)
  }

  lemma BackendDeathExplains(t: Tale, w: World, c: Control)
    requires Explains(t, w, c)
    ensures Explains(TaleOfBackendDeath(t, w, c), Kill(w, true, false), c)
  {
    if WillLook(c) {
      EarlyDeath(t.start, t.op, w, c, true, false);
    } else if w.backend.None? {
      assert Kill(w, true, false) == w;
    } else {
      LateBackendDeath(t, w, c);
    }
  }

  lemma LateBackendDeath(t: Tale, w: World, c: Control)
    requires Late(t, w, c) && w.backend.Some?
    ensures Late(if MakesGoodBackend(c) then t else t.(lostBackend := true), Kill(w, true, false), c)
  {
    BackendDeath(w, c.(after := None));
    if WillLookAtUpdater(c) {
      BackendDeath(Kill(w, false, true), c);
      assert Kill(Kill(w, false, true), true, false) == Kill(Kill(w, true, false), false, true);
    }
  }

  function TaleOfUpdaterDeath(t: Tale, w: World, c: Control): Tale
    requires c.At?
  {
    if WillLook(c) || WillLookAtUpdater(c) then t.(start := Kill(t.start, false, true))
    else if !w.updater || MakesGoodUpdater(c) then t
    else t.(lostUpdater := true)
  }

  lemma UpdaterDeathExplains(t: Tale, w: World, c: Control)
    requires Explains(t, w, c)
    ensures Explains(TaleOfUpdaterDeath(t, w, c), Kill(w, false, true), c)
  {
    if WillLook(c) {
      EarlyDeath(t.start, t.op, w, c, false, true);
    } else if WillLookAtUpdater(c) {
      assert Kill(Kill(w, false, true), false, true) == Kill(w, false, true);
      assert Kill(Kill(t.start, false, true), false, true) == Kill(t.start, false, true);
    } else if !w.updater {
      assert Kill(w, false, true) == w;
    } else {
      LateUpdaterDeath(t, w, c);
    }
  }

  lemma LateUpdaterDeath(t: Tale, w: World, c: Control)
    requires Late(t, w, c) && !WillLookAtUpdater(c) && w.updater
    ensures Late(if MakesGoodUpdater(c) then t else t.(lostUpdater := true), Kill(w, false, true), c)
  {
    UpdaterDeath(w, c.(after := None));
  }
}
