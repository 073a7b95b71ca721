/** Everything that happens while one process holds the operation lock, from the beginning
    of its operation to its end: its own steps, and deaths between any two of them. */
module DaemonSections {
  import opened Sequences
  import opened DaemonLifecycle
  import opened DaemonSteps
  import opened DaemonDeaths

  datatype Tick = Go | LoseBackend | LoseUpdater

  function Tock(m: Moved, tick: Tick): Moved {
    match tick
    case Go => if m.control.At? then Act(m.world, m.control) else m
    case LoseBackend => m.(world := Kill(m.world, true, false))
    case LoseUpdater => m.(world := Kill(m.world, false, true))
  }

  function Section(w: World, op: Operation, ticks: seq<Tick>): Moved {
    if ticks == [] then Moved(w, Begin(op)) else Tock(Section(w, op, ticks[..|ticks| - 1]), ticks[|ticks| - 1])
  }

  /** Undisturbed, a section is the operation. */
  lemma {:induction false} CalmSection(w: World, op: Operation, ticks: seq<Tick>)
    requires forall k :: 0 <= k < |ticks| ==> ticks[k].Go?
    ensures var m := Section(w, op, ticks); Complete(m.world, m.control) == Exec(w, op)
  {
    if ticks == [] {
      CompleteIsExec(w, op);
    } else {
      CalmSection(w, op, ticks[..|ticks| - 1]);
    }
  }

  lemma SectionGoesOn(w: World, op: Operation, ticks: seq<Tick>, tick: Tick)
    ensures Section(w, op, ticks + [tick]) == Tock(Section(w, op, ticks), tick)
  {
    assert (ticks + [tick])[..|ticks|] == ticks;
  }

  /** A restart whose backend was seen running, and which then finds it dead. */
  lemma RestartFindsDeath(w: World, e: Env)
    requires w.backend.Some? && e == Env({BackendStop}, true, false, false)
    ensures Section(w, DoRestart(e), [Go] + [Go] + [LoseBackend] + [Go] + [Go]) ==
            Moved(w.(backend := None), At(DoRestart(e), AtStart, w.remoteControl, false, None))
  {
    var op, dead := DoRestart(e), w.(backend := None);
    var c := At(op, AtBinary, w.remoteControl, true, None);
    SectionGoesOn(w, op, [], Go);
    assert [] + [Go] == [Go];
    SectionGoesOn(w, op, [Go], Go);
    assert Section(w, op, [Go] + [Go]) == Moved(w, c);
    SectionGoesOn(w, op, [Go] + [Go], LoseBackend);
    SectionGoesOn(w, op, [Go] + [Go] + [LoseBackend], Go);
    assert Act(dead, c) == Moved(dead, c.(point := AtStatusAgain));
    SectionGoesOn(w, op, [Go] + [Go] + [LoseBackend] + [Go], Go);
  }

  /** With a death in it a section need not be the operation: a restart whose backend dies
      between its two looks never makes the stop that would have failed. */
  lemma DisturbedSectionDiffers()
    ensures var w, op := World(false, Some(false), false, []), DoRestart(Env({BackendStop}, true, false, false));
            var ticks := [Go] + [Go] + [LoseBackend] + [Go] + [Go] + [Go] + [Go];
            && Section(w, op, ticks).control == Returned(Ok(NowRestarted))
            && Exec(w, op).outcome == Failed(BackendStop)
  {
    var w, op := World(false, Some(false), false, []), DoRestart(Env({BackendStop}, true, false, false));
    var ticks := [Go] + [Go] + [LoseBackend] + [Go] + [Go];
    RestartFindsDeath(w, op.env);
    SectionGoesOn(w, op, ticks, Go);
    SectionGoesOn(w, op, ticks + [Go], Go);
  }

  // ----- Serial runs -----

  function Ops(hs: seq<Happening>): seq<Operation> {
    if hs == [] then []
    else Ops(hs[..|hs| - 1]) + match hs[|hs| - 1] { case Operate(op) => [op] case _ => [] }
  }

  /** How the last operation of a run ended. */
  function LastOutcome(w: World, hs: seq<Happening>): Option<Outcome> {
    if hs == [] then None
    else
      var before := hs[..|hs| - 1];
      match hs[|hs| - 1] { case Operate(op) => Some(Exec(Run(w, before), op).outcome) case _ => LastOutcome(w, before) }
  }

  lemma Appended(w: World, hs: seq<Happening>, h: Happening)
    ensures Run(w, hs + [h]) == Happen(Run(w, hs), h)
    ensures Ops(hs + [h]) == Ops(hs) + if h.Operate? then [h.op] else []
    ensures LastOutcome(w, hs + [h]) == if h.Operate? then Some(Exec(Run(w, hs), h.op).outcome) else LastOutcome(w, hs)
    ensures AllSucceed(w, hs + [h]) <==> AllSucceed(w, hs) && (h.Operate? ==> Exec(Run(w, hs), h.op).outcome.Ok?)
  {
    assert (hs + [h])[..|hs|] == hs;
  }

  /** The operations that make up one operation: itself, or the parts it is composed of; a
      restart or a bootstrap may have lost the backend after its probe of the socket. */
  predicate Unfolds(op: Operation, ops: seq<Operation>, outcome: Outcome) {
    || ops == [op]
    || ops == [Unanswered(op)]
    || (op.DoEnsureRemoteControl? &&
        var set1, bootstrap := DoSetRemoteControl(op.setEnv, true), DoBootstrap(op.setEnv, true);
        || ops == [bootstrap]
        || ops == [Unanswered(bootstrap)]
        || (ops == [set1] && !outcome.Ok?)
        || ops == [set1, DoStart(op.startEnv)])
  }

  /** The serial run `hs` accounts for an operation begun in `start`. */
  ghost predicate Accounts(start: World, op: Operation, hs: seq<Happening>, w: World, outcome: Outcome) {
    && Run(start, hs) == w
    && LastOutcome(start, hs) == Some(outcome)
    && Unfolds(op, Ops(hs), outcome)
    && (outcome.Ok? ==> AllSucceed(start, hs))
  }

  /** The part of the operation that is under way, and the parts done before it. */
  predicate PartOf(op: Operation, done: seq<Operation>, current: Operation, c: Control)
    requires c.At?
  {
    && (current == c.op || current == Unanswered(c.op))
    && ((done == [] && c.op == op && c.after.None?) || (op.DoEnsureRemoteControl? && PartOfEnsure(op, done, c)))
  }

  predicate PartOfEnsure(op: Operation, done: seq<Operation>, c: Control)
    requires c.At? && op.DoEnsureRemoteControl?
  {
    var set1, bootstrap := DoSetRemoteControl(op.setEnv, true), DoBootstrap(op.setEnv, true);
    || (done == [] && c.op == set1 && c.after == Some(op.startEnv))
    || (done == [] && c.op == bootstrap && c.after.None?)
    || (done == [set1] && c.op == DoStart(op.startEnv) && c.after.None?)
  }

  ghost predicate Telling(start: World, op: Operation, hs: seq<Happening>, t: Tale, m: Moved) {
    && m.control.At?
    && t.start == Run(start, hs) && AllSucceed(start, hs)
    && Explains(t, m.world, m.control)
    && PartOf(op, Ops(hs), t.op, m.control)
  }

  /** The whole tale as a serial run. */
  function TaleRun(hs: seq<Happening>, t: Tale): seq<Happening> {
    Lose(Lose(hs + [Operate(t.op)], t.lostBackend, BackendDies), t.lostUpdater, UpdaterDies)
  }

  function Lose(hs: seq<Happening>, lost: bool, death: Happening): seq<Happening> {
    if lost then hs + [death] else hs
  }

  lemma LossAppended(w: World, hs: seq<Happening>, lost: bool, death: Happening)
    requires !death.Operate?
    ensures var run := Lose(hs, lost, death);
            && Run(w, run) == (if lost then Happen(Run(w, hs), death) else Run(w, hs))
            && Ops(run) == Ops(hs)
            && LastOutcome(w, run) == LastOutcome(w, hs)
            && (AllSucceed(w, run) <==> AllSucceed(w, hs))
  {
    if lost { Appended(w, hs, death); }
  }

  lemma TaleEnds(start: World, hs: seq<Happening>, t: Tale)
    requires t.start == Run(start, hs) && AllSucceed(start, hs)
    ensures var run := TaleRun(hs, t);
            && Run(start, run) == t.Ending().world
            && LastOutcome(start, run) == Some(t.Ending().outcome)
            && Ops(run) == Ops(hs) + [t.op]
            && (t.Ending().outcome.Ok? ==> AllSucceed(start, run))
  {
    var done := hs + [Operate(t.op)];
    Appended(start, hs, Operate(t.op));
    LossAppended(start, done, t.lostBackend, BackendDies);
    LossAppended(start, Lose(done, t.lostBackend, BackendDies), t.lostUpdater, UpdaterDies);
  }

  // ----- Each tick goes on with the tale -----

  /** The tale goes on, or it has been told. */
  ghost predicate Goes(start: World, op: Operation, hs: seq<Happening>, t: Tale, m: Moved) {
    match m.control
    case At(_, _, _, _, _) => Telling(start, op, hs, t, m)
    case Returned(outcome) => Accounts(start, op, hs, m.world, outcome)
  }

  lemma ExplainsWithStart(t: Tale, w: World, c: Control, after: Option<Env>)
    requires Explains(t, w, c) && c.op.DoSetRemoteControl?
    ensures Explains(t, w, c.(after := after))
  {
  }

  /** Whatever part ends, the parts so far make up the operation, unless a start is to follow. */
  lemma PartUnfolds(op: Operation, done: seq<Operation>, current: Operation, c: Control, outcome: Outcome)
    requires c.At? && PartOf(op, done, current, c) && (c.after.Some? ==> !outcome.Ok?)
    requires c.op.DoEnsureRemoteControl? ==> c.op == op
    ensures Unfolds(op, done + [current], outcome)
  {
    if done == [] { assert done + [current] == [current]; }
  }

  lemma PartEnds(start: World, op: Operation, hs: seq<Happening>, t: Tale, m: Moved, w: World, outcome: Outcome)
    requires Telling(start, op, hs, t, m) && Result(w, outcome) == t.Ending()
    requires m.control.after.Some? ==> !outcome.Ok?
    ensures Accounts(start, op, TaleRun(hs, t), w, outcome)
  {
    TaleEnds(start, hs, t);
    PartUnfolds(op, Ops(hs), t.op, m.control, outcome);
  }

  lemma EnsureGoes(start: World, op: Operation, hs: seq<Happening>, t: Tale, m: Moved)
    returns (hs': seq<Happening>, t': Tale)
    requires Telling(start, op, hs, t, m) && m.control.op.DoEnsureRemoteControl?
    ensures Goes(start, op, hs', t', Tock(m, Go))
  {
    var m' := Tock(m, Go);
    hs', t' := hs, t;
    if m'.control.Returned? {
      EarlyIsExec(t.start, t.op, m.world, m.control);
      assert Complete(m.world, m.control) == Complete(m'.world, m'.control);
      PartEnds(start, op, hs, t, m, m'.world, m'.control.outcome);
      hs' := TaleRun(hs, t);
    } else if m'.control.op != op {
      t' := Tale(m.world, m'.control.op, false, false);
    }
  }

  /** The setting has been changed, and a start follows. */
  lemma StartFollows(start: World, op: Operation, hs: seq<Happening>, t: Tale, m: Moved, w: World, outcome: Outcome)
    returns (t': Tale)
    requires Telling(start, op, hs, t, m) && Result(w, outcome) == t.Ending() && m.control.after.Some? && outcome.Ok?
    ensures Telling(start, op, TaleRun(hs, t), t', Moved(w, Begin(DoStart(m.control.after.value))))
  {
    TaleEnds(start, hs, t);
    assert Ops(hs) + [t.op] == [t.op];
    t' := Tale(w, DoStart(m.control.after.value), false, false);
  }

  lemma SetGoes(start: World, op: Operation, hs: seq<Happening>, t: Tale, m: Moved)
    returns (hs': seq<Happening>, t': Tale)
    requires Telling(start, op, hs, t, m) && m.control.after.Some?
    ensures Goes(start, op, hs', t', Tock(m, Go))
  {
    var c := m.control;
    var n := Act(m.world, c.(after := None));
    hs', t' := hs, t;
    ExplainsWithStart(t, m.world, c, None);
    ActWithStart(m.world, c);
    ActExplains(t, m.world, c.(after := None));
    if n.control.At? {
      ExplainsWithStart(t, n.world, n.control, c.after);
    } else {
      hs' := TaleRun(hs, t);
      if n.control.outcome.Ok? {
        t' := StartFollows(start, op, hs, t, m, n.world, n.control.outcome);
      } else {
        PartEnds(start, op, hs, t, m, n.world, n.control.outcome);
      }
    }
  }

  lemma PartGoes(start: World, op: Operation, hs: seq<Happening>, t: Tale, m: Moved)
    returns (hs': seq<Happening>)
    requires Telling(start, op, hs, t, m) && m.control.after.None? && !m.control.op.DoEnsureRemoteControl?
    ensures Goes(start, op, hs', t, Tock(m, Go))
  {
    var m' := Tock(m, Go);
    ActExplains(t, m.world, m.control);
    if m'.control.At? {
      hs' := hs;
    } else {
      hs' := TaleRun(hs, t);
      PartEnds(start, op, hs, t, m, m'.world, m'.control.outcome);
    }
  }

  /** A death changes the tale; if it changes where the tale starts, it came before it. */
  lemma TaleMoves(start: World, hs: seq<Happening>, t: Tale, t': Tale, death: Happening) returns (hs': seq<Happening>)
    requires t.start == Run(start, hs) && AllSucceed(start, hs) && !death.Operate?
    requires t'.start == t.start || t'.start == Happen(t.start, death)
    ensures t'.start == Run(start, hs') && AllSucceed(start, hs') && Ops(hs') == Ops(hs)
  {
    LossAppended(start, hs, t'.start != t.start, death);
    hs' := Lose(hs, t'.start != t.start, death);
  }

  lemma DeathGoes(start: World, op: Operation, hs: seq<Happening>, t: Tale, m: Moved, tick: Tick)
    returns (hs': seq<Happening>, t': Tale)
    requires Telling(start, op, hs, t, m) && !tick.Go?
    ensures Telling(start, op, hs', t', Tock(m, tick))
  {
    if tick.LoseBackend? {
      t' := TaleOfBackendDeath(t, m.world, m.control);
      hs' := TaleMoves(start, hs, t, t', BackendDies);
      BackendDeathExplains(t, m.world, m.control);
    } else {
      t' := TaleOfUpdaterDeath(t, m.world, m.control);
      hs' := TaleMoves(start, hs, t, t', UpdaterDies);
      UpdaterDeathExplains(t, m.world, m.control);
    }
  }

  /** Whatever falls into a section, once its operation has returned it has had the effect
      and the outcome of a serial run of that operation, or its parts, and deaths. */
  lemma {:induction false} SectionIsSerial(start: World, op: Operation, ticks: seq<Tick>)
    returns (hs: seq<Happening>, t: Tale)
    ensures Goes(start, op, hs, t, Section(start, op, ticks))
  {
    if ticks == [] {
      hs, t := [], Tale(start, op, false, false);
    } else {
      var n := |ticks| - 1;
      var m, tick := Section(start, op, ticks[..n]), ticks[n];
      hs, t := SectionIsSerial(start, op, ticks[..n]);
      if m.control.Returned? {
        var death := if tick.LoseBackend? then BackendDies else UpdaterDies;
        Appended(start, hs, death);
        hs := if tick.Go? then hs else hs + [death];
      } else if !tick.Go? {
        hs, t := DeathGoes(start, op, hs, t, m, tick);
      } else if m.control.op.DoEnsureRemoteControl? {
        hs, t := EnsureGoes(start, op, hs, t, m);
      } else if m.control.after.Some? {
        hs, t := SetGoes(start, op, hs, t, m);
      } else {
        hs := PartGoes(start, op, hs, t, m);
      }
    }
  }
}
