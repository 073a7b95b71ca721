/** Several processes share the daemon's world. Each is at a point of its own operation and
    acts on what it has read; nothing but the operation lock keeps their steps apart. The
    backend and the updater may die at any time, and a version query takes no lock. */
module DaemonLock {
  import opened Sequences
  import opened DaemonLifecycle
  import opened DaemonSteps
  import opened DaemonDeaths
  import opened DaemonSections

  type Pid = nat

  datatype Process =
    | Idle
    | Waiting(op: Operation)
    | Working(op: Operation, control: Control)
    | Querying(control: Control)

  datatype Finished = Finished(op: Operation, outcome: Outcome)

  /** `finished` lists the operations in the order they gave the lock back, `found` is the
      world when the lock was last taken, and `ticks` what has happened to it since. */
  datatype System = System(
    world: World,
    lock: Option<Pid>,
    processes: map<Pid, Process>,
    finished: seq<Finished>,
    found: World,
    ticks: seq<Tick>)

  datatype Event =
    | Call(pid: Pid, op: Operation)
    | Acquire(pid: Pid)
    | GiveUp(pid: Pid)
    | Work(pid: Pid)
    | Release(pid: Pid)
    | Death(backend: bool)

  function Init(w: World): System {
    System(w, None, map[], [], w, [])
  }

  function ProcessOf(s: System, pid: Pid): Process {
    if pid in s.processes then s.processes[pid] else Idle
  }

  function Become(s: System, pid: Pid, p: Process): System {
    s.(processes := s.processes[pid := p])
  }

  function NextCall(s: System, pid: Pid, op: Operation): System {
    if !ProcessOf(s, pid).Idle? then s
    else Become(s, pid, if op.DoVersion? then Querying(Begin(op)) else Waiting(op))
  }

  /** The lock is asked for once by the updater and again and again by everyone else. */
  function NextAcquire(s: System, pid: Pid): System {
    match ProcessOf(s, pid)
    case Waiting(op) =>
      if s.lock.None? then Become(s.(lock := Some(pid), found := s.world, ticks := []), pid, Working(op, Begin(op)))
      else if op.DoTryRestart? then Become(s, pid, Idle)
      else s
    case _ => s
  }

  /** A step of a process depends on where the process is, not on who holds the lock. */
  function NextWork(s: System, pid: Pid): System {
    match ProcessOf(s, pid)
    case Working(op, c) =>
      if c.Returned? then s
      else
        var m := Act(s.world, c);
        Become(s.(world := m.world, ticks := s.ticks + [Go]), pid, Working(op, m.control))
    case Querying(c) =>
      if c.Returned? then s
      else
        var m := Act(s.world, c);
        Become(s.(world := m.world), pid, Querying(m.control))
    case _ => s
  }

  function NextRelease(s: System, pid: Pid): System {
    match ProcessOf(s, pid)
    case Working(op, Returned(outcome)) =>
      var s := s.(lock := if s.lock == Some(pid) then None else s.lock,
                  finished := s.finished + [Finished(op, outcome)]);
      Become(s, pid, Idle)
    case Querying(Returned(_)) => Become(s, pid, Idle)
    case _ => s
  }

  function Next(s: System, event: Event): System {
    match event
    case Call(pid, op) => NextCall(s, pid, op)
    case Acquire(pid) => NextAcquire(s, pid)
    case GiveUp(pid) => if ProcessOf(s, pid).Waiting? then Become(s, pid, Idle) else s
    case Work(pid) => NextWork(s, pid)
    case Release(pid) => NextRelease(s, pid)
    case Death(backend) =>
      s.(world := Kill(s.world, backend, !backend),
         ticks := s.ticks + [if backend then LoseBackend else LoseUpdater])
  }

  /** The system after any interleaving of steps and deaths. */
  function Steps(start: World, events: seq<Event>): System {
    if events == [] then Init(start)
    else Next(Steps(start, events[..|events| - 1]), events[|events| - 1])
  }

  // ----- Mutual exclusion -----

  predicate QueryOnly(c: Control) {
    c.At? ==> c.op.DoVersion? && c.after.None? && (c.point.AtLoad? || c.point.AtStatus?)
  }

  lemma QueryChangesNothing(w: World, c: Control)
    requires c.At? && QueryOnly(c)
    ensures Act(w, c).world == w && QueryOnly(Act(w, c).control)
  {
  }

  predicate Permitted(lock: Option<Pid>, pid: Pid, p: Process) {
    && (p.Working? ==> lock == Some(pid))
    && (p.Querying? ==> QueryOnly(p.control))
  }

  /** Whoever is inside an operation holds the lock, and the holder's section is what its
      own steps and the deaths since have made of the world it found. */
  ghost predicate Exclusive(s: System) {
    && (forall pid: Pid :: Permitted(s.lock, pid, ProcessOf(s, pid)))
    && (s.lock.Some? ==>
          var p := ProcessOf(s, s.lock.value);
          p.Working? && Section(s.found, p.op, s.ticks) == Moved(s.world, p.control))
  }

  /** If one process has done what it may, and the others keep what they may do. */
  lemma OthersArePermitted(s: System, s': System, pid: Pid)
    requires forall q: Pid :: Permitted(s.lock, q, ProcessOf(s, q))
    requires forall q: Pid :: q != pid ==> ProcessOf(s', q) == ProcessOf(s, q)
    requires s'.lock == s.lock || s.lock.None? || s.lock == Some(pid)
    requires Permitted(s'.lock, pid, ProcessOf(s', pid))
    ensures forall q: Pid :: Permitted(s'.lock, q, ProcessOf(s', q))
  {
    forall q: Pid ensures Permitted(s'.lock, q, ProcessOf(s', q)) {
      assert Permitted(s.lock, q, ProcessOf(s, q));
    }
  }

  lemma WorkKeepsExclusive(s: System, pid: Pid)
    requires Exclusive(s)
    ensures Exclusive(NextWork(s, pid))
    ensures NextWork(s, pid).world != s.world ==> s.lock == Some(pid)
  {
    var s', p := NextWork(s, pid), ProcessOf(s, pid);
    assert Permitted(s.lock, pid, p);
    if p.Querying? && p.control.At? { QueryChangesNothing(s.world, p.control); }
    OthersArePermitted(s, s', pid);
    if p.Working? { SectionGoesOn(s.found, p.op, s.ticks, Go); }
  }

  lemma NextKeepsExclusive(s: System, event: Event)
    requires Exclusive(s)
    ensures Exclusive(Next(s, event))
  {
    match event
    case Work(pid) => WorkKeepsExclusive(s, pid);
    case Death(backend) =>
      var s' := Next(s, event);
      assert forall q: Pid :: ProcessOf(s', q) == ProcessOf(s, q);
      if s.lock.Some? {
        SectionGoesOn(s.found, ProcessOf(s, s.lock.value).op, s.ticks, if backend then LoseBackend else LoseUpdater);
      }
    case _ => OrderlyKeepsExclusive(s, event);
  }

  /** Calling, taking the lock, giving up and giving the lock back. */
  lemma OrderlyKeepsExclusive(s: System, event: Event)
    requires Exclusive(s) && !event.Death? && !event.Work?
    ensures Exclusive(Next(s, event)) && Next(s, event).world == s.world
  {
    var s', pid := Next(s, event), event.pid;
    assert Permitted(s.lock, pid, ProcessOf(s, pid));
    if event.Call? && event.op.DoVersion? { assert QueryOnly(Begin(event.op)); }
    OthersArePermitted(s, s', pid);
  }

  lemma {:induction false} LockExcludes(start: World, events: seq<Event>)
    ensures Exclusive(Steps(start, events))
  {
    if events != [] {
      var n := |events| - 1;
      LockExcludes(start, events[..n]);
      NextKeepsExclusive(Steps(start, events[..n]), events[n]);
    }
  }

  /** In every run the settings, the backend and the updater are changed by deaths and by
      steps of the process that holds the lock, and by nothing else. */
  lemma {:induction false} ChangesUnderLock(start: World, events: seq<Event>, event: Event)
    ensures var s := Steps(start, events);
            Next(s, event).world != s.world ==>
              event.Death? || (event.Work? && s.lock == Some(event.pid) && ProcessOf(s, event.pid).Working?)
  {
    LockExcludes(start, events);
    if event.Work? { WorkKeepsExclusive(Steps(start, events), event.pid); }
  }

  // ----- The operations are serialised -----

  /** The world after the first k of the stories told one after another. */
  function WorldAt(start: World, stories: seq<seq<Happening>>, k: nat): World
    requires k <= |stories|
  {
    if k == 0 then start else Run(WorldAt(start, stories, k - 1), stories[k - 1])
  }

  /** Each finished operation has its story, a serial run that accounts for it; only deaths
      come before the first. */
  ghost predicate Serialised(start: World, s: System, stories: seq<seq<Happening>>) {
    && |stories| == |s.finished| + 1
    && Ops(stories[0]) == []
    && (forall k :: 0 <= k < |s.finished| ==>
          StoryOf(start, stories, k + 1, s.finished[k]))
    && (if s.lock.None? then s.world else s.found) == WorldAt(start, stories, |stories|)
  }

  ghost predicate StoryOf(start: World, stories: seq<seq<Happening>>, k: nat, f: Finished) {
    && k < |stories|
    && Accounts(WorldAt(start, stories, k), f.op, stories[k], WorldAt(start, stories, k + 1), f.outcome)
  }

  lemma {:induction false} WorldsAgree(start: World, a: seq<seq<Happening>>, b: seq<seq<Happening>>, k: nat)
    requires k <= |a| && k <= |b| && a[..k] == b[..k]
    ensures WorldAt(start, a, k) == WorldAt(start, b, k)
  {
    if k > 0 {
      assert a[k - 1] == a[..k][k - 1] == b[..k][k - 1] == b[k - 1];
      assert a[..k - 1] == a[..k][..k - 1] == b[..k][..k - 1] == b[..k - 1];
      WorldsAgree(start, a, b, k - 1);
    }
  }

  /** Stories stand as long as those before them do. */
  lemma StoriesStand(start: World, a: seq<seq<Happening>>, b: seq<seq<Happening>>, n: nat, k: nat, f: Finished)
    requires k < n <= |a| && n <= |b| && a[..n] == b[..n] && StoryOf(start, a, k, f)
    ensures StoryOf(start, b, k, f)
  {
    assert a[k] == a[..n][k] == b[..n][k] == b[k];
    assert a[..k] == a[..n][..k] == b[..n][..k] == b[..k];
    assert a[..k + 1] == a[..n][..k + 1] == b[..n][..k + 1] == b[..k + 1];
    WorldsAgree(start, a, b, k);
    WorldsAgree(start, a, b, k + 1);
  }

  lemma ReleaseSerialises(start: World, s: System, stories: seq<seq<Happening>>, pid: Pid)
    returns (stories': seq<seq<Happening>>)
    requires Serialised(start, s, stories) && Exclusive(s)
    ensures Serialised(start, NextRelease(s, pid), stories')
  {
    var p, n := ProcessOf(s, pid), |stories|;
    stories' := stories;
    if p.Working? && p.control.Returned? {
      var hs, t := SectionIsSerial(s.found, p.op, s.ticks);
      stories' := stories + [hs];
      assert stories'[..n] == stories[..n] == stories;
      WorldsAgree(start, stories, stories', n);
      forall k | 0 <= k < |s.finished| ensures StoryOf(start, stories', k + 1, s.finished[k]) {
        StoriesStand(start, stories, stories', n, k + 1, s.finished[k]);
      }
    }
  }

  /** A death while nobody holds the lock goes on with the last story. */
  lemma StoryGoesOn(start: World, a: seq<seq<Happening>>, b: seq<seq<Happening>>, n: nat, death: Happening)
    requires |a| == |b| == n + 1 && a[..n] == b[..n] && b[n] == a[n] + [death] && !death.Operate?
    ensures WorldAt(start, b, n + 1) == Happen(WorldAt(start, a, n + 1), death)
    ensures Ops(b[n]) == Ops(a[n])
    ensures forall f :: StoryOf(start, a, n, f) ==> StoryOf(start, b, n, f)
  {
    WorldsAgree(start, a, b, n);
    Appended(WorldAt(start, a, n), a[n], death);
  }

  lemma DeathSerialises(start: World, s: System, stories: seq<seq<Happening>>, backend: bool)
    returns (stories': seq<seq<Happening>>)
    requires Serialised(start, s, stories)
    ensures Serialised(start, Next(s, Death(backend)), stories')
  {
    if s.lock.Some? {
      stories' := stories;
    } else {
      stories' := FreeDeathSerialises(start, s, stories, backend);
    }
  }

  lemma FreeDeathSerialises(start: World, s: System, stories: seq<seq<Happening>>, backend: bool)
    returns (stories': seq<seq<Happening>>)
    requires Serialised(start, s, stories) && s.lock.None?
    ensures Serialised(start, Next(s, Death(backend)), stories')
  {
    var n := |stories| - 1;
    var death := if backend then BackendDies else UpdaterDies;
    stories' := stories[..n] + [stories[n] + [death]];
    assert stories'[..n] == stories[..n];
    StoryGoesOn(start, stories, stories', n, death);
    forall k | 0 <= k < |s.finished| ensures StoryOf(start, stories', k + 1, s.finished[k]) {
      assert StoryOf(start, stories, k + 1, s.finished[k]);
      if k + 1 < n { StoriesStand(start, stories, stories', n, k + 1, s.finished[k]); }
    }
    assert n > 0 ==> stories'[0] == stories'[..n][0] == stories[..n][0] == stories[0];
  }

  /** However processes and deaths interleave, the finished operations have had the effects
      and the outcomes of a serial run of them, in the order in which they held the lock. */
  lemma {:induction false} LockSerialises(start: World, events: seq<Event>) returns (stories: seq<seq<Happening>>)
    ensures Serialised(start, Steps(start, events), stories)
  {
    if events == [] {
      stories := [[]];
      assert WorldAt(start, stories, 1) == start;
    } else {
      var n := |events| - 1;
      var s := Steps(start, events[..n]);
      stories := LockSerialises(start, events[..n]);
      LockExcludes(start, events[..n]);
      match events[n]
      case Release(pid) => stories := ReleaseSerialises(start, s, stories, pid);
      case Death(backend) => stories := DeathSerialises(start, s, stories, backend);
      case Work(pid) => WorkKeepsExclusive(s, pid);
      case _ =>
    }
  }

  /** An operation no death fell into has exactly the effects and outcome it has alone. */
  lemma {:induction false} CalmOperationIsExec(start: World, events: seq<Event>, pid: Pid)
    ensures var s := Steps(start, events);
            var p := ProcessOf(s, pid);
            p.Working? && p.control.Returned? && (forall k :: 0 <= k < |s.ticks| ==> s.ticks[k].Go?) ==>
              Result(s.world, p.control.outcome) == Exec(s.found, p.op)
  {
    var s := Steps(start, events);
    var p := ProcessOf(s, pid);
    LockExcludes(start, events);
    if p.Working? && p.control.Returned? && forall k :: 0 <= k < |s.ticks| ==> s.ticks[k].Go? {
      CalmSection(s.found, p.op, s.ticks);
    }
  }

  // ----- Settings and backend agree -----

  lemma {:induction false} DeathsSucceed(w: World, hs: seq<Happening>)
    requires Ops(hs) == []
    ensures AllSucceed(w, hs)
  {
    if hs != [] { DeathsSucceed(w, hs[..|hs| - 1]); }
  }

  lemma {:induction false} StoriesAgree(start: World, s: System, stories: seq<seq<Happening>>, k: nat)
    requires Agrees(start) && Serialised(start, s, stories) && k <= |stories|
    requires forall f :: f in s.finished ==> f.outcome.Ok?
    ensures Agrees(WorldAt(start, stories, k))
  {
    if k > 0 {
      var w := WorldAt(start, stories, k - 1);
      StoriesAgree(start, s, stories, k - 1);
      if k == 1 {
        DeathsSucceed(w, stories[0]);
      } else {
        assert StoryOf(start, stories, k - 2 + 1, s.finished[k - 2]);
      }
      AgreementOverRuns(w, stories[k - 1]);
    }
  }

  /** However processes and deaths interleave, whenever the lock is free and every finished
      operation has succeeded, a running backend has the stored setting. */
  lemma {:induction false} AgreementUnderInterleaving(start: World, events: seq<Event>)
    ensures var s := Steps(start, events);
            Agrees(start) && s.lock.None? && (forall f :: f in s.finished ==> f.outcome.Ok?) ==> Agrees(s.world)
  {
    var s := Steps(start, events);
    var stories := LockSerialises(start, events);
    if Agrees(start) && s.lock.None? && forall f :: f in s.finished ==> f.outcome.Ok? {
      StoriesAgree(start, s, stories, |stories|);
    }
  }

  // ----- Nobody is locked out -----

  function Many(pid: Pid, n: nat): seq<Event> {
    if n == 0 then [] else [Work(pid)] + Many(pid, n - 1)
  }

  function StepsFrom(s: System, events: seq<Event>): System
    decreases |events|
  {
    if events == [] then s else StepsFrom(Next(s, events[0]), events[1..])
  }

  /** Left to itself, a process inside an operation comes to its end. */
  lemma {:induction false} OperationEnds(s: System, pid: Pid) returns (n: nat)
    requires ProcessOf(s, pid).Working?
    ensures var s' := StepsFrom(s, Many(pid, n));
            var p, p' := ProcessOf(s, pid), ProcessOf(s', pid);
            && s'.lock == s.lock
            && p' == Working(p.op, Returned(Complete(s.world, p.control).outcome))
            && s'.world == Complete(s.world, p.control).world
    decreases Rank(ProcessOf(s, pid).control)
  {
    var c := ProcessOf(s, pid).control;
    if c.Returned? {
      n := 0;
    } else {
      RankFalls(s.world, c);
      var m := OperationEnds(Next(s, Work(pid)), pid);
      n := m + 1;
      assert Many(pid, n)[1..] == Many(pid, m);
    }
  }

  /** In every reachable state the holder can finish alone and give the lock back, and then
      whoever waits can have it. */
  lemma {:induction false} LockIsPassedOn(start: World, events: seq<Event>, waiter: Pid)
    ensures var s := Steps(start, events);
            && (s.lock.None? && ProcessOf(s, waiter).Waiting? ==>
                  var s' := Next(s, Acquire(waiter));
                  s'.lock == Some(waiter) && s'.world == s.world
                  && ProcessOf(s', waiter) == Working(ProcessOf(s, waiter).op, Begin(ProcessOf(s, waiter).op)))
            && (s.lock.Some? ==>
                  var holder := s.lock.value;
                  exists n: nat :: Next(StepsFrom(s, Many(holder, n)), Release(holder)).lock.None?)
  {
    var s := Steps(start, events);
    LockExcludes(start, events);
    if s.lock.Some? {
      var n := OperationEnds(s, s.lock.value);
      assert Next(StepsFrom(s, Many(s.lock.value, n)), Release(s.lock.value)).lock.None?;
    }
  }
}
