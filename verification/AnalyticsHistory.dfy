/** What the reducer's maps mean in terms of the facts ingested so far. Each lookup is
    described by recursion on the history alone, and every map is proved to hold exactly
    that, in every reachable state. */
module AnalyticsHistory {
  import opened Sequences
  import opened AnalyticsModel

  type History = seq<Fact>

  function Before(h: History): History
    requires h != []
  {
    h[..|h| - 1]
  }

  function Latest(h: History): Fact
    requires h != []
  {
    h[|h| - 1]
  }

  /** The state after a history. */
  function Run(h: History): State {
    if h == [] then EMPTY else Next(Run(Before(h)), Latest(h))
  }

  /** The events of the latest fact. */
  function Emitted(h: History): seq<Event>
    requires h != []
  {
    Out(Run(Before(h)), Latest(h))
  }

  // ----- Connections, requests and threads -----

  predicate ConnectionKnown(h: History, c: ConnectionId) {
    h != [] && ((Latest(h).Initialize? && Latest(h).connection == c) || ConnectionKnown(Before(h), c))
  }

  /** The client that initialised a connection last. */
  function ClientSeen(h: History, c: ConnectionId): Option<string> {
    if h == [] then None
    else if Latest(h).Initialize? && Latest(h).connection == c then Some(Latest(h).client)
    else ClientSeen(Before(h), c)
  }

  /** The request registered under a key and not answered since. */
  function RequestPending(h: History, key: RequestKey): Option<Request> {
    if h == [] then None
    else
      var prior := RequestPending(Before(h), key);
      match Latest(h)
      case TurnStartRequested(c, r, thread, images) => if key == (c, r) then Some(StartTurn(thread, images)) else prior
      case TurnSteerRequested(c, r, thread, expected) =>
        if key == (c, r) then Some(SteerTurn(thread, expected)) else prior
      case TurnStartAnswered(c, r, _) => if key == (c, r) then None else prior
      case TurnSteerAnswered(c, r, _) => if key == (c, r) then None else prior
      case RequestFailed(c, r) => if key == (c, r) then None else prior
      case _ => prior
  }

  function KnownConnection(t: Option<ThreadState>): Option<ConnectionId> {
    if t.Some? then t.value.connection else None
  }

  /** What openings and subagent starts say about a thread: an opening over a known connection
      says everything anew; a subagent start fills in what is missing, the connection from
      the parent. */
  function ThreadSeen(h: History, thread: ThreadId): Option<ThreadState> {
    if h == [] then None
    else
      var prior := ThreadSeen(Before(h), thread);
      match Latest(h)
      case ThreadOpened(c, t, metadata) =>
        if t == thread && ConnectionKnown(Before(h), c) then Some(ThreadState(Some(c), Some(metadata))) else prior
      case SubAgentStarted(t, parent, metadata) =>
        if t != thread then prior
        else
          var inherited := if parent.Some? then KnownConnection(ThreadSeen(Before(h), parent.value)) else None;
          var connection := if KnownConnection(prior).Some? then KnownConnection(prior) else inherited;
          Some(ThreadState(connection,
                           if prior.Some? && prior.value.metadata.Some? then prior.value.metadata else Some(metadata)))
      case _ => prior
  }

  lemma {:induction false} ConnectionsAreHistory(h: History, c: ConnectionId)
    ensures c in Run(h).connections <==> ConnectionKnown(h, c)
    ensures Lookup(Run(h).connections, c) == ClientSeen(h, c)
  {
    if h != [] { ConnectionsAreHistory(Before(h), c); }
  }

  lemma {:induction false} RequestsAreHistory(h: History, key: RequestKey)
    ensures Lookup(Run(h).requests, key) == RequestPending(h, key)
  {
    if h != [] { RequestsAreHistory(Before(h), key); }
  }

  lemma {:induction false} ThreadsAreHistory(h: History, thread: ThreadId)
    ensures Lookup(Run(h).threads, thread) == ThreadSeen(h, thread)
  {
    if h != [] {
      ThreadsAreHistory(Before(h), thread);
      match Latest(h)
      case ThreadOpened(c, _, _) => ConnectionsAreHistory(Before(h), c);
      case SubAgentStarted(_, parent, _) => if parent.Some? { ThreadsAreHistory(Before(h), parent.value); }
      case _ =>
    }
  }

  // ----- Referential integrity -----

  /** Every thread has metadata, and a connection it names has been initialised. */
  ghost predicate Integrity(threads: map<ThreadId, ThreadState>, connections: map<ConnectionId, string>) {
    forall t :: t in threads ==>
      threads[t].metadata.Some? && (threads[t].connection.Some? ==> threads[t].connection.value in connections)
  }

  lemma {:induction false} ReferentialIntegrity(h: History)
    ensures Integrity(Run(h).threads, Run(h).connections)
  {
    if h != [] {
      ReferentialIntegrity(Before(h));
      NextKeepsIntegrity(Run(Before(h)).threads, Run(Before(h)).connections, Latest(h));
    }
  }

  lemma NextKeepsIntegrity(threads: map<ThreadId, ThreadState>, connections: map<ConnectionId, string>, f: Fact)
    requires Integrity(threads, connections)
    ensures Integrity(NextThreads(threads, connections, f), NextConnections(connections, f))
  {
  }

  /** The lookup of a thread's context only ever fails for want of a connection. */
  lemma ContextFailsOneWay(h: History, thread: ThreadId)
    ensures var s := Run(h);
            ContextOf(s.threads, s.connections, thread) ==
            if ThreadSeen(h, thread).Some? && ThreadSeen(h, thread).value.connection.Some?
            then Known else MissingThreadConnection
  {
    ReferentialIntegrity(h);
    ThreadsAreHistory(h, thread);
  }

  // ----- Reviews awaiting a decision -----

  /** The approval request, with a valid timestamp, that nobody has decided on since. */
  function Awaiting(h: History, r: RequestId): Option<Fact> {
    if h == [] then None
    else
      match Latest(h)
      case ApprovalRequested(q, _, _, _, at) => if q == r && at >= 0 then Some(Latest(h)) else Awaiting(Before(h), r)
      case ReviewDecided(q, _, _) => if q == r then None else Awaiting(Before(h), r)
      case _ => Awaiting(Before(h), r)
  }

  lemma {:induction false} AwaitedAreRequests(h: History, r: RequestId)
    ensures Awaiting(h, r).Some? ==> Awaiting(h, r).value.ApprovalRequested? && Awaiting(h, r).value.at >= 0
  {
    if h != [] { AwaitedAreRequests(Before(h), r); }
  }

  predicate AsksPermissions(a: Approval) {
    || (a.CommandApproval? && a.permissions.Some?)
    || (a.FileApproval? && a.grantRoot)
    || (a.PermissionsApproval? && (a.network || a.fileSystem))
  }

  predicate AsksNetwork(a: Approval) {
    || (a.CommandApproval? && (a.networkContext || a.policyAmendments || a.permissions == Some(true)))
    || (a.PermissionsApproval? && a.network)
  }

  predicate GuardsPermissions(a: GuardianAction) {
    a.GuardPatch? || a.GuardNetwork? || (a.GuardPermissions? && (a.network || a.fileSystem))
  }

  predicate GuardsNetwork(a: GuardianAction) {
    a.GuardNetwork? || (a.GuardPermissions? && a.network)
  }

  /** Why a review was asked for: an intercepted execution, else a request for network
      access, else one for permissions, else nothing in particular. */
  function Why(intercepted: bool, network: bool, permissions: bool): Trigger {
    if intercepted then ExecveIntercept
    else if network then NetworkPolicyDenial
    else if permissions then SandboxDenial
    else Initial
  }

  /** What an approval request is a review of. */
  function ReviewAskedBy(thread: ThreadId, turn: TurnId, a: Approval, at: nat): PendingReview {
    var subject :=
      if a.FileApproval? then FileSubject
      else if a.PermissionsApproval? then PermissionsSubject
      else if a.networkContext then NetworkSubject
      else CommandSubject;
    PendingReview(thread, turn, Some(a.item), subject,
                  Why(a.CommandApproval? && a.intercepted, AsksNetwork(a), AsksPermissions(a)),
                  at, AsksPermissions(a), AsksNetwork(a))
  }

  /** What a guardian reviewed. */
  function ReviewGuarded(
    thread: ThreadId, turn: TurnId, item: Option<ItemId>, a: GuardianAction, at: nat): PendingReview
  {
    var subject :=
      if a.GuardCommand? || a.GuardExecve? then CommandSubject
      else if a.GuardPatch? then FileSubject
      else if a.GuardNetwork? then NetworkSubject
      else if a.GuardMcp? then McpSubject
      else PermissionsSubject;
    PendingReview(thread, turn, item, subject,
                  Why(a.GuardExecve?, GuardsNetwork(a), GuardsPermissions(a)),
                  at, GuardsPermissions(a), GuardsNetwork(a))
  }

  function ReviewPending(h: History, r: RequestId): Option<PendingReview> {
    match Awaiting(h, r)
    case Some(ApprovalRequested(_, thread, turn, approval, at)) =>
      if at >= 0 then Some(ReviewAskedBy(thread, turn, approval, at)) else None
    case _ => None
  }

  lemma AskedAsPending(thread: ThreadId, turn: TurnId, a: Approval, at: nat)
    ensures PendingOf(thread, turn, a, at) == ReviewAskedBy(thread, turn, a, at)
  {
  }

  lemma GuardedAsPending(thread: ThreadId, turn: TurnId, item: Option<ItemId>, a: GuardianAction, at: nat)
    ensures GuardianPending(thread, turn, item, a, at) == ReviewGuarded(thread, turn, item, a, at)
  {
  }

  /** The review kept under a request id is the one its undecided approval request asks for. */
  lemma {:induction false} PendingReviewsAreHistory(h: History, r: RequestId)
    ensures Lookup(Run(h).pendingReviews, r) == ReviewPending(h, r)
    ensures ReviewPending(h, r).Some? <==> Awaiting(h, r).Some?
  {
    AwaitedAreRequests(h, r);
    if h != [] {
      PendingReviewsAreHistory(Before(h), r);
      NextPendingIs(Run(Before(h)).pendingReviews, Latest(h), r);
    }
  }

  /** A fact registers a review under its own id, decides one, or leaves all as they are. */
  lemma NextPendingIs(pending: map<RequestId, PendingReview>, f: Fact, r: RequestId)
    ensures Lookup(NextPendingReviews(pending, f), r) ==
            match f
            case ApprovalRequested(q, thread, turn, approval, at) =>
              if q == r && at >= 0 then Some(ReviewAskedBy(thread, turn, approval, at)) else Lookup(pending, r)
            case ReviewDecided(q, _, _) => if q == r then None else Lookup(pending, r)
            case _ => Lookup(pending, r)
  {
    if f.ApprovalRequested? && f.at >= 0 { AskedAsPending(f.thread, f.turn, f.approval, f.at); }
  }

  predicate Approves(d: Decision) {
    d.Accept? || d.AcceptForSession? || d.AcceptWithPolicy? || d == ApplyNetworkPolicy(true) || (d.Grant? && !d.empty)
  }

  predicate Aborts(d: Decision) {
    d.Cancel? || d.Abort?
  }

  predicate ForSession(d: Decision) {
    d.AcceptForSession? || d == Grant(false, true)
  }

  function StatusOf(d: Decision): ReviewStatus {
    if Approves(d) then Approved else if Aborts(d) then Aborted else Denied
  }

  function ResolutionOf(d: Decision): Resolution {
    if ForSession(d) then SessionApproval
    else if d.AcceptWithPolicy? then ExecPolicyAmendment
    else if d.ApplyNetworkPolicy? then NetworkPolicyAmendment
    else NoResolution
  }

  /** The review the latest fact concludes: a user's decision on an approval request that
      awaits one, or a guardian's verdict with valid timestamps. */
  function ReviewConcluded(h: History): Option<Review>
    requires h != []
  {
    match Latest(h)
    case ReviewDecided(r, decision, at) =>
      var pending := ReviewPending(Before(h), r);
      if pending.None? then None
      else Some(Review(pending.value, User, StatusOf(decision), ResolutionOf(decision), at))
    case GuardianReviewed(thread, turn, target, action, status, from, at) =>
      if status.None? || from < 0 || at < 0 then None
      else Some(Review(ReviewGuarded(thread, turn, target, action, from), Guardian, status.value, NoResolution, at))
    case _ => None
  }

  lemma DecisionMeans(d: Decision)
    ensures Result(d) == (StatusOf(d), ResolutionOf(d))
  {
  }

  lemma ConcludedIsHistory(h: History)
    requires h != []
    ensures ConcludedReview(Run(Before(h)), Latest(h)) == ReviewConcluded(h)
  {
    match Latest(h)
    case ReviewDecided(r, decision, _) =>
      PendingReviewsAreHistory(Before(h), r);
      DecisionMeans(decision);
    case GuardianReviewed(thread, turn, target, action, _, from, _) =>
      if from >= 0 { GuardedAsPending(thread, turn, target, action, from); }
    case _ =>
  }

  // ----- The lifecycle of an approval request -----

  predicate Registers(f: Fact) { f.ApprovalRequested? && f.at >= 0 }

  function Registered(h: History): nat {
    if h == [] then 0 else Registered(Before(h)) + if Registers(Latest(h)) then 1 else 0
  }

  function Overwritten(h: History): nat {
    if h == [] then 0
    else Overwritten(Before(h)) +
         if Registers(Latest(h)) && ReviewPending(Before(h), Latest(h).request).Some? then 1 else 0
  }

  function Consumed(h: History): nat {
    if h == [] then 0
    else Consumed(Before(h)) +
         if Latest(h).ReviewDecided? && ReviewPending(Before(h), Latest(h).request).Some? then 1 else 0
  }

  function UserReviewEvents(h: History): nat {
    if h == [] then 0
    else UserReviewEvents(Before(h)) + |Filter((e: Event) => e.ReviewEvent? && e.review.reviewer.User?, Emitted(h))|
  }

  lemma {:induction false} ReviewLifecycle(h: History)
    ensures Registered(h) == |Run(h).pendingReviews| + Consumed(h) + Overwritten(h)
    ensures UserReviewEvents(h) <= Consumed(h)
  {
    if h != [] {
      var s, f := Run(Before(h)), Latest(h);
      ReviewLifecycle(Before(h));
      if f.ReviewDecided? || f.ApprovalRequested? { PendingReviewsAreHistory(Before(h), f.request); }
      PendingSize(s.pendingReviews, f);
      UserReviewsPerFact(s, f);
    }
  }

  lemma PendingSize(pending: map<RequestId, PendingReview>, f: Fact)
    ensures |NextPendingReviews(pending, f)| ==
            |pending|
            + (if Registers(f) && f.request !in pending then 1 else 0)
            - (if f.ReviewDecided? && f.request in pending then 1 else 0)
  {
    var next := NextPendingReviews(pending, f);
    if Registers(f) {
      assert next.Keys == pending.Keys + {f.request};
    } else if f.ReviewDecided? {
      assert next.Keys == pending.Keys - {f.request};
    }
  }

  /** A fact yields at most one review by a user, and only by consuming a pending one. */
  lemma UserReviewsPerFact(s: State, f: Fact)
    ensures |Filter((e: Event) => e.ReviewEvent? && e.review.reviewer.User?, Out(s, f))| <=
            if f.ReviewDecided? && f.request in s.pendingReviews then 1 else 0
  {
    var keep := (e: Event) => e.ReviewEvent? && e.review.reviewer.User?;
    if f.ReviewDecided? && f.request in s.pendingReviews {
      assert |Out(s, f)| <= 1;
    } else {
      NoUserReview(s, f);
      FilterNone(keep, Out(s, f));
    }
  }

  lemma NoUserReview(s: State, f: Fact)
    requires !(f.ReviewDecided? && f.request in s.pendingReviews)
    ensures forall k :: 0 <= k < |Out(s, f)| ==> !(Out(s, f)[k].ReviewEvent? && Out(s, f)[k].review.reviewer.User?)
  {
  }

  lemma UnknownDecision(s: State, f: Fact)
    requires f.ReviewDecided? && f.request !in s.pendingReviews
    ensures Next(s, f) == s && Out(s, f) == []
  {
    assert s.pendingReviews - {f.request} == s.pendingReviews;
  }

  /** A response or abort for a request that is not pending changes nothing and is silent. */
  lemma LateDecisionIsIgnored(h: History)
    requires h != [] && Latest(h).ReviewDecided? && ReviewPending(Before(h), Latest(h).request).None?
    ensures Run(h) == Run(Before(h)) && Emitted(h) == []
  {
    PendingReviewsAreHistory(Before(h), Latest(h).request);
    UnknownDecision(Run(Before(h)), Latest(h));
  }

  // ----- Events that one fact decides -----

  /** The client request the latest fact answers. */
  function Answers(h: History): Option<Request>
    requires h != []
  {
    match Latest(h)
    case TurnStartAnswered(c, r, _) => RequestPending(Before(h), (c, r))
    case TurnSteerAnswered(c, r, _) => RequestPending(Before(h), (c, r))
    case RequestFailed(c, r) => RequestPending(Before(h), (c, r))
    case _ => None
  }

  lemma AnswersAreMatched(h: History)
    requires h != [] && (Latest(h).TurnStartAnswered? || Latest(h).TurnSteerAnswered? || Latest(h).RequestFailed?)
    ensures Matched(Run(Before(h)).requests, Latest(h)) == Answers(h)
  {
    RequestsAreHistory(Before(h), (Latest(h).connection, Latest(h).request));
  }

  predicate ThreadConnected(h: History, thread: ThreadId) {
    ThreadSeen(h, thread).Some? && ThreadSeen(h, thread).value.connection.Some?
  }

  /** The steer event of an answer, if it answers a steer over a known connection for a known
      thread. */
  function SteerReport(h: History, c: ConnectionId, accepted: Option<TurnId>): seq<Event>
    requires h != []
  {
    match Answers(h)
    case Some(SteerTurn(thread, expected)) =>
      if ConnectionKnown(Before(h), c) && ThreadSeen(Before(h), thread).Some?
      then [SteerEvent(c, thread, expected, accepted)] else []
    case _ => []
  }

  lemma {:induction false} SteersAreReported(h: History)
    requires h != [] && (Latest(h).TurnSteerAnswered? || Latest(h).RequestFailed?)
    ensures Latest(h).TurnSteerAnswered? ==> Emitted(h) == SteerReport(h, Latest(h).connection, Some(Latest(h).turn))
    ensures Latest(h).RequestFailed? ==> Emitted(h) == SteerReport(h, Latest(h).connection, None)
  {
    AnswersAreMatched(h);
    ConnectionsAreHistory(Before(h), Latest(h).connection);
    match Answers(h)
    case Some(SteerTurn(thread, _)) =>
      ThreadsAreHistory(Before(h), thread);
      ReferentialIntegrity(Before(h));
    case _ =>
  }

  /** Openings over a known connection and subagent starts are reported, and so are
      compactions and guardian reports of threads with a connection; registrations and
      progress are not. */
  lemma {:induction false} PlainFactsReport(h: History)
    requires h != []
    ensures match Latest(h)
            case ThreadOpened(c, thread, _) =>
              Emitted(h) == if ConnectionKnown(Before(h), c) then [ThreadInitialized(thread)] else []
            case SubAgentStarted(thread, _, _) => Emitted(h) == [ThreadInitialized(thread)]
            case Compacted(thread) =>
              Emitted(h) == if ThreadConnected(Before(h), thread) then [CompactionEvent(thread)] else []
            case GuardianReported(thread) =>
              Emitted(h) == if ThreadConnected(Before(h), thread) then [GuardianEvent(thread)] else []
            case Initialize(_, _) => Emitted(h) == []
            case TurnStartRequested(_, _, _, _) => Emitted(h) == []
            case TurnSteerRequested(_, _, _, _) => Emitted(h) == []
            case ApprovalRequested(_, _, _, _, _) => Emitted(h) == []
            case ItemStarted(_, _, _, _) => Emitted(h) == []
            case TurnStarted(_, _) => Emitted(h) == []
            case TurnDiffUpdated(_, _, _) => Emitted(h) == []
            case _ => true
  {
    match Latest(h)
    case ThreadOpened(c, _, _) => ConnectionsAreHistory(Before(h), c);
    case Compacted(thread) => ContextFailsOneWay(Before(h), thread);
    case GuardianReported(thread) => ContextFailsOneWay(Before(h), thread);
    case _ =>
  }
}
