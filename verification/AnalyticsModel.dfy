/** The analytics reducer: facts about connections, threads, turns, items and reviews
    update seven maps, and an event comes out when the facts it needs have all arrived.

    The reducer is described here one map at a time: what each map becomes on a fact,
    given the maps before it. `AnalyticsReducer` runs it one fact at a time. */
module AnalyticsModel {
  import opened Sequences
  import AcceptedLines

  type ConnectionId = nat
  type RequestId = string
  type ThreadId = string
  type TurnId = string
  type ItemId = string

  // ----- Items -----

  datatype ItemKind =
    | CommandExecution | FileChange | McpToolCall | DynamicToolCall | CollabAgentToolCall | WebSearch | ImageGeneration
    | UserMessage | HookPrompt | AgentMessage | Plan | Reasoning | ImageView | EnteredReviewMode | ExitedReviewMode
    | ContextCompaction

  datatype Item = Item(kind: ItemKind, id: ItemId, inProgress: bool)

  datatype Key = Key(thread: ThreadId, turn: TurnId, item: ItemId)

  /** `tracked_tool_item_id`. */
  function TrackedId(item: Item): Option<ItemId> {
    match item.kind
    case CommandExecution => Some(item.id)
    case FileChange => Some(item.id)
    case McpToolCall => Some(item.id)
    case DynamicToolCall => Some(item.id)
    case CollabAgentToolCall => Some(item.id)
    case WebSearch => Some(item.id)
    case ImageGeneration => Some(item.id)
    case _ => None
  }

  datatype ToolCounts = ToolCounts(
    total: nat, shell: nat, fileChange: nat, mcp: nat, dynamicTool: nat, subagent: nat, webSearch: nat, image: nat)

  const NO_TOOLS: ToolCounts := ToolCounts(0, 0, 0, 0, 0, 0, 0, 0)

  /** `TurnToolCounts::record`, which returns early on an item it does not count. */
  function Record(c: ToolCounts, kind: ItemKind): ToolCounts {
    match kind
    case CommandExecution => c.(shell := c.shell + 1, total := c.total + 1)
    case FileChange => c.(fileChange := c.fileChange + 1, total := c.total + 1)
    case McpToolCall => c.(mcp := c.mcp + 1, total := c.total + 1)
    case DynamicToolCall => c.(dynamicTool := c.dynamicTool + 1, total := c.total + 1)
    case CollabAgentToolCall => c.(subagent := c.subagent + 1, total := c.total + 1)
    case WebSearch => c.(webSearch := c.webSearch + 1, total := c.total + 1)
    case ImageGeneration => c.(image := c.image + 1, total := c.total + 1)
    case _ => c
  }

  /** Only a web search or an image generation yields an event whatever its status. */
  predicate YieldsEvent(item: Item) {
    TrackedId(item).Some? && (item.inProgress ==> item.kind.WebSearch? || item.kind.ImageGeneration?)
  }

  // ----- Reviews -----

  datatype Subject = CommandSubject | FileSubject | McpSubject | PermissionsSubject | NetworkSubject
  datatype Trigger = Initial | SandboxDenial | NetworkPolicyDenial | ExecveIntercept
  datatype Reviewer = Guardian | User
  datatype ReviewStatus = Approved | Denied | Aborted | TimedOut
  datatype Resolution = NoResolution | SessionApproval | ExecPolicyAmendment | NetworkPolicyAmendment

  datatype PendingReview = PendingReview(
    thread: ThreadId, turn: TurnId, item: Option<ItemId>, subject: Subject, trigger: Trigger,
    startedAt: nat, permissions: bool, network: bool)

  datatype Review = Review(
    pending: PendingReview, reviewer: Reviewer, status: ReviewStatus, resolution: Resolution, completedAt: nat)

  /** An approval request. `permissions` of a command is the network access its additional
      permissions ask for, if it has any. */
  datatype Approval =
    | CommandApproval(item: ItemId, networkContext: bool, policyAmendments: bool, permissions: Option<bool>,
                      intercepted: bool)
    | FileApproval(item: ItemId, grantRoot: bool)
    | PermissionsApproval(item: ItemId, network: bool, fileSystem: bool)

  datatype GuardianAction =
    | GuardCommand | GuardExecve | GuardPatch | GuardNetwork
    | GuardPermissions(network: bool, fileSystem: bool) | GuardMcp

  datatype Decision =
    | Accept | AcceptForSession | AcceptWithPolicy | ApplyNetworkPolicy(allow: bool) | Decline | Cancel
    | Grant(empty: bool, forSession: bool)
    | Abort

  function PendingOf(thread: ThreadId, turn: TurnId, approval: Approval, startedAt: nat): PendingReview {
    match approval
    case CommandApproval(item, networkContext, policyAmendments, permissions, intercepted) =>
      var network := networkContext || policyAmendments || permissions == Some(true);
      PendingReview(thread, turn, Some(item), if networkContext then NetworkSubject else CommandSubject,
                    if intercepted then ExecveIntercept
                    else if network then NetworkPolicyDenial
                    else if permissions.Some? then SandboxDenial else Initial,
                    startedAt, permissions.Some?, network)
    case FileApproval(item, grantRoot) =>
      PendingReview(thread, turn, Some(item), FileSubject, if grantRoot then SandboxDenial else Initial,
                    startedAt, grantRoot, false)
    case PermissionsApproval(item, network, fileSystem) =>
      PendingReview(thread, turn, Some(item), PermissionsSubject,
                    if network then NetworkPolicyDenial else if fileSystem then SandboxDenial else Initial,
                    startedAt, network || fileSystem, network)
  }

  function GuardianPending(
    thread: ThreadId, turn: TurnId, item: Option<ItemId>, action: GuardianAction, startedAt: nat): PendingReview
  {
    match action
    case GuardCommand => PendingReview(thread, turn, item, CommandSubject, Initial, startedAt, false, false)
    case GuardExecve => PendingReview(thread, turn, item, CommandSubject, ExecveIntercept, startedAt, false, false)
    case GuardPatch => PendingReview(thread, turn, item, FileSubject, SandboxDenial, startedAt, true, false)
    case GuardNetwork => PendingReview(thread, turn, item, NetworkSubject, NetworkPolicyDenial, startedAt, true, true)
    case GuardPermissions(network, fileSystem) =>
      PendingReview(thread, turn, item, PermissionsSubject,
                    if network then NetworkPolicyDenial else if fileSystem then SandboxDenial else Initial,
                    startedAt, network || fileSystem, network)
    case GuardMcp => PendingReview(thread, turn, item, McpSubject, Initial, startedAt, false, false)
  }

  function Result(decision: Decision): (ReviewStatus, Resolution) {
    match decision
    case Accept => (Approved, NoResolution)
    case AcceptForSession => (Approved, SessionApproval)
    case AcceptWithPolicy => (Approved, ExecPolicyAmendment)
    case ApplyNetworkPolicy(allow) => (if allow then Approved else Denied, NetworkPolicyAmendment)
    case Decline => (Denied, NoResolution)
    case Cancel => (Aborted, NoResolution)
    case Grant(empty, forSession) =>
      if empty then (Denied, NoResolution)
      else (Approved, if forSession then SessionApproval else NoResolution)
    case Abort => (Aborted, NoResolution)
  }

  datatype Outcome =
    | GuardianApproved | GuardianDenied | GuardianAborted
    | UserApproved | UserApprovedForSession | UserDenied | UserAborted

  /** `final_approval_outcome`. */
  function OutcomeOf(r: Review): Outcome {
    match (r.reviewer, r.status)
    case (Guardian, Approved) => GuardianApproved
    case (Guardian, Denied) => GuardianDenied
    case (Guardian, _) => GuardianAborted
    case (User, Approved) => if r.resolution.SessionApproval? then UserApprovedForSession else UserApproved
    case (User, Denied) => UserDenied
    case (User, _) => UserAborted
  }

  /** `item_review_summary_key`. */
  function SummaryKey(p: PendingReview): Option<Key> {
    if p.item.Some? && (p.subject.CommandSubject? || p.subject.FileSubject? || p.subject.McpSubject?)
    then Some(Key(p.thread, p.turn, p.item.value)) else None
  }

  datatype Summary = Summary(
    reviews: nat, guardian: nat, user: nat, outcome: Option<Outcome>, permissions: bool, network: bool)

  const NO_REVIEWS: Summary := Summary(0, 0, 0, None, false, false)

  /** `record_item_review_summary`. */
  function RecordReview(s: Summary, r: Review): Summary {
    Summary(s.reviews + 1,
            if r.reviewer.Guardian? then s.guardian + 1 else s.guardian,
            if r.reviewer.User? then s.user + 1 else s.user,
            Some(OutcomeOf(r)),
            s.permissions || r.pending.permissions,
            s.network || r.pending.network)
  }

  // ----- Facts and events -----

  datatype Fact =
    | Initialize(connection: ConnectionId, client: string)
    | TurnStartRequested(connection: ConnectionId, request: RequestId, thread: ThreadId, images: nat)
    | TurnSteerRequested(connection: ConnectionId, request: RequestId, thread: ThreadId, expected: TurnId)
    | ThreadOpened(connection: ConnectionId, thread: ThreadId, metadata: string)
    | TurnStartAnswered(connection: ConnectionId, request: RequestId, turn: TurnId)
    | TurnSteerAnswered(connection: ConnectionId, request: RequestId, turn: TurnId)
    | RequestFailed(connection: ConnectionId, request: RequestId)
    | ItemStarted(thread: ThreadId, turn: TurnId, item: Item, at: int)
    | ItemCompleted(thread: ThreadId, turn: TurnId, item: Item, at: int)
    | TurnStarted(turn: TurnId, startedAt: Option<int>)
    | TurnDiffUpdated(thread: ThreadId, turn: TurnId, diff: string)
    | TurnCompleted(turn: TurnId, completion: string)
    | ApprovalRequested(request: RequestId, thread: ThreadId, turn: TurnId, approval: Approval, at: int)
    | ReviewDecided(request: RequestId, decision: Decision, completedAt: nat)
    | GuardianReviewed(thread: ThreadId, turn: TurnId, target: Option<ItemId>, action: GuardianAction,
                       status: Option<ReviewStatus>, from: int, at: int)
    | SubAgentStarted(thread: ThreadId, parent: Option<ThreadId>, metadata: string)
    | Compacted(thread: ThreadId)
    | GuardianReported(thread: ThreadId)
    | TurnConfigResolved(turn: TurnId, thread: ThreadId, images: nat, config: string)
    | TurnTokensUsed(turn: TurnId, thread: ThreadId, usage: string)

  datatype Request = StartTurn(thread: ThreadId, images: nat) | SteerTurn(thread: ThreadId, expected: TurnId)

  datatype ThreadState = ThreadState(connection: Option<ConnectionId>, metadata: Option<string>)

  datatype TurnState = TurnState(
    connection: Option<ConnectionId>, thread: Option<ThreadId>, images: Option<nat>, config: Option<string>,
    startedAt: Option<nat>, usage: Option<string>, completed: Option<string>, diff: Option<string>,
    steers: nat, tools: ToolCounts)

  const NEW_TURN: TurnState := TurnState(None, None, None, None, None, None, None, None, 0, NO_TOOLS)

  datatype Event =
    | ThreadInitialized(thread: ThreadId)
    | TurnEvent(turn: TurnId, connection: ConnectionId, thread: ThreadId, images: nat, config: string,
                completion: string, startedAt: Option<nat>, usage: Option<string>, steers: nat, tools: ToolCounts)
    | AcceptedLinesEvent(turn: TurnId, thread: ThreadId, added: nat, deleted: nat)
    | SteerEvent(connection: ConnectionId, thread: ThreadId, expected: TurnId, accepted: Option<TurnId>)
    | ToolItemEvent(key: Key, kind: ItemKind, began: nat, ended: nat, summary: Summary)
    | ReviewEvent(review: Review)
    | CompactionEvent(thread: ThreadId)
    | GuardianEvent(thread: ThreadId)

  type RequestKey = (ConnectionId, RequestId)

  datatype State = State(
    connections: map<ConnectionId, string>,
    threads: map<ThreadId, ThreadState>,
    requests: map<RequestKey, Request>,
    turns: map<TurnId, TurnState>,
    itemStarts: map<Key, nat>,
    pendingReviews: map<RequestId, PendingReview>,
    summaries: map<Key, Summary>)

  const EMPTY: State := State(map[], map[], map[], map[], map[], map[], map[])

  function Timestamp(at: int): Option<nat> {
    if at >= 0 then Some(at) else None
  }

  // ----- Requests -----

  /** The pending client request a fact concerns. */
  function RequestOf(f: Fact): Option<RequestKey> {
    match f
    case TurnStartRequested(c, r, _, _) => Some((c, r))
    case TurnSteerRequested(c, r, _, _) => Some((c, r))
    case TurnStartAnswered(c, r, _) => Some((c, r))
    case TurnSteerAnswered(c, r, _) => Some((c, r))
    case RequestFailed(c, r) => Some((c, r))
    case _ => None
  }

  /** What becomes of it: registered by a request, taken out by any answer. */
  function RequestAfter(f: Fact): Option<Request> {
    match f
    case TurnStartRequested(_, _, thread, images) => Some(StartTurn(thread, images))
    case TurnSteerRequested(_, _, thread, expected) => Some(SteerTurn(thread, expected))
    case _ => None
  }

  function NextRequests(requests: map<RequestKey, Request>, f: Fact): map<RequestKey, Request> {
    var key := RequestOf(f);
    if key.None? then requests
    else if RequestAfter(f).Some? then requests[key.value := RequestAfter(f).value]
    else requests - {key.value}
  }

  /** The request an answer takes out. */
  function Matched(requests: map<RequestKey, Request>, f: Fact): Option<Request> {
    if RequestOf(f).Some? then Lookup(requests, RequestOf(f).value) else None
  }

  // ----- Connections and threads -----

  function NextConnections(connections: map<ConnectionId, string>, f: Fact): map<ConnectionId, string> {
    match f
    case Initialize(c, client) => connections[c := client]
    case _ => connections
  }

  function Thread(threads: map<ThreadId, ThreadState>, thread: ThreadId): ThreadState {
    if thread in threads then threads[thread] else ThreadState(None, None)
  }

  function Inherit(own: ThreadState, parentConnection: Option<ConnectionId>, metadata: string): ThreadState {
    ThreadState(if own.connection.Some? then own.connection else parentConnection,
                if own.metadata.Some? then own.metadata else Some(metadata))
  }

  function ParentConnection(threads: map<ThreadId, ThreadState>, parent: Option<ThreadId>): Option<ConnectionId> {
    if parent.Some? then Thread(threads, parent.value).connection else None
  }

  function NextThreads(
    threads: map<ThreadId, ThreadState>, connections: map<ConnectionId, string>, f: Fact): map<ThreadId, ThreadState>
  {
    match f
    case ThreadOpened(c, thread, metadata) =>
      if c in connections then threads[thread := ThreadState(Some(c), Some(metadata))] else threads
    case SubAgentStarted(thread, parent, metadata) =>
      threads[thread := Inherit(Thread(threads, thread), ParentConnection(threads, parent), metadata)]
    case _ => threads
  }

  /** `thread_context_or_warn`, with the reason it warns. */
  datatype Context = Known | MissingThreadConnection | MissingConnection | MissingMetadata

  function ContextOf(
    threads: map<ThreadId, ThreadState>, connections: map<ConnectionId, string>, thread: ThreadId): Context
  {
    if thread !in threads || threads[thread].connection.None? then MissingThreadConnection
    else if threads[thread].connection.value !in connections then MissingConnection
    else if threads[thread].metadata.None? then MissingMetadata
    else Known
  }

  predicate HasMetadata(threads: map<ThreadId, ThreadState>, thread: ThreadId) {
    thread in threads && threads[thread].metadata.Some?
  }

  // ----- Turns -----

  function TurnOf(f: Fact): Option<TurnId> {
    match f
    case TurnStartAnswered(_, _, t) => Some(t)
    case TurnSteerAnswered(_, _, t) => Some(t)
    case ItemCompleted(_, t, _, _) => Some(t)
    case TurnStarted(t, _) => Some(t)
    case TurnDiffUpdated(_, t, _) => Some(t)
    case TurnCompleted(t, _) => Some(t)
    case TurnConfigResolved(t, _, _, _) => Some(t)
    case TurnTokensUsed(t, _, _) => Some(t)
    case _ => None
  }

  /** The state a fact gives its turn, from the state before and the request it matched;
      none if it leaves the turn alone. */
  function Touch(before: Option<TurnState>, matched: Option<Request>, f: Fact): Option<TurnState> {
    var current := if before.Some? then before.value else NEW_TURN;
    match f
    case TurnStartAnswered(c, _, _) =>
      if matched.Some? && matched.value.StartTurn?
      then Some(current.(connection := Some(c), thread := Some(matched.value.thread),
                         images := Some(matched.value.images)))
      else None
    case TurnSteerAnswered(_, _, _) =>
      if matched.Some? && matched.value.SteerTurn? && before.Some?
      then Some(current.(steers := current.steers + 1)) else None
    case ItemCompleted(_, _, item, _) =>
      if TrackedId(item).Some? && before.Some?
      then Some(current.(tools := Record(current.tools, item.kind))) else None
    case TurnStarted(_, at) => Some(current.(startedAt := if at.Some? then Timestamp(at.value) else None))
    case TurnDiffUpdated(thread, _, diff) => Some(current.(thread := Some(thread), diff := Some(diff)))
    case TurnCompleted(_, completion) => Some(current.(completed := Some(completion)))
    case TurnConfigResolved(_, thread, images, config) =>
      Some(current.(thread := Some(thread), images := Some(images), config := Some(config)))
    case TurnTokensUsed(_, thread, usage) => Some(current.(thread := Some(thread), usage := Some(usage)))
    case _ => None
  }

  /** The facts after which `maybe_emit_turn_event` is called. */
  predicate MayEmitTurn(f: Fact) {
    f.TurnStartAnswered? || f.TurnCompleted? || f.TurnConfigResolved? || f.TurnTokensUsed?
  }

  predicate Complete(t: TurnState) {
    t.thread.Some? && t.images.Some? && t.config.Some? && t.completed.Some? && t.connection.Some?
  }

  predicate Emittable(t: TurnState, connections: map<ConnectionId, string>, threads: map<ThreadId, ThreadState>) {
    Complete(t) && t.connection.value in connections && HasMetadata(threads, t.thread.value)
  }

  function Touched(s: State, f: Fact): Option<TurnState> {
    if TurnOf(f).Some? then Touch(Lookup(s.turns, TurnOf(f).value), Matched(s.requests, f), f) else None
  }

  /** The turn state a fact completes and turns into an event. */
  function Finished(s: State, f: Fact): Option<TurnState> {
    var t := Touched(s, f);
    if t.Some? && MayEmitTurn(f) && Emittable(t.value, s.connections, s.threads) then t else None
  }

  function NextTurns(s: State, f: Fact): map<TurnId, TurnState> {
    var t := Touched(s, f);
    if t.None? then s.turns
    else if Finished(s, f).Some? then s.turns - {TurnOf(f).value}
    else s.turns[TurnOf(f).value := t.value]
  }

  /** `codex_turn_event_params`: it is only reached with every field present. */
  function TurnEventOf(turn: TurnId, t: TurnState): Event
    requires Complete(t)
  {
    TurnEvent(turn, t.connection.value, t.thread.value, t.images.value, t.config.value, t.completed.value,
              t.startedAt, t.usage, t.steers, t.tools)
  }

  /** The accepted-lines event that accompanies a turn whose diff changed any line. */
  function DiffEvents(turn: TurnId, thread: ThreadId, diff: Option<string>): seq<Event> {
    if diff.None? then []
    else
      var sum := AcceptedLines.Summarize(AcceptedLines.Normalizer(_ => None, _ => None), diff.value);
      if sum.added == 0 && sum.deleted == 0 then []
      else [AcceptedLinesEvent(turn, thread, sum.added, sum.deleted)]
  }

  /** They are the counts the parser finds with the program's own normalisation. */
  lemma DiffEventCounts(u: AcceptedLines.CharClasses, turn: TurnId, thread: ThreadId, diff: string)
    ensures var sum := AcceptedLines.Summarize(AcceptedLines.TextNormalizer(u), diff);
            DiffEvents(turn, thread, Some(diff)) ==
            if sum.added == 0 && sum.deleted == 0 then []
            else [AcceptedLinesEvent(turn, thread, sum.added, sum.deleted)]
  {
    AcceptedLines.CountsIgnoreNormalizer(
      AcceptedLines.Normalizer(_ => None, _ => None), AcceptedLines.TextNormalizer(u),
      AcceptedLines.START, AcceptedLines.START, AcceptedLines.Lines(diff));
  }

  function TurnEvents(turn: TurnId, t: TurnState): seq<Event>
    requires Complete(t)
  {
    [TurnEventOf(turn, t)] + DiffEvents(turn, t.thread.value, t.diff)
  }

  // ----- Items -----

  function KeyOf(f: Fact): Option<Key> {
    match f
    case ItemStarted(thread, turn, item, _) =>
      if TrackedId(item).Some? then Some(Key(thread, turn, TrackedId(item).value)) else None
    case ItemCompleted(thread, turn, item, _) =>
      if TrackedId(item).Some? then Some(Key(thread, turn, TrackedId(item).value)) else None
    case _ => None
  }

  function NextItemStarts(s: State, f: Fact): map<Key, nat> {
    var key := KeyOf(f);
    if key.None? then s.itemStarts
    else if f.ItemStarted? then
      if f.at >= 0 then s.itemStarts[key.value := f.at] else s.itemStarts
    else if f.turn in s.turns then s.itemStarts - {key.value}
    else s.itemStarts
  }

  /** Whether an item completion passes every guard on the way to its event. */
  predicate Passes(turnLive: bool, started: Option<nat>, context: Context, f: Fact) {
    f.ItemCompleted? && TrackedId(f.item).Some? && turnLive && started.Some? && f.at >= 0 && context.Known?
  }

  predicate CompletionPasses(s: State, f: Fact) {
    KeyOf(f).Some? && f.ItemCompleted? &&
    Passes(f.turn in s.turns, Lookup(s.itemStarts, KeyOf(f).value), ContextOf(s.threads, s.connections, f.thread), f)
  }

  // ----- Reviews -----

  function NextPendingReviews(pending: map<RequestId, PendingReview>, f: Fact): map<RequestId, PendingReview> {
    match f
    case ApprovalRequested(r, thread, turn, approval, at) =>
      if at >= 0 then pending[r := PendingOf(thread, turn, approval, at)] else pending
    case ReviewDecided(r, _, _) => pending - {r}
    case _ => pending
  }

  /** The review a fact concludes, from the pending review it names if it names one. */
  function Concluded(pending: Option<PendingReview>, f: Fact): Option<Review> {
    match f
    case ReviewDecided(_, decision, completedAt) =>
      if pending.Some?
      then Some(Review(pending.value, User, Result(decision).0, Result(decision).1, completedAt)) else None
    case GuardianReviewed(thread, turn, target, action, status, from, at) =>
      if status.Some? && from >= 0 && at >= 0
      then Some(Review(GuardianPending(thread, turn, target, action, from), Guardian, status.value, NoResolution, at))
      else None
    case _ => None
  }

  function ConcludedReview(s: State, f: Fact): Option<Review> {
    Concluded(if f.ReviewDecided? then Lookup(s.pendingReviews, f.request) else None, f)
  }

  function SummaryOf(summaries: map<Key, Summary>, key: Key): Summary {
    if key in summaries then summaries[key] else NO_REVIEWS
  }

  function NextSummaries(s: State, f: Fact): map<Key, Summary> {
    var review := ConcludedReview(s, f);
    if review.Some? then
      var key := SummaryKey(review.value.pending);
      if key.Some?
      then s.summaries[key.value := RecordReview(SummaryOf(s.summaries, key.value), review.value)]
      else s.summaries
    else if CompletionPasses(s, f) then s.summaries - {KeyOf(f).value}
    else s.summaries
  }

  // ----- The reducer -----

  function Next(s: State, f: Fact): State {
    State(NextConnections(s.connections, f), NextThreads(s.threads, s.connections, f), NextRequests(s.requests, f),
          NextTurns(s, f), NextItemStarts(s, f), NextPendingReviews(s.pendingReviews, f), NextSummaries(s, f))
  }

  function SteerEvents(s: State, f: Fact, accepted: Option<TurnId>): seq<Event>
    requires f.TurnSteerAnswered? || f.RequestFailed?
  {
    var matched := Matched(s.requests, f);
    if matched.Some? && matched.value.SteerTurn? && f.connection in s.connections
       && HasMetadata(s.threads, matched.value.thread)
    then [SteerEvent(f.connection, matched.value.thread, matched.value.expected, accepted)]
    else []
  }

  /** The events a fact produces. */
  function Out(s: State, f: Fact): seq<Event> {
    if Finished(s, f).Some? then TurnEvents(TurnOf(f).value, Finished(s, f).value)
    else if ConcludedReview(s, f).Some? then
      if ContextOf(s.threads, s.connections, ConcludedReview(s, f).value.pending.thread).Known?
      then [ReviewEvent(ConcludedReview(s, f).value)] else []
    else
      match f
      case ThreadOpened(c, thread, _) => if c in s.connections then [ThreadInitialized(thread)] else []
      case SubAgentStarted(thread, _, _) => [ThreadInitialized(thread)]
      case TurnSteerAnswered(_, _, turn) => SteerEvents(s, f, Some(turn))
      case RequestFailed(_, _) => SteerEvents(s, f, None)
      case ItemCompleted(_, _, item, at) =>
        if CompletionPasses(s, f) && YieldsEvent(item)
        then [ToolItemEvent(KeyOf(f).value, item.kind, s.itemStarts[KeyOf(f).value], at,
                            SummaryOf(s.summaries, KeyOf(f).value))]
        else []
      case Compacted(thread) =>
        if ContextOf(s.threads, s.connections, thread).Known? then [CompactionEvent(thread)] else []
      case GuardianReported(thread) =>
        var context := ContextOf(s.threads, s.connections, thread);
        if context.Known? || context.MissingMetadata? then [GuardianEvent(thread)] else []
      case _ => []
  }
}
