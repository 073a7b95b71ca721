/** The remote client: the initialize handshake, then a worker that selects between
    client commands and frames from the server, matching replies to waiters through
    `pending_requests`, and finally failing every waiter that is left.

    Frames, commands, write results, reads by the consumer and the order in which the
    remaining waiters are failed are inputs; every sequence of them is a run. */
module RemoteConnection {
  import opened Sequences

  type Id = string

  const INITIALIZE: Id := "initialize"
  const METHOD_NOT_FOUND: int := -32601

  datatype ErrorKind = BrokenPipe | InvalidData | InvalidInput | ConnectionAborted | UnexpectedEof | TimedOut | Other

  /** The texts the program formats, one constructor per format string. */
  datatype Message =
    | WriteFailure(endpoint: string, reason: string)
    | DisconnectedByWrite(endpoint: string, failure: Message)
    | SentInvalidJson(endpoint: string, reason: string)
    | ClosedByServer(endpoint: string, reason: string)
    | TransportFailed(endpoint: string, reason: string)
    | StreamEnded(endpoint: string)
    | DuplicateRequestId(id: Id)
    | WorkerChannelClosed
    | InitializeInvalid(endpoint: string, reason: string)
    | InitializeRejected(endpoint: string, reason: string)
    | ClosedDuringInitialize(endpoint: string, reason: string)
    | TransportFailedDuringInitialize(endpoint: string, reason: string)
    | EndedDuringInitialize(endpoint: string)
    | InitializeTimedOut(endpoint: string)

  datatype IoError = IoError(kind: ErrorKind, message: Message)

  /** A frame, with `decoded` the outcome of decoding the method and parameters. */
  datatype Frame =
    | Response(id: Id, result: string)
    | ErrorReply(id: Id, error: string)
    | Notification(decoded: Option<string>)
    | Request(id: Id, rpcMethod: string, decoded: Option<string>)
    | InvalidJson(reason: string)
    | CloseFrame(closeReason: Option<string>)
    | ControlOrBinary
    | TransportError(reason: string)
    | EndOfStream

  datatype Command =
    | SendRequest(id: Id)
    | Notify
    | Resolve(id: Id)
    | Reject(id: Id, code: int)
    | Shutdown
    | AllSendersDropped

  datatype Write = Written | WriteFailed(reason: string)

  datatype Input =
    | Start(write: Write)
    | FromServer(frame: Frame, write: Write)
    | HandshakeTimeout
    | FromClient(command: Command, write: Write)
    | NextEvent
    | ReceiverDropped
    | Drain(id: Id)

  datatype AppEvent =
    | Notified(body: string)
    | Requested(id: Id, body: string)
    | Disconnected(message: Message)

  datatype Outcome = Succeeded(result: string) | ServerError(error: string) | Failed(io: IoError)
  datatype Completion = Completion(ticket: nat, outcome: Outcome)

  /** One entry per message written and per reply that found its waiter. */
  datatype Traffic =
    | InitializeWritten
    | InitializedWritten
    | RequestWritten(id: Id, ticket: nat)
    | ReplyMatched(id: Id, ticket: nat, outcome: Outcome)
    | NotificationWritten
    | ResultWritten(id: Id)
    | RejectionWritten(id: Id, code: int)
    | UnsupportedWritten(id: Id, rpcMethod: string, code: int)

  datatype Cause = Clean | Lost(error: IoError)

  /** `mark` counts the waiters completed before the worker left its loop. */
  datatype Phase =
    | Connecting
    | Handshake
    | Running
    | Exited(cause: Cause, mark: nat)
    | ConnectFailed(error: IoError)

  /** Waiters are numbered by `tickets` in the order their requests are taken. `yielded`,
      `arrived`, `log` and `completions` record the past. */
  datatype State = State(
    endpoint: string,
    phase: Phase,
    pending: map<Id, nat>,
    tickets: nat,
    completions: seq<Completion>,
    log: seq<Traffic>,
    arrived: seq<Frame>,
    handshakeEvents: seq<AppEvent>,
    channel: seq<AppEvent>,
    receiverOpen: bool,
    yielded: seq<AppEvent>)

  function Init(endpoint: string): State {
    State(endpoint, Connecting, map[], 0, [], [], [], [], [], true, [])
  }

  // ----- Messages -----

  function WriteError(endpoint: string, reason: string): IoError {
    IoError(Other, WriteFailure(endpoint, reason))
  }

  function WriteLost(endpoint: string, reason: string): Cause {
    Lost(IoError(BrokenPipe, DisconnectedByWrite(endpoint, WriteFailure(endpoint, reason))))
  }

  function ReasonOr(reason: Option<string>, default: string): string {
    if reason.Some? && reason.value != "" then reason.value else default
  }

  /** The exit a frame forces on the running worker by itself. */
  function FatalFrame(endpoint: string, frame: Frame): Option<Cause> {
    match frame
    case InvalidJson(reason) => Some(Lost(IoError(InvalidData, SentInvalidJson(endpoint, reason))))
    case CloseFrame(reason) =>
      Some(Lost(IoError(ConnectionAborted, ClosedByServer(endpoint, ReasonOr(reason, "connection closed")))))
    case TransportError(reason) => Some(Lost(IoError(InvalidData, TransportFailed(endpoint, reason))))
    case EndOfStream => Some(Lost(IoError(UnexpectedEof, StreamEnded(endpoint))))
    case _ => None
  }

  /** The failure a frame other than the awaited reply forces on the handshake. */
  function FatalDuringHandshake(endpoint: string, frame: Frame): Option<IoError> {
    match frame
    case ErrorReply(id, error) =>
      if id == INITIALIZE then Some(IoError(Other, InitializeRejected(endpoint, error))) else None
    case InvalidJson(reason) => Some(IoError(Other, InitializeInvalid(endpoint, reason)))
    case CloseFrame(reason) =>
      Some(IoError(ConnectionAborted,
                   ClosedDuringInitialize(endpoint, ReasonOr(reason, "connection closed during initialize"))))
    case TransportError(reason) => Some(IoError(Other, TransportFailedDuringInitialize(endpoint, reason)))
    case EndOfStream => Some(IoError(UnexpectedEof, EndedDuringInitialize(endpoint)))
    case _ => None
  }

  /** What every waiter still pending at exit is told. */
  function ExitError(cause: Cause): IoError {
    match cause
    case Clean => IoError(BrokenPipe, WorkerChannelClosed)
    case Lost(error) => error
  }

  // ----- Steps -----

  function Next(s: State, input: Input): State {
    match input
    case Start(write) =>
      if !s.phase.Connecting? then s
      else if write.Written? then s.(phase := Handshake, log := s.log + [InitializeWritten])
      else s.(phase := ConnectFailed(WriteError(s.endpoint, write.reason)))
    case FromServer(frame, write) =>
      if s.phase.Handshake? then HandshakeFrame(s.(arrived := s.arrived + [frame]), frame, write)
      else if s.phase.Running? then WorkerFrame(s.(arrived := s.arrived + [frame]), frame, write)
      else s
    case HandshakeTimeout =>
      if s.phase.Handshake?
      then s.(phase := ConnectFailed(IoError(TimedOut, InitializeTimedOut(s.endpoint))))
      else s
    case FromClient(command, write) =>
      if s.phase.Running? then WorkerCommand(s, command, write) else s
    case NextEvent =>
      if !(s.phase.Running? || s.phase.Exited?) || !s.receiverOpen then s
      else if s.handshakeEvents != []
      then s.(yielded := s.yielded + [s.handshakeEvents[0]], handshakeEvents := s.handshakeEvents[1..])
      else if s.channel != []
      then s.(yielded := s.yielded + [s.channel[0]], channel := s.channel[1..])
      else s
    case ReceiverDropped =>
      if s.phase.Running? || s.phase.Exited?
      then s.(receiverOpen := false, handshakeEvents := [], channel := [])
      else s
    case Drain(id) =>
      if s.phase.Exited? && id in s.pending
      then Complete(s, id, Failed(ExitError(s.phase.cause)))
      else s
  }

  function Complete(s: State, id: Id, outcome: Outcome): State
    requires id in s.pending
  {
    s.(pending := s.pending - {id}, completions := s.completions + [Completion(s.pending[id], outcome)])
  }

  /** The worker leaves its loop; a lost connection is announced if anyone listens. */
  function Exit(s: State, cause: Cause): State {
    s.(phase := Exited(cause, |s.completions|),
       channel := if cause.Lost? && s.receiverOpen then s.channel + [Disconnected(cause.error.message)] else s.channel)
  }

  /** `deliver_event`: with the receiver gone the worker stops without an error. */
  function Deliver(s: State, event: AppEvent): State {
    if s.receiverOpen then s.(channel := s.channel + [event]) else Exit(s, Clean)
  }

  function Unsupported(frame: Frame): Traffic
    requires frame.Request?
  {
    UnsupportedWritten(frame.id, frame.rpcMethod, METHOD_NOT_FOUND)
  }

  function HandshakeFrame(s: State, frame: Frame, write: Write): State {
    match frame
    case Response(id, _) =>
      if id != INITIALIZE then s
      else if write.Written? then s.(phase := Running, log := s.log + [InitializedWritten])
      else s.(phase := ConnectFailed(WriteError(s.endpoint, write.reason)))
    case Notification(decoded) =>
      if decoded.Some? then s.(handshakeEvents := s.handshakeEvents + [Notified(decoded.value)]) else s
    case Request(id, _, decoded) =>
      if decoded.Some? then s.(handshakeEvents := s.handshakeEvents + [Requested(id, decoded.value)])
      else if write.Written? then s.(log := s.log + [Unsupported(frame)])
      else s.(phase := ConnectFailed(WriteError(s.endpoint, write.reason)))
    case _ =>
      var fatal := FatalDuringHandshake(s.endpoint, frame);
      if fatal.Some? then s.(phase := ConnectFailed(fatal.value)) else s
  }

  function Reply(s: State, id: Id, outcome: Outcome): State {
    if id in s.pending
    then Complete(s, id, outcome).(log := s.log + [ReplyMatched(id, s.pending[id], outcome)])
    else s
  }

  function WorkerFrame(s: State, frame: Frame, write: Write): State {
    match frame
    case Response(id, result) => Reply(s, id, Succeeded(result))
    case ErrorReply(id, error) => Reply(s, id, ServerError(error))
    case Notification(decoded) =>
      if decoded.Some? then Deliver(s, Notified(decoded.value)) else s
    case Request(id, _, decoded) =>
      if decoded.Some? then Deliver(s, Requested(id, decoded.value))
      else if write.Written? then s.(log := s.log + [Unsupported(frame)])
      else Exit(s, WriteLost(s.endpoint, write.reason))
    case ControlOrBinary => s
    case _ =>
      var fatal := FatalFrame(s.endpoint, frame);
      if fatal.Some? then Exit(s, fatal.value) else s
  }

  function WorkerCommand(s: State, command: Command, write: Write): State {
    match command
    case SendRequest(id) => TakeRequest(s, id, write)
    case Notify => if write.Written? then s.(log := s.log + [NotificationWritten]) else s
    case Resolve(id) => if write.Written? then s.(log := s.log + [ResultWritten(id)]) else s
    case Reject(id, code) => if write.Written? then s.(log := s.log + [RejectionWritten(id, code)]) else s
    case Shutdown => Exit(s, Clean)
    case AllSendersDropped => Exit(s, Clean)
  }

  function TakeRequest(s: State, id: Id, write: Write): State {
    var ticket := s.tickets;
    var s := s.(tickets := ticket + 1);
    if id in s.pending then
      s.(completions := s.completions + [Completion(ticket, Failed(IoError(InvalidInput, DuplicateRequestId(id))))])
    else
      var s := s.(pending := s.pending[id := ticket]);
      if write.Written? then s.(log := s.log + [RequestWritten(id, ticket)])
      else Exit(Complete(s, id, Failed(WriteError(s.endpoint, write.reason))), WriteLost(s.endpoint, write.reason))
  }

  function RunFrom(s: State, inputs: seq<Input>): State {
    if inputs == [] then s
    else Next(RunFrom(s, inputs[..|inputs| - 1]), inputs[|inputs| - 1])
  }

  /** The state after any sequence of inputs. */
  function Run(endpoint: string, inputs: seq<Input>): State {
    RunFrom(Init(endpoint), inputs)
  }

  // ----- Exactly-once completion -----

  ghost predicate Waiting(pending: map<Id, nat>, ticket: nat) {
    exists id :: id in pending && pending[id] == ticket
  }

  ghost predicate Completed(completions: seq<Completion>, ticket: nat) {
    exists k :: 0 <= k < |completions| && completions[k].ticket == ticket
  }

  /** Every ticket below `tickets` is held by one pending id or by one completion, not both. */
  ghost predicate SettledOnce(pending: map<Id, nat>, completions: seq<Completion>, tickets: nat) {
    && (forall i, j :: 0 <= i < j < |completions| ==> completions[i].ticket != completions[j].ticket)
    && (forall i :: 0 <= i < |completions| ==> completions[i].ticket < tickets)
    && (forall a, b :: a in pending && b in pending && pending[a] == pending[b] ==> a == b)
    && (forall id :: id in pending ==> pending[id] < tickets)
    && (forall t: nat :: t < tickets ==> (Waiting(pending, t) <==> !Completed(completions, t)))
  }

  /** Why waiters fail: before the exit only for a duplicate id, or, last of all, for the
      write failure that caused the exit; from the exit on, all with the same error. */
  ghost predicate FailuresExplained(phase: Phase, completions: seq<Completion>) {
    && (phase.Exited? ==> phase.mark <= |completions|)
    && forall k :: 0 <= k < |completions| && completions[k].outcome.Failed? ==>
         var io := completions[k].outcome.io;
         if phase.Exited? && phase.mark <= k then io == ExitError(phase.cause)
         else
           || (io.kind == InvalidInput && io.message.DuplicateRequestId?)
           || (&& phase.Exited? && k == phase.mark - 1 && io.message.WriteFailure?
               && phase.cause == WriteLost(io.message.endpoint, io.message.reason))
  }

  /** From the exit on no waiter is told anything but the exit error. */
  ghost predicate DrainedAlike(phase: Phase, completions: seq<Completion>) {
    phase.Exited? ==>
      forall k :: phase.mark <= k < |completions| ==> completions[k].outcome == Failed(ExitError(phase.cause))
  }

  ghost predicate TicketInv(s: State) {
    && SettledOnce(s.pending, s.completions, s.tickets)
    && FailuresExplained(s.phase, s.completions)
    && DrainedAlike(s.phase, s.completions)
  }

  lemma CompletedAppend(completions: seq<Completion>, c: Completion, t: nat)
    ensures Completed(completions + [c], t) <==> Completed(completions, t) || c.ticket == t
  {
    if Completed(completions, t) {
      var k :| 0 <= k < |completions| && completions[k].ticket == t;
      assert (completions + [c])[k].ticket == t;
    }
    if c.ticket == t { assert (completions + [c])[|completions|].ticket == t; }
  }

  lemma CompleteSettles(pending: map<Id, nat>, completions: seq<Completion>, tickets: nat, id: Id, outcome: Outcome)
    requires SettledOnce(pending, completions, tickets) && id in pending
    ensures SettledOnce(pending - {id}, completions + [Completion(pending[id], outcome)], tickets)
  {
    var c := Completion(pending[id], outcome);
    assert Waiting(pending, pending[id]);
    forall t: nat | t < tickets
      ensures Waiting(pending - {id}, t) <==> !Completed(completions + [c], t)
    {
      CompletedAppend(completions, c, t);
      if Waiting(pending, t) && t != pending[id] {
        var other :| other in pending && pending[other] == t;
        assert other in pending - {id} && (pending - {id})[other] == t;
      }
    }
  }

  lemma DuplicateSettles(pending: map<Id, nat>, completions: seq<Completion>, tickets: nat, outcome: Outcome)
    requires SettledOnce(pending, completions, tickets)
    ensures SettledOnce(pending, completions + [Completion(tickets, outcome)], tickets + 1)
  {
    forall t: nat | t < tickets + 1
      ensures Waiting(pending, t) <==> !Completed(completions + [Completion(tickets, outcome)], t)
    {
      CompletedAppend(completions, Completion(tickets, outcome), t);
    }
  }

  lemma RegisterSettles(pending: map<Id, nat>, completions: seq<Completion>, tickets: nat, id: Id)
    requires SettledOnce(pending, completions, tickets) && id !in pending
    ensures SettledOnce(pending[id := tickets], completions, tickets + 1)
  {
    var pending' := pending[id := tickets];
    forall t: nat | t < tickets + 1
      ensures Waiting(pending', t) <==> !Completed(completions, t)
    {
      if t == tickets {
        assert pending'[id] == t;
      } else if Waiting(pending, t) {
        var other :| other in pending && pending[other] == t;
        assert other in pending' && pending'[other] == t;
      }
    }
  }

  lemma WorkerFrameKeepsTickets(s: State, frame: Frame, write: Write)
    requires TicketInv(s) && s.phase.Running?
    ensures TicketInv(WorkerFrame(s, frame, write))
  {
    if (frame.Response? || frame.ErrorReply?) && frame.id in s.pending {
      CompleteSettles(s.pending, s.completions, s.tickets, frame.id,
                      if frame.Response? then Succeeded(frame.result) else ServerError(frame.error));
    }
  }

  lemma TakeRequestKeepsTickets(s: State, id: Id, write: Write)
    requires TicketInv(s) && s.phase.Running?
    ensures TicketInv(TakeRequest(s, id, write))
  {
    if id in s.pending {
      var c := TakeRequest(s, id, write).completions[|s.completions|];
      DuplicateSettles(s.pending, s.completions, s.tickets, c.outcome);
    } else {
      RegisterSettles(s.pending, s.completions, s.tickets, id);
      if write.WriteFailed? {
        CompleteSettles(s.pending[id := s.tickets], s.completions, s.tickets + 1, id,
                        Failed(WriteError(s.endpoint, write.reason)));
      }
    }
  }

  lemma CommandKeepsTickets(s: State, command: Command, write: Write)
    requires TicketInv(s) && s.phase.Running?
    ensures TicketInv(WorkerCommand(s, command, write))
  {
    if command.SendRequest? { TakeRequestKeepsTickets(s, command.id, write); }
  }

  lemma HandshakeKeepsTickets(s: State, frame: Frame, write: Write)
    requires TicketInv(s) && s.phase.Handshake?
    ensures TicketInv(HandshakeFrame(s, frame, write))
  {
  }

  lemma DrainKeepsTickets(s: State, id: Id)
    requires TicketInv(s) && s.phase.Exited? && id in s.pending
    ensures TicketInv(Complete(s, id, Failed(ExitError(s.phase.cause))))
  {
    CompleteSettles(s.pending, s.completions, s.tickets, id, Failed(ExitError(s.phase.cause)));
  }

  lemma NextKeepsTickets(s: State, input: Input)
    requires TicketInv(s)
    ensures TicketInv(Next(s, input))
  {
    match input
    case Drain(id) =>
      if s.phase.Exited? && id in s.pending { DrainKeepsTickets(s, id); }
    case FromServer(frame, write) =>
      var s1 := s.(arrived := s.arrived + [frame]);
      if s.phase.Handshake? { HandshakeKeepsTickets(s1, frame, write); }
      if s.phase.Running? { WorkerFrameKeepsTickets(s1, frame, write); }
    case FromClient(command, write) =>
      if s.phase.Running? { CommandKeepsTickets(s, command, write); }
    case _ =>
  }

  // ----- One request in flight per id -----

  /** The request on `id` that was written and has not been replied to. */
  function OpenTicket(log: seq<Traffic>, id: Id): Option<nat> {
    if log == [] then None
    else
      match log[|log| - 1]
      case RequestWritten(i, t) => if i == id then Some(t) else OpenTicket(log[..|log| - 1], id)
      case ReplyMatched(i, _, _) => if i == id then None else OpenTicket(log[..|log| - 1], id)
      case _ => OpenTicket(log[..|log| - 1], id)
  }

  /** On each id requests and replies alternate, and each reply settles the waiter of the
      request it follows. */
  predicate Alternates(log: seq<Traffic>) {
    log == [] ||
    (var prefix := log[..|log| - 1];
     Alternates(prefix) &&
     match log[|log| - 1]
     case RequestWritten(id, _) => OpenTicket(prefix, id).None?
     case ReplyMatched(id, t, _) => OpenTicket(prefix, id) == Some(t)
     case _ => true)
  }

  function Replies(log: seq<Traffic>): seq<Completion> {
    if log == [] then []
    else
      var rest := Replies(log[..|log| - 1]);
      match log[|log| - 1] { case ReplyMatched(_, t, outcome) => rest + [Completion(t, outcome)] case _ => rest }
  }

  function Answered(completions: seq<Completion>): seq<Completion> {
    Filter((c: Completion) => !c.outcome.Failed?, completions)
  }

  ghost predicate Tracked(log: seq<Traffic>, pending: map<Id, nat>, exited: bool) {
    && Alternates(log)
    && (!exited ==> forall id :: OpenTicket(log, id) == Lookup(pending, id))
    && (forall id :: id in pending ==> OpenTicket(log, id) == Some(pending[id]))
  }

  ghost predicate ExchangeInv(s: State) {
    && Tracked(s.log, s.pending, s.phase.Exited?)
    && Replies(s.log) == Answered(s.completions)
  }

  lemma LogAppend(log: seq<Traffic>, e: Traffic)
    ensures (log + [e])[..|log|] == log
    ensures forall id :: OpenTicket(log + [e], id) ==
              match e
              case RequestWritten(i, t) => if i == id then Some(t) else OpenTicket(log, id)
              case ReplyMatched(i, _, _) => if i == id then None else OpenTicket(log, id)
              case _ => OpenTicket(log, id)
    ensures Replies(log + [e]) == Replies(log) + (if e.ReplyMatched? then [Completion(e.ticket, e.outcome)] else [])
  {
  }

  lemma NextKeepsExchange(s: State, input: Input)
    requires ExchangeInv(s)
    ensures ExchangeInv(Next(s, input))
  {
    match input
    case FromServer(frame, write) =>
      var s1 := s.(arrived := s.arrived + [frame]);
      if s.phase.Handshake? { HandshakeKeepsExchange(s1, frame, write); }
      if s.phase.Running? { WorkerFrameKeepsExchange(s1, frame, write); }
    case FromClient(command, write) =>
      if s.phase.Running? { CommandKeepsExchange(s, command, write); }
    case Drain(id) =>
      if s.phase.Exited? && id in s.pending { DrainKeepsExchange(s, id); }
    case Start(_) => LogAppend(s.log, InitializeWritten);
    case _ =>
  }

  lemma DrainKeepsExchange(s: State, id: Id)
    requires ExchangeInv(s) && s.phase.Exited? && id in s.pending
    ensures ExchangeInv(Complete(s, id, Failed(ExitError(s.phase.cause))))
  {
    FilterAppend((c: Completion) => !c.outcome.Failed?, s.completions,
                 Completion(s.pending[id], Failed(ExitError(s.phase.cause))));
  }

  lemma HandshakeKeepsExchange(s: State, frame: Frame, write: Write)
    requires ExchangeInv(s) && s.phase.Handshake?
    ensures ExchangeInv(HandshakeFrame(s, frame, write))
  {
    var s' := HandshakeFrame(s, frame, write);
    HandshakeLogs(s, frame, write);
    if s'.log != s.log { LogAppend(s.log, s'.log[|s.log|]); }
  }

  /** Until the worker runs there are no waiters, and nothing logged concerns one. */
  lemma HandshakeLogs(s: State, frame: Frame, write: Write)
    requires s.phase.Handshake?
    ensures var s' := HandshakeFrame(s, frame, write);
            && s'.pending == s.pending && s'.completions == s.completions && !s'.phase.Exited?
            && (|| s'.log == s.log
                || (&& |s'.log| == |s.log| + 1 && s'.log == s.log + [s'.log[|s.log|]]
                    && !s'.log[|s.log|].RequestWritten? && !s'.log[|s.log|].ReplyMatched?))
  {
  }

  lemma ReplyKeepsExchange(s: State, id: Id, outcome: Outcome)
    requires ExchangeInv(s) && s.phase.Running? && !outcome.Failed?
    ensures ExchangeInv(Reply(s, id, outcome))
  {
    if id in s.pending {
      LogAppend(s.log, ReplyMatched(id, s.pending[id], outcome));
      FilterAppend((c: Completion) => !c.outcome.Failed?, s.completions, Completion(s.pending[id], outcome));
    }
  }

  lemma WorkerFrameKeepsExchange(s: State, frame: Frame, write: Write)
    requires ExchangeInv(s) && s.phase.Running?
    ensures ExchangeInv(WorkerFrame(s, frame, write))
  {
    match frame
    case Response(id, result) => ReplyKeepsExchange(s, id, Succeeded(result));
    case ErrorReply(id, error) => ReplyKeepsExchange(s, id, ServerError(error));
    case _ => OtherFrameKeepsExchange(s, frame, write);
  }

  lemma OtherFrameKeepsExchange(s: State, frame: Frame, write: Write)
    requires ExchangeInv(s) && s.phase.Running? && !frame.Response? && !frame.ErrorReply?
    ensures ExchangeInv(WorkerFrame(s, frame, write))
  {
    var s' := WorkerFrame(s, frame, write);
    assert s'.pending == s.pending && s'.completions == s.completions;
    if s'.log != s.log {
      assert s'.phase == s.phase && s'.log == s.log + [Unsupported(frame)];
      LogAppend(s.log, Unsupported(frame));
    }
  }

  lemma CommandKeepsExchange(s: State, command: Command, write: Write)
    requires ExchangeInv(s) && s.phase.Running?
    ensures ExchangeInv(WorkerCommand(s, command, write))
  {
    if command.SendRequest? {
      TakeRequestKeepsExchange(s, command.id, write);
    } else {
      var s' := WorkerCommand(s, command, write);
      if s'.log != s.log { LogAppend(s.log, s'.log[|s.log|]); }
    }
  }

  lemma TakeRequestKeepsExchange(s: State, id: Id, write: Write)
    requires ExchangeInv(s) && s.phase.Running?
    ensures ExchangeInv(TakeRequest(s, id, write))
  {
    if id !in s.pending && write.Written? {
      LogAppend(s.log, RequestWritten(id, s.tickets));
    } else {
      var c := TakeRequest(s, id, write).completions[|s.completions|];
      FilterAppend((c: Completion) => !c.outcome.Failed?, s.completions, c);
      if id !in s.pending { assert s.pending[id := s.tickets] - {id} == s.pending; }
    }
  }

  function WrittenCount(log: seq<Traffic>, id: Id): nat {
    if log == [] then 0
    else WrittenCount(log[..|log| - 1], id) +
         match log[|log| - 1] { case RequestWritten(i, _) => if i == id then 1 else 0 case _ => 0 }
  }

  function ReplyCount(log: seq<Traffic>, id: Id): nat {
    if log == [] then 0
    else ReplyCount(log[..|log| - 1], id) +
         match log[|log| - 1] { case ReplyMatched(i, _, _) => if i == id then 1 else 0 case _ => 0 }
  }

  lemma {:induction false} AlternationCounts(log: seq<Traffic>, id: Id)
    requires Alternates(log)
    ensures WrittenCount(log, id) == ReplyCount(log, id) + (if OpenTicket(log, id).Some? then 1 else 0)
  {
    if log != [] { AlternationCounts(log[..|log| - 1], id); }
  }

  // ----- The event stream -----

  function EventOf(frame: Frame): Option<AppEvent> {
    match frame
    case Notification(Some(body)) => Some(Notified(body))
    case Request(id, _, Some(body)) => Some(Requested(id, body))
    case _ => None
  }

  /** The known notifications and server requests among the frames, in arrival order. */
  function KnownEvents(frames: seq<Frame>): seq<AppEvent> {
    if frames == [] then []
    else
      var rest := KnownEvents(frames[..|frames| - 1]);
      match EventOf(frames[|frames| - 1]) { case Some(event) => rest + [event] case None => rest }
  }

  function Farewell(phase: Phase): seq<AppEvent> {
    match phase
    case Exited(Lost(error), _) => [Disconnected(error.message)]
    case _ => []
  }

  /** Everything yielded or still queued is everything known that arrived, and a farewell. */
  ghost predicate Faithful(yielded: seq<AppEvent>, early: seq<AppEvent>, channel: seq<AppEvent>,
                           open: bool, known: seq<AppEvent>) {
    && yielded <= known
    && if open then yielded + (early + channel) == known else early == channel == []
  }

  ghost predicate StreamInv(s: State) {
    && Faithful(s.yielded, s.handshakeEvents, s.channel, s.receiverOpen, KnownEvents(s.arrived) + Farewell(s.phase))
    && (!s.receiverOpen ==> s.phase.Running? || s.phase.Exited?)
    && (s.phase.Connecting? || s.phase.Handshake? ==> s.channel == [])
  }

  lemma KnownAppend(frames: seq<Frame>, frame: Frame)
    ensures KnownEvents(frames + [frame]) ==
            KnownEvents(frames) + match EventOf(frame) { case Some(event) => [event] case None => [] }
  {
    assert (frames + [frame])[..|frames|] == frames;
  }

  lemma FaithfulAppend(yielded: seq<AppEvent>, early: seq<AppEvent>, channel: seq<AppEvent>,
                       open: bool, known: seq<AppEvent>, more: seq<AppEvent>)
    requires Faithful(yielded, early, channel, open, known)
    ensures Faithful(yielded, early, if open then channel + more else channel, open, known + more)
    ensures open && channel == [] ==> Faithful(yielded, early + more, channel, open, known + more)
  {
    if open {
      assert yielded + (early + (channel + more)) == yielded + (early + channel) + more;
      if channel == [] { assert yielded + (early + more + channel) == yielded + (early + channel) + more; }
    }
  }

  lemma HandshakeKeepsStream(s: State, frame: Frame, write: Write)
    requires StreamInv(s) && s.phase.Handshake?
    ensures StreamInv(HandshakeFrame(s.(arrived := s.arrived + [frame]), frame, write))
  {
    var known := KnownEvents(s.arrived);
    var more := if EventOf(frame).Some? then [EventOf(frame).value] else [];
    KnownAppend(s.arrived, frame);
    assert known + Farewell(s.phase) == known && known + more + [] == known + more;
    FaithfulAppend(s.yielded, s.handshakeEvents, s.channel, s.receiverOpen, known, more);
    HandshakeCollects(s.(arrived := s.arrived + [frame]), frame, write, more);
  }

  lemma HandshakeCollects(s: State, frame: Frame, write: Write, more: seq<AppEvent>)
    requires s.phase.Handshake? && more == if EventOf(frame).Some? then [EventOf(frame).value] else []
    ensures var s' := HandshakeFrame(s, frame, write);
            && s'.handshakeEvents == s.handshakeEvents + more && s'.channel == s.channel && s'.yielded == s.yielded
            && s'.arrived == s.arrived && s'.receiverOpen == s.receiverOpen && Farewell(s'.phase) == []
            && !s'.phase.Connecting?
  {
    assert s.handshakeEvents + [] == s.handshakeEvents;
  }

  lemma WorkerFrameKeepsStream(s: State, frame: Frame, write: Write)
    requires StreamInv(s) && s.phase.Running?
    ensures StreamInv(WorkerFrame(s.(arrived := s.arrived + [frame]), frame, write))
  {
    var known := KnownEvents(s.arrived);
    var s' := WorkerFrame(s.(arrived := s.arrived + [frame]), frame, write);
    KnownAppend(s.arrived, frame);
    assert known + Farewell(s.phase) == known;
    var more := if EventOf(frame).Some? then [EventOf(frame).value] else Farewell(s'.phase);
    FaithfulAppend(s.yielded, s.handshakeEvents, s.channel, s.receiverOpen, known, more);
    WorkerDelivers(s.(arrived := s.arrived + [frame]), frame, write);
    assert KnownEvents(s'.arrived) + Farewell(s'.phase) == known + more;
  }

  /** A frame of the running worker brings at most one event, or the farewell. */
  lemma WorkerDelivers(s: State, frame: Frame, write: Write)
    requires s.phase.Running?
    ensures var s' := WorkerFrame(s, frame, write);
            var more := if EventOf(frame).Some? then [EventOf(frame).value] else Farewell(s'.phase);
            && s'.channel == (if s.receiverOpen then s.channel + more else s.channel)
            && s'.handshakeEvents == s.handshakeEvents && s'.yielded == s.yielded
            && s'.arrived == s.arrived && s'.receiverOpen == s.receiverOpen
            && (EventOf(frame).Some? ==> Farewell(s'.phase) == []) && (s'.phase.Running? || s'.phase.Exited?)
  {
    assert s.channel + [] == s.channel;
  }

  lemma CommandKeepsStream(s: State, command: Command, write: Write)
    requires StreamInv(s) && s.phase.Running?
    ensures StreamInv(WorkerCommand(s, command, write))
  {
    var s' := WorkerCommand(s, command, write);
    FaithfulAppend(s.yielded, s.handshakeEvents, s.channel, s.receiverOpen, KnownEvents(s.arrived), Farewell(s'.phase));
    assert KnownEvents(s.arrived) + Farewell(s.phase) == KnownEvents(s.arrived);
    assert s'.channel == if s.receiverOpen then s.channel + Farewell(s'.phase) else s.channel;
  }

  lemma HeadMoves(yielded: seq<AppEvent>, queue: seq<AppEvent>, rest: seq<AppEvent>, known: seq<AppEvent>)
    requires queue != [] && (yielded + (queue + rest) == known || yielded + queue == known)
    ensures yielded + [queue[0]] <= known
    ensures yielded + (queue + rest) == known ==> yielded + [queue[0]] + (queue[1..] + rest) == known
  {
    assert queue == [queue[0]] + queue[1..];
  }

  lemma ReadKeepsStream(s: State)
    requires StreamInv(s)
    ensures StreamInv(Next(s, NextEvent))
  {
    var s' := Next(s, NextEvent);
    if s' != s {
      var known := KnownEvents(s.arrived) + Farewell(s.phase);
      if s.handshakeEvents != [] {
        HeadMoves(s.yielded, s.handshakeEvents, s.channel, known);
      } else {
        HeadMoves(s.yielded, s.channel, [], known);
        assert s'.handshakeEvents + s'.channel == s'.channel + [] && s.handshakeEvents + s.channel == s.channel + [];
      }
    }
  }

  lemma NextKeepsStream(s: State, input: Input)
    requires StreamInv(s)
    ensures StreamInv(Next(s, input))
  {
    match input
    case FromServer(frame, write) =>
      if s.phase.Handshake? { HandshakeKeepsStream(s, frame, write); }
      if s.phase.Running? { WorkerFrameKeepsStream(s, frame, write); }
    case FromClient(command, write) =>
      if s.phase.Running? { CommandKeepsStream(s, command, write); }
    case NextEvent => ReadKeepsStream(s);
    case _ =>
  }

  // ----- Unknown server requests -----

  function UnknownRequests(frames: seq<Frame>): seq<Traffic> {
    if frames == [] then []
    else
      var rest := UnknownRequests(frames[..|frames| - 1]);
      var last := frames[|frames| - 1];
      if last.Request? && last.decoded.None? then rest + [UnsupportedWritten(last.id, last.rpcMethod, -32601)] else rest
  }

  function UnsupportedReplies(log: seq<Traffic>): seq<Traffic> {
    Filter((e: Traffic) => e.UnsupportedWritten?, log)
  }

  /** Each unknown request is answered, save one whose failed answer ended the connection. */
  ghost predicate UnknownAnswered(log: seq<Traffic>, arrived: seq<Frame>, phase: Phase) {
    || UnsupportedReplies(log) == UnknownRequests(arrived)
    || (&& arrived != []
        && var last := arrived[|arrived| - 1];
           && last.Request? && last.decoded.None?
           && UnsupportedReplies(log) + [UnsupportedWritten(last.id, last.rpcMethod, -32601)] ==
              UnknownRequests(arrived)
           && (phase.ConnectFailed? || (phase.Exited? && phase.cause.Lost? && phase.cause.error.kind == BrokenPipe)))
  }

  lemma AnswersAppend(log: seq<Traffic>, arrived: seq<Frame>, frame: Frame, phase: Phase, before: seq<Traffic>)
    requires UnsupportedReplies(before) == UnknownRequests(arrived)
    requires if frame.Request? && frame.decoded.None?
             then UnsupportedReplies(log) == UnsupportedReplies(before) + [Unsupported(frame)]
                  || (log == before
                      && (|| phase.ConnectFailed?
                          || (phase.Exited? && phase.cause.Lost? && phase.cause.error.kind == BrokenPipe)))
             else UnsupportedReplies(log) == UnsupportedReplies(before)
    ensures UnknownAnswered(log, arrived + [frame], phase)
  {
    assert (arrived + [frame])[..|arrived|] == arrived;
  }

  lemma FrameKeepsAnswers(s: State, frame: Frame, write: Write)
    requires UnknownAnswered(s.log, s.arrived, s.phase) && (s.phase.Handshake? || s.phase.Running?)
    ensures var s' := Next(s, FromServer(frame, write)); UnknownAnswered(s'.log, s'.arrived, s'.phase)
  {
    var s1 := s.(arrived := s.arrived + [frame]);
    if s.phase.Handshake? { HandshakeReplies(s1, frame, write); } else { WorkerReplies(s1, frame, write); }
    var s' := Next(s, FromServer(frame, write));
    AnswersAppend(s'.log, s.arrived, frame, s'.phase, s.log);
  }

  lemma HandshakeReplies(s: State, frame: Frame, write: Write)
    requires s.phase.Handshake?
    ensures var s' := HandshakeFrame(s, frame, write);
            if frame.Request? && frame.decoded.None?
            then (UnsupportedReplies(s'.log) == UnsupportedReplies(s.log) + [Unsupported(frame)])
                 || (s'.log == s.log && s'.phase.ConnectFailed?)
            else UnsupportedReplies(s'.log) == UnsupportedReplies(s.log)
  {
    var keep := (e: Traffic) => e.UnsupportedWritten?;
    match frame
    case Request(_, _, _) => FilterAppend(keep, s.log, Unsupported(frame));
    case Response(_, _) => FilterAppend(keep, s.log, InitializedWritten);
    case _ =>
  }

  lemma WorkerReplies(s: State, frame: Frame, write: Write)
    requires s.phase.Running?
    ensures var s' := WorkerFrame(s, frame, write);
            if frame.Request? && frame.decoded.None?
            then (UnsupportedReplies(s'.log) == UnsupportedReplies(s.log) + [Unsupported(frame)])
                 || (s'.log == s.log && s'.phase.Exited? && s'.phase.cause == WriteLost(s.endpoint, write.reason))
            else UnsupportedReplies(s'.log) == UnsupportedReplies(s.log)
  {
    var keep := (e: Traffic) => e.UnsupportedWritten?;
    if frame.Request? {
      FilterAppend(keep, s.log, Unsupported(frame));
    } else if (frame.Response? || frame.ErrorReply?) && frame.id in s.pending {
      var outcome := if frame.Response? then Succeeded(frame.result) else ServerError(frame.error);
      FilterAppend(keep, s.log, ReplyMatched(frame.id, s.pending[frame.id], outcome));
    }
  }

  lemma CommandKeepsReplies(s: State, command: Command, write: Write)
    ensures UnsupportedReplies(WorkerCommand(s, command, write).log) == UnsupportedReplies(s.log)
  {
    var s' := WorkerCommand(s, command, write);
    if s'.log != s.log { FilterAppend((e: Traffic) => e.UnsupportedWritten?, s.log, s'.log[|s.log|]); }
  }

  lemma NextKeepsAnswers(s: State, input: Input)
    requires UnknownAnswered(s.log, s.arrived, s.phase)
    ensures var s' := Next(s, input); UnknownAnswered(s'.log, s'.arrived, s'.phase)
  {
    match input
    case FromServer(frame, write) =>
      if s.phase.Handshake? || s.phase.Running? { FrameKeepsAnswers(s, frame, write); }
    case FromClient(command, write) =>
      if s.phase.Running? { CommandKeepsReplies(s, command, write); }
    case _ => FilterAppend((e: Traffic) => e.UnsupportedWritten?, s.log, InitializeWritten);
  }

  // ----- What the inputs say -----

  /** How many requests the worker has taken: the number of the next waiter. */
  function Taken(endpoint: string, inputs: seq<Input>): nat {
    if inputs == [] then 0
    else
      var n := |inputs| - 1;
      Taken(endpoint, inputs[..n]) +
      if inputs[n].FromClient? && inputs[n].command.SendRequest? && Run(endpoint, inputs[..n]).phase.Running?
      then 1 else 0
  }

  /** The waiter whose request on `id` went out and who has been told nothing since. */
  function Waiter(endpoint: string, inputs: seq<Input>, id: Id): Option<nat> {
    if inputs == [] then None
    else
      var h, input := inputs[..|inputs| - 1], inputs[|inputs| - 1];
      WaiterAfter(Waiter(endpoint, h, id), Run(endpoint, h).phase, Taken(endpoint, h), input, id)
  }

  function WaiterAfter(before: Option<nat>, phase: Phase, taken: nat, input: Input, id: Id): Option<nat> {
    match input
    case FromClient(SendRequest(i), Written) =>
      if phase.Running? && i == id && before.None? then Some(taken) else before
    case FromServer(Response(i, _), _) => if phase.Running? && i == id then None else before
    case FromServer(ErrorReply(i, _), _) => if phase.Running? && i == id then None else before
    case Drain(i) => if phase.Exited? && i == id then None else before
    case _ => before
  }

  /** The id a request, a reply or the drain speaks of. */
  function IdOf(input: Input): Option<Id> {
    match input
    case FromClient(SendRequest(id), _) => Some(id)
    case FromServer(Response(id, _), _) => Some(id)
    case FromServer(ErrorReply(id, _), _) => Some(id)
    case Drain(id) => Some(id)
    case _ => None
  }

  function WaiterOf(endpoint: string, h: seq<Input>, input: Input): Option<nat> {
    if IdOf(input).Some? then Waiter(endpoint, h, IdOf(input).value) else None
  }

  function PendingOf(pending: map<Id, nat>, input: Input): Option<nat> {
    if IdOf(input).Some? then Lookup(pending, IdOf(input).value) else None
  }

  function DuplicateOf(id: Id): Outcome {
    Failed(IoError(InvalidInput, DuplicateRequestId(id)))
  }

  function UnwrittenBecause(endpoint: string, reason: string): Outcome {
    Failed(IoError(Other, WriteFailure(endpoint, reason)))
  }

  function LeftBecause(cause: Cause): Outcome {
    Failed(if cause.Lost? then cause.error else IoError(BrokenPipe, WorkerChannelClosed))
  }

  /** What an input tells which waiter, from the waiter its id had before: a request is
      refused if there was one and fails if its write fails; a reply tells the waiter what
      it carries; the drain tells it why the worker left. */
  function Settlement(endpoint: string, phase: Phase, taken: nat, waiter: Option<nat>, input: Input): Option<Completion>
  {
    match input
    case FromClient(SendRequest(id), write) =>
      if !phase.Running? then None
      else if waiter.Some? then Some(Completion(taken, DuplicateOf(id)))
      else if write.WriteFailed? then Some(Completion(taken, UnwrittenBecause(endpoint, write.reason)))
      else None
    case FromServer(Response(id, result), _) =>
      if phase.Running? && waiter.Some? then Some(Completion(waiter.value, Succeeded(result))) else None
    case FromServer(ErrorReply(id, error), _) =>
      if phase.Running? && waiter.Some? then Some(Completion(waiter.value, ServerError(error))) else None
    case Drain(id) =>
      if phase.Exited? && waiter.Some?
      then Some(Completion(waiter.value, LeftBecause(phase.cause))) else None
    case _ => None
  }

  function Settles(endpoint: string, h: seq<Input>, input: Input): Option<Completion> {
    Settlement(endpoint, Run(endpoint, h).phase, Taken(endpoint, h), WaiterOf(endpoint, h, input), input)
  }

  function Settlements(endpoint: string, inputs: seq<Input>): seq<Completion> {
    if inputs == [] then []
    else
      var n := |inputs| - 1;
      var settled := Settles(endpoint, inputs[..n], inputs[n]);
      Settlements(endpoint, inputs[..n]) + if settled.Some? then [settled.value] else []
  }

  /** The replies received for a waiter, in order, each with what its frame carries. */
  function RepliesReceived(endpoint: string, inputs: seq<Input>): seq<Completion> {
    if inputs == [] then []
    else
      var n := |inputs| - 1;
      var settled := Settles(endpoint, inputs[..n], inputs[n]);
      RepliesReceived(endpoint, inputs[..n]) +
      if inputs[n].FromServer? && settled.Some? then [settled.value] else []
  }

  /** Everything written to the server and every reply received for a waiter, in order. */
  function TrafficOf(endpoint: string, inputs: seq<Input>): seq<Traffic> {
    if inputs == [] then []
    else
      var h, input := inputs[..|inputs| - 1], inputs[|inputs| - 1];
      TrafficOf(endpoint, h) +
      TrafficBy(Run(endpoint, h).phase, Taken(endpoint, h), WaiterOf(endpoint, h, input), input)
  }

  function TrafficBy(phase: Phase, taken: nat, waiter: Option<nat>, input: Input): seq<Traffic> {
    match phase
    case Connecting => if input == Start(Written) then [InitializeWritten] else []
    case Handshake => if input.FromServer? && input.write.Written? then HandshakeTraffic(input.frame) else []
    case Running =>
      (match input
       case FromServer(frame, write) => WorkerTraffic(waiter, frame, write)
       case FromClient(command, Written) => CommandTraffic(taken, waiter, command)
       case _ => [])
    case _ => []
  }

  function HandshakeTraffic(frame: Frame): seq<Traffic> {
    match frame
    case Response(id, _) => if id == "initialize" then [InitializedWritten] else []
    case Request(id, rpcMethod, None) => [UnsupportedWritten(id, rpcMethod, -32601)]
    case _ => []
  }

  function WorkerTraffic(waiter: Option<nat>, frame: Frame, write: Write): seq<Traffic> {
    match frame
    case Response(id, result) => if waiter.Some? then [ReplyMatched(id, waiter.value, Succeeded(result))] else []
    case ErrorReply(id, error) => if waiter.Some? then [ReplyMatched(id, waiter.value, ServerError(error))] else []
    case Request(id, rpcMethod, None) =>
      if write.Written? then [UnsupportedWritten(id, rpcMethod, -32601)] else []
    case _ => []
  }

  /** Each command writes one message of its own kind, with the id and code it was given. */
  function CommandTraffic(taken: nat, waiter: Option<nat>, command: Command): seq<Traffic> {
    match command
    case SendRequest(id) => if waiter.None? then [RequestWritten(id, taken)] else []
    case Notify => [NotificationWritten]
    case Resolve(id) => [ResultWritten(id)]
    case Reject(id, code) => [RejectionWritten(id, code)]
    case _ => []
  }

  /** The frames that arrive while somebody reads them. */
  function FramesOf(endpoint: string, inputs: seq<Input>): seq<Frame> {
    if inputs == [] then []
    else
      var h, input := inputs[..|inputs| - 1], inputs[|inputs| - 1];
      var phase := Run(endpoint, h).phase;
      FramesOf(endpoint, h) + if input.FromServer? && (phase.Handshake? || phase.Running?) then [input.frame] else []
  }

  /** The state holds what the inputs say about waiters. */
  ghost predicate Tells(s: State, endpoint: string, inputs: seq<Input>) {
    && s.endpoint == endpoint
    && s.tickets == Taken(endpoint, inputs)
    && (forall id :: Lookup(s.pending, id) == Waiter(endpoint, inputs, id))
    && s.completions == Settlements(endpoint, inputs)
    && s.log == TrafficOf(endpoint, inputs)
    && s.arrived == FramesOf(endpoint, inputs)
  }

  lemma NextCountsTickets(s: State, input: Input)
    ensures Next(s, input).endpoint == s.endpoint
    ensures Next(s, input).tickets == s.tickets +
              if input.FromClient? && input.command.SendRequest? && s.phase.Running? then 1 else 0
  {
  }

  lemma NextMovesWaiters(s: State, input: Input, id: Id)
    ensures Lookup(Next(s, input).pending, id) == WaiterAfter(Lookup(s.pending, id), s.phase, s.tickets, input, id)
  {
  }

  lemma NextSettles(s: State, input: Input)
    ensures var settled := Settlement(s.endpoint, s.phase, s.tickets, PendingOf(s.pending, input), input);
            Next(s, input).completions == s.completions + if settled.Some? then [settled.value] else []
  {
  }

  lemma NextLogs(s: State, input: Input)
    ensures Next(s, input).log == s.log + TrafficBy(s.phase, s.tickets, PendingOf(s.pending, input), input)
  {
    assert s.log + [] == s.log;
    match input
    case FromServer(frame, write) =>
      if s.phase.Running? { FrameLogs(s.(arrived := s.arrived + [frame]), frame, write); }
      if s.phase.Handshake? { HandshakeFrameLogs(s.(arrived := s.arrived + [frame]), frame, write); }
    case FromClient(command, write) =>
      if s.phase.Running? { CommandLogs(s, command, write); }
    case _ =>
  }

  lemma FrameLogs(s: State, frame: Frame, write: Write)
    requires s.phase.Running?
    ensures WorkerFrame(s, frame, write).log ==
            s.log + WorkerTraffic(PendingOf(s.pending, FromServer(frame, write)), frame, write)
  {
    assert s.log + [] == s.log;
  }

  lemma HandshakeFrameLogs(s: State, frame: Frame, write: Write)
    requires s.phase.Handshake?
    ensures HandshakeFrame(s, frame, write).log == s.log + if write.Written? then HandshakeTraffic(frame) else []
  {
    assert s.log + [] == s.log;
  }

  lemma CommandLogs(s: State, command: Command, write: Write)
    requires s.phase.Running?
    ensures WorkerCommand(s, command, write).log ==
            s.log + if write.Written?
                    then CommandTraffic(s.tickets, PendingOf(s.pending, FromClient(command, write)), command) else []
  {
    assert s.log + [] == s.log;
  }

  lemma NextArrives(s: State, input: Input)
    ensures Next(s, input).arrived ==
            s.arrived + if input.FromServer? && (s.phase.Handshake? || s.phase.Running?) then [input.frame] else []
  {
    assert s.arrived + [] == s.arrived;
  }

  lemma NextTells(s: State, endpoint: string, h: seq<Input>, input: Input)
    requires s == Run(endpoint, h) && Tells(s, endpoint, h)
    ensures Tells(Run(endpoint, h + [input]), endpoint, h + [input])
  {
    var inputs := h + [input];
    assert inputs[..|inputs| - 1] == h;
    assert Run(endpoint, inputs) == Next(s, input);
    assert PendingOf(s.pending, input) == WaiterOf(endpoint, h, input);
    NextCountsTickets(s, input);
    forall id ensures Lookup(Next(s, input).pending, id) == Waiter(endpoint, inputs, id) {
      NextMovesWaiters(s, input, id);
    }
    NextSettles(s, input);
    NextLogs(s, input);
    NextArrives(s, input);
  }

  lemma StartTells(endpoint: string)
    ensures Tells(Run(endpoint, []), endpoint, [])
  {
  }

  lemma {:induction false} RunTells(endpoint: string, inputs: seq<Input>)
    ensures Tells(Run(endpoint, inputs), endpoint, inputs)
  {
    if inputs == [] {
      StartTells(endpoint);
    } else {
      var h, input := inputs[..|inputs| - 1], inputs[|inputs| - 1];
      RunTells(endpoint, h);
      NextTells(Run(endpoint, h), endpoint, h, input);
      assert h + [input] == inputs;
    }
  }

  /** Only a reply brings a waiter anything but a failure. */
  lemma RepliesSucceed(endpoint: string, phase: Phase, taken: nat, waiter: Option<nat>, input: Input)
    ensures var settled := Settlement(endpoint, phase, taken, waiter, input);
            settled.Some? ==> (settled.value.outcome.Failed? <==> !input.FromServer?)
  {
  }

  lemma {:induction false} AnsweredByReplies(endpoint: string, inputs: seq<Input>)
    ensures Answered(Settlements(endpoint, inputs)) == RepliesReceived(endpoint, inputs)
  {
    if inputs != [] {
      var h, input := inputs[..|inputs| - 1], inputs[|inputs| - 1];
      AnsweredByReplies(endpoint, h);
      RepliesSucceed(endpoint, Run(endpoint, h).phase, Taken(endpoint, h), WaiterOf(endpoint, h, input), input);
      var settled := Settles(endpoint, h, input);
      if settled.Some? {
        FilterAppend((c: Completion) => !c.outcome.Failed?, Settlements(endpoint, h), settled.value);
      } else {
        assert Settlements(endpoint, h) + [] == Settlements(endpoint, h);
      }
    }
  }

  ghost predicate SettledAt(endpoint: string, inputs: seq<Input>, i: int, c: Completion) {
    0 <= i < |inputs| && Settles(endpoint, inputs[..i], inputs[i]) == Some(c)
  }

  /** A completion is what some one input told its waiter, and every such thing is told. */
  lemma {:induction false} SettledBySomeInput(endpoint: string, inputs: seq<Input>, c: Completion)
    ensures c in Settlements(endpoint, inputs) <==> exists i :: SettledAt(endpoint, inputs, i, c)
  {
    if inputs != [] {
      var n := |inputs| - 1;
      var h := inputs[..n];
      SettledBySomeInput(endpoint, h, c);
      forall i | i != n ensures SettledAt(endpoint, h, i, c) <==> SettledAt(endpoint, inputs, i, c) {
        if 0 <= i < n { assert h[..i] == inputs[..i]; }
      }
      var settled := Settles(endpoint, h, inputs[n]);
      assert SettledAt(endpoint, inputs, n, c) <==> settled == Some(c);
      assert !SettledAt(endpoint, h, n, c);
      assert Settlements(endpoint, inputs) == Settlements(endpoint, h) + if settled.Some? then [settled.value] else [];
    }
  }

  // ----- Guarantees of every run -----

  ghost predicate Inv(s: State) {
    TicketInv(s) && ExchangeInv(s) && StreamInv(s) && UnknownAnswered(s.log, s.arrived, s.phase)
  }

  lemma {:induction false} RunKeepsInv(s: State, inputs: seq<Input>)
    requires Inv(s)
    ensures Inv(RunFrom(s, inputs))
  {
    if inputs != [] {
      var n := |inputs| - 1;
      RunKeepsInv(s, inputs[..n]);
      var prev := RunFrom(s, inputs[..n]);
      NextKeepsTickets(prev, inputs[n]);
      NextKeepsExchange(prev, inputs[n]);
      NextKeepsStream(prev, inputs[n]);
      NextKeepsAnswers(prev, inputs[n]);
    }
  }

  lemma InitInv(endpoint: string)
    ensures Inv(Init(endpoint))
  {
  }

  /** No waiter is completed twice, and none is left once the worker has drained. What each
      is told, and in which order, is what the inputs say: a reply's own result or error, the
      refusal of a duplicate, the failure of its own write, or the reason of the exit. */
  lemma {:induction false} ExactlyOnceCompletion(endpoint: string, inputs: seq<Input>)
    ensures var s := Run(endpoint, inputs);
            && SettledOnce(s.pending, s.completions, s.tickets)
            && (s.phase.Exited? && s.pending == map[] ==>
                  forall t: nat :: t < s.tickets ==> Completed(s.completions, t))
            && FailuresExplained(s.phase, s.completions)
            && DrainedAlike(s.phase, s.completions)
            && s.tickets == Taken(endpoint, inputs)
            && (forall id :: Lookup(s.pending, id) == Waiter(endpoint, inputs, id))
            && s.completions == Settlements(endpoint, inputs)
            && Answered(s.completions) == RepliesReceived(endpoint, inputs) == Replies(s.log)
  {
    InitInv(endpoint);
    RunKeepsInv(Init(endpoint), inputs);
    RunTells(endpoint, inputs);
    AnsweredByReplies(endpoint, inputs);
  }

  /** The input at i is a request the running worker takes, and t the number of its waiter. */
  ghost predicate TakenAt(endpoint: string, inputs: seq<Input>, i: int, t: nat) {
    && 0 <= i < |inputs| && inputs[i].FromClient? && inputs[i].command.SendRequest?
    && Run(endpoint, inputs[..i]).phase.Running? && Taken(endpoint, inputs[..i]) == t
  }

  lemma {:induction false} TakenOnce(endpoint: string, inputs: seq<Input>, i: int, j: int, t: nat)
    requires i < j && TakenAt(endpoint, inputs, i, t)
    ensures !TakenAt(endpoint, inputs, j, t)
  {
    if j < |inputs| {
      assert inputs[..j][..i] == inputs[..i];
      TakenGrows(endpoint, inputs[..j], i);
    }
  }

  lemma {:induction false} TakenGrows(endpoint: string, inputs: seq<Input>, i: nat)
    requires i < |inputs|
    ensures Taken(endpoint, inputs[..i]) <= Taken(endpoint, inputs)
    ensures TakenAt(endpoint, inputs, i, Taken(endpoint, inputs[..i])) ==>
              Taken(endpoint, inputs[..i]) < Taken(endpoint, inputs)
  {
    var n := |inputs| - 1;
    var h := inputs[..n];
    if i < n {
      assert h[..i] == inputs[..i] && h[i] == inputs[i];
      TakenGrows(endpoint, h, i);
    } else {
      assert inputs[..i] == h;
    }
  }

  /** What the exit tells waiters is never mistaken for a refusal or a failed write. */
  ghost predicate ExitIsDistinct(phase: Phase) {
    phase.Exited? ==> ExitError(phase.cause).kind != InvalidInput && ExitError(phase.cause).kind != Other
  }

  lemma NextExitIsDistinct(s: State, input: Input)
    requires ExitIsDistinct(s.phase)
    ensures ExitIsDistinct(Next(s, input).phase)
  {
    match input
    case FromServer(frame, write) =>
      if s.phase.Running? { FrameExitIsDistinct(s.(arrived := s.arrived + [frame]), frame, write); }
    case FromClient(_, _) =>
    case _ =>
  }

  lemma FrameExitIsDistinct(s: State, frame: Frame, write: Write)
    requires s.phase.Running?
    ensures ExitIsDistinct(WorkerFrame(s, frame, write).phase)
  {
  }

  lemma {:induction false} RunExitIsDistinct(endpoint: string, inputs: seq<Input>)
    ensures ExitIsDistinct(Run(endpoint, inputs).phase)
  {
    if inputs != [] {
      var n := |inputs| - 1;
      RunExitIsDistinct(endpoint, inputs[..n]);
      NextExitIsDistinct(Run(endpoint, inputs[..n]), inputs[n]);
    }
  }

  lemma SettlementIsDistinct(endpoint: string, phase: Phase, taken: nat, waiter: Option<nat>, input: Input, t: nat)
    requires ExitIsDistinct(phase)
    ensures var settled := Settlement(endpoint, phase, taken, waiter, input);
            var sent := input.FromClient? && input.command.SendRequest? && phase.Running? && taken == t;
            && (forall id :: settled == Some(Completion(t, DuplicateOf(id))) <==>
                               sent && input.command.id == id && waiter.Some?)
            && (forall reason :: settled == Some(Completion(t, UnwrittenBecause(endpoint, reason))) <==>
                                   sent && waiter.None? && input.write == WriteFailed(reason))
  {
  }

  /** A waiter is told its id is a duplicate exactly if its request was taken while another
      waiter had that id. */
  lemma {:induction false} DuplicatesExactly(endpoint: string, inputs: seq<Input>, t: nat, id: Id)
    ensures Completion(t, DuplicateOf(id)) in Run(endpoint, inputs).completions <==>
              exists i :: && TakenAt(endpoint, inputs, i, t) && inputs[i].command.id == id
                          && Waiter(endpoint, inputs[..i], id).Some?
  {
    var c := Completion(t, DuplicateOf(id));
    RunTells(endpoint, inputs);
    SettledBySomeInput(endpoint, inputs, c);
    forall i
      ensures SettledAt(endpoint, inputs, i, c) <==>
                && TakenAt(endpoint, inputs, i, t) && inputs[i].command.id == id
                && Waiter(endpoint, inputs[..i], id).Some?
    {
      if 0 <= i < |inputs| { DistinctAt(endpoint, inputs, i, t); }
    }
  }

  /** A waiter is told of a failed write exactly if its own request was fresh and not written. */
  lemma {:induction false} WriteErrorsExactly(endpoint: string, inputs: seq<Input>, t: nat, reason: string)
    ensures Completion(t, UnwrittenBecause(endpoint, reason)) in Run(endpoint, inputs).completions <==>
              exists i :: && TakenAt(endpoint, inputs, i, t) && inputs[i].write == WriteFailed(reason)
                          && Waiter(endpoint, inputs[..i], inputs[i].command.id).None?
  {
    var c := Completion(t, UnwrittenBecause(endpoint, reason));
    RunTells(endpoint, inputs);
    SettledBySomeInput(endpoint, inputs, c);
    forall i
      ensures SettledAt(endpoint, inputs, i, c) <==>
                && TakenAt(endpoint, inputs, i, t) && inputs[i].write == WriteFailed(reason)
                && Waiter(endpoint, inputs[..i], inputs[i].command.id).None?
    {
      if 0 <= i < |inputs| { DistinctAt(endpoint, inputs, i, t); }
    }
  }

  lemma DistinctAt(endpoint: string, inputs: seq<Input>, i: nat, t: nat)
    requires i < |inputs|
    ensures forall id :: SettledAt(endpoint, inputs, i, Completion(t, DuplicateOf(id))) <==>
              && TakenAt(endpoint, inputs, i, t) && inputs[i].command.id == id
              && Waiter(endpoint, inputs[..i], id).Some?
    ensures forall reason :: SettledAt(endpoint, inputs, i, Completion(t, UnwrittenBecause(endpoint, reason))) <==>
              && TakenAt(endpoint, inputs, i, t) && inputs[i].write == WriteFailed(reason)
              && Waiter(endpoint, inputs[..i], inputs[i].command.id).None?
  {
    var h, input := inputs[..i], inputs[i];
    RunExitIsDistinct(endpoint, h);
    SettlementIsDistinct(endpoint, Run(endpoint, h).phase, Taken(endpoint, h), WaiterOf(endpoint, h, input), input, t);
  }

  /** At most one written request per id is unanswered, exactly while the id is pending; and
      the messages written and the replies matched are those the inputs call for. */
  lemma {:induction false} OneInFlightPerId(endpoint: string, inputs: seq<Input>, id: Id)
    ensures var s := Run(endpoint, inputs);
            && Alternates(s.log)
            && 0 <= WrittenCount(s.log, id) - ReplyCount(s.log, id) <= 1
            && (!s.phase.Exited? ==> (WrittenCount(s.log, id) - ReplyCount(s.log, id) == 1 <==> id in s.pending))
            && (id in s.pending <==> Waiter(endpoint, inputs, id).Some?)
            && s.log == TrafficOf(endpoint, inputs)
  {
    InitInv(endpoint);
    RunKeepsInv(Init(endpoint), inputs);
    RunTells(endpoint, inputs);
    var s := Run(endpoint, inputs);
    AlternationCounts(s.log, id);
    assert Tracked(s.log, s.pending, s.phase.Exited?);
  }

  /** What the consumer reads is a prefix of the known events in arrival order across
      handshake and worker, then at most one farewell; while it listens nothing is lost. */
  lemma {:induction false} StreamFidelity(endpoint: string, inputs: seq<Input>)
    ensures var s := Run(endpoint, inputs);
            && s.yielded <= KnownEvents(s.arrived) + Farewell(s.phase)
            && (s.receiverOpen ==>
                  s.yielded + (s.handshakeEvents + s.channel) == KnownEvents(s.arrived) + Farewell(s.phase))
            && (forall k :: 0 <= k < |KnownEvents(s.arrived)| ==> !KnownEvents(s.arrived)[k].Disconnected?)
            && s.arrived == FramesOf(endpoint, inputs)
            && UnknownAnswered(s.log, s.arrived, s.phase)
  {
    InitInv(endpoint);
    RunKeepsInv(Init(endpoint), inputs);
    RunTells(endpoint, inputs);
    NoEarlyFarewell(Run(endpoint, inputs).arrived);
  }

  lemma {:induction false} NoEarlyFarewell(frames: seq<Frame>)
    ensures forall k :: 0 <= k < |KnownEvents(frames)| ==> !KnownEvents(frames)[k].Disconnected?
  {
    if frames != [] { NoEarlyFarewell(frames[..|frames| - 1]); }
  }

  // ----- How a connection begins and ends -----

  function CloseReason(reason: Option<string>, otherwise: string): string {
    match reason
    case None => otherwise
    case Some(text) => if |text| > 0 then text else otherwise
  }

  /** The frames that end the running worker by themselves, each with its kind and message. */
  predicate LostByFrame(endpoint: string, frame: Frame, error: IoError) {
    || (frame.InvalidJson? && error == IoError(InvalidData, SentInvalidJson(endpoint, frame.reason)))
    || (frame.CloseFrame? &&
        error == IoError(ConnectionAborted,
                         ClosedByServer(endpoint, CloseReason(frame.closeReason, "connection closed"))))
    || (frame.TransportError? && error == IoError(InvalidData, TransportFailed(endpoint, frame.reason)))
    || (frame.EndOfStream? && error == IoError(UnexpectedEof, StreamEnded(endpoint)))
  }

  /** A failed write of a fresh request, or of the refusal of an unknown one. */
  predicate LostByWrite(endpoint: string, unused: bool, input: Input, error: IoError) {
    && (|| (input.FromServer? && input.frame.Request? && input.frame.decoded.None?)
        || (input.FromClient? && input.command.SendRequest? && unused))
    && input.write.WriteFailed?
    && error == IoError(BrokenPipe, DisconnectedByWrite(endpoint, WriteFailure(endpoint, input.write.reason)))
  }

  /** Exactly when the running worker loses its connection and why, and exactly when it
      stops without saying so; otherwise it goes on running. */
  lemma ExitCauses(s: State, input: Input, error: IoError)
    requires s.phase.Running?
    ensures var s' := Next(s, input);
            var unused := input.FromClient? && input.command.SendRequest? && input.command.id !in s.pending;
            && (s'.phase.Exited? && s'.phase.cause == Lost(error) <==>
                  (input.FromServer? && LostByFrame(s.endpoint, input.frame, error))
                  || LostByWrite(s.endpoint, unused, input, error))
            && (s'.phase.Exited? && s'.phase.cause.Clean? <==>
                  || (&& input.FromServer? && !s.receiverOpen
                      && (input.frame.Notification? || input.frame.Request?) && input.frame.decoded.Some?)
                  || (input.FromClient? && (input.command.Shutdown? || input.command.AllSendersDropped?)))
            && (s'.phase.Exited? || s'.phase == Running)
  {
    match input
    case FromServer(frame, write) => FrameExits(s.(arrived := s.arrived + [frame]), frame, write, error);
    case FromClient(command, write) => CommandExits(s, command, write, error);
    case _ =>
  }

  lemma FrameExits(s: State, frame: Frame, write: Write, error: IoError)
    requires s.phase.Running?
    ensures var s' := WorkerFrame(s, frame, write);
            && (s'.phase.Exited? && s'.phase.cause == Lost(error) <==>
                  || LostByFrame(s.endpoint, frame, error)
                  || LostByWrite(s.endpoint, false, FromServer(frame, write), error))
            && (s'.phase.Exited? && s'.phase.cause.Clean? <==>
                  !s.receiverOpen && (frame.Notification? || frame.Request?) && frame.decoded.Some?)
            && (s'.phase.Exited? || s'.phase == Running)
  {
    match frame
    case Response(_, _) =>
    case ErrorReply(_, _) =>
    case Notification(_) =>
    case Request(_, _, _) =>
    case InvalidJson(_) =>
    case CloseFrame(_) =>
    case _ =>
  }

  lemma CommandExits(s: State, command: Command, write: Write, error: IoError)
    requires s.phase.Running?
    ensures var s' := WorkerCommand(s, command, write);
            var unused := command.SendRequest? && command.id !in s.pending;
            && (s'.phase.Exited? && s'.phase.cause == Lost(error) <==>
                  LostByWrite(s.endpoint, unused, FromClient(command, write), error))
            && (s'.phase.Exited? && s'.phase.cause.Clean? <==> command.Shutdown? || command.AllSendersDropped?)
            && (s'.phase.Exited? || s'.phase == Running)
  {
  }

  /** Once the worker has left, it stays so, nothing more arrives, and each waiter it left
      behind either still waits or has been told why. */
  lemma {:induction false} AfterExit(s: State, more: seq<Input>)
    requires s.phase.Exited?
    ensures var s' := RunFrom(s, more);
            && s'.phase == s.phase && s'.arrived == s.arrived && (s'.receiverOpen ==> s.receiverOpen)
            && forall id :: id in s.pending ==>
                 (id in s'.pending && s'.pending[id] == s.pending[id])
                 || Completion(s.pending[id], LeftBecause(s.phase.cause)) in s'.completions
  {
    if more != [] {
      var n := |more| - 1;
      AfterExit(s, more[..n]);
      StepAfterExit(RunFrom(s, more[..n]), more[n]);
    }
  }

  lemma StepAfterExit(s: State, input: Input)
    requires s.phase.Exited?
    ensures var s' := Next(s, input);
            && s'.phase == s.phase && s'.arrived == s.arrived && (s'.receiverOpen ==> s.receiverOpen)
            && (forall c :: c in s.completions ==> c in s'.completions)
            && forall id :: id in s.pending ==>
                 (id in s'.pending && s'.pending[id] == s.pending[id])
                 || Completion(s.pending[id], LeftBecause(s.phase.cause)) in s'.completions
  {
  }

  /** From a fatal frame on, whatever follows: the worker has left with that frame's error,
      every waiter it left behind is told that kind and message once the drain is done, and
      the stream ends with that message. */
  lemma {:induction false} LostConnection(
    endpoint: string, h: seq<Input>, frame: Frame, write: Write, error: IoError, more: seq<Input>)
    requires Run(endpoint, h).phase.Running? && LostByFrame(endpoint, frame, error)
    ensures var s, s' := Run(endpoint, h), RunFrom(Run(endpoint, h + [FromServer(frame, write)]), more);
            && s'.phase.Exited? && s'.phase.cause == Lost(error)
            && (s'.pending == map[] ==>
                  forall id :: id in s.pending ==> Completion(s.pending[id], Failed(error)) in s'.completions)
            && (s'.receiverOpen ==>
                  s'.yielded + (s'.handshakeEvents + s'.channel) ==
                  KnownEvents(s.arrived) + [Disconnected(error.message)])
  {
    var s := Run(endpoint, h);
    var lost := Run(endpoint, h + [FromServer(frame, write)]);
    RunAppend(endpoint, h, FromServer(frame, write));
    RunTells(endpoint, h);
    LostAtOnce(s, frame, write, error);
    AfterExit(lost, more);
    InitInv(endpoint);
    RunKeepsInv(Init(endpoint), h + [FromServer(frame, write)]);
    RunKeepsInv(lost, more);
    KnownAppend(s.arrived, frame);
    assert KnownEvents(s.arrived) + [] == KnownEvents(s.arrived);
  }

  lemma LostAtOnce(s: State, frame: Frame, write: Write, error: IoError)
    requires s.phase.Running? && LostByFrame(s.endpoint, frame, error)
    ensures var s' := Next(s, FromServer(frame, write));
            && s'.phase == Exited(Lost(error), |s.completions|)
            && s'.pending == s.pending && s'.completions == s.completions && s'.arrived == s.arrived + [frame]
    ensures EventOf(frame).None?
  {
  }

  /** The connection is set up by the written initialize request ... */
  lemma ConnectEnds(s: State, input: Input, error: IoError)
    requires s.phase.Connecting?
    ensures var s' := Next(s, input);
            && (s'.phase.Handshake? <==> input == Start(Written))
            && (s'.phase == ConnectFailed(error) <==>
                  && input.Start? && input.write.WriteFailed?
                  && error == IoError(Other, WriteFailure(s.endpoint, input.write.reason)))
            && (s'.phase.Handshake? || s'.phase.ConnectFailed? || s'.phase == Connecting)
  {
  }

  /** What makes the handshake fail, each with its kind and message. */
  predicate FailsHandshake(endpoint: string, input: Input, error: IoError) {
    match input
    case HandshakeTimeout => error == IoError(TimedOut, InitializeTimedOut(endpoint))
    case FromServer(frame, write) =>
      || (&& write.WriteFailed? && error == IoError(Other, WriteFailure(endpoint, write.reason))
          && ((frame.Response? && frame.id == "initialize") || (frame.Request? && frame.decoded.None?)))
      || (&& frame.ErrorReply? && frame.id == "initialize"
          && error == IoError(Other, InitializeRejected(endpoint, frame.error)))
      || (frame.InvalidJson? && error == IoError(Other, InitializeInvalid(endpoint, frame.reason)))
      || (frame.CloseFrame? &&
          error == IoError(ConnectionAborted,
                           ClosedDuringInitialize(
                             endpoint, CloseReason(frame.closeReason, "connection closed during initialize"))))
      || (frame.TransportError? && error == IoError(Other, TransportFailedDuringInitialize(endpoint, frame.reason)))
      || (frame.EndOfStream? && error == IoError(UnexpectedEof, EndedDuringInitialize(endpoint)))
    case _ => false
  }

  /** ... and begins to run exactly with the reply to it, once `initialized` is written. */
  lemma HandshakeEnds(s: State, input: Input, error: IoError)
    requires s.phase.Handshake?
    ensures var s' := Next(s, input);
            && (s'.phase.Running? <==>
                  && input.FromServer? && input.write.Written?
                  && input.frame.Response? && input.frame.id == "initialize")
            && (s'.phase == ConnectFailed(error) <==> FailsHandshake(s.endpoint, input, error))
            && (s'.phase.Running? || s'.phase.ConnectFailed? || s'.phase == Handshake)
  {
    match input
    case FromServer(frame, write) => HandshakeFrameEnds(s.(arrived := s.arrived + [frame]), frame, write, error);
    case _ =>
  }

  lemma HandshakeFrameEnds(s: State, frame: Frame, write: Write, error: IoError)
    requires s.phase.Handshake?
    ensures var s' := HandshakeFrame(s, frame, write);
            && (s'.phase.Running? <==> write.Written? && frame.Response? && frame.id == "initialize")
            && (s'.phase == ConnectFailed(error) <==>
                  FailsHandshake(s.endpoint, FromServer(frame, write), error))
            && (s'.phase.Running? || s'.phase.ConnectFailed? || s'.phase == Handshake)
  {
    match frame
    case Response(_, _) =>
    case ErrorReply(_, _) =>
    case Request(_, _, _) =>
    case _ =>
  }

  ghost predicate InitializedAt(endpoint: string, inputs: seq<Input>, i: int) {
    && 0 <= i < |inputs| && Run(endpoint, inputs[..i]).phase.Handshake?
    && inputs[i].FromServer? && inputs[i].write.Written?
    && inputs[i].frame.Response? && inputs[i].frame.id == "initialize"
  }

  /** The worker runs, or has run, exactly if the reply to initialize arrived in time. */
  lemma {:induction false} RunsOnceInitialized(endpoint: string, inputs: seq<Input>)
    ensures var phase := Run(endpoint, inputs).phase;
            phase.Running? || phase.Exited? <==> exists i :: InitializedAt(endpoint, inputs, i)
  {
    if inputs != [] {
      var n := |inputs| - 1;
      var h := inputs[..n];
      var s := Run(endpoint, h);
      RunsOnceInitialized(endpoint, h);
      PhaseMoves(s, inputs[n]);
      forall i | i != n ensures InitializedAt(endpoint, h, i) <==> InitializedAt(endpoint, inputs, i) {
        if 0 <= i < n { assert h[..i] == inputs[..i]; }
      }
      assert !InitializedAt(endpoint, h, n);
      var after := Run(endpoint, inputs).phase;
      assert after.Running? || after.Exited? <==>
               s.phase.Running? || s.phase.Exited? || InitializedAt(endpoint, inputs, n);
    }
  }

  lemma PhaseMoves(s: State, input: Input)
    ensures var before, after := s.phase, Next(s, input).phase;
            after.Running? || after.Exited? <==>
              || before.Running? || before.Exited?
              || (&& before.Handshake? && input.FromServer? && input.write.Written?
                  && input.frame.Response? && input.frame.id == "initialize")
  {
    var any := IoError(Other, WorkerChannelClosed);
    match s.phase
    case Connecting => ConnectEnds(s, input, any);
    case Handshake => HandshakeEnds(s, input, any);
    case Running => ExitCauses(s, input, any);
    case _ =>
  }

  /** A read by the consumer takes the first of what is queued, and never nothing if there
      is something. */
  lemma ReadsTheFirst(s: State)
    requires (s.phase.Running? || s.phase.Exited?) && s.receiverOpen
    ensures var s', queued := Next(s, NextEvent), s.handshakeEvents + s.channel;
            if queued == [] then s' == s
            else s'.yielded == s.yielded + [queued[0]] && s'.handshakeEvents + s'.channel == queued[1..]
  {
  }

  /** A consumer that leaves takes what is queued with it, and nothing else changes. */
  lemma LeavingDiscards(s: State)
    requires s.phase.Running? || s.phase.Exited?
    ensures Next(s, ReceiverDropped) == s.(receiverOpen := false, handshakeEvents := [], channel := [])
  {
  }

  // ----- The client as it runs -----

  lemma RunAppend(endpoint: string, inputs: seq<Input>, input: Input)
    ensures Run(endpoint, inputs + [input]) == Next(Run(endpoint, inputs), input)
  {
    assert (inputs + [input])[..|inputs|] == inputs;
  }

  /** The client, its worker and the connection between them. `history` is the run so far
      and `model` the state it reaches. */
  class RemoteClient {
    const endpoint: string
    var phase: Phase
    var pendingRequests: map<Id, nat>
    var nextTicket: nat
    var completions: seq<Completion>
    var traffic: seq<Traffic>
    var pendingEvents: seq<AppEvent>
    var eventQueue: seq<AppEvent>
    var receiverOpen: bool
    ghost var history: seq<Input>
    ghost var model: State

    ghost predicate Valid()
      reads this
    {
      model == Run(endpoint, history) && Represents(model)
    }

    ghost predicate Represents(s: State)
      reads this
    {
      && s.endpoint == endpoint && s.phase == phase && s.pending == pendingRequests && s.tickets == nextTicket
      && s.completions == completions && s.log == traffic && s.receiverOpen == receiverOpen
      && s.handshakeEvents == pendingEvents && s.channel == eventQueue
    }

    constructor (endpoint: string)
      ensures Valid() && history == [] && this.endpoint == endpoint
    {
      this.endpoint := endpoint;
      phase := Connecting;
      pendingRequests := map[];
      nextTicket := 0;
      completions, traffic := [], [];
      pendingEvents, eventQueue, receiverOpen := [], [], true;
      history := [];
      model := Init(endpoint);
    }

    ghost method Record(input: Input)
      requires model == Run(endpoint, history) && Represents(Next(model, input))
      modifies `history, `model
      ensures Valid() && history == old(history) + [input] && model == Next(old(model), input)
    {
      RunAppend(endpoint, history, input);
      model := Next(model, input);
      history := history + [input];
    }

    /** The worker leaves its loop. */
    method LeaveLoop(cause: Cause)
      modifies `phase, `eventQueue
      ensures phase == Exited(cause, |completions|)
      ensures eventQueue == old(eventQueue) +
                if cause.Lost? && receiverOpen then [Disconnected(cause.error.message)] else []
    {
      if cause.Lost? && receiverOpen {
        eventQueue := eventQueue + [Disconnected(cause.error.message)];
      }
      phase := Exited(cause, |completions|);
    }

    /** The initialize request goes out. */
    method Connect(write: Write)
      requires Valid() && phase.Connecting?
      modifies this
      ensures Valid() && history == old(history) + [Start(write)]
    {
      if write.Written? {
        traffic := traffic + [InitializeWritten];
        phase := Handshake;
      } else {
        phase := ConnectFailed(WriteError(endpoint, write.reason));
      }
      Record(Start(write));
    }

    method OnHandshakeTimeout()
      requires Valid() && phase.Handshake?
      modifies this
      ensures Valid() && history == old(history) + [HandshakeTimeout]
    {
      phase := ConnectFailed(IoError(TimedOut, InitializeTimedOut(endpoint)));
      Record(HandshakeTimeout);
    }

    /** Any command but a request. A failed write is reported to the caller alone. */
    method OnCommand(command: Command, write: Write)
      requires Valid() && phase.Running? && !command.SendRequest?
      modifies this
      ensures Valid() && history == old(history) + [FromClient(command, write)]
      ensures pendingRequests == old(pendingRequests) && completions == old(completions)
    {
      if command.Shutdown? || command.AllSendersDropped? {
        LeaveLoop(Clean);
      } else if write.Written? {
        match command
        case Notify => traffic := traffic + [NotificationWritten];
        case Resolve(id) => traffic := traffic + [ResultWritten(id)];
        case Reject(id, code) => traffic := traffic + [RejectionWritten(id, code)];
      }
      Record(FromClient(command, write));
    }

    method DropReceiver()
      requires Valid() && (phase.Running? || phase.Exited?)
      modifies this
      ensures Valid() && history == old(history) + [ReceiverDropped]
    {
      pendingEvents, eventQueue, receiverOpen := [], [], false;
      Record(ReceiverDropped);
    }

    /** A `Request` command: refused if its id is pending, else registered and written. */
    method Request(id: Id, write: Write)
      requires Valid() && phase.Running?
      modifies this
      ensures Valid() && history == old(history) + [FromClient(SendRequest(id), write)]
      ensures id in old(pendingRequests) ==>
                phase == old(phase) && pendingRequests == old(pendingRequests) && traffic == old(traffic)
    {
      var ticket := nextTicket;
      nextTicket := nextTicket + 1;
      if id in pendingRequests {
        completions := completions + [Completion(ticket, Failed(IoError(InvalidInput, DuplicateRequestId(id))))];
      } else {
        pendingRequests := pendingRequests[id := ticket];
        if write.Written? {
          traffic := traffic + [RequestWritten(id, ticket)];
        } else {
          pendingRequests := pendingRequests - {id};
          completions := completions + [Completion(ticket, Failed(WriteError(endpoint, write.reason)))];
          LeaveLoop(WriteLost(endpoint, write.reason));
        }
      }
      Record(FromClient(SendRequest(id), write));
    }

    /** A response or error frame reaches the running worker. */
    method OnReply(frame: Frame, write: Write)
      requires Valid() && phase.Running? && (frame.Response? || frame.ErrorReply?)
      modifies this
      ensures Valid() && history == old(history) + [FromServer(frame, write)]
      ensures frame.id !in old(pendingRequests) ==> completions == old(completions)
    {
      var outcome := if frame.Response? then Succeeded(frame.result) else ServerError(frame.error);
      if frame.id in pendingRequests {
        var ticket := pendingRequests[frame.id];
        pendingRequests := pendingRequests - {frame.id};
        completions := completions + [Completion(ticket, outcome)];
        traffic := traffic + [ReplyMatched(frame.id, ticket, outcome)];
      }
      Record(FromServer(frame, write));
    }

    /** Any other frame reaches the running worker. */
    method OnFrame(frame: Frame, write: Write)
      requires Valid() && phase.Running? && !frame.Response? && !frame.ErrorReply?
      modifies this
      ensures Valid() && history == old(history) + [FromServer(frame, write)]
    {
      var event := EventOf(frame);
      if event.Some? {
        if receiverOpen {
          eventQueue := eventQueue + [event.value];
        } else {
          LeaveLoop(Clean);
        }
      } else if frame.Request? {
        if write.Written? {
          traffic := traffic + [UnsupportedWritten(frame.id, frame.rpcMethod, METHOD_NOT_FOUND)];
        } else {
          LeaveLoop(WriteLost(endpoint, write.reason));
        }
      } else {
        var fatal := FatalFrame(endpoint, frame);
        if fatal.Some? { LeaveLoop(fatal.value); }
      }
      Record(FromServer(frame, write));
    }

    /** A frame arrives before the initialize reply. */
    method OnHandshakeFrame(frame: Frame, write: Write)
      requires Valid() && phase.Handshake?
      modifies this
      ensures Valid() && history == old(history) + [FromServer(frame, write)]
    {
      var event := EventOf(frame);
      if event.Some? {
        pendingEvents := pendingEvents + [event.value];
      } else if frame.Request? || (frame.Response? && frame.id == INITIALIZE) {
        if write.WriteFailed? {
          phase := ConnectFailed(WriteError(endpoint, write.reason));
        } else if frame.Request? {
          traffic := traffic + [UnsupportedWritten(frame.id, frame.rpcMethod, METHOD_NOT_FOUND)];
        } else {
          traffic := traffic + [InitializedWritten];
          phase := Running;
        }
      } else {
        var fatal := FatalDuringHandshake(endpoint, frame);
        if fatal.Some? { phase := ConnectFailed(fatal.value); }
      }
      Record(FromServer(frame, write));
    }

    /** `next_event`: events collected during the handshake come first. */
    method TakeEvent() returns (event: Option<AppEvent>)
      requires Valid() && (phase.Running? || phase.Exited?) && receiverOpen
      modifies this
      ensures Valid() && history == old(history) + [NextEvent]
      ensures model.yielded == old(model).yielded + if event.Some? then [event.value] else []
    {
      event := None;
      if pendingEvents != [] {
        event := Some(pendingEvents[0]);
        pendingEvents := pendingEvents[1..];
      } else if eventQueue != [] {
        event := Some(eventQueue[0]);
        eventQueue := eventQueue[1..];
      }
      Record(NextEvent);
    }

    /** After the loop: every remaining waiter is failed, in whatever order the map yields. */
    method DrainPending()
      requires Valid() && phase.Exited?
      modifies this
      ensures Valid() && pendingRequests == map[]
      ensures phase == old(phase) && nextTicket == old(nextTicket) && old(completions) <= completions
      ensures forall t: nat :: t < nextTicket ==> Completed(completions, t)
      ensures forall k :: |old(completions)| <= k < |completions| ==>
                completions[k].outcome == Failed(ExitError(phase.cause))
    {
      var error := ExitError(phase.cause);
      while pendingRequests != map[]
        invariant Valid() && phase == old(phase) && nextTicket == old(nextTicket)
        invariant error == ExitError(phase.cause)
        invariant old(completions) <= completions
        invariant forall k :: |old(completions)| <= k < |completions| ==> completions[k].outcome == Failed(error)
        decreases pendingRequests.Keys
      {
        var id :| id in pendingRequests;
        completions := completions + [Completion(pendingRequests[id], Failed(error))];
        pendingRequests := pendingRequests - {id};
        Record(Drain(id));
      }
      ExactlyOnceCompletion(endpoint, history);
    }
  }
}
