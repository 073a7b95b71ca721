/** The in-process facade worker: it takes runtime events one at a time and forwards
    them into a bounded channel. Lossless events wait for room; best-effort events are
    dropped and counted when the channel is full, and the count is reported later by a
    `Lagged` marker.

    Every channel operation of the worker is one step, so a step of the consumer
    (receive, close) may fall between any two of them. */
module InProcessForwarding {
  import opened Sequences

  type RequestId = string

  datatype Notification =
    | TurnCompleted(body: string)
    | ItemCompleted(body: string)
    | AgentMessageDelta(body: string)
    | PlanDelta(body: string)
    | ReasoningSummaryTextDelta(body: string)
    | ReasoningTextDelta(body: string)
    | OtherNotification(rpcMethod: string, body: string)

  datatype Request =
    | ChatgptAuthTokensRefresh(id: RequestId)
    | OtherRequest(id: RequestId, rpcMethod: string)

  datatype Event =
    | Lagged(skipped: nat)
    | ServerNotification(notification: Notification)
    | ServerRequest(request: Request)

  const USIZE_MAX: nat := 0xFFFF_FFFF_FFFF_FFFF
  const OVERLOADED: int := -32001
  const REFRESH_UNSUPPORTED: int := -32000

  predicate RequiresDelivery(event: Event) {
    match event
    case ServerNotification(notification) => NotificationRequiresDelivery(notification)
    case _ => false
  }

  predicate NotificationRequiresDelivery(notification: Notification) {
    match notification
    case TurnCompleted(_) => true
    case ItemCompleted(_) => true
    case AgentMessageDelta(_) => true
    case PlanDelta(_) => true
    case ReasoningSummaryTextDelta(_) => true
    case ReasoningTextDelta(_) => true
    case OtherNotification(_, _) => false
  }

  function SaturatingIncrement(n: nat): nat {
    if n < USIZE_MAX then n + 1 else n
  }

  /** An entry of the channel, with its provenance: a forwarded event remembers its
      position among the events offered to the forwarder. */
  datatype Entry = Forwarded(index: nat, event: Event) | Marker(skipped: nat)

  /** What the consumer sees of an entry. */
  function Wire(entry: Entry): Event {
    match entry
    case Forwarded(_, event) => event
    case Marker(skipped) => Lagged(skipped)
  }

  datatype Phase = Selecting | Flushing(event: Event) | Delivering(event: Event) | Stopped {
    predicate InFlight() { Flushing? || Delivering? }
  }

  datatype Rejection = Rejection(id: RequestId, code: int)

  /** `sent[received..]` is the channel. `taken`, `sent[..received]`, `dropped` and
      `overflow` only record the past: the events taken from the runtime, what the
      consumer has read, the events dropped, and how many drops the saturated counter
      could not count. */
  datatype State = State(
    capacity: nat,
    sent: seq<Entry>,
    received: nat,
    closed: bool,
    skipped: nat,
    phase: Phase,
    streamEnabled: bool,
    rejections: seq<Rejection>,
    taken: seq<Event>,
    dropped: seq<Entry>,
    overflow: nat)

  datatype Step = Take(event: Event) | Send | Receive | Close | Stop

  function Init(channelCapacity: nat): State {
    State(if channelCapacity < 1 then 1 else channelCapacity,
          [], 0, false, 0, Selecting, true, [], [], [], 0)
  }

  predicate Full(s: State) {
    s.received + s.capacity <= |s.sent|
  }

  predicate Enabled(s: State, step: Step) {
    match step
    case Take(_) => s.phase.Selecting? && s.streamEnabled
    case Send => s.phase.InFlight() && (RequiresDelivery(s.phase.event) ==> s.closed || !Full(s))
    case Receive => !s.closed && s.received < |s.sent|
    case Close => !s.closed
    case Stop => s.phase.Selecting?
  }

  /** A step that is not enabled is a wait: nothing changes. */
  function Next(s: State, step: Step): State {
    if !Enabled(s, step) then s
    else
      match step
      case Take(event) => TakeEvent(s, event)
      case Send => SendOne(s)
      case Receive => s.(received := s.received + 1)
      case Close => s.(closed := true)
      case Stop => s.(phase := Stopped)
  }

  function TakeEvent(s: State, event: Event): State {
    var s := s.(taken := s.taken + [event]);
    if event.ServerRequest? && event.request.ChatgptAuthTokensRefresh? then
      s.(rejections := s.rejections + [Rejection(event.request.id, REFRESH_UNSUPPORTED)])
    else
      s.(phase := if s.skipped > 0 then Flushing(event) else Delivering(event))
  }

  /** One send attempt: a closed channel wins over a full one. */
  function SendOne(s: State): State
    requires s.phase.InFlight()
  {
    if s.closed then
      s.(streamEnabled := false, phase := Selecting)
    else if Full(s) then
      Drop(s)
    else if s.phase.Flushing? then
      s.(sent := s.sent + [Marker(s.skipped)], skipped := 0, phase := Delivering(s.phase.event))
    else
      s.(sent := s.sent + [Forwarded(LastOffered(s), s.phase.event)], phase := Selecting)
  }

  function Drop(s: State): State
    requires s.phase.InFlight()
  {
    var event := s.phase.event;
    s.(skipped := SaturatingIncrement(s.skipped),
       overflow := if s.skipped < USIZE_MAX then s.overflow else s.overflow + 1,
       dropped := s.dropped + [Forwarded(LastOffered(s), event)],
       rejections := if event.ServerRequest?
                     then s.rejections + [Rejection(event.request.id, OVERLOADED)]
                     else s.rejections,
       phase := Selecting)
  }

  function LastOffered(s: State): nat {
    var n := |Offered(s.taken)|;
    if n == 0 then 0 else n - 1
  }

  function RunFrom(s: State, steps: seq<Step>): State {
    if steps == [] then s
    else Next(RunFrom(s, steps[..|steps| - 1]), steps[|steps| - 1])
  }

  /** The state after any interleaving of worker and consumer steps. */
  function Run(channelCapacity: nat, steps: seq<Step>): State {
    RunFrom(Init(channelCapacity), steps)
  }

  // ----- What a stream accounts for -----

  /** The transcript and completion notifications, which a consumer is promised. */
  predicate MustDeliver(event: Event) {
    && event.ServerNotification?
    && var n := event.notification;
       || n.TurnCompleted? || n.ItemCompleted? || n.AgentMessageDelta? || n.PlanDelta?
       || n.ReasoningSummaryTextDelta? || n.ReasoningTextDelta?
  }

  predicate IsTokenRefresh(event: Event) {
    match event
    case ServerRequest(ChatgptAuthTokensRefresh(_)) => true
    case _ => false
  }

  /** The events handed to `forward_in_process_event`. */
  function Offered(taken: seq<Event>): seq<Event> {
    Filter((e: Event) => !IsTokenRefresh(e), taken)
  }


  /** Each forwarded event stands for itself, each marker for the events it reports. */
  function Accounted(entries: seq<Entry>): nat {
    if entries == [] then 0
    else
      Accounted(entries[..|entries| - 1]) +
      match entries[|entries| - 1] { case Forwarded(_, _) => 1 case Marker(n) => n }
  }

  function Indices(entries: seq<Entry>): seq<nat> {
    if entries == [] then []
    else
      var rest := Indices(entries[..|entries| - 1]);
      match entries[|entries| - 1] { case Forwarded(i, _) => rest + [i] case Marker(_) => rest }
  }

  function Events(entries: seq<Entry>): seq<Event> {
    if entries == [] then []
    else
      var rest := Events(entries[..|entries| - 1]);
      match entries[|entries| - 1] { case Forwarded(_, e) => rest + [e] case Marker(_) => rest }
  }

  function RequestRejections(entries: seq<Entry>, code: int): seq<Rejection> {
    if entries == [] then []
    else
      var rest := RequestRejections(entries[..|entries| - 1], code);
      match entries[|entries| - 1]
      case Forwarded(_, ServerRequest(r)) => rest + [Rejection(r.id, code)]
      case _ => rest
  }

  function RefreshRejections(taken: seq<Event>): seq<Rejection> {
    if taken == [] then []
    else
      var rest := RefreshRejections(taken[..|taken| - 1]);
      var event := taken[|taken| - 1];
      if IsTokenRefresh(event) then rest + [Rejection(event.request.id, -32000)] else rest
  }

  function WithCode(rejections: seq<Rejection>, code: int): seq<Rejection> {
    Filter((r: Rejection) => r.code == code, rejections)
  }

  function Lossless(events: seq<Event>): seq<Event> {
    Filter(MustDeliver, events)
  }

  function Abandoned(s: State): nat { if s.streamEnabled then 0 else 1 }

  /** How many offered events have met their fate: all but the one being sent and the
      one given up when the channel was found closed. */
  function Settled(s: State): int {
    |Offered(s.taken)| - (if s.phase.InFlight() then 1 else 0) - Abandoned(s)
  }

  ghost predicate From(entries: seq<Entry>, offered: seq<Event>) {
    forall k :: 0 <= k < |entries| && entries[k].Forwarded? ==>
      entries[k].index < |offered| && offered[entries[k].index] == entries[k].event
  }

  predicate GapsExplained(entries: seq<Entry>) {
    entries == [] ||
    (var prefix := entries[..|entries| - 1];
     GapsExplained(prefix) &&
     (entries[|entries| - 1].Forwarded? ==> entries[|entries| - 1].index == Accounted(prefix)))
  }

  ghost predicate Inv(s: State) {
    && s.capacity >= 1
    && s.received <= |s.sent| <= s.received + s.capacity
    && (!s.streamEnabled ==> s.closed && !s.phase.InFlight())
    && (s.phase.InFlight() ==>
          var offered := Offered(s.taken);
          offered != [] && offered[|offered| - 1] == s.phase.event)
    && (s.phase.Flushing? ==> s.skipped > 0)
    && (s.phase.Delivering? ==> s.skipped == 0)
    && Settled(s) >= 0
    && AccountsBalance(s.sent, s.skipped, s.overflow, Settled(s), |Offered(s.taken)|)
    && FatesDisjoint(s.sent, s.dropped, Offered(s.taken), Settled(s))
    && RejectionsExact(s.rejections, s.dropped, s.taken)
    && Lossless(Events(s.sent)) == Lossless(Offered(s.taken)[..Settled(s)])
  }

  ghost predicate AccountsBalance(sent: seq<Entry>, skipped: nat, overflow: nat, settled: int, offered: nat) {
    && settled == Accounted(sent) + skipped + overflow
    && skipped <= USIZE_MAX
    && (overflow > 0 ==> offered > USIZE_MAX)
    && (overflow == 0 ==> GapsExplained(sent))
  }

  ghost predicate FatesDisjoint(sent: seq<Entry>, dropped: seq<Entry>, offered: seq<Event>, settled: int) {
    && From(sent, offered) && From(dropped, offered)
    && (forall k :: 0 <= k < |dropped| ==> dropped[k].Forwarded? && !MustDeliver(dropped[k].event))
    && Partition(Indices(sent), Indices(dropped), settled)
  }

  /** Two increasing lists that share out the numbers below n. */
  ghost predicate Partition(a: seq<nat>, b: seq<nat>, n: int) {
    && StrictlyIncreasing(a) && StrictlyIncreasing(b)
    && (forall i :: i in a ==> i < n)
    && (forall i :: i in b ==> i < n)
    && (forall i :: 0 <= i < n ==> (i in a <==> i !in b))
  }

  ghost predicate RejectionsExact(rejections: seq<Rejection>, dropped: seq<Entry>, taken: seq<Event>) {
    && (forall k :: 0 <= k < |rejections| ==> rejections[k].code in {-32001, -32000})
    && WithCode(rejections, -32001) == RequestRejections(dropped, -32001)
    && WithCode(rejections, -32000) == RefreshRejections(taken)
  }

  // ----- Every step keeps the invariant -----

  lemma AppendEntry(entries: seq<Entry>, e: Entry)
    ensures Accounted(entries + [e]) == Accounted(entries) + (if e.Forwarded? then 1 else e.skipped)
    ensures Indices(entries + [e]) == Indices(entries) + (if e.Forwarded? then [e.index] else [])
    ensures Events(entries + [e]) == Events(entries) + (if e.Forwarded? then [e.event] else [])
    ensures forall code :: RequestRejections(entries + [e], code) == RequestRejections(entries, code) +
              (if e.Forwarded? && e.event.ServerRequest? then [Rejection(e.event.request.id, code)] else [])
    ensures GapsExplained(entries + [e]) <==>
              GapsExplained(entries) && (e.Forwarded? ==> e.index == Accounted(entries))
  {
    assert (entries + [e])[..|entries|] == entries;
  }

  lemma MoreOffered(entries: seq<Entry>, offered: seq<Event>, event: Event)
    requires From(entries, offered)
    ensures From(entries, offered + [event])
  {
  }

  lemma RejectionAdded(rejections: seq<Rejection>, r: Rejection)
    ensures forall code ::
              WithCode(rejections + [r], code) == WithCode(rejections, code) + if r.code == code then [r] else []
  {
    forall code
      ensures WithCode(rejections + [r], code) == WithCode(rejections, code) + if r.code == code then [r] else []
    {
      FilterAppend((r: Rejection) => r.code == code, rejections, r);
    }
  }

  lemma TakeKeepsInv(s: State, event: Event)
    requires Inv(s) && Enabled(s, Take(event))
    ensures Inv(Next(s, Take(event)))
  {
    var offered := Offered(s.taken);
    FilterAppend((e: Event) => !IsTokenRefresh(e), s.taken, event);
    assert (s.taken + [event])[..|s.taken|] == s.taken;
    if IsTokenRefresh(event) {
      RejectionAdded(s.rejections, Rejection(event.request.id, -32000));
      assert offered + [] == offered;
    } else {
      MoreOffered(s.sent, offered, event);
      MoreOffered(s.dropped, offered, event);
      assert (offered + [event])[..Settled(s)] == offered[..Settled(s)];
    }
  }

  lemma SettleLast(offered: seq<Event>, event: Event)
    requires offered != [] && offered[|offered| - 1] == event
    ensures Lossless(offered) == Lossless(offered[..|offered| - 1]) + (if MustDeliver(event) then [event] else [])
    ensures offered[..|offered|] == offered
  {
  }

  lemma PartitionGrows(a: seq<nat>, b: seq<nat>, n: nat)
    requires Partition(a, b, n)
    ensures Partition(a + [n], b, n + 1)
  {
    IncreasingAppend(a, n);
  }

  lemma PartitionSwaps(a: seq<nat>, b: seq<nat>, n: int)
    requires Partition(a, b, n)
    ensures Partition(b, a, n)
  {
  }

  /** The last offered event meets its fate: it is queued ... */
  lemma Queued(sent: seq<Entry>, dropped: seq<Entry>, offered: seq<Event>, n: nat)
    requires |offered| == n + 1 && FatesDisjoint(sent, dropped, offered, n)
    ensures FatesDisjoint(sent + [Forwarded(n, offered[n])], dropped, offered, n + 1)
  {
    AppendEntry(sent, Forwarded(n, offered[n]));
    PartitionGrows(Indices(sent), Indices(dropped), n);
  }

  /** ... or dropped. */
  lemma Dropped(sent: seq<Entry>, dropped: seq<Entry>, offered: seq<Event>, n: nat)
    requires |offered| == n + 1 && FatesDisjoint(sent, dropped, offered, n) && !MustDeliver(offered[n])
    ensures FatesDisjoint(sent, dropped + [Forwarded(n, offered[n])], offered, n + 1)
  {
    AppendEntry(dropped, Forwarded(n, offered[n]));
    PartitionSwaps(Indices(sent), Indices(dropped), n);
    PartitionGrows(Indices(dropped), Indices(sent), n);
    PartitionSwaps(Indices(dropped) + [n], Indices(sent), n + 1);
  }

  lemma DropIsRejected(rejections: seq<Rejection>, dropped: seq<Entry>, taken: seq<Event>, d: Entry)
    requires RejectionsExact(rejections, dropped, taken) && d.Forwarded?
    ensures RejectionsExact(
              if d.event.ServerRequest? then rejections + [Rejection(d.event.request.id, -32001)] else rejections,
              dropped + [d], taken)
  {
    AppendEntry(dropped, d);
    if d.event.ServerRequest? { RejectionAdded(rejections, Rejection(d.event.request.id, -32001)); }
  }

  lemma DropKeepsInv(s: State)
    requires Inv(s) && s.phase.InFlight() && !s.closed && !MustDeliver(s.phase.event)
    ensures Inv(Drop(s))
  {
    var offered, s' := Offered(s.taken), Drop(s);
    var n := |offered| - 1;
    DropKeepsFates(s, offered, n);
    assert s.streamEnabled && Settled(s') == n + 1 && offered[..n + 1] == offered;
    assert AccountsBalance(s'.sent, s'.skipped, s'.overflow, n + 1, n + 1) by {
      DropIsAccounted(s.sent, s.skipped, s.overflow, n);
    }
    assert Lossless(Events(s'.sent)) == Lossless(offered) by { SettleLast(offered, s.phase.event); }
  }

  lemma DropKeepsFates(s: State, offered: seq<Event>, n: nat)
    requires s.phase.InFlight() && !MustDeliver(s.phase.event)
    requires offered == Offered(s.taken) && |offered| == n + 1 && offered[n] == s.phase.event
    requires FatesDisjoint(s.sent, s.dropped, offered, n)
    requires RejectionsExact(s.rejections, s.dropped, s.taken)
    ensures FatesDisjoint(s.sent, Drop(s).dropped, offered, n + 1)
    ensures RejectionsExact(Drop(s).rejections, Drop(s).dropped, s.taken)
  {
    Dropped(s.sent, s.dropped, offered, n);
    DropIsRejected(s.rejections, s.dropped, s.taken, Forwarded(n, s.phase.event));
  }

  lemma DropIsAccounted(sent: seq<Entry>, skipped: nat, overflow: nat, n: nat)
    requires AccountsBalance(sent, skipped, overflow, n, n + 1)
    ensures AccountsBalance(sent, SaturatingIncrement(skipped),
                            if skipped < USIZE_MAX then overflow else overflow + 1, n + 1, n + 1)
  {
  }

  lemma DeliveryIsAccounted(sent: seq<Entry>, overflow: nat, n: nat, offered: nat, event: Event)
    requires AccountsBalance(sent, 0, overflow, n, offered)
    ensures AccountsBalance(sent + [Forwarded(n, event)], 0, overflow, n + 1, offered)
  {
    AppendEntry(sent, Forwarded(n, event));
  }

  lemma DeliveryIsInOrder(sent: seq<Entry>, n: nat, offered: seq<Event>)
    requires |offered| == n + 1 && Lossless(Events(sent)) == Lossless(offered[..n])
    ensures Lossless(Events(sent + [Forwarded(n, offered[n])])) == Lossless(offered)
  {
    AppendEntry(sent, Forwarded(n, offered[n]));
    SettleLast(offered, offered[n]);
    FilterAppend(MustDeliver, Events(sent), offered[n]);
  }

  lemma FlushKeepsInv(s: State)
    requires Inv(s) && Enabled(s, Send) && !s.closed && !Full(s) && s.phase.Flushing?
    ensures Inv(Next(s, Send))
  {
    AppendEntry(s.sent, Marker(s.skipped));
  }

  lemma DeliverKeepsInv(s: State)
    requires Inv(s) && Enabled(s, Send) && !s.closed && !Full(s) && s.phase.Delivering?
    ensures Inv(Next(s, Send))
  {
    var offered := Offered(s.taken);
    var n := |offered| - 1;
    Queued(s.sent, s.dropped, offered, n);
    DeliveryIsAccounted(s.sent, s.overflow, n, |offered|, s.phase.event);
    DeliveryIsInOrder(s.sent, n, offered);
    var s' := Next(s, Send);
    assert s' == s.(sent := s.sent + [Forwarded(n, offered[n])], phase := Selecting);
    assert Settled(s') == n + 1 && offered[..n + 1] == offered;
  }

  lemma NextKeepsInv(s: State, step: Step)
    requires Inv(s)
    ensures Inv(Next(s, step))
  {
    if Enabled(s, step) {
      match step
      case Take(event) => TakeKeepsInv(s, event);
      case Send =>
        if !s.closed {
          if Full(s) { DropKeepsInv(s); } else if s.phase.Flushing? { FlushKeepsInv(s); } else { DeliverKeepsInv(s); }
        }
      case _ =>
    }
  }

  lemma {:induction false} RunKeepsInv(s: State, steps: seq<Step>)
    requires Inv(s)
    ensures Inv(RunFrom(s, steps))
  {
    if steps != [] {
      var n := |steps| - 1;
      RunKeepsInv(s, steps[..n]);
      NextKeepsInv(RunFrom(s, steps[..n]), steps[n]);
    }
  }

  // ----- Guarantees of every run -----

  /** The events the markers of a stream report as dropped. */
  function ReportedDrops(entries: seq<Entry>): nat {
    if entries == [] then 0
    else ReportedDrops(entries[..|entries| - 1]) +
         match entries[|entries| - 1] { case Forwarded(_, _) => 0 case Marker(n) => n }
  }

  lemma {:induction false} AccountedSplits(entries: seq<Entry>)
    ensures Accounted(entries) == |Events(entries)| + ReportedDrops(entries)
    ensures |Events(entries)| == |Indices(entries)|
  {
    if entries != [] { AccountedSplits(entries[..|entries| - 1]); }
  }

  lemma {:induction false} GapsExplainedAt(entries: seq<Entry>, k: nat)
    requires GapsExplained(entries) && k < |entries| && entries[k].Forwarded?
    ensures entries[k].index == Accounted(entries[..k])
  {
    if k < |entries| - 1 {
      GapsExplainedAt(entries[..|entries| - 1], k);
      assert entries[..|entries| - 1][..k] == entries[..k];
    }
  }

  /** What was offered is what was delivered, reported or is still counted; `overflow` is
      the shortfall of a saturated counter. Without it, the position of every delivered
      event is the number of events delivered before it plus the drops reported before it. */
  ghost predicate PositionsExplained(s: State) {
    var offered := Offered(s.taken);
    && |offered| == |Events(s.sent)| + ReportedDrops(s.sent) + s.skipped + s.overflow
                    + (if s.phase.InFlight() then 1 else 0) + Abandoned(s)
    && (|offered| <= 0xFFFF_FFFF_FFFF_FFFF ==> s.overflow == 0)
    && (s.overflow == 0 ==>
          forall k :: 0 <= k < |s.sent| && s.sent[k].Forwarded? ==>
            && s.sent[k].index == |Events(s.sent[..k])| + ReportedDrops(s.sent[..k])
            && s.sent[k].index < |offered|
            && offered[s.sent[k].index] == s.sent[k].event)
  }

  lemma {:induction false} GapReconstruction(channelCapacity: nat, steps: seq<Step>)
    ensures PositionsExplained(Run(channelCapacity, steps))
  {
    RunKeepsInv(Init(channelCapacity), steps);
    InvExplainsPositions(Run(channelCapacity, steps));
  }

  lemma InvExplainsPositions(s: State)
    requires Inv(s)
    ensures PositionsExplained(s)
  {
    AccountedSplits(s.sent);
    if s.overflow == 0 {
      forall k | 0 <= k < |s.sent| && s.sent[k].Forwarded?
        ensures s.sent[k].index == |Events(s.sent[..k])| + ReportedDrops(s.sent[..k])
      {
        GapsExplainedAt(s.sent, k);
        AccountedSplits(s.sent[..k]);
      }
    }
  }

  function WireOf(entries: seq<Entry>): (wire: seq<Event>)
    ensures |wire| == |entries|
    ensures forall k :: 0 <= k < |entries| ==> wire[k] == Wire(entries[k])
  {
    seq(|entries|, k requires 0 <= k < |entries| => Wire(entries[k]))
  }

  /** The position a consumer computes from nothing but the events it has read. */
  function NextPosition(wire: seq<Event>): nat {
    if wire == [] then 0
    else NextPosition(wire[..|wire| - 1]) + match wire[|wire| - 1] { case Lagged(n) => n case _ => 1 }
  }

  lemma {:induction false} NextPositionIsAccounted(entries: seq<Entry>)
    requires forall k :: 0 <= k < |entries| && entries[k].Forwarded? ==> !entries[k].event.Lagged?
    ensures NextPosition(WireOf(entries)) == Accounted(entries)
  {
    if entries != [] {
      var n := |entries| - 1;
      NextPositionIsAccounted(entries[..n]);
      assert WireOf(entries)[..n] == WireOf(entries[..n]);
    }
  }

  /** If the runtime itself never reports lag, the stream alone tells the consumer the
      true position of each event it reads. */
  ghost predicate ConsumerKnowsPositions(s: State) {
    var offered := Offered(s.taken);
    |offered| <= 0xFFFF_FFFF_FFFF_FFFF && (forall i :: 0 <= i < |offered| ==> !offered[i].Lagged?) ==>
      forall k :: 0 <= k < |s.sent| && s.sent[k].Forwarded? ==>
        var position := NextPosition(WireOf(s.sent[..k]));
        position < |offered| && offered[position] == Wire(s.sent[k])
  }

  lemma {:induction false} ConsumerReconstructs(channelCapacity: nat, steps: seq<Step>)
    ensures ConsumerKnowsPositions(Run(channelCapacity, steps))
  {
    RunKeepsInv(Init(channelCapacity), steps);
    InvReconstructs(Run(channelCapacity, steps));
  }

  lemma InvReconstructs(s: State)
    requires Inv(s)
    ensures ConsumerKnowsPositions(s)
  {
    var offered := Offered(s.taken);
    if |offered| <= 0xFFFF_FFFF_FFFF_FFFF && forall i :: 0 <= i < |offered| ==> !offered[i].Lagged? {
      forall k | 0 <= k < |s.sent| && s.sent[k].Forwarded?
        ensures var position := NextPosition(WireOf(s.sent[..k]));
                position < |offered| && offered[position] == Wire(s.sent[k])
      {
        GapsExplainedAt(s.sent, k);
        NextPositionIsAccounted(s.sent[..k]);
      }
    }
  }

  lemma {:induction false} EventAtIndex(entries: seq<Entry>, offered: seq<Event>, j: nat)
    requires From(entries, offered) && j < |Indices(entries)|
    ensures |Events(entries)| == |Indices(entries)|
    ensures Indices(entries)[j] < |offered| && Events(entries)[j] == offered[Indices(entries)[j]]
  {
    var n := |entries| - 1;
    AccountedSplits(entries);
    AccountedSplits(entries[..n]);
    if j < |Indices(entries[..n])| {
      EventAtIndex(entries[..n], offered, j);
    }
  }

  /** While the channel stays open no lossless event is lost or reordered, and what is
      delivered is always a subsequence of what was offered, with `Indices` as witness. */
  ghost predicate DeliveredInOrder(s: State) {
    var offered := Offered(s.taken);
    && (!s.closed ==>
          Lossless(offered) == Lossless(Events(s.sent)) +
            if s.phase.InFlight() && MustDeliver(s.phase.event) then [s.phase.event] else [])
    && |Indices(s.sent)| == |Events(s.sent)|
    && StrictlyIncreasing(Indices(s.sent))
    && forall j :: 0 <= j < |Indices(s.sent)| ==>
         Indices(s.sent)[j] < |offered| && Events(s.sent)[j] == offered[Indices(s.sent)[j]]
  }

  lemma {:induction false} LosslessOrder(channelCapacity: nat, steps: seq<Step>)
    ensures DeliveredInOrder(Run(channelCapacity, steps))
  {
    RunKeepsInv(Init(channelCapacity), steps);
    InvDeliversInOrder(Run(channelCapacity, steps));
  }

  lemma InvDeliversInOrder(s: State)
    requires Inv(s)
    ensures DeliveredInOrder(s)
  {
    var offered := Offered(s.taken);
    if s.phase.InFlight() { SettleLast(offered, s.phase.event); }
    assert offered[..|offered|] == offered;
    AccountedSplits(s.sent);
    forall j | 0 <= j < |Indices(s.sent)|
      ensures Indices(s.sent)[j] < |offered| && Events(s.sent)[j] == offered[Indices(s.sent)[j]]
    {
      EventAtIndex(s.sent, offered, j);
    }
  }

  /** Each offered event has exactly one fate: queued, dropped, still being sent, or (at
      most one, and only once the consumer has closed) abandoned. The overload rejections
      are exactly the dropped server requests in order, the refresh rejections exactly
      the token refreshes taken, and there are no others. */
  ghost predicate SettledOnce(s: State) {
    var n := |Offered(s.taken)|;
    && StrictlyIncreasing(Indices(s.sent)) && StrictlyIncreasing(Indices(s.dropped))
    && (forall i :: 0 <= i < n ==>
          var queued, failed := i in Indices(s.sent), i in Indices(s.dropped);
          var open := i == n - 1 && (s.phase.InFlight() || !s.streamEnabled);
          && (queued || failed || open)
          && !(queued && failed) && !(queued && open) && !(failed && open))
    && (!s.streamEnabled ==> s.closed && !s.phase.InFlight())
    && WithCode(s.rejections, -32001) == RequestRejections(s.dropped, -32001)
    && WithCode(s.rejections, -32000) == RefreshRejections(s.taken)
    && (forall r :: r in s.rejections ==> r.code in {-32001, -32000})
    && From(s.sent, Offered(s.taken)) && From(s.dropped, Offered(s.taken))
  }

  lemma {:induction false} RequestsSettledOnce(channelCapacity: nat, steps: seq<Step>)
    ensures SettledOnce(Run(channelCapacity, steps))
  {
    RunKeepsInv(Init(channelCapacity), steps);
    InvSettlesOnce(Run(channelCapacity, steps));
  }

  lemma InvSettlesOnce(s: State)
    requires Inv(s)
    ensures SettledOnce(s)
  {
  }

  /** A best-effort event is being sent while the channel is open and holds as many events
      as it can. */
  predicate Overload(s: State, step: Step) {
    && step.Send? && s.phase.InFlight() && !MustDeliver(s.phase.event)
    && !s.closed && |s.sent| - s.received == s.capacity
  }

  /** The events that met an overload, in order, each with its position in the input. */
  function Overloads(channelCapacity: nat, steps: seq<Step>): seq<Entry> {
    if steps == [] then []
    else
      var n := |steps| - 1;
      var s := Run(channelCapacity, steps[..n]);
      Overloads(channelCapacity, steps[..n]) +
      if Overload(s, steps[n]) then [Forwarded(LastOffered(s), s.phase.event)] else []
  }

  lemma DropIsOverload(s: State, step: Step)
    requires Inv(s)
    ensures Next(s, step).dropped ==
            s.dropped + if Overload(s, step) then [Forwarded(LastOffered(s), s.phase.event)] else []
  {
    assert s.dropped + [] == s.dropped;
  }

  lemma {:induction false} DroppedAreOverloads(channelCapacity: nat, steps: seq<Step>)
    ensures Run(channelCapacity, steps).dropped == Overloads(channelCapacity, steps)
  {
    if steps != [] {
      var n := |steps| - 1;
      DroppedAreOverloads(channelCapacity, steps[..n]);
      RunKeepsInv(Init(channelCapacity), steps[..n]);
      DropIsOverload(Run(channelCapacity, steps[..n]), steps[n]);
    }
  }

  lemma {:induction false} CapacityIsFixed(channelCapacity: nat, steps: seq<Step>)
    ensures Run(channelCapacity, steps).capacity == if channelCapacity == 0 then 1 else channelCapacity
  {
    if steps != [] { CapacityIsFixed(channelCapacity, steps[..|steps| - 1]); }
  }

  /** In every run the events dropped are exactly those that met an overload, so a server
      request is rejected with the overload code only then, and then always. */
  lemma DropsAreOverloads(channelCapacity: nat, steps: seq<Step>)
    ensures var s := Run(channelCapacity, steps);
            && s.capacity == (if channelCapacity == 0 then 1 else channelCapacity)
            && |s.sent| - s.received <= s.capacity
            && s.dropped == Overloads(channelCapacity, steps)
            && WithCode(s.rejections, -32001) == RequestRejections(Overloads(channelCapacity, steps), -32001)
  {
    CapacityIsFixed(channelCapacity, steps);
    RunKeepsInv(Init(channelCapacity), steps);
    RequestsSettledOnce(channelCapacity, steps);
    DroppedAreOverloads(channelCapacity, steps);
  }

  /** A transcript or completion notification is never dropped; while the channel is open and
      full it waits. Any other event is sent or dropped at once. */
  lemma {:induction false} OnlyTranscriptWaits(channelCapacity: nat, steps: seq<Step>)
    ensures var s := Run(channelCapacity, steps);
            && (forall d :: d in s.dropped ==> d.Forwarded? && !MustDeliver(d.event))
            && (s.phase.InFlight() ==>
                  if MustDeliver(s.phase.event) && !s.closed && |s.sent| - s.received == s.capacity
                  then Next(s, Send) == s
                  else Next(s, Send) != s && (!MustDeliver(s.phase.event) ==> !Next(s, Send).phase.Flushing?))
  {
    RunKeepsInv(Init(channelCapacity), steps);
  }

  /** Every step that is not a wait does its work: the worker takes what the runtime offers
      while its stream is enabled, and the consumer reads what is queued ... */
  lemma {:induction false} StepsDoTheirWork(channelCapacity: nat, steps: seq<Step>, event: Event)
    ensures var s := Run(channelCapacity, steps);
            && (s.phase.Selecting? && s.streamEnabled ==>
                  var s' := Next(s, Take(event));
                  && s'.taken == s.taken + [event]
                  && if IsTokenRefresh(event) then s'.phase.Selecting?
                     else s'.phase.InFlight() && s'.phase.event == event)
            && (!s.closed && s.received < |s.sent| ==> Next(s, Receive) == s.(received := s.received + 1))
            && Next(s, Close) == s.(closed := true)
            && (s.phase.Selecting? ==> Next(s, Stop).phase.Stopped?)
  {
  }

  /** ... and a send finds the channel closed, or queues the owed marker, or the event. */
  lemma {:induction false} SendsDoTheirWork(channelCapacity: nat, steps: seq<Step>)
    ensures var s := Run(channelCapacity, steps);
            var s' := Next(s, Send);
            && (s.phase.InFlight() && s.closed ==> s' == s.(streamEnabled := false, phase := Selecting))
            && (s.phase.InFlight() && !s.closed && |s.sent| - s.received < s.capacity ==>
                  if s.skipped > 0
                  then s' == s.(sent := s.sent + [Marker(s.skipped)], skipped := 0, phase := Delivering(s.phase.event))
                  else && s' == s.(sent := s'.sent, phase := Selecting)
                       && |s'.sent| == |s.sent| + 1 && s'.sent[..|s.sent|] == s.sent
                       && Wire(s'.sent[|s.sent|]) == s.phase.event)
  {
    RunKeepsInv(Init(channelCapacity), steps);
    FlightMatches(Run(channelCapacity, steps));
  }

  lemma FlightMatches(s: State)
    requires Inv(s)
    ensures s.phase.Flushing? ==> s.skipped > 0
    ensures s.phase.Delivering? ==> s.skipped == 0
  {
  }

  lemma ClosedStep(s: State, step: Step)
    requires s.closed
    ensures var s' := Next(s, step);
            && s'.closed && s'.sent == s.sent
            && |Offered(s'.taken)| + CanStillTake(s') <= |Offered(s.taken)| + CanStillTake(s)
  {
    if step.Take? { FilterAppend((e: Event) => !IsTokenRefresh(e), s.taken, step.event); }
  }

  /** Once the receiver is dropped nothing more is queued, at most one more event is taken
      besides token refreshes, and the worker is never left waiting on a send. */
  lemma {:induction false} ShutdownUnblocks(s: State, steps: seq<Step>)
    requires s.closed
    ensures var s' := RunFrom(s, steps);
            && s'.closed && s'.sent == s.sent
            && (s'.phase.InFlight() ==> Enabled(s', Send) && Next(s', Send).phase == Selecting)
            && |Offered(s'.taken)| + CanStillTake(s') <= |Offered(s.taken)| + CanStillTake(s)
  {
    if steps != [] {
      var n := |steps| - 1;
      ShutdownUnblocks(s, steps[..n]);
      ClosedStep(RunFrom(s, steps[..n]), steps[n]);
    }
  }

  function CanStillTake(s: State): (n: nat)
    ensures n <= 1
  {
    if s.streamEnabled && s.phase.Selecting? then 1 else 0
  }

  // ----- The worker as it runs -----

  lemma RunAppend(channelCapacity: nat, steps: seq<Step>, step: Step)
    ensures Run(channelCapacity, steps + [step]) == Next(Run(channelCapacity, steps), step)
  {
    assert (steps + [step])[..|steps|] == steps;
  }

  lemma WireAppend(entries: seq<Entry>, from: nat, entry: Entry)
    requires from <= |entries|
    ensures WireOf((entries + [entry])[from..]) == WireOf(entries[from..]) + [Wire(entry)]
  {
    assert (entries + [entry])[from..] == entries[from..] + [entry];
  }

  /** The facade worker and its bounded channel. `history` is the run so far and `model`
      the state that run reaches; the other fields are what the program holds. */
  class InProcessWorker {
    const channelCapacity: nat
    var queue: seq<Event>
    var closed: bool
    var skippedEvents: nat
    var phase: Phase
    var eventStreamEnabled: bool
    var rejections: seq<Rejection>
    ghost var history: seq<Step>
    ghost var model: State

    ghost predicate Valid()
      reads this
    {
      && model == Run(channelCapacity, history)
      && Represents(model)
    }

    ghost predicate Represents(s: State)
      reads this
    {
      && s.received <= |s.sent|
      && s.capacity == (if channelCapacity < 1 then 1 else channelCapacity)
      && queue == WireOf(s.sent[s.received..])
      && closed == s.closed
      && skippedEvents == s.skipped
      && phase == s.phase
      && eventStreamEnabled == s.streamEnabled
      && rejections == s.rejections
    }

    constructor (channelCapacity: nat)
      ensures Valid() && history == [] && this.channelCapacity == channelCapacity
    {
      this.channelCapacity := channelCapacity;
      queue := [];
      closed := false;
      skippedEvents := 0;
      phase := Selecting;
      eventStreamEnabled := true;
      rejections := [];
      history := [];
      model := Init(channelCapacity);
    }

    /** The worker takes a runtime event. */
    method TakeEvent(event: Event)
      requires Valid() && Enabled(model, Take(event))
      modifies this
      ensures Valid() && history == old(history) + [Take(event)]
    {
      if event.ServerRequest? && event.request.ChatgptAuthTokensRefresh? {
        rejections := rejections + [Rejection(event.request.id, REFRESH_UNSUPPORTED)];
      } else if skippedEvents > 0 {
        phase := Flushing(event);
      } else {
        phase := Delivering(event);
      }
      Record(Take(event));
    }

    /** The worker resumes `forward_in_process_event` up to its next channel operation. */
    method Forward()
      requires Valid() && Enabled(model, Send)
      modifies this
      ensures Valid() && history == old(history) + [Send]
    {
      var event := phase.event;
      ghost var entry := if phase.Flushing? then Marker(skippedEvents) else Forwarded(LastOffered(model), event);
      if closed {
        eventStreamEnabled := false;
        phase := Selecting;
      } else if |queue| < (if channelCapacity < 1 then 1 else channelCapacity) {
        if phase.Flushing? {
          queue := queue + [Lagged(skippedEvents)];
          skippedEvents := 0;
          phase := Delivering(event);
        } else {
          queue := queue + [event];
          phase := Selecting;
        }
        WireAppend(model.sent, model.received, entry);
      } else {
        skippedEvents := SaturatingIncrement(skippedEvents);
        if event.ServerRequest? {
          rejections := rejections + [Rejection(event.request.id, OVERLOADED)];
        }
        phase := Selecting;
      }
      Record(Send);
    }

    /** The consumer reads the oldest entry of the channel. */
    method Recv() returns (event: Event)
      requires Valid() && Enabled(model, Receive)
      modifies this
      ensures Valid() && history == old(history) + [Receive]
      ensures event == Wire(old(model).sent[old(model).received])
    {
      event := queue[0];
      queue := queue[1..];
      Record(Receive);
    }

    /** The consumer drops its receiver. */
    method CloseReceiver()
      requires Valid() && Enabled(model, Close)
      modifies this
      ensures Valid() && history == old(history) + [Close]
    {
      closed := true;
      Record(Close);
    }

    /** The worker leaves its loop. */
    method StopWorker()
      requires Valid() && Enabled(model, Stop)
      modifies this
      ensures Valid() && history == old(history) + [Stop]
    {
      phase := Stopped;
      Record(Stop);
    }

    ghost method Record(step: Step)
      requires model == Run(channelCapacity, history)
      requires Represents(Next(model, step))
      modifies `history, `model
      ensures Valid() && history == old(history) + [step] && model == Next(old(model), step)
    {
      RunAppend(channelCapacity, history, step);
      model := Next(model, step);
      history := history + [step];
    }
  }
}
