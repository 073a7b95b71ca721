/** The review figures of a tool event, in terms of the history alone: they digest the
    command, file and MCP reviews of its item since the last completion of that item that
    passed every guard. */
module AnalyticsReviews {
  import opened Sequences
  import opened AnalyticsModel
  import opened AnalyticsHistory
  import opened AnalyticsTurns

  /** The reducer is keeping the turn. */
  ghost predicate TurnKept(h: History, t: TurnId) {
    Live(h, WindowStart(h, t), t)
  }

  lemma TurnsKeptAreHistory(h: History, t: TurnId)
    ensures t in Run(h).turns <==> TurnKept(h, t)
  {
    TurnsAreHistory(h, t);
    ViewDescribes(h, WindowStart(h, t), t);
  }

  /** The item a start or a completion is about, if it is a tool call. */
  function ItemOf(f: Fact): Option<Key> {
    if (f.ItemStarted? || f.ItemCompleted?) && IsTool(f.item.kind) then Some(Key(f.thread, f.turn, f.item.id)) else None
  }

  lemma KeyIsItem(f: Fact)
    ensures KeyOf(f) == ItemOf(f)
  {
  }

  /** When the item last started, unless it has completed since under a kept turn. */
  ghost function StartOf(h: History, key: Key): Option<nat> {
    if h == [] then None
    else
      var f := Latest(h);
      if ItemOf(f) != Some(key) then StartOf(Before(h), key)
      else if f.ItemStarted? then if f.at >= 0 then Some(f.at) else StartOf(Before(h), key)
      else if TurnKept(Before(h), f.turn) then None
      else StartOf(Before(h), key)
  }

  lemma {:induction false} ItemStartsAreHistory(h: History, key: Key)
    ensures Lookup(Run(h).itemStarts, key) == StartOf(h, key)
  {
    if h != [] {
      ItemStartsAreHistory(Before(h), key);
      KeyIsItem(Latest(h));
      if Latest(h).ItemCompleted? { TurnsKeptAreHistory(Before(h), Latest(h).turn); }
    }
  }

  /** The latest fact completes the item and passes every guard. */
  ghost predicate Completes(h: History, key: Key)
    requires h != []
  {
    var f := Latest(h);
    && f.ItemCompleted? && ItemOf(f) == Some(key) && f.at >= 0
    && TurnKept(Before(h), f.turn) && StartOf(Before(h), key).Some? && ThreadConnected(Before(h), f.thread)
  }

  lemma CompletesIsHistory(h: History, key: Key)
    requires h != []
    ensures Completes(h, key) <==> KeyOf(Latest(h)) == Some(key) && CompletionPasses(Run(Before(h)), Latest(h))
  {
    var f := Latest(h);
    KeyIsItem(f);
    if f.ItemCompleted? {
      TurnsKeptAreHistory(Before(h), f.turn);
      ItemStartsAreHistory(Before(h), key);
      ContextFailsOneWay(Before(h), f.thread);
    }
  }

  /** The latest fact concludes a review of the item: a user decides on its command, other
      than for network access, or on its file change, or a guardian on its command, patch or
      MCP call. */
  predicate Reviews(h: History, key: Key)
    requires h != []
  {
    match Latest(h)
    case ReviewDecided(r, _, _) =>
      (match Awaiting(Before(h), r)
       case Some(ApprovalRequested(_, thread, turn, a, _)) =>
         && key == Key(thread, turn, a.item)
         && ((a.CommandApproval? && !a.networkContext) || a.FileApproval?)
       case _ => false)
    case GuardianReviewed(thread, turn, target, action, status, from, at) =>
      && target.Some? && key == Key(thread, turn, target.value) && status.Some? && from >= 0 && at >= 0
      && (action.GuardCommand? || action.GuardExecve? || action.GuardPatch? || action.GuardMcp?)
    case _ => false
  }

  lemma ReviewsItsSubject(h: History, key: Key)
    requires h != []
    ensures Reviews(h, key) <==>
              ReviewConcluded(h).Some? && SummaryKey(ReviewConcluded(h).value.pending) == Some(key)
  {
    if Latest(h).ReviewDecided? { AwaitedAreRequests(Before(h), Latest(h).request); }
  }

  ghost function ReviewsOf(h: History, key: Key): seq<Review> {
    if h == [] then []
    else if Reviews(h, key) && ReviewConcluded(h).Some? then ReviewsOf(Before(h), key) + [ReviewConcluded(h).value]
    else if Completes(h, key) then []
    else ReviewsOf(Before(h), key)
  }

  /** How a review ended. A timed-out one counts as aborted. */
  function Ended(r: Review): Outcome {
    if r.reviewer.User? then
      if r.status == Approved && r.resolution == SessionApproval then UserApprovedForSession
      else if r.status == Approved then UserApproved
      else if r.status == Denied then UserDenied
      else UserAborted
    else
      if r.status == Approved then GuardianApproved
      else if r.status == Denied then GuardianDenied
      else GuardianAborted
  }

  /** What a list of reviews amounts to. */
  function Digest(reviews: seq<Review>): Summary {
    Summary(|reviews|,
            |Filter((r: Review) => r.reviewer.Guardian?, reviews)|,
            |Filter((r: Review) => r.reviewer.User?, reviews)|,
            if reviews == [] then None else Some(Ended(reviews[|reviews| - 1])),
            exists i :: 0 <= i < |reviews| && reviews[i].pending.permissions,
            exists i :: 0 <= i < |reviews| && reviews[i].pending.network)
  }

  lemma EndedIsOutcome(r: Review)
    ensures OutcomeOf(r) == Ended(r)
  {
  }

  lemma DigestAppend(reviews: seq<Review>, r: Review)
    ensures RecordReview(Digest(reviews), r) == Digest(reviews + [r])
  {
    EndedIsOutcome(r);
    FilterAppend((r: Review) => r.reviewer.Guardian?, reviews, r);
    FilterAppend((r: Review) => r.reviewer.User?, reviews, r);
    var more := reviews + [r];
    assert more[|reviews|] == r;
    assert forall i :: 0 <= i < |reviews| ==> more[i] == reviews[i];
    var d, e := RecordReview(Digest(reviews), r), Digest(more);
    assert d.permissions == e.permissions;
    assert d.network == e.network;
  }

  lemma {:induction false} DigestBalances(reviews: seq<Review>)
    ensures var d := Digest(reviews);
            d.reviews == d.guardian + d.user && (d.outcome.Some? <==> d.reviews > 0)
  {
    if reviews != [] { DigestBalances(reviews[..|reviews| - 1]); }
  }

  /** A summary is cached exactly for the items with reviews, and it is their digest. */
  lemma {:induction false} SummariesAreHistory(h: History, key: Key)
    ensures Lookup(Run(h).summaries, key) ==
            if ReviewsOf(h, key) == [] then None else Some(Digest(ReviewsOf(h, key)))
  {
    if h != [] {
      SummariesAreHistory(Before(h), key);
      ConcludedIsHistory(h);
      CompletesIsHistory(h, key);
      ReviewsItsSubject(h, key);
      if Reviews(h, key) { DigestAppend(ReviewsOf(Before(h), key), ReviewConcluded(h).value); }
    }
  }

  lemma {:induction false} SummariesBalance(h: History, key: Key)
    requires key in Run(h).summaries
    ensures var d := Run(h).summaries[key];
            d.reviews == d.guardian + d.user && d.reviews > 0 && d.outcome.Some?
  {
    SummariesAreHistory(h, key);
    DigestBalances(ReviewsOf(h, key));
  }

  /** A tool call that is over, or a web search or image generation in any state. */
  predicate Reportable(item: Item) {
    !item.inProgress || item.kind == WebSearch || item.kind == ImageGeneration
  }

  /** A tool event is emitted exactly for a completion that passes every guard, if its kind
      yields one, and its figures are the digest of the item's reviews. */
  lemma {:induction false} ToolEventFigures(h: History, key: Key)
    requires h != [] && ItemOf(Latest(h)) == Some(key) && Latest(h).ItemCompleted?
    ensures Emitted(h) ==
            if Completes(h, key) && Reportable(Latest(h).item)
            then [ToolItemEvent(key, Latest(h).item.kind, StartOf(Before(h), key).value, Latest(h).at,
                                Digest(ReviewsOf(Before(h), key)))]
            else []
  {
    CompletesIsHistory(h, key);
    ItemStartsAreHistory(Before(h), key);
    SummariesAreHistory(Before(h), key);
    assert Digest([]) == NO_REVIEWS;
  }

  /** A concluded review is reported exactly if its thread has a connection, whatever
      becomes of its item. */
  lemma {:induction false} ReviewEventExactly(h: History)
    requires h != [] && ReviewConcluded(h).Some?
    ensures Emitted(h) ==
            if ThreadConnected(Before(h), ReviewConcluded(h).value.pending.thread)
            then [ReviewEvent(ReviewConcluded(h).value)] else []
  {
    ConcludedIsHistory(h);
    ContextFailsOneWay(Before(h), ReviewConcluded(h).value.pending.thread);
  }

  /** An item completion that is not a tool call reports nothing. */
  lemma OtherItemsReportNothing(h: History)
    requires h != [] && Latest(h).ItemCompleted? && ItemOf(Latest(h)).None?
    ensures Emitted(h) == []
  {
  }

  // ----- Summaries in terms of the facts -----

  /** The fact that reviewed the item last, since the last completion that passed. */
  ghost function LastReview(h: History, key: Key): Option<Fact> {
    if h == [] then None
    else if Reviews(h, key) then Some(Latest(h))
    else if Completes(h, key) then None
    else LastReview(Before(h), key)
  }

  /** How many users, or guardians, have reviewed the item since then. */
  ghost function ReviewCount(h: History, key: Key, byUser: bool): nat {
    if h == [] then 0
    else if Reviews(h, key) then
      ReviewCount(Before(h), key, byUser) + if Latest(h).ReviewDecided? == byUser then 1 else 0
    else if Completes(h, key) then 0
    else ReviewCount(Before(h), key, byUser)
  }

  /** Whether any of them was about additional permissions, or network access. */
  ghost predicate EverAsked(h: History, key: Key, network: bool) {
    h != [] &&
    if Reviews(h, key) then EverAsked(Before(h), key, network) || Asks(h, network)
    else !Completes(h, key) && EverAsked(Before(h), key, network)
  }

  predicate Asks(h: History, network: bool)
    requires h != []
  {
    match Latest(h)
    case ReviewDecided(r, _, _) =>
      (match Awaiting(Before(h), r)
       case Some(ApprovalRequested(_, _, _, a, _)) => if network then AsksNetwork(a) else AsksPermissions(a)
       case _ => false)
    case GuardianReviewed(_, _, _, action, _, _, _) =>
      if network then GuardsNetwork(action) else GuardsPermissions(action)
    case _ => false
  }

  predicate ByUser(f: Option<Fact>) { f.Some? && f.value.ReviewDecided? }

  predicate ByGuardian(f: Option<Fact>, status: ReviewStatus) {
    f.Some? && f.value.GuardianReviewed? && f.value.status == Some(status)
  }

  /** The outcome is that of the last review: for a user the decision alone says which. */
  predicate OutcomeOfFact(outcome: Option<Outcome>, f: Option<Fact>) {
    && (outcome.None? <==> f.None?)
    && (outcome == Some(UserApproved) <==>
          ByUser(f) && (f.value.decision == Accept || f.value.decision == AcceptWithPolicy
                        || f.value.decision == ApplyNetworkPolicy(true) || f.value.decision == Grant(false, false)))
    && (outcome == Some(UserApprovedForSession) <==>
          ByUser(f) && (f.value.decision == AcceptForSession || f.value.decision == Grant(false, true)))
    && (outcome == Some(UserDenied) <==>
          ByUser(f) && (f.value.decision == Decline || f.value.decision == ApplyNetworkPolicy(false)
                        || (f.value.decision.Grant? && f.value.decision.empty)))
    && (outcome == Some(UserAborted) <==> ByUser(f) && (f.value.decision == Cancel || f.value.decision == Abort))
    && (outcome == Some(GuardianApproved) <==> ByGuardian(f, Approved))
    && (outcome == Some(GuardianDenied) <==> ByGuardian(f, Denied))
    && (outcome == Some(GuardianAborted) <==> ByGuardian(f, Aborted) || ByGuardian(f, TimedOut))
  }

  /** The figures say of the item what the facts since its last passing completion say. */
  ghost predicate FiguresOfFacts(s: Summary, h: History, key: Key) {
    && OutcomeOfFact(s.outcome, LastReview(h, key))
    && s.user == ReviewCount(h, key, true) && s.guardian == ReviewCount(h, key, false)
    && s.reviews == s.user + s.guardian
    && (s.permissions <==> EverAsked(h, key, false))
    && (s.network <==> EverAsked(h, key, true))
  }

  lemma EndedByFact(h: History)
    requires h != [] && ReviewConcluded(h).Some?
    ensures OutcomeOfFact(Some(Ended(ReviewConcluded(h).value)), Some(Latest(h)))
  {
  }

  lemma ConcludedAsks(h: History)
    requires h != [] && ReviewConcluded(h).Some?
    ensures var r := ReviewConcluded(h).value;
            && (r.reviewer.User? <==> Latest(h).ReviewDecided?)
            && r.pending.permissions == Asks(h, false) && r.pending.network == Asks(h, true)
  {
    if Latest(h).ReviewDecided? { AwaitedAreRequests(Before(h), Latest(h).request); }
  }

  lemma DigestGrows(reviews: seq<Review>, r: Review)
    ensures var d, e := Digest(reviews), Digest(reviews + [r]);
            && e.outcome == Some(Ended(r))
            && e.user == d.user + (if r.reviewer.User? then 1 else 0)
            && e.guardian == d.guardian + (if r.reviewer.Guardian? then 1 else 0)
            && e.reviews == d.reviews + 1
            && (e.permissions <==> d.permissions || r.pending.permissions)
            && (e.network <==> d.network || r.pending.network)
  {
    DigestAppend(reviews, r);
    EndedIsOutcome(r);
  }

  lemma {:induction false} DigestIsOfFacts(h: History, key: Key)
    ensures FiguresOfFacts(Digest(ReviewsOf(h, key)), h, key)
  {
    if h != [] {
      DigestIsOfFacts(Before(h), key);
      ReviewsItsSubject(h, key);
      if Reviews(h, key) { ReviewAddsFigures(h, key); }
    }
  }

  lemma ReviewAddsFigures(h: History, key: Key)
    requires h != [] && Reviews(h, key) && ReviewConcluded(h).Some?
    requires FiguresOfFacts(Digest(ReviewsOf(Before(h), key)), Before(h), key)
    ensures FiguresOfFacts(Digest(ReviewsOf(Before(h), key) + [ReviewConcluded(h).value]), h, key)
  {
    DigestGrows(ReviewsOf(Before(h), key), ReviewConcluded(h).value);
    EndedByFact(h);
    ConcludedAsks(h);
  }

  /** In every reachable state an item has a summary exactly if it has been reviewed since its
      last completion that passed, and its figures are those of the facts. */
  lemma {:induction false} SummaryOfFacts(h: History, key: Key)
    ensures key in Run(h).summaries <==> LastReview(h, key).Some?
    ensures key in Run(h).summaries ==> FiguresOfFacts(Run(h).summaries[key], h, key)
  {
    SummariesAreHistory(h, key);
    DigestIsOfFacts(h, key);
  }

  /** A tool event reports the figures of the facts. */
  lemma {:induction false} ToolEventOfFacts(h: History, key: Key)
    requires h != [] && ItemOf(Latest(h)) == Some(key) && Latest(h).ItemCompleted? && Emitted(h) != []
    ensures |Emitted(h)| == 1 && Emitted(h)[0].ToolItemEvent? && Emitted(h)[0].key == key
    ensures FiguresOfFacts(Emitted(h)[0].summary, Before(h), key)
  {
    ToolEventFigures(h, key);
    DigestIsOfFacts(Before(h), key);
  }
}
