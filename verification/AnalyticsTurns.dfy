/** When a turn event is emitted and what it says, in terms of the history alone. A turn
    is described over its window: the facts after the last event emitted for it. */
module AnalyticsTurns {
  import opened Sequences
  import opened AnalyticsModel
  import opened AnalyticsHistory

  ghost predicate EmitsTurn(h: History, t: TurnId) {
    h != [] && exists k :: 0 <= k < |Emitted(h)| && Emitted(h)[k].TurnEvent? && Emitted(h)[k].turn == t
  }

  /** Where the window of a turn begins: just after its last event. */
  ghost function WindowStart(h: History, t: TurnId): (w: nat)
    ensures w <= |h|
  {
    if h == [] then 0 else if EmitsTurn(h, t) then |h| else WindowStart(Before(h), t)
  }

  /** The latest fact is one about the turn. */
  predicate About(h: History, t: TurnId)
    requires h != []
  {
    match Latest(h)
    case TurnStartAnswered(_, _, turn) => turn == t
    case TurnSteerAnswered(_, _, turn) => turn == t
    case ItemCompleted(_, turn, _, _) => turn == t
    case TurnStarted(turn, _) => turn == t
    case TurnDiffUpdated(_, turn, _) => turn == t
    case TurnCompleted(turn, _) => turn == t
    case TurnConfigResolved(turn, _, _, _) => turn == t
    case TurnTokensUsed(turn, _, _) => turn == t
    case _ => false
  }

  /** The kinds of item that are tool calls. */
  predicate IsTool(kind: ItemKind) {
    || kind == CommandExecution || kind == FileChange || kind == McpToolCall || kind == DynamicToolCall
    || kind == CollabAgentToolCall || kind == WebSearch || kind == ImageGeneration
  }

  predicate MatchesStart(h: History)
    requires h != []
  {
    Latest(h).TurnStartAnswered? && Answers(h).Some? && Answers(h).value.StartTurn?
  }

  predicate MatchesSteer(h: History)
    requires h != []
  {
    Latest(h).TurnSteerAnswered? && Answers(h).Some? && Answers(h).value.SteerTurn?
  }

  // ----- What the facts of a window say about a turn -----

  /** A fact that makes the reducer start keeping a turn. */
  predicate Creates(h: History)
    requires h != []
  {
    MatchesStart(h) || Latest(h).TurnStarted? || Latest(h).TurnDiffUpdated? || Latest(h).TurnCompleted?
    || Latest(h).TurnConfigResolved? || Latest(h).TurnTokensUsed?
  }

  predicate Live(h: History, w: nat, t: TurnId) {
    |h| > w && (Live(Before(h), w, t) || (About(h, t) && Creates(h)))
  }

  /** The thread the latest fact names for its turn. */
  function NamesThread(h: History): Option<ThreadId>
    requires h != []
  {
    match Latest(h)
    case TurnStartAnswered(_, _, _) => if MatchesStart(h) then Some(Answers(h).value.thread) else None
    case TurnDiffUpdated(thread, _, _) => Some(thread)
    case TurnConfigResolved(_, thread, _, _) => Some(thread)
    case TurnTokensUsed(_, thread, _) => Some(thread)
    case _ => None
  }

  function ThreadNamed(h: History, w: nat, t: TurnId): Option<ThreadId> {
    if |h| <= w then None
    else if About(h, t) && NamesThread(h).Some? then NamesThread(h)
    else ThreadNamed(Before(h), w, t)
  }

  function ConnectionNamed(h: History, w: nat, t: TurnId): Option<ConnectionId> {
    if |h| <= w then None
    else if About(h, t) && MatchesStart(h) then Some(Latest(h).connection)
    else ConnectionNamed(Before(h), w, t)
  }

  function ImagesNamed(h: History, w: nat, t: TurnId): Option<nat> {
    if |h| <= w then None
    else if About(h, t) && MatchesStart(h) then Some(Answers(h).value.images)
    else if About(h, t) && Latest(h).TurnConfigResolved? then Some(Latest(h).images)
    else ImagesNamed(Before(h), w, t)
  }

  function ConfigNamed(h: History, w: nat, t: TurnId): Option<string> {
    if |h| <= w then None
    else if About(h, t) && Latest(h).TurnConfigResolved? then Some(Latest(h).config)
    else ConfigNamed(Before(h), w, t)
  }

  function CompletionNamed(h: History, w: nat, t: TurnId): Option<string> {
    if |h| <= w then None
    else if About(h, t) && Latest(h).TurnCompleted? then Some(Latest(h).completion)
    else CompletionNamed(Before(h), w, t)
  }

  function UsageNamed(h: History, w: nat, t: TurnId): Option<string> {
    if |h| <= w then None
    else if About(h, t) && Latest(h).TurnTokensUsed? then Some(Latest(h).usage)
    else UsageNamed(Before(h), w, t)
  }

  function DiffNamed(h: History, w: nat, t: TurnId): Option<string> {
    if |h| <= w then None
    else if About(h, t) && Latest(h).TurnDiffUpdated? then Some(Latest(h).diff)
    else DiffNamed(Before(h), w, t)
  }

  function StartNamed(h: History, w: nat, t: TurnId): Option<nat> {
    if |h| <= w then None
    else if About(h, t) && Latest(h).TurnStarted? then
      match Latest(h).startedAt { case Some(at) => if at < 0 then None else Some(at) case None => None }
    else StartNamed(Before(h), w, t)
  }

  /** A turn/start response was matched, the config resolved and the turn completed. */
  predicate Ready(h: History, w: nat, t: TurnId) {
    ConnectionNamed(h, w, t).Some? && ConfigNamed(h, w, t).Some? && CompletionNamed(h, w, t).Some?
  }

  /** The tracked items completed for the turn while it was kept. */
  function ToolsSeen(h: History, w: nat, t: TurnId): seq<ItemKind> {
    if |h| <= w then []
    else
      var rest := ToolsSeen(Before(h), w, t);
      if About(h, t) && Live(Before(h), w, t) && Latest(h).ItemCompleted? && IsTool(Latest(h).item.kind)
      then rest + [Latest(h).item.kind] else rest
  }

  function SteersSeen(h: History, w: nat, t: TurnId): nat {
    if |h| <= w then 0
    else SteersSeen(Before(h), w, t) + if About(h, t) && Live(Before(h), w, t) && MatchesSteer(h) then 1 else 0
  }

  function Tally(kinds: seq<ItemKind>): ToolCounts {
    var m := multiset(kinds);
    ToolCounts(|kinds|, m[CommandExecution], m[FileChange], m[McpToolCall], m[DynamicToolCall],
               m[CollabAgentToolCall], m[WebSearch], m[ImageGeneration])
  }

  // ----- The cached turn state is the view of its window -----

  function View(h: History, w: nat, t: TurnId): Option<TurnState> {
    if |h| <= w then None
    else
      var prior := View(Before(h), w, t);
      var touched := if About(h, t) then Touch(prior, Answers(h), Latest(h)) else None;
      if touched.Some? then touched else prior
  }

  lemma EmitsWhenFinished(h: History, t: TurnId)
    requires h != []
    ensures EmitsTurn(h, t) <==> Finished(Run(Before(h)), Latest(h)).Some? && About(h, t)
    ensures EmitsTurn(h, t) ==> Emitted(h) == TurnEvents(t, Finished(Run(Before(h)), Latest(h)).value)
  {
    var done := Finished(Run(Before(h)), Latest(h));
    if done.Some? && About(h, t) {
      assert Emitted(h)[0] == TurnEventOf(t, done.value);
    }
  }

  lemma {:induction false} TurnsAreHistory(h: History, t: TurnId)
    ensures Lookup(Run(h).turns, t) == View(h, WindowStart(h, t), t)
  {
    if h != [] {
      TurnsAreHistory(Before(h), t);
      EmitsWhenFinished(h, t);
      if About(h, t) { TouchedByAnswer(h, t); }
    }
  }

  /** A fact about a turn touches it as the request it answers says. */
  lemma TouchedByAnswer(h: History, t: TurnId)
    requires h != [] && About(h, t)
    ensures TurnOf(Latest(h)) == Some(t)
    ensures Touched(Run(Before(h)), Latest(h)) == Touch(Lookup(Run(Before(h)).turns, t), Answers(h), Latest(h))
  {
    if Latest(h).TurnStartAnswered? || Latest(h).TurnSteerAnswered? { AnswersAreMatched(h); }
  }

  /** A turn state says of each thing what the facts of the window say. */
  ghost predicate Describes(v: TurnState, h: History, w: nat, t: TurnId) {
    v == TurnState(ConnectionNamed(h, w, t), ThreadNamed(h, w, t), ImagesNamed(h, w, t), ConfigNamed(h, w, t),
                   StartNamed(h, w, t), UsageNamed(h, w, t), CompletionNamed(h, w, t), DiffNamed(h, w, t),
                   SteersSeen(h, w, t), Tally(ToolsSeen(h, w, t)))
  }

  lemma TallyAppend(kinds: seq<ItemKind>, item: Item)
    requires TrackedId(item).Some?
    ensures Tally(kinds + [item.kind]) == Record(Tally(kinds), item.kind)
  {
    assert multiset(kinds + [item.kind]) == multiset(kinds)[item.kind := multiset(kinds)[item.kind] + 1];
  }

  lemma {:induction false} NothingBeforeLive(h: History, w: nat, t: TurnId)
    requires !Live(h, w, t)
    ensures ConnectionNamed(h, w, t).None? && ThreadNamed(h, w, t).None? && ImagesNamed(h, w, t).None?
    ensures ConfigNamed(h, w, t).None? && StartNamed(h, w, t).None? && UsageNamed(h, w, t).None?
    ensures CompletionNamed(h, w, t).None? && DiffNamed(h, w, t).None?
    ensures ToolsSeen(h, w, t) == [] && SteersSeen(h, w, t) == 0
  {
    if |h| > w { NothingBeforeLive(Before(h), w, t); }
  }

  lemma NewTurnDescribes(h: History, w: nat, t: TurnId)
    requires !Live(h, w, t)
    ensures Describes(NEW_TURN, h, w, t)
  {
    NothingBeforeLive(h, w, t);
  }

  /** A fact that does not touch the turn says nothing about it. */
  lemma UntouchedDescribes(v: TurnState, h: History, w: nat, t: TurnId)
    requires |h| > w && Describes(v, Before(h), w, t)
    requires !About(h, t) || Touch(if Live(Before(h), w, t) then Some(v) else None, Answers(h), Latest(h)).None?
    ensures Describes(v, h, w, t)
  {
  }

  lemma ToolDescribes(v: TurnState, h: History, w: nat, t: TurnId)
    requires |h| > w && Describes(v, Before(h), w, t) && About(h, t) && Live(Before(h), w, t)
    requires Latest(h).ItemCompleted? && TrackedId(Latest(h).item).Some?
    ensures Describes(v.(tools := Record(v.tools, Latest(h).item.kind)), h, w, t)
  {
    TallyAppend(ToolsSeen(Before(h), w, t), Latest(h).item);
  }

  lemma SteerDescribes(v: TurnState, h: History, w: nat, t: TurnId)
    requires |h| > w && Describes(v, Before(h), w, t) && About(h, t) && Live(Before(h), w, t) && MatchesSteer(h)
    ensures Describes(v.(steers := v.steers + 1), h, w, t)
  {
  }

  lemma StartDescribes(v: TurnState, h: History, w: nat, t: TurnId)
    requires |h| > w && Describes(v, Before(h), w, t) && About(h, t) && MatchesStart(h)
    ensures var request := Answers(h).value;
            Describes(v.(connection := Some(Latest(h).connection), thread := Some(request.thread),
                         images := Some(request.images)),
                      h, w, t)
  {
  }

  lemma TouchedDescribes(v: TurnState, h: History, w: nat, t: TurnId)
    requires |h| > w && Describes(v, Before(h), w, t) && About(h, t) && Creates(h) && !MatchesStart(h)
    ensures Describes(Touch(Some(v), None, Latest(h)).value, h, w, t)
  {
  }

  lemma {:induction false} ViewDescribes(h: History, w: nat, t: TurnId)
    ensures View(h, w, t).Some? <==> Live(h, w, t)
    ensures Live(h, w, t) ==> Describes(View(h, w, t).value, h, w, t)
  {
    if |h| > w {
      var prior := View(Before(h), w, t);
      ViewDescribes(Before(h), w, t);
      if prior.None? { NewTurnDescribes(Before(h), w, t); }
      var current := if prior.Some? then prior.value else NEW_TURN;
      if About(h, t) && Touch(prior, Answers(h), Latest(h)).Some? {
        if Latest(h).ItemCompleted? { ToolDescribes(current, h, w, t); }
        else if MatchesSteer(h) { SteerDescribes(current, h, w, t); }
        else if MatchesStart(h) { StartDescribes(current, h, w, t); }
        else { TouchedDescribes(current, h, w, t); }
      } else {
        UntouchedDescribes(current, h, w, t);
      }
    }
  }

  // ----- When a turn event is emitted -----

  /** The latest fact is one after which the reducer looks whether the turn is complete. */
  predicate Prompts(h: History, t: TurnId)
    requires h != []
  {
    About(h, t) &&
    (MatchesStart(h) || Latest(h).TurnCompleted? || Latest(h).TurnConfigResolved? || Latest(h).TurnTokensUsed?)
  }

  /** The thread and connection last named for the turn are known to the reducer. */
  predicate ContextKnown(h: History, w: nat, t: TurnId)
    requires h != []
  {
    var thread, connection := ThreadNamed(h, w, t), ConnectionNamed(h, w, t);
    && thread.Some? && ThreadSeen(Before(h), thread.value).Some?
    && connection.Some? && ConnectionKnown(Before(h), connection.value)
  }

  /** The turn event a window amounts to, and its accepted-lines event. */
  function WindowEvents(h: History, w: nat, t: TurnId): seq<Event>
    requires Ready(h, w, t) && ThreadNamed(h, w, t).Some? && ImagesNamed(h, w, t).Some?
  {
    [TurnEvent(t, ConnectionNamed(h, w, t).value, ThreadNamed(h, w, t).value, ImagesNamed(h, w, t).value,
               ConfigNamed(h, w, t).value, CompletionNamed(h, w, t).value, StartNamed(h, w, t), UsageNamed(h, w, t),
               SteersSeen(h, w, t), Tally(ToolsSeen(h, w, t)))]
    + DiffEvents(t, ThreadNamed(h, w, t).value, DiffNamed(h, w, t))
  }

  /** A turn event is emitted exactly when, since the last one, a turn/start response was
      matched, the config was resolved and the turn completed, at a fact that looks, with
      its thread and connection known; and it reports what its window holds. */
  lemma {:induction false} TurnEventRefinement(h: History, t: TurnId)
    requires h != []
    ensures var w := WindowStart(Before(h), t);
            EmitsTurn(h, t) <==> Prompts(h, t) && Ready(h, w, t) && ContextKnown(h, w, t)
    ensures EmitsTurn(h, t) ==> ImagesNamed(h, WindowStart(Before(h), t), t).Some?
    ensures EmitsTurn(h, t) ==> Emitted(h) == WindowEvents(h, WindowStart(Before(h), t), t)
  {
    var s, w := Run(Before(h)), WindowStart(Before(h), t);
    EmitsWhenFinished(h, t);
    TurnsAreHistory(Before(h), t);
    ViewDescribes(h, w, t);
    if About(h, t) {
      TouchedByAnswer(h, t);
      assert Touched(s, Latest(h)) == Touch(View(Before(h), w, t), Answers(h), Latest(h));
      ReadyNamesAll(h, w, t);
      if ThreadNamed(h, w, t).Some? { MetadataIsHistory(Before(h), ThreadNamed(h, w, t).value); }
      if ConnectionNamed(h, w, t).Some? { ConnectionsAreHistory(Before(h), ConnectionNamed(h, w, t).value); }
    }
  }

  lemma MetadataIsHistory(h: History, thread: ThreadId)
    ensures HasMetadata(Run(h).threads, thread) <==> ThreadSeen(h, thread).Some?
  {
    ReferentialIntegrity(h);
    ThreadsAreHistory(h, thread);
  }

  lemma {:induction false} ReadyNamesAll(h: History, w: nat, t: TurnId)
    ensures ConnectionNamed(h, w, t).Some? || ConfigNamed(h, w, t).Some? ==>
              ThreadNamed(h, w, t).Some? && ImagesNamed(h, w, t).Some? && Live(h, w, t)
  {
    if |h| > w { ReadyNamesAll(Before(h), w, t); }
  }

  // ----- Turns whose facts name known threads and connections -----

  /** Every fact so far that names a thread or connection for the turn named a known one. */
  predicate Grounded(h: History, t: TurnId) {
    h == [] ||
    (&& Grounded(Before(h), t)
     && (About(h, t) && NamesThread(h).Some? ==> ThreadSeen(Before(h), NamesThread(h).value).Some?)
     && (About(h, t) && MatchesStart(h) ==> ConnectionKnown(Before(h), Latest(h).connection)))
  }

  /** What is known stays known. */
  lemma {:induction false} GroundedContext(h: History, w: nat, t: TurnId)
    requires Grounded(h, t)
    ensures ThreadNamed(h, w, t).Some? ==> ThreadSeen(h, ThreadNamed(h, w, t).value).Some?
    ensures ConnectionNamed(h, w, t).Some? ==> ConnectionKnown(h, ConnectionNamed(h, w, t).value)
    ensures h != [] && ThreadNamed(h, w, t).Some? ==> ThreadSeen(Before(h), ThreadNamed(h, w, t).value).Some?
    ensures h != [] && ConnectionNamed(h, w, t).Some? ==> ConnectionKnown(Before(h), ConnectionNamed(h, w, t).value)
  {
    if |h| > w { GroundedContext(Before(h), w, t); }
  }

  /** For a grounded turn the event comes exactly at the fact that makes the three facts
      complete since the last event, whatever their order. */
  lemma {:induction false} TurnEventAtThirdFact(h: History, t: TurnId)
    requires h != [] && Grounded(h, t)
    ensures EmitsTurn(h, t) <==> Ready(h, WindowStart(Before(h), t), t)
    ensures !Ready(h, WindowStart(h, t), t)
  {
    var w := WindowStart(Before(h), t);
    TurnEventRefinement(h, t);
    GroundedContext(h, w, t);
    ReadyNamesAll(h, w, t);
    if Before(h) != [] { TurnEventAtThirdFact(Before(h), t); }
  }

  /** The fact at i is a response that matched a turn/start request of the turn. */
  predicate StartMatchedAt(h: History, i: nat, t: TurnId) {
    i < |h| && About(h[..i + 1], t) && MatchesStart(h[..i + 1])
  }

  /** Among the facts from w on: a response that matched a turn/start request of this turn,
      its resolved config and its completion. */
  ghost predicate FreshFacts(h: History, w: nat, t: TurnId) {
    && (exists i :: w <= i && StartMatchedAt(h, i, t))
    && (exists i :: w <= i < |h| && h[i].TurnConfigResolved? && h[i].turn == t)
    && (exists i :: w <= i < |h| && h[i].TurnCompleted? && h[i].turn == t)
  }

  lemma {:induction false} NamedByFacts(h: History, w: nat, t: TurnId)
    ensures ConnectionNamed(h, w, t).Some? ==>
              exists i :: w <= i && StartMatchedAt(h, i, t)
    ensures ConfigNamed(h, w, t).Some? ==> exists i :: w <= i < |h| && h[i].TurnConfigResolved? && h[i].turn == t
    ensures CompletionNamed(h, w, t).Some? ==> exists i :: w <= i < |h| && h[i].TurnCompleted? && h[i].turn == t
  {
    if |h| > w {
      var n := |h| - 1;
      NamedByFacts(Before(h), w, t);
      assert h[..n + 1] == h;
      assert StartMatchedAt(h, n, t) <==> About(h, t) && MatchesStart(h);
      forall i: nat | StartMatchedAt(Before(h), i, t) ensures StartMatchedAt(h, i, t) {
        assert Before(h)[..i + 1] == h[..i + 1];
      }
    }
  }

  lemma {:induction false} WindowAfterEvent(h: History, m: nat, t: TurnId)
    requires m <= |h| && EmitsTurn(h[..m], t)
    ensures m <= WindowStart(h, t)
  {
    if m == |h| {
      assert h[..m] == h;
    } else {
      assert Before(h)[..m] == h[..m];
      WindowAfterEvent(Before(h), m, t);
    }
  }

  /** Between two events of a turn all three facts occur anew. */
  lemma {:induction false} NeverTwiceWithoutFreshFacts(h: History, m: nat, t: TurnId)
    requires m < |h| && EmitsTurn(h[..m], t) && EmitsTurn(h, t)
    ensures FreshFacts(h, m, t)
  {
    var w := WindowStart(Before(h), t);
    assert Before(h)[..m] == h[..m];
    WindowAfterEvent(Before(h), m, t);
    TurnEventRefinement(h, t);
    NamedByFacts(h, w, t);
  }

  // ----- Counters -----

  function SumOfCategories(c: ToolCounts): nat {
    c.shell + c.fileChange + c.mcp + c.dynamicTool + c.subagent + c.webSearch + c.image
  }

  lemma RecordAdds(c: ToolCounts, item: Item)
    requires TrackedId(item).Some? && c.total == SumOfCategories(c)
    ensures Record(c, item.kind).total == SumOfCategories(Record(c, item.kind)) == c.total + 1
  {
  }

  predicate AllTracked(kinds: seq<ItemKind>) {
    forall k :: 0 <= k < |kinds| ==> IsTool(kinds[k])
  }

  lemma {:induction false} ToolsAreTracked(h: History, w: nat, t: TurnId)
    ensures AllTracked(ToolsSeen(h, w, t))
  {
    if |h| > w { ToolsAreTracked(Before(h), w, t); }
  }

  lemma {:induction false} TallyAdds(kinds: seq<ItemKind>)
    requires AllTracked(kinds)
    ensures Tally(kinds).total == SumOfCategories(Tally(kinds)) == |kinds|
  {
    if kinds != [] {
      var prior, item := kinds[..|kinds| - 1], Item(kinds[|kinds| - 1], "", false);
      TallyAdds(prior);
      assert kinds == prior + [item.kind];
      assert Tally(kinds) == Record(Tally(prior), item.kind) by { TallyAppend(prior, item); }
      RecordAdds(Tally(prior), item);
    }
  }

  /** An emitted turn event counts each tracked completion of its window once, in total and
      in exactly one category, and each accepted steer once. */
  lemma CounterConservation(h: History, t: TurnId)
    requires EmitsTurn(h, t)
    ensures var w, e := WindowStart(Before(h), t), Emitted(h)[0];
            && e.TurnEvent?
            && e.tools.total == |ToolsSeen(h, w, t)| == SumOfCategories(e.tools)
            && e.tools == Tally(ToolsSeen(h, w, t))
            && e.steers == SteersSeen(h, w, t)
  {
    TurnEventRefinement(h, t);
    ToolsAreTracked(h, WindowStart(Before(h), t), t);
    TallyAdds(ToolsSeen(h, WindowStart(Before(h), t), t));
  }

  /** The two item matches agree: an item the reducer tracks is an item it counts. */
  lemma TrackedItemsAreCounted(c: ToolCounts, item: Item)
    ensures TrackedId(item).Some? <==> IsTool(item.kind)
    ensures TrackedId(item).Some? <==> Record(c, item.kind) != c
    ensures Record(c, item.kind).total == c.total + if TrackedId(item).Some? then 1 else 0
  {
  }
}
