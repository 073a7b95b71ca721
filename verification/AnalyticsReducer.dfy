/** The reducer as it runs: seven maps updated in place by one method per kind of fact. */
module AnalyticsReducer {
  import opened Sequences
  import opened AnalyticsModel
  import opened AnalyticsHistory

  lemma RunAppend(h: History, f: Fact)
    ensures Run(h + [f]) == Next(Run(h), f)
    ensures Emitted(h + [f]) == Out(Run(h), f)
  {
    assert Before(h + [f]) == h;
  }

  /** A fact that may complete its turn changes nothing but that turn. */
  lemma MilestoneStep(s: State, f: Fact, turn: TurnState)
    requires f.TurnCompleted? || f.TurnConfigResolved? || f.TurnTokensUsed?
    requires Touched(s, f) == Some(turn)
    ensures Next(s, f) == s.(turns := if Emittable(turn, s.connections, s.threads)
                                      then s.turns - {f.turn} else s.turns[f.turn := turn])
    ensures Out(s, f) == if Emittable(turn, s.connections, s.threads) then TurnEvents(f.turn, turn) else []
  {
  }

  class Reducer {
    var connections: map<ConnectionId, string>
    var threads: map<ThreadId, ThreadState>
    var requests: map<RequestKey, Request>
    var turns: map<TurnId, TurnState>
    var toolItemsStartedAt: map<Key, nat>
    var pendingReviews: map<RequestId, PendingReview>
    var itemReviewSummaries: map<Key, Summary>
    ghost var history: History

    ghost function Maps(): State
      reads this
    {
      State(connections, threads, requests, turns, toolItemsStartedAt, pendingReviews, itemReviewSummaries)
    }

    ghost predicate Valid()
      reads this
    {
      Maps() == Run(history)
    }

    constructor ()
      ensures Valid() && history == []
    {
      connections, threads, requests, turns := map[], map[], map[], map[];
      toolItemsStartedAt, pendingReviews, itemReviewSummaries := map[], map[], map[];
      history := [];
    }

    ghost method Log(f: Fact)
      requires Maps() == Next(Run(history), f)
      modifies `history
      ensures Valid() && history == old(history) + [f] && Emitted(history) == Out(Run(old(history)), f)
    {
      RunAppend(history, f);
      history := history + [f];
    }

    /** A fact enters the reducer; the maps and the events are what the history says. */
    method Ingest(f: Fact) returns (out: seq<Event>)
      requires Valid()
      modifies this
      ensures Valid() && history == old(history) + [f] && out == Emitted(history)
    {
      match f {
        case ThreadOpened(_, _, _) => out := EmitThreadInitialized(f);
        case TurnStartAnswered(_, _, _) => out := IngestTurnStartAnswer(f);
        case TurnSteerAnswered(_, _, _) => out := IngestTurnSteerAnswer(f);
        case RequestFailed(_, _) => out := IngestErrorResponse(f);
        case ItemStarted(_, _, _, _) => out := IngestItemStarted(f);
        case ItemCompleted(_, _, _, _) => out := IngestItemCompleted(f);
        case TurnStarted(_, _) => out := IngestTurnProgress(f);
        case TurnDiffUpdated(_, _, _) => out := IngestTurnProgress(f);
        case TurnCompleted(_, _) => out := IngestTurnCompleted(f);
        case TurnConfigResolved(_, _, _, _) => out := IngestTurnResolvedConfig(f);
        case TurnTokensUsed(_, _, _) => out := IngestTurnTokenUsage(f);
        case ReviewDecided(_, _, _) => out := IngestDecision(f);
        case GuardianReviewed(_, _, _, _, _, _, _) => out := IngestGuardianReview(f);
        case SubAgentStarted(_, _, _) => out := IngestSubAgentStarted(f);
        case Compacted(_) => out := IngestReport(f);
        case GuardianReported(_) => out := IngestReport(f);
        case _ => out := IngestRegistration(f);
      }
      Log(f);
    }

    /** Facts that only register something: a connection, a client request, an approval. */
    method IngestRegistration(f: Fact) returns (out: seq<Event>)
      requires f.Initialize? || f.TurnStartRequested? || f.TurnSteerRequested? || f.ApprovalRequested?
      modifies `connections, `requests, `pendingReviews
      ensures Maps() == Next(old(Maps()), f) && out == Out(old(Maps()), f)
    {
      out := [];
      match f
      case Initialize(c, client) => connections := connections[c := client];
      case TurnStartRequested(c, r, thread, images) => requests := requests[(c, r) := StartTurn(thread, images)];
      case TurnSteerRequested(c, r, thread, expected) => requests := requests[(c, r) := SteerTurn(thread, expected)];
      case ApprovalRequested(r, thread, turn, approval, at) =>
        if at >= 0 {
          pendingReviews := pendingReviews[r := PendingOf(thread, turn, approval, at)];
        }
    }

    /** Facts that only become events: a compaction, a guardian report. */
    method IngestReport(f: Fact) returns (out: seq<Event>)
      requires f.Compacted? || f.GuardianReported?
      ensures Maps() == Next(Maps(), f) && out == Out(Maps(), f)
    {
      out := [];
      var context := ContextOf(threads, connections, f.thread);
      if f.Compacted? && context.Known? {
        out := [CompactionEvent(f.thread)];
      } else if f.GuardianReported? && (context.Known? || context.MissingMetadata?) {
        out := [GuardianEvent(f.thread)];
      }
    }

    method EmitThreadInitialized(f: Fact) returns (out: seq<Event>)
      requires f.ThreadOpened?
      modifies `threads
      ensures Maps() == Next(old(Maps()), f) && out == Out(old(Maps()), f)
    {
      out := [];
      if f.connection in connections {
        threads := threads[f.thread := ThreadState(Some(f.connection), Some(f.metadata))];
        out := [ThreadInitialized(f.thread)];
      }
    }

    method IngestSubAgentStarted(f: Fact) returns (out: seq<Event>)
      requires f.SubAgentStarted?
      modifies `threads
      ensures Maps() == Next(old(Maps()), f) && out == Out(old(Maps()), f)
    {
      var parentConnection: Option<ConnectionId> := None;
      if f.parent.Some? && f.parent.value in threads {
        parentConnection := threads[f.parent.value].connection;
      }
      var state := if f.thread in threads then threads[f.thread] else ThreadState(None, None);
      if state.metadata.None? {
        state := state.(metadata := Some(f.metadata));
      }
      if state.connection.None? {
        state := state.(connection := parentConnection);
      }
      threads := threads[f.thread := state];
      out := [ThreadInitialized(f.thread)];
    }

    method IngestTurnStartAnswer(f: Fact) returns (out: seq<Event>)
      requires f.TurnStartAnswered?
      modifies `requests, `turns
      ensures Maps() == Next(old(Maps()), f) && out == Out(old(Maps()), f)
    {
      out := [];
      var key := (f.connection, f.request);
      if key !in requests { assert requests - {key} == requests; return; }
      var request := requests[key];
      requests := requests - {key};
      if !request.StartTurn? { return; }
      var turn := if f.turn in turns then turns[f.turn] else NEW_TURN;
      turn := turn.(connection := Some(f.connection), thread := Some(request.thread), images := Some(request.images));
      turns := turns[f.turn := turn];
      out := MaybeEmitTurnEvent(f.turn);
      assert turns == NextTurns(old(Maps()), f);
    }

    /** A turn whose fields are all present and whose context is known becomes an event. */
    method MaybeEmitTurnEvent(id: TurnId) returns (out: seq<Event>)
      requires id in turns
      modifies `turns
      ensures if Emittable(old(turns)[id], connections, threads)
              then turns == old(turns) - {id} && out == TurnEvents(id, old(turns)[id])
              else turns == old(turns) && out == []
    {
      out := [];
      var turn := turns[id];
      if turn.thread.None? || turn.images.None? || turn.config.None? || turn.completed.None? || turn.connection.None? {
        return;
      }
      if turn.connection.value !in connections { return; }
      if turn.thread.value !in threads || threads[turn.thread.value].metadata.None? { return; }
      out := TurnEvents(id, turn);
      turns := turns - {id};
    }

    /** Facts about a turn that never complete it. */
    method IngestTurnProgress(f: Fact) returns (out: seq<Event>)
      requires f.TurnStarted? || f.TurnDiffUpdated?
      modifies `turns
      ensures Maps() == Next(old(Maps()), f) && out == Out(old(Maps()), f)
    {
      out := [];
      var turn := if f.turn in turns then turns[f.turn] else NEW_TURN;
      if f.TurnStarted? {
        turn := turn.(startedAt := if f.startedAt.Some? then Timestamp(f.startedAt.value) else None);
      } else {
        turn := turn.(thread := Some(f.thread), diff := Some(f.diff));
      }
      turns := turns[f.turn := turn];
    }

    method IngestTurnCompleted(f: Fact) returns (out: seq<Event>)
      requires f.TurnCompleted?
      modifies `turns
      ensures Maps() == Next(old(Maps()), f) && out == Out(old(Maps()), f)
    {
      var turn := if f.turn in turns then turns[f.turn] else NEW_TURN;
      turn := turn.(completed := Some(f.completion));
      MilestoneStep(Maps(), f, turn);
      turns := turns[f.turn := turn];
      out := MaybeEmitTurnEvent(f.turn);
      assert turns == NextTurns(old(Maps()), f);
    }

    method IngestTurnResolvedConfig(f: Fact) returns (out: seq<Event>)
      requires f.TurnConfigResolved?
      modifies `turns
      ensures Maps() == Next(old(Maps()), f) && out == Out(old(Maps()), f)
    {
      var turn := if f.turn in turns then turns[f.turn] else NEW_TURN;
      turn := turn.(thread := Some(f.thread), images := Some(f.images), config := Some(f.config));
      MilestoneStep(Maps(), f, turn);
      turns := turns[f.turn := turn];
      out := MaybeEmitTurnEvent(f.turn);
      assert turns == NextTurns(old(Maps()), f);
    }

    method IngestTurnTokenUsage(f: Fact) returns (out: seq<Event>)
      requires f.TurnTokensUsed?
      modifies `turns
      ensures Maps() == Next(old(Maps()), f) && out == Out(old(Maps()), f)
    {
      var turn := if f.turn in turns then turns[f.turn] else NEW_TURN;
      turn := turn.(thread := Some(f.thread), usage := Some(f.usage));
      MilestoneStep(Maps(), f, turn);
      turns := turns[f.turn := turn];
      out := MaybeEmitTurnEvent(f.turn);
      assert turns == NextTurns(old(Maps()), f);
    }

    method IngestTurnSteerAnswer(f: Fact) returns (out: seq<Event>)
      requires f.TurnSteerAnswered?
      modifies `requests, `turns
      ensures Maps() == Next(old(Maps()), f) && out == Out(old(Maps()), f)
    {
      out := [];
      var key := (f.connection, f.request);
      if key !in requests { assert requests - {key} == requests; return; }
      var request := requests[key];
      requests := requests - {key};
      if !request.SteerTurn? { return; }
      if f.turn in turns {
        turns := turns[f.turn := turns[f.turn].(steers := turns[f.turn].steers + 1)];
      }
      out := EmitTurnSteerEvent(f.connection, request, Some(f.turn));
    }

    method IngestErrorResponse(f: Fact) returns (out: seq<Event>)
      requires f.RequestFailed?
      modifies `requests
      ensures Maps() == Next(old(Maps()), f) && out == Out(old(Maps()), f)
    {
      out := [];
      var key := (f.connection, f.request);
      if key !in requests { assert requests - {key} == requests; return; }
      var request := requests[key];
      requests := requests - {key};
      if request.SteerTurn? {
        out := EmitTurnSteerEvent(f.connection, request, None);
      }
    }

    method EmitTurnSteerEvent(connection: ConnectionId, request: Request, accepted: Option<TurnId>)
      returns (out: seq<Event>)
      requires request.SteerTurn?
      ensures out == if connection in connections && HasMetadata(threads, request.thread)
                     then [SteerEvent(connection, request.thread, request.expected, accepted)] else []
    {
      out := [];
      if connection !in connections { return; }
      if request.thread !in threads || threads[request.thread].metadata.None? { return; }
      out := [SteerEvent(connection, request.thread, request.expected, accepted)];
    }

    method IngestItemStarted(f: Fact) returns (out: seq<Event>)
      requires f.ItemStarted?
      modifies `toolItemsStartedAt
      ensures Maps() == Next(old(Maps()), f) && out == Out(old(Maps()), f)
    {
      out := [];
      var id := TrackedId(f.item);
      if id.None? || f.at < 0 { return; }
      toolItemsStartedAt := toolItemsStartedAt[Key(f.thread, f.turn, id.value) := f.at];
    }

    method IngestItemCompleted(f: Fact) returns (out: seq<Event>)
      requires f.ItemCompleted?
      modifies `turns, `toolItemsStartedAt, `itemReviewSummaries
      ensures Maps() == Next(old(Maps()), f) && out == Out(old(Maps()), f)
    {
      out := [];
      var id := TrackedId(f.item);
      if id.None? || f.turn !in turns { return; }
      turns := turns[f.turn := turns[f.turn].(tools := Record(turns[f.turn].tools, f.item.kind))];
      var key := Key(f.thread, f.turn, id.value);
      if key !in toolItemsStartedAt { assert toolItemsStartedAt - {key} == toolItemsStartedAt; return; }
      var startedAt := toolItemsStartedAt[key];
      toolItemsStartedAt := toolItemsStartedAt - {key};
      if f.at < 0 { return; }
      if !ContextOf(threads, connections, f.thread).Known? { return; }
      if YieldsEvent(f.item) {
        out := [ToolItemEvent(key, f.item.kind, startedAt, f.at, SummaryOf(itemReviewSummaries, key))];
      }
      itemReviewSummaries := itemReviewSummaries - {key};
    }

    method IngestDecision(f: Fact) returns (out: seq<Event>)
      requires f.ReviewDecided?
      modifies `pendingReviews, `itemReviewSummaries
      ensures Maps() == Next(old(Maps()), f) && out == Out(old(Maps()), f)
    {
      out := [];
      if f.request !in pendingReviews { assert pendingReviews - {f.request} == pendingReviews; return; }
      var pending := pendingReviews[f.request];
      pendingReviews := pendingReviews - {f.request};
      var (status, resolution) := Result(f.decision);
      out := EmitReviewEvent(Review(pending, User, status, resolution, f.completedAt));
    }

    method IngestGuardianReview(f: Fact) returns (out: seq<Event>)
      requires f.GuardianReviewed?
      modifies `itemReviewSummaries
      ensures Maps() == Next(old(Maps()), f) && out == Out(old(Maps()), f)
    {
      out := [];
      if f.status.None? || f.from < 0 || f.at < 0 { return; }
      var pending := GuardianPending(f.thread, f.turn, f.target, f.action, f.from);
      out := EmitReviewEvent(Review(pending, Guardian, f.status.value, NoResolution, f.at));
    }

    /** The summary of the reviewed item is kept even if the event has no context. */
    method EmitReviewEvent(review: Review) returns (out: seq<Event>)
      modifies `itemReviewSummaries
      ensures out == if ContextOf(threads, connections, review.pending.thread).Known? then [ReviewEvent(review)] else []
      ensures itemReviewSummaries ==
              var key := SummaryKey(review.pending);
              if key.None? then old(itemReviewSummaries)
              else
                var before := old(itemReviewSummaries);
                before[key.value := RecordReview(SummaryOf(before, key.value), review)]
    {
      out := [];
      var key := SummaryKey(review.pending);
      if key.Some? {
        var summary := if key.value in itemReviewSummaries then itemReviewSummaries[key.value] else NO_REVIEWS;
        summary := summary.(reviews := summary.reviews + 1);
        match review.reviewer {
          case Guardian => summary := summary.(guardian := summary.guardian + 1);
          case User => summary := summary.(user := summary.user + 1);
        }
        summary := summary.(outcome := Some(OutcomeOf(review)));
        summary := summary.(permissions := summary.permissions || review.pending.permissions);
        summary := summary.(network := summary.network || review.pending.network);
        itemReviewSummaries := itemReviewSummaries[key.value := summary];
      }
      if ContextOf(threads, connections, review.pending.thread).Known? {
        out := [ReviewEvent(review)];
      }
    }
  }
}
