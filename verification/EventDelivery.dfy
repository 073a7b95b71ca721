/** How analytics events leave the process: events are grouped into requests, and the
    app-used and plugin-used events are first deduplicated by a bounded set of keys. */
module EventDelivery {
  import opened Sequences

  // ----- Batching -----

  function Concat<T>(batches: seq<seq<T>>): seq<T> {
    if batches == [] then [] else Concat(batches[..|batches| - 1]) + batches[|batches| - 1]
  }

  /** A partition the uploader may send: no request is empty and each isolated event has a
      request of its own. */
  ghost predicate Sendable<T>(isolated: T -> bool, batches: seq<seq<T>>) {
    forall k :: 0 <= k < |batches| ==> Request(isolated, batches[k])
  }

  ghost predicate Request<T>(isolated: T -> bool, batch: seq<T>) {
    batch != [] && (|batch| == 1 || forall i :: 0 <= i < |batch| ==> !isolated(batch[i]))
  }

  /** The positions at which any sendable partition has to begin a new request. */
  function ForcedStarts<T>(isolated: T -> bool, events: seq<T>): nat {
    if events == [] then 0
    else
      var n := |events| - 1;
      ForcedStarts(isolated, events[..n]) +
      if n == 0 || isolated(events[n]) || isolated(events[n - 1]) then 1 else 0
  }

  /** The state of the loop: the events so far are grouped with no request to spare. */
  ghost predicate Grouped<T>(isolated: T -> bool, batches: seq<seq<T>>, current: seq<T>, events: seq<T>) {
    && Concat(batches) + current == events
    && Sendable(isolated, batches)
    && (forall k :: 0 <= k < |current| ==> !isolated(current[k]))
    && |batches| + (if current == [] then 0 else 1) == ForcedStarts(isolated, events)
    && (current == [] && events != [] ==> isolated(events[|events| - 1]))
  }

  /** No sendable partition of the events has fewer requests. */
  ghost predicate Fewest<T(!new)>(isolated: T -> bool, batches: seq<seq<T>>, events: seq<T>) {
    forall other :: Sendable(isolated, other) && Concat(other) == events ==> |batches| <= |other|
  }

  method Batch<T(!new)>(isolated: T -> bool, events: seq<T>) returns (batches: seq<seq<T>>)
    ensures Concat(batches) == events
    ensures Sendable(isolated, batches)
    ensures Fewest(isolated, batches, events)
  {
    batches := [];
    var current: seq<T> := [];
    for i := 0 to |events|
      invariant Grouped(isolated, batches, current, events[..i])
    {
      var event := events[i];
      assert events[..i + 1] == events[..i] + [event];
      if isolated(event) {
        AddIsolated(isolated, batches, current, events[..i], event);
        if current != [] {
          batches := batches + [current];
          current := [];
        }
        batches := batches + [[event]];
      } else {
        AddPlain(isolated, batches, current, events[..i], event);
        current := current + [event];
      }
    }
    assert events[..|events|] == events;
    Closing(isolated, batches, current, events);
    if current != [] {
      batches := batches + [current];
    }
  }

  lemma Closing<T(!new)>(isolated: T -> bool, batches: seq<seq<T>>, current: seq<T>, events: seq<T>)
    requires Grouped(isolated, batches, current, events)
    ensures var all := if current == [] then batches else batches + [current];
            Concat(all) == events && Sendable(isolated, all) && Fewest(isolated, all, events)
  {
    if current == [] {
      assert Concat(batches) + current == Concat(batches);
    } else {
      ConcatAppend(isolated, batches, current);
    }
    forall other | Sendable(isolated, other) && Concat(other) == events
      ensures ForcedStarts(isolated, events) <= |other|
    {
      StartsAreForced(isolated, other);
    }
  }

  lemma AddPlain<T>(isolated: T -> bool, batches: seq<seq<T>>, current: seq<T>, events: seq<T>, event: T)
    requires Grouped(isolated, batches, current, events) && !isolated(event)
    ensures Grouped(isolated, batches, current + [event], events + [event])
  {
    StartsAppend(isolated, events, event);
    assert Concat(batches) + (current + [event]) == Concat(batches) + current + [event];
    if current != [] { assert events[|events| - 1] == current[|current| - 1]; }
  }

  lemma AddIsolated<T>(isolated: T -> bool, batches: seq<seq<T>>, current: seq<T>, events: seq<T>, event: T)
    requires Grouped(isolated, batches, current, events) && isolated(event)
    ensures Grouped(isolated, (if current == [] then batches else batches + [current]) + [[event]],
                    [], events + [event])
  {
    StartsAppend(isolated, events, event);
    var flushed := if current == [] then batches else batches + [current];
    if current != [] { ConcatAppend(isolated, batches, current); }
    assert Concat(flushed) == events;
    ConcatAppend(isolated, flushed, [event]);
  }

  lemma ConcatAppend<T>(isolated: T -> bool, batches: seq<seq<T>>, batch: seq<T>)
    requires Sendable(isolated, batches) && Request(isolated, batch)
    ensures Concat(batches + [batch]) == Concat(batches) + batch
    ensures Sendable(isolated, batches + [batch])
  {
    assert (batches + [batch])[..|batches|] == batches;
  }

  lemma StartsAppend<T>(isolated: T -> bool, events: seq<T>, event: T)
    ensures ForcedStarts(isolated, events + [event]) == ForcedStarts(isolated, events) +
              if events == [] || isolated(event) || isolated(events[|events| - 1]) then 1 else 0
  {
    assert (events + [event])[..|events|] == events;
  }

  /** No sendable partition has fewer requests than there are forced starts. */
  lemma {:induction false} StartsAreForced<T>(isolated: T -> bool, batches: seq<seq<T>>)
    requires Sendable(isolated, batches)
    ensures ForcedStarts(isolated, Concat(batches)) <= |batches|
    decreases |batches|
  {
    if batches != [] {
      var n := |batches| - 1;
      StartsAreForced(isolated, batches[..n]);
      assert Request(isolated, batches[n]);
      OneStartPerRequest(isolated, Concat(batches[..n]), batches[n]);
    }
  }

  lemma {:induction false} OneStartPerRequest<T>(isolated: T -> bool, before: seq<T>, batch: seq<T>)
    requires Request(isolated, batch)
    ensures ForcedStarts(isolated, before + batch) <= ForcedStarts(isolated, before) + 1
    decreases |batch|
  {
    var n := |batch| - 1;
    assert (before + batch)[..|before| + n] == before + batch[..n];
    if n == 0 {
      assert before + batch[..n] == before;
    } else {
      OneStartPerRequest(isolated, before, batch[..n]);
    }
  }

  // ----- Deduplication -----

  const MAX_KEYS: nat := 4096

  /** The keys remembered, and a record of the keys accepted and the clears made. */
  datatype Ledger<K(==)> = Ledger(emitted: set<K>, accepted: seq<K>, clears: nat)

  function Call<K(==)>(cap: nat, ledger: Ledger<K>, key: K): Ledger<K> {
    var full := |ledger.emitted| >= cap;
    var kept := if full then {} else ledger.emitted;
    Ledger(kept + {key},
           if key in kept then ledger.accepted else ledger.accepted + [key],
           if full then ledger.clears + 1 else ledger.clears)
  }

  function Calls<K(==)>(cap: nat, keys: seq<K>): Ledger<K> {
    if keys == [] then Ledger({}, [], 0) else Call(cap, Calls(cap, keys[..|keys| - 1]), keys[|keys| - 1])
  }

  class DedupeQueue<K(==)> {
    var emitted: set<K>
    ghost var calls: seq<K>

    ghost predicate Valid()
      reads this
    {
      emitted == Calls(MAX_KEYS, calls).emitted
    }

    constructor ()
      ensures Valid() && calls == []
    {
      emitted := {};
      calls := [];
    }

    method ShouldEnqueue(key: K) returns (accepted: bool)
      requires Valid()
      modifies this
      ensures Valid() && calls == old(calls) + [key] && |emitted| <= 4096
      ensures Calls(4096, calls).accepted ==
              Calls(4096, old(calls)).accepted + if accepted then [key] else []
    {
      if |emitted| >= MAX_KEYS {
        emitted := {};
      }
      accepted := key !in emitted;
      emitted := emitted + {key};
      calls := calls + [key];
      assert calls[..|calls| - 1] == old(calls);
      EpochAccounts(MAX_KEYS, calls, key);
    }

    /** App events carry their connector optionally; without one there is nothing to dedupe. */
    method ShouldEnqueueApp(key: Option<K>) returns (accepted: bool)
      requires Valid()
      modifies this
      ensures Valid()
      ensures key.None? ==> accepted && emitted == old(emitted) && calls == old(calls)
      ensures key.Some? ==> calls == old(calls) + [key.value]
      ensures key.Some? ==>
                Calls(4096, calls).accepted ==
                Calls(4096, old(calls)).accepted + if accepted then [key.value] else []
    {
      if key.None? { return true; }
      accepted := ShouldEnqueue(key.value);
    }
  }

  /** cap times n, unfolded one round at a time. */
  function Times(cap: nat, n: nat): nat {
    if n == 0 then 0 else Times(cap, n - 1) + cap
  }

  lemma {:induction false} TimesIsProduct(cap: nat, n: nat)
    ensures Times(cap, n) == cap * n
  {
    if n > 0 { TimesIsProduct(cap, n - 1); }
  }

  /** Between clears the set counts the accepted calls, and a key is accepted at most once. */
  ghost predicate Accounts<K>(cap: nat, l: Ledger<K>, key: K) {
    && |l.emitted| <= cap
    && |l.accepted| == Times(cap, l.clears) + |l.emitted|
    && multiset(l.accepted)[key] <= l.clears + (if key in l.emitted then 1 else 0)
  }

  lemma CallKeepsAccounts<K>(cap: nat, l: Ledger<K>, called: K, key: K)
    requires cap >= 1 && Accounts(cap, l, key)
    ensures Accounts(cap, Call(cap, l, called), key)
  {
    assert multiset(l.accepted + [called]) == multiset(l.accepted) + multiset{called};
    if |l.emitted| >= cap {
      assert {} + {called} == {called};
    } else if called in l.emitted {
      assert l.emitted + {called} == l.emitted;
    }
  }

  lemma {:induction false} EpochAccounts<K>(cap: nat, keys: seq<K>, key: K)
    requires cap >= 1
    ensures Accounts(cap, Calls(cap, keys), key)
  {
    if keys != [] {
      var n := |keys| - 1;
      EpochAccounts(cap, keys[..n], key);
      CallKeepsAccounts(cap, Calls(cap, keys[..n]), keys[n], key);
    }
  }

  function CeilDiv(n: nat, d: nat): nat
    requires d >= 1
  {
    (n + d - 1) / d
  }

  /** A key among n accepted calls is accepted at most ceil(n / cap) times. */
  lemma DedupeBound<K>(cap: nat, keys: seq<K>, key: K)
    requires cap >= 1
    ensures var l := Calls(cap, keys);
            |l.emitted| <= cap && multiset(l.accepted)[key] <= CeilDiv(|l.accepted|, cap)
  {
    EpochAccounts(cap, keys, key);
    var l := Calls(cap, keys);
    DivideRounds(cap, l.clears, |l.emitted|);
  }

  lemma DivideRounds(cap: nat, c: nat, r: nat)
    requires cap >= 1 && r <= cap
    ensures CeilDiv(Times(cap, c) + r, cap) == c + if r == 0 then 0 else 1
  {
    TimesIsProduct(cap, c);
    if r == 0 {
      DivideExactly(cap, c, cap - 1);
    } else {
      assert cap * c + r + cap - 1 == cap * (c + 1) + (r - 1);
      DivideExactly(cap, c + 1, r - 1);
    }
  }

  lemma DivideExactly(d: nat, q: nat, r: nat)
    requires r < d
    ensures (d * q + r) / d == q
  {
    var m := (d * q + r) / d;
    assert d * m + (d * q + r) % d == d * q + r;
    assert d * (m - q) == d * m - d * q;
    MultiplesSpread(d, m - q);
  }

  lemma MultiplesSpread(d: int, x: int)
    requires d >= 0
    ensures x >= 1 ==> d * x >= d
    ensures x <= -1 ==> d * x <= -d
  {
  }

  // ----- The bound is reached -----

  function Upto(n: nat): seq<int> {
    if n == 0 then [] else Upto(n - 1) + [n - 1]
  }

  /** `rounds` times the keys below `cap`, in order. */
  function Rounds(cap: nat, rounds: nat): seq<int> {
    if rounds == 0 then [] else Rounds(cap, rounds - 1) + Upto(cap)
  }

  function Below(n: nat): (s: set<int>)
    ensures |s| == n && forall i :: i in s ==> i < n
  {
    if n == 0 then {} else Below(n - 1) + {n - 1}
  }

  lemma CallAppend<K>(cap: nat, keys: seq<K>, key: K)
    ensures Calls(cap, keys + [key]) == Call(cap, Calls(cap, keys), key)
  {
    assert (keys + [key])[..|keys|] == keys;
  }

  lemma NextOfRound(cap: nat, l: Ledger<int>, n: nat)
    requires n < cap
    requires if n == 0 then l.emitted == {} || |l.emitted| == cap else l.emitted == Below(n)
    ensures Call(cap, l, n).emitted == Below(n + 1)
    ensures Call(cap, l, n).accepted == l.accepted + [n]
  {
    assert Below(0) == {};
  }

  lemma AppendAssociates<T>(a: seq<T>, b: seq<T>, c: seq<T>)
    ensures a + (b + c) == a + b + c
  {
  }

  /** From an empty or full set every key of a round is accepted. */
  lemma {:induction false} RoundIsAccepted(cap: nat, keys: seq<int>, n: nat)
    requires cap >= 1 && n <= cap
    requires Calls(cap, keys).emitted == {} || |Calls(cap, keys).emitted| == cap
    ensures Calls(cap, keys + Upto(n)).accepted == Calls(cap, keys).accepted + Upto(n)
    ensures n >= 1 ==> Calls(cap, keys + Upto(n)).emitted == Below(n)
  {
    if n == 0 {
      assert keys + Upto(0) == keys;
    } else {
      var before := keys + Upto(n - 1);
      RoundIsAccepted(cap, keys, n - 1);
      if n == 1 { assert before == keys; }
      assert keys + Upto(n) == before + [n - 1] by { AppendAssociates(keys, Upto(n - 1), [n - 1]); }
      RoundGoesOn(cap, before, Calls(cap, keys).accepted, n - 1);
    }
  }

  lemma RoundGoesOn(cap: nat, keys: seq<int>, accepted: seq<int>, n: nat)
    requires n < cap && Calls(cap, keys).accepted == accepted + Upto(n)
    requires var emitted := Calls(cap, keys).emitted;
             if n == 0 then emitted == {} || |emitted| == cap else emitted == Below(n)
    ensures Calls(cap, keys + [n]).accepted == accepted + Upto(n + 1)
    ensures Calls(cap, keys + [n]).emitted == Below(n + 1)
  {
    NextOfRound(cap, Calls(cap, keys), n);
    CallAppend(cap, keys, n);
    AppendAssociates(accepted, Upto(n), [n]);
  }

  function Occurrences(s: seq<int>, key: int): nat {
    multiset(s)[key]
  }

  lemma {:induction false} UptoHasOneZero(n: nat)
    ensures |Upto(n)| == n
    ensures Occurrences(Upto(n), 0) == if n >= 1 then 1 else 0
  {
    if n > 0 { UptoHasOneZero(n - 1); }
  }

  lemma OccurrencesConcat(a: seq<int>, b: seq<int>, key: int)
    ensures Occurrences(a + b, key) == Occurrences(a, key) + Occurrences(b, key)
  {
  }

  /** Every call of so many rounds was accepted. */
  ghost predicate AfterRounds(cap: nat, rounds: nat, l: Ledger<int>) {
    && |l.accepted| == Times(cap, rounds)
    && Occurrences(l.accepted, 0) == rounds
    && l.emitted == if rounds == 0 then {} else Below(cap)
  }

  lemma NextRound(cap: nat, rounds: nat, keys: seq<int>)
    requires cap >= 1 && AfterRounds(cap, rounds, Calls(cap, keys))
    ensures AfterRounds(cap, rounds + 1, Calls(cap, keys + Upto(cap)))
  {
    MoreOfRound(cap, keys, cap);
  }

  lemma {:induction false} RoundsAreAccepted(cap: nat, rounds: nat, keys: seq<int>)
    requires cap >= 1 && keys == Rounds(cap, rounds)
    ensures AfterRounds(cap, rounds, Calls(cap, keys))
    decreases rounds
  {
    if rounds == 0 {
      NoRounds(cap);
    } else {
      var before := Rounds(cap, rounds - 1);
      RoundsAreAccepted(cap, rounds - 1, before);
      NextRound(cap, rounds - 1, before);
    }
  }

  lemma NoRounds(cap: nat)
    ensures AfterRounds(cap, 0, Calls(cap, []))
  {
  }

  lemma MoreOfRound(cap: nat, keys: seq<int>, n: nat)
    requires cap >= 1 && n <= cap
    requires Calls(cap, keys).emitted == {} || Calls(cap, keys).emitted == Below(cap)
    ensures |Calls(cap, keys + Upto(n)).accepted| == |Calls(cap, keys).accepted| + n
    ensures Occurrences(Calls(cap, keys + Upto(n)).accepted, 0) ==
            Occurrences(Calls(cap, keys).accepted, 0) + if n >= 1 then 1 else 0
    ensures n >= 1 ==> Calls(cap, keys + Upto(n)).emitted == Below(n)
  {
    RoundIsAccepted(cap, keys, n);
    UptoHasOneZero(n);
    OccurrencesConcat(Calls(cap, keys).accepted, Upto(n), 0);
  }

  /** For every n some run of n accepted calls accepts one key ceil(n / cap) times. */
  lemma DedupeBoundIsTight(cap: nat, n: nat) returns (keys: seq<int>)
    requires cap >= 1
    ensures |Calls(cap, keys).accepted| == n
    ensures Occurrences(Calls(cap, keys).accepted, 0) == CeilDiv(n, cap)
  {
    var rounds, rest := SplitIntoRounds(cap, n);
    keys := Rounds(cap, rounds) + Upto(rest);
    RoundsAreAccepted(cap, rounds, Rounds(cap, rounds));
    MoreOfRound(cap, Rounds(cap, rounds), rest);
  }

  lemma SplitIntoRounds(cap: nat, n: nat) returns (rounds: nat, rest: nat)
    requires cap >= 1
    ensures n == Times(cap, rounds) + rest && rest < cap
    ensures CeilDiv(n, cap) == rounds + if rest == 0 then 0 else 1
  {
    rounds, rest := n / cap, n % cap;
    TimesIsProduct(cap, rounds);
    DivideRounds(cap, rounds, rest);
  }
}
