/**
 Debouncing of recall-request signals.

 A buffer of (timestamp, signal) events is reduced to the set of signal
 identifiers that occur at least three times inside a time window anchored at
 the timestamp of the LAST buffered event. The window test is app.py's
 `now - timestamp <= threshold`: it is inclusive, and, for a
 non-negative window, an event stamped after the anchor gives a negative
 difference and so also lies in the window.
 */
module Debouncer {

  /** One buffered event: a timestamp in milliseconds and a signal identifier. */
  datatype SignalEvent = SignalEvent(timestamp: int, signal: string)

  /** The window width used when the caller gives none. */
  const DefaultThresholdMs: int := 200

  /** A buffer shorter than this confirms nothing. */
  const MinBufferLength: nat := 3

  /** How many in-window occurrences confirm a signal. */
  const Confirmations: nat := 3

  /** The anchor ("now") of the window: the timestamp of the last event. */
  function Anchor(buffer: seq<SignalEvent>): int
    requires |buffer| > 0
  {
    buffer[|buffer| - 1].timestamp
  }

  /** The window test, as written: inclusive, and, for a non-negative window, unbounded towards the future. */
  predicate IsRecent(now: int, timestamp: int, thresholdMs: int)
  {
    now - timestamp <= thresholdMs
  }

  /** Position `i` of the buffer holds `id` and lies in the window anchored at `now`. */
  ghost predicate Witness(buffer: seq<SignalEvent>, now: int, thresholdMs: int, id: string, i: int)
  {
    0 <= i < |buffer| && buffer[i].signal == id && IsRecent(now, buffer[i].timestamp, thresholdMs)
  }

  /** Reference definition: the positions of the in-window events that carry `id`. */
  ghost function WindowIndices(buffer: seq<SignalEvent>, now: int, thresholdMs: int, id: string): set<int>
  {
    set i | 0 <= i < |buffer| && Witness(buffer, now, thresholdMs, id, i)
  }

  /** The in-window positions of a buffer are those of its prefix plus, possibly, the last position. */
  lemma WindowIndicesSnoc(buffer: seq<SignalEvent>, now: int, thresholdMs: int, id: string)
    requires |buffer| > 0
    ensures var n := |buffer| - 1;
      WindowIndices(buffer, now, thresholdMs, id)
      == WindowIndices(buffer[..n], now, thresholdMs, id)
         + (if Witness(buffer, now, thresholdMs, id, n) then {n} else {})
  {
    var n := |buffer| - 1;
    var prefix := buffer[..n];
    forall i | 0 <= i < n
      ensures Witness(buffer, now, thresholdMs, id, i) == Witness(prefix, now, thresholdMs, id, i)
    {
      assert buffer[i] == prefix[i];
    }
  }

  /**
   The signals of the in-window events, in buffer order (the list
   comprehension at app.py:28). Each identifier occurs in the result
   exactly as often as it occurs in the window.
   */
  function RecentSignals(buffer: seq<SignalEvent>, now: int, thresholdMs: int): (recent: seq<string>)
    ensures |recent| <= |buffer|
    ensures forall id :: multiset(recent)[id] == |WindowIndices(buffer, now, thresholdMs, id)|
  {
    if |buffer| == 0 then
      []
    else
      var n := |buffer| - 1;
      var last := buffer[n];
      var recent := RecentSignals(buffer[..n], now, thresholdMs)
                    + (if IsRecent(now, last.timestamp, thresholdMs) then [last.signal] else []);
      assert forall id :: multiset(recent)[id] == |WindowIndices(buffer, now, thresholdMs, id)| by {
        forall id
          ensures multiset(recent)[id] == |WindowIndices(buffer, now, thresholdMs, id)|
        {
          WindowIndicesSnoc(buffer, now, thresholdMs, id);
          assert n !in WindowIndices(buffer[..n], now, thresholdMs, id);
        }
      }
      recent
  }

  /**
   Occurrence counting (the `Counter` at app.py:29): the keys are exactly
   the identifiers that occur, each mapped to its number of occurrences.
   */
  function Tally(signals: seq<string>): (counts: map<string, nat>)
    ensures forall id :: id in counts <==> id in signals
    ensures forall id :: id in counts ==> counts[id] == multiset(signals)[id]
  {
    if |signals| == 0 then
      map[]
    else
      var n := |signals| - 1;
      var prefix := signals[..n];
      var last := signals[n];
      var counts := Tally(prefix);
      assert signals == prefix + [last];
      assert forall id :: id in signals <==> id in prefix || id == last;
      counts[last := (if last in counts then counts[last] else 0) + 1]
  }

  /**
   The debouncer. A buffer shorter than three events confirms nothing;
   otherwise an identifier is confirmed exactly when at least three events
   carrying it lie in the window anchored at the last event, and every
   confirmed identifier occurs in the buffer. Being a set, the result holds
   each identifier once.
   */
  function AcquireRecallRequests(buffer: seq<SignalEvent>, thresholdMs: int): (confirmed: set<string>)
    ensures |buffer| < MinBufferLength ==> confirmed == {}
    ensures forall id :: id in confirmed <==>
      |buffer| >= MinBufferLength
      && |WindowIndices(buffer, Anchor(buffer), thresholdMs, id)| >= Confirmations
    ensures forall id :: id in confirmed ==> exists i :: 0 <= i < |buffer| && buffer[i].signal == id
  {
    if |buffer| < MinBufferLength then
      {}
    else
      var recent := RecentSignals(buffer, Anchor(buffer), thresholdMs);
      var counts := Tally(recent);
      var confirmed := set id | id in counts && counts[id] >= Confirmations;
      assert forall id :: id in confirmed ==> exists i :: 0 <= i < |buffer| && buffer[i].signal == id by {
        forall id | id in confirmed
          ensures exists i :: 0 <= i < |buffer| && buffer[i].signal == id
        {
          var w := WindowIndices(buffer, Anchor(buffer), thresholdMs, id);
          assert |w| > 0;
          var i :| i in w;
          assert buffer[i].signal == id;
        }
      }
      confirmed
  }

  /** The debouncer with app.py's default window of 200 ms. */
  function AcquireWithDefaultWindow(buffer: seq<SignalEvent>): (confirmed: set<string>)
    ensures forall id :: id in confirmed <==>
      |buffer| >= MinBufferLength
      && |WindowIndices(buffer, Anchor(buffer), DefaultThresholdMs, id)| >= Confirmations
  {
    AcquireRecallRequests(buffer, DefaultThresholdMs)
  }

  /** Three distinct in-window events carrying one identifier confirm it. */
  lemma ThreeWitnessesConfirm(buffer: seq<SignalEvent>, thresholdMs: int, id: string, i: int, j: int, k: int)
    requires |buffer| > 0
    requires i != j && j != k && i != k
    requires Witness(buffer, Anchor(buffer), thresholdMs, id, i)
    requires Witness(buffer, Anchor(buffer), thresholdMs, id, j)
    requires Witness(buffer, Anchor(buffer), thresholdMs, id, k)
    ensures id in AcquireRecallRequests(buffer, thresholdMs)
  {
    var w := WindowIndices(buffer, Anchor(buffer), thresholdMs, id);
    var three := {i, j, k};
    assert three <= w;
    assert |three| == 3;
    SubsetCard(three, w);
  }

  /**
   The in-window positions carrying `id`, in increasing order: as many as the
   reference set holds, each a witness.
   */
  function WindowPositions(buffer: seq<SignalEvent>, now: int, thresholdMs: int, id: string): (positions: seq<int>)
    ensures |positions| == |WindowIndices(buffer, now, thresholdMs, id)|
    ensures forall k :: 0 <= k < |positions| ==> Witness(buffer, now, thresholdMs, id, positions[k])
    ensures forall k, l :: 0 <= k < l < |positions| ==> positions[k] < positions[l]
  {
    if |buffer| == 0 then
      []
    else
      var n := |buffer| - 1;
      var last := buffer[n];
      var earlier := WindowPositions(buffer[..n], now, thresholdMs, id);
      WindowIndicesSnoc(buffer, now, thresholdMs, id);
      assert n !in WindowIndices(buffer[..n], now, thresholdMs, id);
      assert forall k :: 0 <= k < |earlier| ==> earlier[k] < n && buffer[earlier[k]] == buffer[..n][earlier[k]];
      if last.signal == id && IsRecent(now, last.timestamp, thresholdMs) then earlier + [n] else earlier
  }

  /**
   Conversely, a confirmed identifier has three distinct in-window events in
   the buffer, at increasing positions.
   */
  lemma ConfirmedHasThreeWitnesses(buffer: seq<SignalEvent>, thresholdMs: int, id: string)
    requires id in AcquireRecallRequests(buffer, thresholdMs)
    ensures |buffer| >= MinBufferLength
    ensures exists i, j, k ::
      (i < j < k
       && Witness(buffer, Anchor(buffer), thresholdMs, id, i)
       && Witness(buffer, Anchor(buffer), thresholdMs, id, j)
       && Witness(buffer, Anchor(buffer), thresholdMs, id, k))
  {
    var positions := WindowPositions(buffer, Anchor(buffer), thresholdMs, id);
    assert positions[0] < positions[1] < positions[2];
    assert Witness(buffer, Anchor(buffer), thresholdMs, id, positions[0]);
    assert Witness(buffer, Anchor(buffer), thresholdMs, id, positions[1]);
    assert Witness(buffer, Anchor(buffer), thresholdMs, id, positions[2]);
  }

  /**
   Events outside the window never change the verdict: putting in front of a
   non-empty buffer any events that lie outside its window leaves the
   confirmed set as it is. This holds also when the added events lift a
   buffer of one or two events over the length guard: the window still holds
   fewer than three events, so nothing is confirmed either way.
   */
  lemma StaleEventsIgnored(stale: seq<SignalEvent>, buffer: seq<SignalEvent>, thresholdMs: int)
    requires |buffer| > 0
    requires forall e :: e in stale ==> !IsRecent(Anchor(buffer), e.timestamp, thresholdMs)
    ensures AcquireRecallRequests(stale + buffer, thresholdMs) == AcquireRecallRequests(buffer, thresholdMs)
  {
    assert Anchor(stale + buffer) == Anchor(buffer);
    RecentSignalsSkipStale(stale, buffer, Anchor(buffer), thresholdMs);
    if |buffer| < MinBufferLength {
      var recent := RecentSignals(buffer, Anchor(buffer), thresholdMs);
      forall id
        ensures id !in AcquireRecallRequests(stale + buffer, thresholdMs)
      {
        MultiplicityAtMostLength(recent, id);
      }
    }
  }

  /** No element occurs in a sequence more often than the sequence is long. */
  lemma MultiplicityAtMostLength<T>(s: seq<T>, x: T)
    ensures multiset(s)[x] <= |s|
  {
  }

  /** Out-of-window events in front of a buffer contribute nothing to its in-window signals. */
  lemma {:induction false} RecentSignalsSkipStale(stale: seq<SignalEvent>, buffer: seq<SignalEvent>, now: int, thresholdMs: int)
    requires forall e :: e in stale ==> !IsRecent(now, e.timestamp, thresholdMs)
    ensures RecentSignals(stale + buffer, now, thresholdMs) == RecentSignals(buffer, now, thresholdMs)
    decreases |buffer|
  {
    if |buffer| == 0 {
      assert stale + buffer == stale;
      NothingRecent(stale, now, thresholdMs);
    } else {
      var n := |buffer| - 1;
      assert (stale + buffer)[..|stale + buffer| - 1] == stale + buffer[..n];
      RecentSignalsSkipStale(stale, buffer[..n], now, thresholdMs);
    }
  }

  /** A buffer with no event in the window has no in-window signals. */
  lemma {:induction false} NothingRecent(events: seq<SignalEvent>, now: int, thresholdMs: int)
    requires forall e :: e in events ==> !IsRecent(now, e.timestamp, thresholdMs)
    ensures RecentSignals(events, now, thresholdMs) == []
  {
    if |events| > 0 {
      var n := |events| - 1;
      assert events[n] in events;
      assert forall e :: e in events[..n] ==> e in events;
      NothingRecent(events[..n], now, thresholdMs);
    }
  }

  /** The window is inclusive: an event exactly one window width before the anchor still counts. */
  lemma InclusiveEdgeCounts()
    ensures "A" in AcquireRecallRequests([SignalEvent(0, "A"), SignalEvent(0, "A"), SignalEvent(200, "A")], 200)
  {
    ThreeWitnessesConfirm([SignalEvent(0, "A"), SignalEvent(0, "A"), SignalEvent(200, "A")], 200, "A", 0, 1, 2);
  }

  /** An event one millisecond older than the window width drops out, leaving too few to confirm. */
  lemma JustOutsideDropsOut()
    ensures "A" !in AcquireRecallRequests([SignalEvent(0, "A"), SignalEvent(1, "A"), SignalEvent(201, "A")], 200)
  {
    var tooOld := [SignalEvent(0, "A"), SignalEvent(1, "A"), SignalEvent(201, "A")];
    assert !Witness(tooOld, 201, 200, "A", 0);
    assert Witness(tooOld, 201, 200, "A", 1) && Witness(tooOld, 201, 200, "A", 2);
    assert WindowIndices(tooOld, Anchor(tooOld), 200, "A") == {1, 2};
  }

  /**
   With a non-negative window, events stamped after the anchor give a
   negative difference and count, however far ahead they are: here three events stamped seconds after the
   last one confirm their signal.
   */
  lemma FutureEventsCount()
    ensures "F" in AcquireRecallRequests(
      [SignalEvent(5000, "F"), SignalEvent(6000, "F"), SignalEvent(7000, "F"), SignalEvent(0, "X")], 200)
  {
    ThreeWitnessesConfirm(
      [SignalEvent(5000, "F"), SignalEvent(6000, "F"), SignalEvent(7000, "F"), SignalEvent(0, "X")],
      200, "F", 0, 1, 2);
  }

  /**
   For every buffer and every non-negative window: an event stamped at or
   after the anchor lies in the window, however far ahead it is.
   */
  lemma FutureEventInWindow(buffer: seq<SignalEvent>, thresholdMs: int, i: int)
    requires 0 <= thresholdMs
    requires 0 <= i < |buffer|
    requires buffer[i].timestamp >= Anchor(buffer)
    ensures i in WindowIndices(buffer, Anchor(buffer), thresholdMs, buffer[i].signal)
  {
  }

  /** For every buffer and window: an event exactly one window width before the anchor lies in the window. */
  lemma WindowEdgeInside(buffer: seq<SignalEvent>, thresholdMs: int, i: int)
    requires 0 <= i < |buffer|
    requires buffer[i].timestamp == Anchor(buffer) - thresholdMs
    ensures i in WindowIndices(buffer, Anchor(buffer), thresholdMs, buffer[i].signal)
  {
  }

  /** For every buffer and window: an event one millisecond older than the window width lies outside it. */
  lemma WindowEdgeOutside(buffer: seq<SignalEvent>, thresholdMs: int, i: int, id: string)
    requires 0 <= i < |buffer|
    requires buffer[i].timestamp == Anchor(buffer) - thresholdMs - 1
    ensures i !in WindowIndices(buffer, Anchor(buffer), thresholdMs, id)
  {
  }

  /** A subset is no larger than its superset. */
  lemma SubsetCard<T>(a: set<T>, b: set<T>)
    requires a <= b
    ensures |a| <= |b|
  {
    assert b == a + (b - a);
  }
}
