/** The sliding-window rate limiter of the edge agent (edge-agent/server.js, lines 94-142).

    The log kept per client is pruned at every request and dropped by a background timer;
    the specification never forgets a request. */
module RateLimiter {

  import opened Basics

  type Client = string

  /** Admitted with so many requests left, or refused with status 429 (section 4 of
      RFC 6585) and the whole seconds to wait; with a limit of zero or less there is no
      request to wait for, and the seconds are not a number. */
  datatype Decision = Admit(remaining: int) | Refuse(retryAfter: Option<int>)

  // ---------- The specification: nothing is ever forgotten ----------

  /** The admitted times later than `start`, in order. */
  function Since(times: seq<int>, start: int): (r: seq<int>)
    ensures |r| <= |times|
    ensures forall t | t in r :: t in times && t > start
  {
    if times == [] then []
    else if times[0] > start then [times[0]] + Since(times[1..], start)
    else Since(times[1..], start)
  }

  /** The decision on a client whose full history of admitted requests is `history`. */
  function Decide(window: int, limit: int, history: seq<int>, now: int): Decision {
    Verdict(Since(history, now - window), limit, now - window)
  }

  function Verdict(recent: seq<int>, limit: int, windowStart: int): Decision {
    if |recent| < limit then Admit(limit - |recent| - 1)
    else if recent == [] then Refuse(None)
    else Refuse(Some(CeilingSeconds(recent[0] - windowStart)))
  }

  function CeilingSeconds(ms: int): int { (ms + 999) / 1000 }

  predicate Sorted(times: seq<int>) { forall i, j | 0 <= i < j < |times| :: times[i] <= times[j] }

  function Log(histories: map<Client, seq<int>>, c: Client): seq<int> {
    if c in histories then histories[c] else []
  }

  // ---------- Facts about windows ----------

  lemma {:induction false} SinceAppend(a: seq<int>, b: seq<int>, start: int)
    ensures Since(a + b, start) == Since(a, start) + Since(b, start)
  {
    if a == [] {
      assert a + b == b;
    } else {
      assert (a + b)[1..] == a[1..] + b;
      SinceAppend(a[1..], b, start);
    }
  }

  lemma {:induction false} SinceLater(times: seq<int>, early: int, late: int)
    requires early <= late
    ensures Since(Since(times, early), late) == Since(times, late)
  {
    if times != [] {
      SinceLater(times[1..], early, late);
      var rest := Since(times[1..], early);
      if times[0] > early {
        assert ([times[0]] + rest)[1..] == rest;
      }
    }
  }

  lemma {:induction false} SinceAll(times: seq<int>, start: int)
    requires forall i | 0 <= i < |times| :: times[i] > start
    ensures Since(times, start) == times
  {
    if times != [] {
      SinceAll(times[1..], start);
    }
  }

  lemma {:induction false} SinceNone(times: seq<int>, start: int)
    requires forall i | 0 <= i < |times| :: times[i] <= start
    ensures Since(times, start) == []
  {
    if times != [] {
      SinceNone(times[1..], start);
    }
  }

  /** In a sorted log the recent requests are a suffix. */
  lemma {:induction false} SinceSorted(times: seq<int>, start: int)
    requires Sorted(times)
    ensures Sorted(Since(times, start))
    ensures |Since(times, start)| <= |times| && Since(times, start) == times[|times| - |Since(times, start)|..]
  {
    if times != [] {
      SinceSorted(times[1..], start);
      if times[0] > start {
        SinceAll(times, start);
        assert times[0..] == times;
      } else {
        var k := |Since(times[1..], start)|;
        assert times[1..][|times| - 1 - k..] == times[|times| - k..];
      }
    }
  }

  // ---------- The window bound ----------

  /** The admitted times are those the limiter let through, one by one. */
  ghost predicate Admissible(window: int, limit: int, history: seq<int>) {
    forall i | 0 <= i < |history| :: Decide(window, limit, history[..i], history[i]).Admit?
  }

  lemma AdmissiblePrefix(window: int, limit: int, init: seq<int>, last: int)
    requires Admissible(window, limit, init + [last])
    ensures Admissible(window, limit, init) && Decide(window, limit, init, last).Admit?
  {
    var h, n := init + [last], |init|;
    assert h[..n] == init && h[n] == last;
    forall i | 0 <= i < n ensures Decide(window, limit, init[..i], init[i]).Admit? {
      assert init[..i] == h[..i] && init[i] == h[i];
    }
  }

  /** Main theorem: no window of `window` milliseconds, wherever it is placed, holds more
      than `limit` admitted requests of a client, and none if `limit` is not positive. */
  lemma {:induction false} AnyWindowHoldsAtMostLimit(window: int, limit: int, history: seq<int>, start: int)
    requires Sorted(history) && Admissible(window, limit, history)
    ensures |Since(history, start)| - |Since(history, start + window)| <= Max(0, limit)
    decreases |history|
  {
    if history != [] {
      var n := |history| - 1;
      var init, last := history[..n], history[n];
      assert history == init + [last];
      AdmissiblePrefix(window, limit, init, last);
      AnyWindowHoldsAtMostLimit(window, limit, init, start);
      SinceAppend(init, [last], start);
      SinceAppend(init, [last], start + window);
      if start < last <= start + window {
        SinceMonotone(init, last - window, start);
        SinceNone(init, start + window);
      }
    }
  }

  lemma {:induction false} SinceMonotone(times: seq<int>, early: int, late: int)
    requires early <= late
    ensures |Since(times, late)| <= |Since(times, early)|
  {
    if times != [] {
      SinceMonotone(times[1..], early, late);
    }
  }

  // ---------- The advertised wait ----------

  /** A refused client that comes back after `s` whole seconds, with nothing admitted in
      between, is let in exactly when `s` is at least the advertised number: the wait is
      sufficient, and no shorter whole number of seconds is. A limit of zero admits nothing,
      ever. */
  lemma AdvertisedWaitIsExact(window: int, limit: int, history: seq<int>, now: int, s: int)
    requires Sorted(history) && Admissible(window, limit, history) && s >= 0
    requires forall i | 0 <= i < |history| :: history[i] <= now
    requires Decide(window, limit, history, now).Refuse?
    ensures Decide(window, limit, history, now + 1000 * s).Admit?
       <==> var wait := Decide(window, limit, history, now).retryAfter;
            wait.Some? && s >= wait.value
  {
    var recent, later := Since(history, now - window), now + 1000 * s - window;
    RecentAtRefusal(window, limit, history, now, later);
    if limit <= 0 {
    } else if recent[0] > later {
      SinceAll(recent, later);
    } else {
      assert recent == [recent[0]] + recent[1..];
      assert |Since(recent[1..], later)| <= limit - 1;
    }
  }

  lemma RecentAtRefusal(window: int, limit: int, history: seq<int>, now: int, later: int)
    requires Sorted(history) && Admissible(window, limit, history) && later >= now - window
    requires forall i | 0 <= i < |history| :: history[i] <= now
    requires Decide(window, limit, history, now).Refuse?
    ensures var recent := Since(history, now - window);
      |recent| == Max(0, limit) && Sorted(recent) && Since(history, later) == Since(recent, later)
  {
    RecentIsFull(window, limit, history, now);
    SinceLater(history, now - window, later);
    SinceSorted(history, now - window);
  }

  lemma RecentIsFull(window: int, limit: int, history: seq<int>, now: int)
    requires Sorted(history) && Admissible(window, limit, history)
    requires forall i | 0 <= i < |history| :: history[i] <= now
    ensures |Since(history, now - window)| <= Max(0, limit)
  {
    AnyWindowHoldsAtMostLimit(window, limit, history, now - window);
    SinceNone(history, now);
  }

  // ---------- The store ----------

  /** A client's pruned log and its full history agree on every window that can still be
      asked about. */
  ghost predicate FaithfulLog(log: seq<int>, history: seq<int>, window: int, limit: int, clock: int) {
    && SameWindow(log, history, window, clock)
    && Admissible(window, limit, history)
    && |Since(history, clock - window)| <= Max(0, limit)
  }

  ghost predicate SameWindow(log: seq<int>, history: seq<int>, window: int, clock: int) {
    && Sorted(log) && Sorted(history)
    && (forall i | 0 <= i < |log| :: log[i] <= clock)
    && (forall i | 0 <= i < |history| :: history[i] <= clock)
    && Since(log, clock - window) == Since(history, clock - window)
  }

  lemma TimePasses(log: seq<int>, history: seq<int>, window: int, limit: int, clock: int, now: int)
    requires clock <= now && FaithfulLog(log, history, window, limit, clock)
    ensures FaithfulLog(log, history, window, limit, now)
  {
    SinceLater(log, clock - window, now - window);
    SinceLater(history, clock - window, now - window);
    SinceMonotone(history, clock - window, now - window);
  }

  lemma Pruned(log: seq<int>, history: seq<int>, window: int, limit: int, now: int)
    requires FaithfulLog(log, history, window, limit, now)
    ensures FaithfulLog(Since(log, now - window), history, window, limit, now)
  {
    SameWindowPruned(log, history, window, now);
  }

  lemma SameWindowPruned(log: seq<int>, history: seq<int>, window: int, now: int)
    requires SameWindow(log, history, window, now)
    ensures SameWindow(Since(log, now - window), history, window, now)
  {
    SinceSorted(log, now - window);
    SinceLater(log, now - window, now - window);
    SinceBounded(log, now - window, now);
  }

  lemma SinceBounded(times: seq<int>, start: int, clock: int)
    requires forall i | 0 <= i < |times| :: times[i] <= clock
    ensures forall i | 0 <= i < |Since(times, start)| :: Since(times, start)[i] <= clock
  {
    var r := Since(times, start);
    forall i | 0 <= i < |r| ensures r[i] <= clock {
      assert r[i] in r;
    }
  }

  /** The timer drops a log whose last request is older than two windows. */
  predicate Idle(log: seq<int>, window: int, now: int) { log == [] || log[|log| - 1] < now - window * 2 }

  lemma Dropped(log: seq<int>, history: seq<int>, window: int, limit: int, now: int)
    requires FaithfulLog(log, history, window, limit, now)
    requires Idle(log, window, now)
    ensures FaithfulLog([], history, window, limit, now)
  {
    SinceNone(log, now - window);
  }

  lemma Recorded(log: seq<int>, history: seq<int>, window: int, limit: int, now: int)
    requires FaithfulLog(log, history, window, limit, now)
    requires |Since(history, now - window)| < limit
    ensures FaithfulLog(log + [now], history + [now], window, limit, now)
  {
    SinceAppend(history, [now], now - window);
    assert |Since([now], now - window)| <= 1;
    SameWindowAppend(log, history, window, now);
    AdmissibleAppend(window, limit, history, now);
  }

  lemma SameWindowAppend(log: seq<int>, history: seq<int>, window: int, now: int)
    requires SameWindow(log, history, window, now)
    ensures SameWindow(log + [now], history + [now], window, now)
  {
    SinceAppend(log, [now], now - window);
    SinceAppend(history, [now], now - window);
    SortedAppend(log, now);
    SortedAppend(history, now);
  }

  lemma SortedAppend(times: seq<int>, now: int)
    requires Sorted(times) && forall i | 0 <= i < |times| :: times[i] <= now
    ensures Sorted(times + [now])
    ensures forall i | 0 <= i < |times + [now]| :: (times + [now])[i] <= now
  {
  }

  lemma AdmissibleAppend(window: int, limit: int, history: seq<int>, now: int)
    requires Admissible(window, limit, history) && Decide(window, limit, history, now).Admit?
    ensures Admissible(window, limit, history + [now])
  {
    var h := history + [now];
    assert h[..|history|] == history;
    assert forall i | 0 <= i < |history| :: h[..i] == history[..i];
  }

  ghost predicate AllFaithful(store: map<Client, seq<int>>, histories: map<Client, seq<int>>,
                              window: int, limit: int, clock: int)
  {
    forall c: Client :: FaithfulLog(Log(store, c), Log(histories, c), window, limit, clock)
  }

  lemma ClockMoves(store: map<Client, seq<int>>, histories: map<Client, seq<int>>,
                   window: int, limit: int, clock: int, now: int)
    requires AllFaithful(store, histories, window, limit, clock) && clock <= now
    ensures AllFaithful(store, histories, window, limit, now)
  {
    forall c: Client ensures FaithfulLog(Log(store, c), Log(histories, c), window, limit, now) {
      TimePasses(Log(store, c), Log(histories, c), window, limit, clock, now);
    }
  }

  lemma OneClientChanges(store: map<Client, seq<int>>, histories: map<Client, seq<int>>,
                         window: int, limit: int, now: int, c: Client, log: seq<int>, history: seq<int>)
    requires AllFaithful(store, histories, window, limit, now) && FaithfulLog(log, history, window, limit, now)
    ensures AllFaithful(store[c := log], histories[c := history], window, limit, now)
  {
    var store', histories' := store[c := log], histories[c := history];
    forall d: Client ensures FaithfulLog(Log(store', d), Log(histories', d), window, limit, now) {
      assert d != c ==> Log(store', d) == Log(store, d) && Log(histories', d) == Log(histories, d);
    }
  }

  lemma OneClientLeaves(store: map<Client, seq<int>>, histories: map<Client, seq<int>>,
                        window: int, limit: int, now: int, c: Client)
    requires AllFaithful(store, histories, window, limit, now) && c in store && Idle(store[c], window, now)
    ensures AllFaithful(store - {c}, histories, window, limit, now)
  {
    var store' := store - {c};
    Dropped(store[c], Log(histories, c), window, limit, now);
    forall d: Client ensures FaithfulLog(Log(store', d), Log(histories, d), window, limit, now) {
      assert d != c ==> Log(store', d) == Log(store, d);
    }
  }

  lemma SameLogs(store: map<Client, seq<int>>, histories: map<Client, seq<int>>, histories': map<Client, seq<int>>,
                 window: int, limit: int, now: int)
    requires AllFaithful(store, histories, window, limit, now)
    requires forall c: Client :: Log(histories', c) == Log(histories, c)
    ensures AllFaithful(store, histories', window, limit, now)
  {
    forall d: Client ensures FaithfulLog(Log(store, d), Log(histories', d), window, limit, now) {
      assert Log(histories', d) == Log(histories, d);
    }
  }

  lemma OneRequest(log: seq<int>, history: seq<int>, window: int, limit: int, now: int)
    requires FaithfulLog(log, history, window, limit, now)
    ensures var recent := Since(log, now - window);
      && Decide(window, limit, history, now) == Verdict(recent, limit, now - window)
      && FaithfulLog(recent, history, window, limit, now)
      && (|recent| < limit ==> FaithfulLog(recent + [now], history + [now], window, limit, now))
  {
    var recent := Since(log, now - window);
    Pruned(log, history, window, limit, now);
    if |recent| < limit {
      Recorded(recent, history, window, limit, now);
    }
  }

  lemma RequestRefused(store: map<Client, seq<int>>, histories: map<Client, seq<int>>,
                       window: int, limit: int, now: int, c: Client, recent: seq<int>)
    requires AllFaithful(store, histories, window, limit, now)
    requires FaithfulLog(recent, Log(histories, c), window, limit, now)
    ensures AllFaithful(store[c := recent], histories, window, limit, now)
  {
    OneClientChanges(store, histories, window, limit, now, c, recent, Log(histories, c));
    SameLogs(store[c := recent], histories[c := Log(histories, c)], histories, window, limit, now);
  }

  /** What one request finds and leaves. */
  lemma RequestHandled(store: map<Client, seq<int>>, histories: map<Client, seq<int>>,
                       window: int, limit: int, clock: int, now: int, c: Client)
    requires AllFaithful(store, histories, window, limit, clock) && clock <= now
    ensures var history := Log(histories, c);
            var recent := Since(Log(store, c), now - window);
      && Decide(window, limit, history, now) == Verdict(recent, limit, now - window)
      && AllFaithful(store[c := recent], histories, window, limit, now)
      && (|recent| < limit ==>
            AllFaithful(store[c := recent + [now]], histories[c := history + [now]], window, limit, now))
  {
    var history, recent := Log(histories, c), Since(Log(store, c), now - window);
    ClockMoves(store, histories, window, limit, clock, now);
    OneRequest(Log(store, c), history, window, limit, now);
    RequestRefused(store, histories, window, limit, now, c, recent);
    if |recent| < limit {
      OneClientChanges(store, histories, window, limit, now, c, recent + [now], history + [now]);
    }
  }

  class RateLimiter {
    const window: int
    const limit: int
    var store: map<Client, seq<int>>
    ghost var histories: map<Client, seq<int>>
    ghost var clock: int

    ghost predicate Valid()
      reads this
    {
      AllFaithful(store, histories, window, limit, clock)
    }

    constructor (window: int, limit: int)
      ensures Valid() && this.window == window && this.limit == limit && histories == map[] && clock == 0
    {
      this.window, this.limit := window, limit;
      store, histories, clock := map[], map[], 0;
    }

    /** The middleware decides as the never-forgetting specification does. */
    method Handle(client: Client, now: int) returns (d: Decision)
      requires Valid() && clock <= now
      modifies this
      ensures Valid() && clock == now
      ensures d == Decide(window, limit, Log(old(histories), client), now)
      ensures histories == if d.Admit?
        then old(histories)[client := Log(old(histories), client) + [now]] else old(histories)
    {
      RequestHandled(store, histories, window, limit, clock, now, client);
      var requests := Log(store, client);
      clock := now;
      var recent := Since(requests, now - window);
      if |recent| >= limit {
        store := store[client := recent];
        if recent == [] { return Refuse(None); }
        return Refuse(Some(CeilingSeconds(recent[0] - (now - window))));
      }
      store := store[client := recent + [now]];
      histories := histories[client := Log(histories, client) + [now]];
      return Admit(limit - |recent| - 1);
    }

    /** The interval timer: dropping idle clients changes no later decision. */
    method Cleanup(now: int)
      requires Valid() && clock <= now
      modifies this
      ensures Valid() && clock == now && histories == old(histories)
      ensures store.Keys == set c | c in old(store) && !Idle(old(store)[c], window, now)
      ensures forall c | c in store :: store[c] == old(store)[c]
    {
      ClockMoves(store, histories, window, limit, clock, now);
      clock := now;
      var entries := store.Keys;
      while entries != {}
        invariant Valid() && clock == now && histories == old(histories)
        invariant entries <= store.Keys <= old(store).Keys
        invariant forall c | c in store :: store[c] == old(store)[c]
        invariant forall c | c in old(store) && c !in entries ::
          c in store <==> !Idle(old(store)[c], window, now)
        decreases |entries|
      {
        var c :| c in entries;
        entries := entries - {c};
        var requests := store[c];
        if |requests| == 0 || requests[|requests| - 1] < now - window * 2 {
          OneClientLeaves(store, histories, window, limit, now, c);
          store := store - {c};
        }
      }
    }
  }
}
