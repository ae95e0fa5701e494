/** Idempotency records behind a cache and an expiring lock
    (backend/src/services/idempotency-service.ts).

    Any number of calls run interleaved; each `await` on Redis or the database is one
    atomic event. Nothing here relies on the lock: it may expire, a waiter may give up
    waiting, and every call deletes it on the way out whether it holds it or not. */
module Idempotency {

  import opened Basics

  type Key = string

  /** Texts held in Redis: the lock's '1', or a serialized result. */
  datatype Text = One | Json(value: string)

  datatype Status = Processing | Completed | Failed

  datatype Row = Row(id: nat, status: Status, result: Option<Text>, expiresAt: int)

  datatype Answer = Fresh(id: nat) | Duplicate(existing: Option<Text>) | Thrown

  datatype Call =
    | Reading(key: Key)                         // the cache
    | Locking(key: Key)
    | Waiting(key: Key)                         // for someone else's lock
    | Rechecking(key: Key)
    | Checking(key: Key)                        // inside try
    | Caching(key: Key, text: Text, id: nat)
    | Creating(key: Key)
    | Releasing(key: Key, answer: Answer)       // finally
    | Returned(key: Key, answer: Answer)
    | Publishing(key: Key, text: Text, id: nat) // complete: row updated, cache not yet

  /** `finals` remembers every non-null result a row was finished with. */
  datatype World = World(
    cacheEnabled: bool,
    rows: map<Key, Row>,
    redis: map<string, Text>,
    nextId: nat,
    calls: map<nat, Call>,
    finals: set<(Key, nat, Text)>)

  datatype Event =
    | Begin(call: nat, key: Key)                    // checkAndRecord
    | Await(call: nat, now: int, ttl: int, timedOut: bool) // its pending await takes effect
    | Reject(call: nat)                             // its pending await throws
    | Complete(call: nat, key: Key, text: Text)
    | Fail(key: Key, error: Option<Text>)
    | Expire(redisKey: string)                      // any Redis TTL
    | CleanupExpired(now: int)

  function CacheKey(k: Key): string { "idempotency:" + k }

  function LockKey(k: Key): string { "idempotency:lock:" + k }

  function Start(cacheEnabled: bool): World {
    World(cacheEnabled, map[], map[], 0, map[], {})
  }

  // ---------- One event ----------

  function Apply(w: World, e: Event): World {
    match e
    case Begin(c, k) =>
      if c in w.calls then w
      else w.(calls := w.calls[c := if w.cacheEnabled then Reading(k) else Locking(k)])
    case Await(c, now, ttl, timedOut) => if c in w.calls then Proceed(w, c, now, ttl, timedOut) else w
    case Reject(c) => if c in w.calls then w.(calls := w.calls[c := Rejected(w.calls[c])]) else w
    case Complete(c, k, text) =>
      if c in w.calls || k !in w.rows then w          // update of a missing row throws
      else
        var row := w.rows[k].(status := Completed, result := Some(text));
        w.(rows := w.rows[k := row], finals := w.finals + {(k, row.id, text)},
           calls := if w.cacheEnabled then w.calls[c := Publishing(k, text, row.id)] else w.calls)
    case Fail(k, error) =>
      if k !in w.rows then w
      else
        var row := w.rows[k].(status := Failed, result := error);
        w.(rows := w.rows[k := row],
           finals := if error.Some? then w.finals + {(k, row.id, error.value)} else w.finals)
    case Expire(r) => w.(redis := w.redis - {r})
    case CleanupExpired(now) =>
      w.(rows := map k | k in w.rows && !(w.rows[k].expiresAt < now) :: w.rows[k])
  }

  function Proceed(w: World, c: nat, now: int, ttl: int, timedOut: bool): World
    requires c in w.calls
  {
    match w.calls[c]
    case Reading(k) =>
      w.(calls := w.calls[c := if CacheKey(k) in w.redis
                               then Returned(k, Duplicate(Some(w.redis[CacheKey(k)]))) else Locking(k)])
    case Locking(k) =>
      if LockKey(k) in w.redis then w.(calls := w.calls[c := Waiting(k)])
      else w.(redis := w.redis[LockKey(k) := One], calls := w.calls[c := Checking(k)])
    case Waiting(k) =>
      if LockKey(k) in w.redis && !timedOut then w else w.(calls := w.calls[c := Rechecking(k)])
    case Rechecking(k) =>
      w.(calls := w.calls[c := if k in w.rows && w.rows[k].result.Some?
                               then Returned(k, Duplicate(w.rows[k].result)) else Checking(k)])
    case Checking(k) =>
      w.(calls := w.calls[c :=
        if k !in w.rows then Creating(k)
        else if w.cacheEnabled && w.rows[k].result.Some?
        then Caching(k, w.rows[k].result.value, w.rows[k].id)
        else Releasing(k, Duplicate(w.rows[k].result))])
    case Caching(k, text, _) =>
      w.(redis := w.redis[CacheKey(k) := text], calls := w.calls[c := Releasing(k, Duplicate(Some(text)))])
    case Creating(k) =>
      if k in w.rows then w.(calls := w.calls[c := Releasing(k, Thrown)])   // unique key
      else w.(rows := w.rows[k := Row(w.nextId, Processing, None, now + ttl)], nextId := w.nextId + 1,
              calls := w.calls[c := Releasing(k, Fresh(w.nextId))])
    case Releasing(k, answer) =>
      w.(redis := w.redis - {LockKey(k)}, calls := w.calls[c := Returned(k, answer)])
    case Returned(_, _) => w
    case Publishing(k, text, _) =>
      w.(redis := w.redis[CacheKey(k) := text], calls := w.calls - {c})
  }

  /** A throw inside `try` still runs `finally`; a throw in `finally` replaces the answer. */
  function Rejected(call: Call): Call {
    if call.Checking? || call.Caching? || call.Creating? then Releasing(call.key, Thrown)
    else if call.Returned? then call
    else Returned(call.key, Thrown)
  }

  function Run(w: World, es: seq<Event>): World
    decreases es
  {
    if es == [] then w else Run(Apply(w, es[0]), es[1..])
  }

  lemma {:induction false} RunSnoc(w: World, es: seq<Event>, e: Event)
    ensures Run(w, es + [e]) == Apply(Run(w, es), e)
    decreases es
  {
    if es == [] {
      assert es + [e] == [e];
    } else {
      assert (es + [e])[1..] == es[1..] + [e];
      RunSnoc(Apply(w, es[0]), es[1..], e);
    }
  }

  lemma {:induction false} RunAppend(w: World, es: seq<Event>, fs: seq<Event>)
    ensures Run(w, es + fs) == Run(Run(w, es), fs)
    decreases es
  {
    if es == [] {
      assert es + fs == fs;
    } else {
      assert (es + fs)[1..] == es[1..] + fs;
      RunAppend(Apply(w, es[0]), es[1..], fs);
    }
  }

  // ---------- At most one winner ----------

  /** The calls that were, or are about to be, told that the key is new. */
  ghost function Winners(w: World, k: Key): set<nat> {
    set c | c in w.calls && Won(w.calls[c], k)
  }

  ghost predicate Won(call: Call, k: Key) {
    (call.Releasing? || call.Returned?) && call.key == k && call.answer.Fresh?
  }

  function Present(w: World, k: Key): nat { if k in w.rows then 1 else 0 }

  /** How often a run deletes the row of `k`. */
  function Deletions(w: World, es: seq<Event>, k: Key): nat
    decreases es
  {
    if es == [] then 0
    else
      var w' := Apply(w, es[0]);
      (if k in w.rows && k !in w'.rows then 1 else 0) + Deletions(w', es[1..], k)
  }

  /** Only the insert adds a winner, and it needs the row to be absent. */
  lemma WinnersStep(w: World, e: Event, k: Key)
    ensures var w' := Apply(w, e);
      && Winners(w', k) <= Winners(w, k) + (if Present(w, k) < Present(w', k) then {e.call} else {})
      && (Present(w, k) < Present(w', k) ==> e.Await?)
  {
    match e
    case Begin(_, _) =>
    case Await(c, now, ttl, timedOut) => if c in w.calls { AwaitWinners(w, c, now, ttl, timedOut, k); }
    case Reject(_) =>
    case Complete(_, _, _) =>
    case Fail(_, _) =>
    case Expire(_) =>
    case CleanupExpired(_) =>
  }

  lemma AwaitWinners(w: World, c: nat, now: int, ttl: int, timedOut: bool, k: Key)
    requires c in w.calls
    ensures var w' := Proceed(w, c, now, ttl, timedOut);
      Winners(w', k) <= Winners(w, k) + (if Present(w, k) < Present(w', k) then {c} else {})
  {
    var w' := Proceed(w, c, now, ttl, timedOut);
    AwaitMovesOne(w, c, now, ttl, timedOut);
    assert forall d | d in Winners(w', k) && d != c :: d in Winners(w, k);
    if c in Winners(w', k) && c !in Winners(w, k) {
      assert w.calls[c].Creating?;
    }
  }

  lemma AtMostOneMore(before: set<nat>, mid: set<nat>, after: set<nat>, c: nat)
    requires after <= mid + {c}
    ensures |after - before| <= |mid - before| + 1
  {
    SubsetSize(after - before, (mid - before) + {c});
  }

  /** Main theorem. Over every interleaving, the number of calls newly told that `k` is
      fresh is at most the number of times its row was deleted, plus one if the row was
      absent before and is present now. With no cleanup of `k` that is at most one. */
  lemma {:induction false} AtMostOneWinner(w: World, es: seq<Event>, k: Key)
    ensures var w' := Run(w, es);
      |Winners(w', k) - Winners(w, k)| + Present(w, k) <= Present(w', k) + Deletions(w, es, k)
    ensures Deletions(w, es, k) == 0 ==> |Winners(Run(w, es), k) - Winners(w, k)| <= 1
    decreases |es|
  {
    if es != [] {
      var init, e := es[..|es| - 1], es[|es| - 1];
      assert es == init + [e];
      RunSnoc(w, init, e);
      DeletionsSnoc(w, init, e, k);
      AtMostOneWinner(w, init, k);
      var mid, w' := Run(w, init), Run(w, es);
      WinnersStep(mid, e, k);
      if Present(mid, k) < Present(w', k) {
        AtMostOneMore(Winners(w, k), Winners(mid, k), Winners(w', k), e.call);
      } else {
        SubsetSize(Winners(w', k) - Winners(w, k), Winners(mid, k) - Winners(w, k));
      }
    }
  }

  lemma {:induction false} DeletionsSnoc(w: World, es: seq<Event>, e: Event, k: Key)
    ensures Deletions(w, es + [e], k) == Deletions(w, es, k)
      + (if k in Run(w, es).rows && k !in Apply(Run(w, es), e).rows then 1 else 0)
    decreases es
  {
    if es == [] {
      assert es + [e] == [e];
    } else {
      assert (es + [e])[1..] == es[1..] + [e];
      DeletionsSnoc(Apply(w, es[0]), es[1..], e, k);
    }
  }

  // ---------- The cache answers as the database would ----------

  /** A cache entry and a lock share their Redis key exactly when the one idempotency key
      is "lock:" followed by the other. */
  lemma KeysCollideIff(a: Key, b: Key)
    ensures CacheKey(a) == LockKey(b) <==> a == "lock:" + b
    ensures CacheKey(a) == CacheKey(b) <==> a == b
    ensures LockKey(a) == LockKey(b) <==> a == b
  {
    assert LockKey(b) == "idempotency:" + ("lock:" + b);
    PrefixInjective("idempotency:", a, "lock:" + b);
    PrefixInjective("idempotency:", a, b);
    PrefixInjective("idempotency:lock:", a, b);
  }

  lemma PrefixInjective(p: string, a: string, b: string)
    ensures p + a == p + b <==> a == b
  {
    assert (p + a)[|p|..] == a && (p + b)[|p|..] == b;
  }

  ghost predicate LooksLikeLock(k: Key) { exists b: Key :: k == "lock:" + b }

  /** Nobody finishes a record twice, and nobody finishes one that is not there. */
  ghost predicate FinishedOnce(w: World, es: seq<Event>)
    decreases es
  {
    es == [] ||
    (FinishesOnce(w, es[0]) && FinishedOnce(Apply(w, es[0]), es[1..]))
  }

  /** Whatever is cached for `k`, or about to be, is the result some row of `k` was
      finished with; and a finished row keeps its result. */
  ghost predicate CacheInv(w: World, k: Key) {
    CachedIsFinal(w, k) && PendingIsFinal(w, k) && RowIsFinal(w, k) && FinalsStand(w, k)
  }

  ghost predicate CachedIsFinal(w: World, k: Key) {
    CacheKey(k) in w.redis ==> exists id :: (k, id, w.redis[CacheKey(k)]) in w.finals
  }

  ghost predicate PendingIsFinal(w: World, k: Key) {
    forall c | c in w.calls && (w.calls[c].Caching? || w.calls[c].Publishing?) && w.calls[c].key == k ::
      (k, w.calls[c].id, w.calls[c].text) in w.finals
  }

  ghost predicate RowIsFinal(w: World, k: Key) {
    k in w.rows ==>
      && w.rows[k].id < w.nextId
      && (w.rows[k].status == Processing ==> w.rows[k].result.None?)
      && (w.rows[k].result.Some? ==> (k, w.rows[k].id, w.rows[k].result.value) in w.finals)
  }

  ghost predicate FinalsStand(w: World, k: Key) {
    forall id, t | (k, id, t) in w.finals ::
      && id < w.nextId
      && (k in w.rows && w.rows[k].id == id ==> w.rows[k].result == Some(t) && w.rows[k].status != Processing)
  }

  /** Every finished row of `k` is still the row of `k`. */
  ghost predicate NoneGone(w: World, k: Key) {
    forall id, t | (k, id, t) in w.finals :: k in w.rows && w.rows[k].id == id
  }

  ghost predicate FinishesOnce(w: World, e: Event) {
    (e.Complete? || e.Fail?) ==> e.key in w.rows && w.rows[e.key].status == Processing
  }

  lemma CachedIsFinalStep(w: World, e: Event, k: Key)
    requires CachedIsFinal(w, k) && PendingIsFinal(w, k) && !LooksLikeLock(k)
    ensures CachedIsFinal(Apply(w, e), k)
  {
    var w', r := Apply(w, e), CacheKey(k);
    if r in w'.redis && !(r in w.redis && w'.redis[r] == w.redis[r]) {
      var call := w.calls[e.call];
      KeysCollideIff(k, call.key);
      assert (k, call.id, w'.redis[r]) in w'.finals;
    }
  }

  lemma PendingIsFinalStep(w: World, e: Event, k: Key)
    requires PendingIsFinal(w, k) && RowIsFinal(w, k)
    ensures PendingIsFinal(Apply(w, e), k)
  {
    if e.Await? && e.call in w.calls {
      AwaitPendingIsFinal(w, e.call, e.now, e.ttl, e.timedOut, k);
    }
  }

  lemma AwaitPendingIsFinal(w: World, c: nat, now: int, ttl: int, timedOut: bool, k: Key)
    requires c in w.calls && PendingIsFinal(w, k) && RowIsFinal(w, k)
    ensures PendingIsFinal(Proceed(w, c, now, ttl, timedOut), k)
  {
    var w' := Proceed(w, c, now, ttl, timedOut);
    AwaitMovesOne(w, c, now, ttl, timedOut);
    if c in w'.calls && (w'.calls[c].Caching? || w'.calls[c].Publishing?) {
      assert w.calls[c].Checking?;
    }
  }

  /** An await moves its own call only, and finishes no record. */
  lemma AwaitMovesOne(w: World, c: nat, now: int, ttl: int, timedOut: bool)
    requires c in w.calls
    ensures var w' := Proceed(w, c, now, ttl, timedOut);
      && w'.cacheEnabled == w.cacheEnabled && w'.finals == w.finals
      && forall d | d != c :: (d in w'.calls <==> d in w.calls) && (d in w.calls ==> w'.calls[d] == w.calls[d])
  {
    match w.calls[c]
    case Reading(_) =>
    case Locking(_) =>
    case Waiting(_) =>
    case Rechecking(_) =>
    case Checking(_) =>
    case Caching(_, _, _) =>
    case Creating(_) =>
    case Releasing(_, _) =>
    case Returned(_, _) =>
    case Publishing(_, _, _) =>
  }

  lemma RowIsFinalStep(w: World, e: Event, k: Key)
    requires RowIsFinal(w, k) && FinalsStand(w, k) && FinishesOnce(w, e)
    ensures RowIsFinal(Apply(w, e), k)
  {
  }

  lemma FinalsStandStep(w: World, e: Event, k: Key)
    requires RowIsFinal(w, k) && FinalsStand(w, k) && FinishesOnce(w, e)
    ensures FinalsStand(Apply(w, e), k)
  {
  }

  lemma NoneGoneStep(w: World, e: Event, k: Key)
    requires FinishesOnce(w, e)
    ensures NoneGone(w, k) && (k in w.rows ==> k in Apply(w, e).rows) ==> NoneGone(Apply(w, e), k)
  {
  }

  lemma CacheInvStep(w: World, e: Event, k: Key)
    requires CacheInv(w, k) && !LooksLikeLock(k) && FinishesOnce(w, e)
    ensures CacheInv(Apply(w, e), k)
    ensures NoneGone(w, k) && (k in w.rows ==> k in Apply(w, e).rows) ==> NoneGone(Apply(w, e), k)
  {
    CachedIsFinalStep(w, e, k);
    PendingIsFinalStep(w, e, k);
    RowIsFinalStep(w, e, k);
    FinalsStandStep(w, e, k);
    NoneGoneStep(w, e, k);
  }

  /** Main theorem. If records are finished once, then in every reachable state each
      cached entry is a final result of its own key; and as long as no record of the key
      was cleaned up, it is exactly the result stored in the database now. */
  lemma {:induction false} CacheAgreesWithDatabase(w: World, es: seq<Event>, k: Key)
    requires CacheInv(w, k) && NoneGone(w, k) && !LooksLikeLock(k)
    requires FinishedOnce(w, es)
    ensures var w' := Run(w, es);
      CacheKey(k) in w'.redis ==>
        && (exists id :: (k, id, w'.redis[CacheKey(k)]) in w'.finals)
        && (Deletions(w, es, k) == 0 ==> k in w'.rows && w'.rows[k].result == Some(w'.redis[CacheKey(k)]))
  {
    CacheInvRun(w, es, k);
  }

  lemma {:induction false} CacheInvRun(w: World, es: seq<Event>, k: Key)
    requires CacheInv(w, k) && !LooksLikeLock(k) && FinishedOnce(w, es)
    ensures CacheInv(Run(w, es), k)
    ensures NoneGone(w, k) && Deletions(w, es, k) == 0 ==> NoneGone(Run(w, es), k)
    decreases es
  {
    if es != [] {
      CacheInvStep(w, es[0], k);
      CacheInvRun(Apply(w, es[0]), es[1..], k);
    }
  }

  lemma StartIsCoherent(cacheEnabled: bool, k: Key)
    ensures CacheInv(Start(cacheEnabled), k) && NoneGone(Start(cacheEnabled), k)
  {
  }

  /** A call that runs alone on a free key wins it and leaves no lock behind. */
  lemma {:induction false} AloneWins(w: World, c: nat, k: Key, now: int, ttl: int)
    requires w.cacheEnabled && c !in w.calls && k !in w.rows
    requires CacheKey(k) !in w.redis && LockKey(k) !in w.redis
    ensures var a := Await(c, now, ttl, false);
      Run(w, [Begin(c, k), a, a, a, a, a]) ==
        w.(rows := w.rows[k := Row(w.nextId, Processing, None, now + ttl)], nextId := w.nextId + 1,
           calls := w.calls[c := Returned(k, Fresh(w.nextId))])
  {
    var a := Await(c, now, ttl, false);
    var w1 := Apply(w, Begin(c, k));
    var w2 := Apply(w1, a);
    var w3 := Apply(w2, a);
    var w4 := Apply(w3, a);
    var w5 := Apply(w4, a);
    var w6 := Apply(w5, a);
    Unroll([Begin(c, k), a, a, a, a, a], [w, w1, w2, w3, w4, w5, w6]);
    assert w6.redis == w.redis;
    assert w6.calls == w.calls[c := Returned(k, Fresh(w.nextId))];
  }

  /** Without the cleanup hypothesis the cache may lie: a result published after its row
      was cleaned up answers for the next record of the key, which is still processing. */
  lemma StaleAfterCleanup(k: Key, result: Text)
    ensures var a := Await(0, 0, 0, false);
            var b := Await(1, 9, 9, false);
            var es := [Begin(0, k), a, a, a, a, a]                         // call 0 wins
                    + [Complete(2, k, result), CleanupExpired(5)]          // cache write pending
                    + [Begin(1, k), b, b, b, b, b]                         // call 1 wins the next record
                    + [Await(2, 9, 9, false)];                             // the late cache write
            var w := Run(Start(true), es);
            && k in w.rows && w.rows[k].status == Processing && w.rows[k].result == None
            && CacheKey(k) in w.redis && w.redis[CacheKey(k)] == result
  {
    var a := Await(0, 0, 0, false);
    var b := Await(1, 9, 9, false);
    var es0, es1 := [Begin(0, k), a, a, a, a, a], [Complete(2, k, result), CleanupExpired(5)];
    var es2, es3 := [Begin(1, k), b, b, b, b, b], [Await(2, 9, 9, false)];
    var w0 := Start(true);
    var w1 := World(true, map[k := Row(0, Processing, None, 0)], map[], 1,
                    map[0 := Returned(k, Fresh(0))], {});
    AloneWins(w0, 0, k, 0, 0);
    assert Run(w0, es0) == w1;
    var w2 := World(true, map[], map[], 1,
                    map[0 := Returned(k, Fresh(0)), 2 := Publishing(k, result, 0)], {(k, 0, result)});
    CompleteThenCleanup(k, result);
    assert Run(w1, es1) == w2;
    AloneWins(w2, 1, k, 9, 9);
    var w3 := Run(w2, es2);
    assert w3.calls[2] == Publishing(k, result, 0);
    assert Run(w3, es3) == Apply(w3, Await(2, 9, 9, false));
    RunAppend(w0, es0, es1);
    RunAppend(w0, es0 + es1, es2);
    RunAppend(w0, es0 + es1 + es2, es3);
  }

  lemma CompleteThenCleanup(k: Key, result: Text)
    ensures Run(World(true, map[k := Row(0, Processing, None, 0)], map[], 1, map[0 := Returned(k, Fresh(0))], {}),
                [Complete(2, k, result), CleanupExpired(5)]) ==
            World(true, map[], map[], 1,
                  map[0 := Returned(k, Fresh(0)), 2 := Publishing(k, result, 0)], {(k, 0, result)})
  {
    var w1 := World(true, map[k := Row(0, Processing, None, 0)], map[], 1, map[0 := Returned(k, Fresh(0))], {});
    var w2 := Apply(w1, Complete(2, k, result));
    assert w2 == World(true, map[k := Row(0, Completed, Some(result), 0)], map[], 1,
                       map[0 := Returned(k, Fresh(0)), 2 := Publishing(k, result, 0)], {(k, 0, result)});
    var w3 := Apply(w2, CleanupExpired(5));
    Unroll([Complete(2, k, result), CleanupExpired(5)], [w1, w2, w3]);
  }

  /** A run listed state by state. */
  lemma {:induction false} Unroll(es: seq<Event>, ws: seq<World>)
    requires |ws| == |es| + 1
    requires forall i | 0 <= i < |es| :: ws[i + 1] == Apply(ws[i], es[i])
    ensures Run(ws[0], es) == ws[|es|]
    decreases es
  {
    if es != [] {
      var rest := ws[1..];
      forall i | 0 <= i < |es| - 1 ensures rest[i + 1] == Apply(rest[i], es[1..][i]) {
        assert es[1..][i] == es[i + 1];
      }
      Unroll(es[1..], rest);
      assert ws[1] == Apply(ws[0], es[0]);
    }
  }

  ghost predicate CacheMatches(w: World, k: Key) {
    CacheKey(k) in w.redis ==> k in w.rows && w.rows[k].result == Some(w.redis[CacheKey(k)])
  }

  /** Whatever happens from now on, the cache of `k` matches the database until the next
      deletion of a record of `k`. */
  ghost predicate StaysMatched(w: World, k: Key) { forall es :: MatchesAfter(w, es, k) }

  ghost predicate MatchesAfter(w: World, es: seq<Event>, k: Key) {
    FinishedOnce(w, es) && Deletions(w, es, k) == 0 ==> CacheMatches(Run(w, es), k)
  }

  /** A call is about to write the cache entry of `k`. */
  ghost predicate CacheWritePending(w: World, k: Key) {
    exists c :: c in w.calls && (w.calls[c].Caching? || w.calls[c].Publishing?) && w.calls[c].key == k
  }

  /** Every cached text of `k`, and every one about to be cached, is the stored result. */
  ghost predicate Agrees(w: World, k: Key) {
    && (CacheKey(k) in w.redis ==> HasResult(w, k, w.redis[CacheKey(k)]))
    && (forall c | c in w.calls && (w.calls[c].Caching? || w.calls[c].Publishing?) && w.calls[c].key == k ::
          HasResult(w, k, w.calls[c].text))
  }

  predicate HasResult(w: World, k: Key, text: Text) { k in w.rows && w.rows[k].result == Some(text) }

  /** A record that is still processing has no result. */
  predicate Sane(w: World, k: Key) { k in w.rows && w.rows[k].status == Processing ==> w.rows[k].result.None? }

  lemma AwaitAgrees(w: World, c: nat, now: int, ttl: int, timedOut: bool, k: Key)
    requires c in w.calls && Agrees(w, k) && Sane(w, k) && !LooksLikeLock(k)
    ensures Agrees(Proceed(w, c, now, ttl, timedOut), k) && Sane(Proceed(w, c, now, ttl, timedOut), k)
  {
    var w' := Proceed(w, c, now, ttl, timedOut);
    KeysCollideIff(k, w.calls[c].key);
    AwaitMovesOne(w, c, now, ttl, timedOut);
    assert forall text | HasResult(w, k, text) :: HasResult(w', k, text);
  }

  lemma AgreesStep(w: World, e: Event, k: Key)
    requires Agrees(w, k) && Sane(w, k) && !LooksLikeLock(k) && FinishesOnce(w, e)
    requires k in w.rows ==> k in Apply(w, e).rows
    ensures Agrees(Apply(w, e), k) && Sane(Apply(w, e), k)
  {
    if e.Await? && e.call in w.calls {
      AwaitAgrees(w, e.call, e.now, e.ttl, e.timedOut, k);
    }
  }

  lemma {:induction false} AgreesRun(w: World, es: seq<Event>, k: Key)
    requires Agrees(w, k) && Sane(w, k) && !LooksLikeLock(k) && FinishedOnce(w, es) && Deletions(w, es, k) == 0
    ensures Agrees(Run(w, es), k)
    decreases es
  {
    if es != [] {
      AgreesStep(w, es[0], k);
      AgreesRun(Apply(w, es[0]), es[1..], k);
    }
  }

  /** Exactly when the cache can be trusted from some moment on, whatever is there by then. */
  lemma StaysMatchedIff(w: World, k: Key)
    requires Sane(w, k) && !LooksLikeLock(k)
    ensures StaysMatched(w, k) <==> Agrees(w, k)
  {
    if Agrees(w, k) {
      forall es ensures MatchesAfter(w, es, k) {
        if FinishedOnce(w, es) && Deletions(w, es, k) == 0 {
          AgreesRun(w, es, k);
        }
      }
    } else if CacheKey(k) in w.redis && !HasResult(w, k, w.redis[CacheKey(k)]) {
      var es: seq<Event> := [];
      assert Run(w, es) == w && FinishedOnce(w, es) && Deletions(w, es, k) == 0;
      assert !MatchesAfter(w, es, k);
    } else {
      var c :| c in w.calls && (w.calls[c].Caching? || w.calls[c].Publishing?) && w.calls[c].key == k
               && !HasResult(w, k, w.calls[c].text);
      var es := [Await(c, 0, 0, false)];
      assert es[1..] == [];
      assert Run(w, es) == Apply(w, es[0]);
      NothingFinished(w, es, k);
      assert !MatchesAfter(w, es, k);
    }
  }

  /** With no record of `k`, that is so exactly if nothing of `k` is cached or about to be. */
  lemma AbsentRowIsSafeIff(w: World, k: Key)
    requires k !in w.rows && !LooksLikeLock(k)
    ensures StaysMatched(w, k) <==> CacheKey(k) !in w.redis && !CacheWritePending(w, k)
  {
    StaysMatchedIff(w, k);
  }

  /** What a complete or fail writes as the result of its record. */
  function Outcome(e: Event): Option<Text>
    requires e.Complete? || e.Fail?
  {
    if e.Complete? then Some(e.text) else e.error
  }

  /** Which complete or fail is harmless, on a record finished before or not: the cache can
      still be trusted afterwards exactly if nothing of the key is cached or about to be, or
      the result does not change. */
  lemma FinishingIsHarmlessIff(w: World, e: Event, k: Key)
    requires (e.Complete? && e.call !in w.calls) || e.Fail?
    requires e.key == k && k in w.rows && Sane(w, k) && !LooksLikeLock(k) && StaysMatched(w, k)
    ensures StaysMatched(Apply(w, e), k)
       <==> (CacheKey(k) !in w.redis && !CacheWritePending(w, k)) || w.rows[k].result == Outcome(e)
  {
    StaysMatchedIff(w, k);
    StaysMatchedIff(Apply(w, e), k);
    var w' := Apply(w, e);
    if CacheWritePending(w, k) {
      var c :| c in w.calls && (w.calls[c].Caching? || w.calls[c].Publishing?) && w.calls[c].key == k;
      assert HasResult(w, k, w.calls[c].text);
      assert w'.calls[c] == w.calls[c];
    }
  }

  /** Which cleanups are harmless: deleting an expired record of `k` lets the cache answer
      for a later one exactly if its result is still cached, or about to be. */
  lemma CleanupIsHarmlessIff(w: World, now: int, k: Key)
    requires k in w.rows && w.rows[k].expiresAt < now && !LooksLikeLock(k)
    ensures StaysMatched(Apply(w, CleanupExpired(now)), k)
       <==> CacheKey(k) !in w.redis && !CacheWritePending(w, k)
  {
    AbsentRowIsSafeIff(Apply(w, CleanupExpired(now)), k);
  }

  /** A key that begins with "lock:" breaks it too: it is answered as a duplicate, with the
      lock's own text, while another key's lock is held and no record exists at all. */
  lemma LockIsMistakenForResult(k: Key)
    ensures var a := Await(0, 0, 0, false);
            var es := [Begin(0, k), a, a, Begin(1, "lock:" + k), Await(1, 0, 0, false)];
            var w := Run(Start(true), es);
            && w.rows == map[] && CacheKey("lock:" + k) in w.redis
            && 1 in w.calls && w.calls[1] == Returned("lock:" + k, Duplicate(Some(One)))
  {
    KeysCollideIff("lock:" + k, k);
    var a := Await(0, 0, 0, false);
    var w0 := Start(true);
    var w1 := Apply(w0, Begin(0, k));
    var w2 := Apply(w1, a);
    var w3 := Apply(w2, a);
    var w4 := Apply(w3, Begin(1, "lock:" + k));
    var w5 := Apply(w4, Await(1, 0, 0, false));
    Unroll([Begin(0, k), a, a, Begin(1, "lock:" + k), Await(1, 0, 0, false)], [w0, w1, w2, w3, w4, w5]);
  }

  /** So the cache of a key that is never cleaned up can be trusted exactly when the key
      does not begin with "lock:". */
  lemma CacheIsTrustedIff(k: Key)
    ensures StaysMatched(Start(true), k) <==> !LooksLikeLock(k)
  {
    if LooksLikeLock(k) {
      var b: Key :| k == "lock:" + b;
      LockIsMistakenForResult(b);
      var a := Await(0, 0, 0, false);
      var es := [Begin(0, b), a, a, Begin(1, k), Await(1, 0, 0, false)];
      NothingFinished(Start(true), es, k);
      assert !MatchesAfter(Start(true), es, k);
    } else {
      AbsentRowIsSafeIff(Start(true), k);
    }
  }

  lemma {:induction false} NothingFinished(w: World, es: seq<Event>, k: Key)
    requires forall e | e in es :: !e.Complete? && !e.Fail? && !e.CleanupExpired?
    ensures FinishedOnce(w, es) && Deletions(w, es, k) == 0
    decreases es
  {
    if es != [] {
      assert es[0] in es;
      NothingFinished(Apply(w, es[0]), es[1..], k);
    }
  }

  // ---------- The service ----------

  predicate Involves(e: Event, c: nat) {
    (e.Begin? || e.Await? || e.Reject? || e.Complete?) && e.call == c
  }

  /** Of call `c`, the trace holds its start and effects of its own awaits only. */
  ghost predicate OwnEvents(trace: seq<Event>, c: nat, k: Key) {
    forall e | e in trace && Involves(e, c) :: e == Begin(c, k) || e.Await?
  }

  lemma OtherKeepsCall(w: World, e: Event, c: nat)
    requires c in w.calls && !Involves(e, c)
    ensures c in Apply(w, e).calls && Apply(w, e).calls[c] == w.calls[c]
    ensures Apply(w, e).cacheEnabled == w.cacheEnabled
  {
    if e.Await? && e.call in w.calls {
      AwaitKeepsCall(w, e.call, e.now, e.ttl, e.timedOut, c);
    }
  }

  lemma AwaitKeepsCall(w: World, d: nat, now: int, ttl: int, timedOut: bool, c: nat)
    requires d in w.calls && c in w.calls && c != d
    ensures var w' := Proceed(w, d, now, ttl, timedOut);
      c in w'.calls && w'.calls[c] == w.calls[c] && w'.cacheEnabled == w.cacheEnabled
  {
    AwaitMovesOne(w, d, now, ttl, timedOut);
  }

  lemma {:induction false} OthersKeepCall(w: World, es: seq<Event>, c: nat)
    requires c in w.calls && forall e | e in es :: !Involves(e, c)
    ensures c in Run(w, es).calls && Run(w, es).calls[c] == w.calls[c]
    ensures Run(w, es).cacheEnabled == w.cacheEnabled
    decreases es
  {
    if es != [] {
      assert es[0] in es;
      OtherKeepsCall(w, es[0], c);
      OthersKeepCall(Apply(w, es[0]), es[1..], c);
    }
  }

  /** What the others do is not done by call `c`. */
  ghost predicate Spares(others: nat -> seq<Event>, c: nat) { forall n: nat, e | e in others(n) :: !Involves(e, c) }

  /** `n` rounds of the wait loop, with what the others do before each poll. */
  function Polls(others: nat -> seq<Event>, c: nat, now: int, ttl: int, n: nat): seq<Event> {
    if n == 0 then [] else Polls(others, c, now, ttl, n - 1) + others(n + 1) + [Await(c, now, ttl, false)]
  }

  /** Poll number `m` finds the lock still there. */
  ghost predicate LockSeen(start: World, others: nat -> seq<Event>, c: nat, k: Key, now: int, ttl: int, m: nat) {
    LockKey(k) in Run(start, Polls(others, c, now, ttl, m) + others(m + 2)).redis
  }

  /** After `n` polls that all found the lock. */
  ghost predicate InWait(w: World, start: World, trace: seq<Event>, others: nat -> seq<Event>,
                         c: nat, k: Key, now: int, ttl: int, n: nat)
  {
    && trace == Polls(others, c, now, ttl, n) && w == Run(start, trace) && OwnEvents(trace, c, k)
    && forall m: nat | m < n :: LockSeen(start, others, c, k, now, ttl, m)
  }

  /** What findExisting answers: a record without a result counts as none. */
  ghost predicate Rechecks(w: World, k: Key, known: Option<Answer>) {
    known == if k in w.rows && w.rows[k].result.Some? then Some(Duplicate(w.rows[k].result)) else None
  }

  class IdempotencyService {
    const cacheEnabled: bool
    var rows: map<Key, Row>
    var redis: map<string, Text>
    var nextId: nat
    var calls: map<nat, Call>
    var finals: set<(Key, nat, Text)>

    constructor (cacheEnabled: bool)
      ensures View() == Start(cacheEnabled)
    {
      this.cacheEnabled := cacheEnabled;
      rows, redis, nextId, calls, finals := map[], map[], 0, map[], {};
    }

    function View(): World
      reads this
    {
      World(cacheEnabled, rows, redis, nextId, calls, finals)
    }

    /** What every other call and timer does while call `c` is suspended. */
    method Others(es: seq<Event>, c: nat)
      requires c in calls
      requires forall e | e in es :: !Involves(e, c)
      modifies this
      ensures View() == Run(old(View()), es)
      ensures c in calls && calls[c] == old(calls[c])
    {
      var w := Run(View(), es);
      OthersKeepCall(View(), es, c);
      rows, redis, nextId, calls, finals := w.rows, w.redis, w.nextId, w.calls, w.finals;
    }

    /** checkAndRecord, run by call `c`. Before its n-th await the others perform
        `others(n)`; the wait for the lock polls at most `polls` times. Whatever they do,
        the whole execution is a run of the machine in which `c` ends with this answer. */
    method CheckAndRecord(c: nat, k: Key, now: int, ttl: int, others: nat -> seq<Event>, polls: nat)
      returns (answer: Answer, ghost trace: seq<Event>)
      requires c !in calls
      requires Spares(others, c)
      modifies this
      ensures View() == Run(old(View()), trace)
      ensures c in calls && calls[c] == Returned(k, answer)
      ensures OwnEvents(trace, c, k)
    {
      ghost var start, more := View(), [];
      trace := [Begin(c, k)];
      calls := calls[c := if cacheEnabled then Reading(k) else Locking(k)];
      assert View() == Run(start, trace);
      var known: Option<Answer> := None;
      if cacheEnabled {
        known := ReadCache(c, k, now, ttl, others(0));
        trace := Joined(start, trace, others(0) + [Await(c, now, ttl, false)], c, k);
      }
      if known.None? {
        known, more := AcquireLock(c, k, now, ttl, others, polls);
        trace := Joined(start, trace, more, c, k);
      }
      if known.None? {
        answer, more := CheckAndCreate(c, k, now, ttl, others(polls + 4), others(polls + 5));
        trace := Joined(start, trace, more, c, k);
        ReleaseLock(c, k, answer, now, ttl, others(polls + 6));
        trace := Joined(start, trace, others(polls + 6) + [Await(c, now, ttl, false)], c, k);
      } else {
        answer := known.value;
      }
    }

    /** Two stretches of one execution. */
    ghost method Joined(start: World, a: seq<Event>, b: seq<Event>, c: nat, k: Key) returns (trace: seq<Event>)
      requires View() == Run(Run(start, a), b) && OwnEvents(a, c, k) && OwnEvents(b, c, k)
      ensures trace == a + b && View() == Run(start, trace) && OwnEvents(trace, c, k)
    {
      RunAppend(start, a, b);
      trace := a + b;
    }

    method ReadCache(c: nat, k: Key, now: int, ttl: int, meanwhile: seq<Event>) returns (known: Option<Answer>)
      requires c in calls && calls[c] == Reading(k)
      requires forall e | e in meanwhile :: !Involves(e, c)
      modifies this
      ensures var w := Run(old(View()), meanwhile);
        && known == (if CacheKey(k) in w.redis then Some(Duplicate(Some(w.redis[CacheKey(k)]))) else None)
        && View() == w.(calls := w.calls[c := if known.Some? then Returned(k, known.value) else Locking(k)])
      ensures View() == Run(old(View()), meanwhile + [Await(c, now, ttl, false)])
    {
      Others(meanwhile, c);
      RunSnoc(old(View()), meanwhile, Await(c, now, ttl, false));
      if CacheKey(k) in redis {
        known := Some(Duplicate(Some(redis[CacheKey(k)])));
        calls := calls[c := Returned(k, known.value)];
      } else {
        known := None;
        calls := calls[c := Locking(k)];
      }
    }

    /** The one `SET NX`. */
    method TryLock(c: nat, k: Key, now: int, ttl: int, meanwhile: seq<Event>) returns (acquired: bool)
      requires c in calls && calls[c] == Locking(k)
      requires forall e | e in meanwhile :: !Involves(e, c)
      modifies this
      ensures var w := Run(old(View()), meanwhile);
        && (acquired <==> LockKey(k) !in w.redis)
        && View() == if acquired
                     then w.(redis := w.redis[LockKey(k) := One], calls := w.calls[c := Checking(k)])
                     else w.(calls := w.calls[c := Waiting(k)])
      ensures View() == Run(old(View()), meanwhile + [Await(c, now, ttl, false)])
    {
      Others(meanwhile, c);
      RunSnoc(old(View()), meanwhile, Await(c, now, ttl, false));
      acquired := LockKey(k) !in redis;
      if acquired {
        redis := redis[LockKey(k) := One];
        calls := calls[c := Checking(k)];
      } else {
        calls := calls[c := Waiting(k)];
      }
    }

    /** The lock, or the wait and the second look at the database. */
    method AcquireLock(c: nat, k: Key, now: int, ttl: int, others: nat -> seq<Event>, polls: nat)
      returns (known: Option<Answer>, ghost trace: seq<Event>)
      requires c in calls && calls[c] == Locking(k)
      requires Spares(others, c)
      modifies this
      ensures View() == Run(old(View()), trace) && OwnEvents(trace, c, k)
      ensures c in calls && calls[c] == if known.Some? then Returned(k, known.value) else Checking(k)
      ensures var w := Run(old(View()), others(1));
        LockKey(k) !in w.redis ==>
          known.None? && View() == w.(redis := w.redis[LockKey(k) := One], calls := w.calls[c := Checking(k)])
      ensures LockKey(k) in Run(old(View()), others(1)).redis ==>
        exists before :: Rechecks(Run(old(View()), before), k, known) && trace == before + [Await(c, now, ttl, false)]
    {
      ghost var start := View();
      var acquired := TryLock(c, k, now, ttl, others(1));
      trace := others(1) + [Await(c, now, ttl, false)];
      known := None;
      if !acquired {
        ghost var first, before, more := trace, [], [];
        known, before, more := WaitAndRecheck(c, k, now, ttl, others, polls);
        trace := Joined(start, first, more, c, k);
        RunAppend(start, first, before);
        assert trace == (first + before) + [Await(c, now, ttl, false)];
      }
    }

    method WaitAndRecheck(c: nat, k: Key, now: int, ttl: int, others: nat -> seq<Event>, polls: nat)
      returns (known: Option<Answer>, ghost before: seq<Event>, ghost trace: seq<Event>)
      requires c in calls && calls[c] == Waiting(k)
      requires Spares(others, c)
      modifies this
      ensures View() == Run(old(View()), trace) && OwnEvents(trace, c, k)
      ensures c in calls && calls[c] == if known.Some? then Returned(k, known.value) else Checking(k)
      ensures Rechecks(Run(old(View()), before), k, known) && trace == before + [Await(c, now, ttl, false)]
    {
      var released, n;
      released, n, trace := WaitForLockRelease(c, k, now, ttl, others, polls);
      ghost var waited := trace;
      known := Recheck(c, k, now, ttl, others(polls + 3));
      RunAppend(old(View()), waited, others(polls + 3));
      before := waited + others(polls + 3);
      trace := Joined(old(View()), waited, others(polls + 3) + [Await(c, now, ttl, false)], c, k);
      assert trace == before + [Await(c, now, ttl, false)];
    }

    method Recheck(c: nat, k: Key, now: int, ttl: int, meanwhile: seq<Event>) returns (known: Option<Answer>)
      requires c in calls && calls[c] == Rechecking(k)
      requires forall e | e in meanwhile :: !Involves(e, c)
      modifies this
      ensures var w := Run(old(View()), meanwhile);
        && Rechecks(w, k, known)
        && View() == w.(calls := w.calls[c := if known.Some? then Returned(k, known.value) else Checking(k)])
      ensures View() == Run(old(View()), meanwhile + [Await(c, now, ttl, false)])
    {
      known := None;
      Others(meanwhile, c);
      RunSnoc(old(View()), meanwhile, Await(c, now, ttl, false));
      if k in rows && rows[k].result.Some? {
        known := Some(Duplicate(rows[k].result));
        calls := calls[c := Returned(k, known.value)];
      } else {
        calls := calls[c := Checking(k)];
      }
    }

    /** The lookup inside `try`, and what follows from it. */
    method CheckAndCreate(c: nat, k: Key, now: int, ttl: int, first: seq<Event>, second: seq<Event>)
      returns (answer: Answer, ghost trace: seq<Event>)
      requires c in calls && calls[c] == Checking(k)
      requires forall e | e in first || e in second :: !Involves(e, c)
      modifies this
      ensures View() == Run(old(View()), trace) && OwnEvents(trace, c, k)
      ensures c in calls && calls[c] == Releasing(k, answer)
      ensures var a := Await(c, now, ttl, false);
        var w := Run(old(View()), first);
        var w' := Run(old(View()), first + [a] + second);
        && (k in w.rows ==> answer == Duplicate(w.rows[k].result))
        && (k !in w.rows ==> answer == if k in w'.rows then Thrown else Fresh(w'.nextId))
        && trace == (if k in w.rows && !(cacheEnabled
          && w.rows[k].result.Some?) then first + [a] else first + [a] + second + [a])
    {
      ghost var start, a := View(), Await(c, now, ttl, false);
      var existing := FindRecord(c, k, now, ttl, first);
      trace := first + [a];
      match existing
      case None =>
        RunAppend(start, trace, second);
        answer := CreateRecord(c, k, now, ttl, second);
        trace := Joined(start, trace, second + [a], c, k);
        assert trace == first + [a] + second + [a];
      case Some(result) =>
        answer := Duplicate(result);
        if cacheEnabled && result.Some? {
          RefreshCache(c, k, result.value, now, ttl, second);
          trace := Joined(start, trace, second + [a], c, k);
          assert trace == first + [a] + second + [a];
        }
    }

    /** findUnique inside `try`: the result column of the record, if there is one. */
    method FindRecord(c: nat, k: Key, now: int, ttl: int, meanwhile: seq<Event>)
      returns (existing: Option<Option<Text>>)
      requires c in calls && calls[c] == Checking(k)
      requires forall e | e in meanwhile :: !Involves(e, c)
      modifies this
      ensures var w := Run(old(View()), meanwhile);
        && existing == (if k in w.rows then Some(w.rows[k].result) else None)
        && View() == w.(calls := w.calls[c :=
             if existing.None? then Creating(k)
             else if cacheEnabled && existing.value.Some? then Caching(k, existing.value.value, w.rows[k].id)
             else Releasing(k, Duplicate(existing.value))])
      ensures View() == Run(old(View()), meanwhile + [Await(c, now, ttl, false)])
    {
      OthersKeepCall(View(), meanwhile, c);
      Others(meanwhile, c);
      RunSnoc(old(View()), meanwhile, Await(c, now, ttl, false));
      if k !in rows {
        existing := None;
        calls := calls[c := Creating(k)];
      } else {
        existing := Some(rows[k].result);
        calls := calls[c := if cacheEnabled && rows[k].result.Some?
                            then Caching(k, rows[k].result.value, rows[k].id)
                            else Releasing(k, Duplicate(rows[k].result))];
      }
    }

    method RefreshCache(c: nat, k: Key, text: Text, now: int, ttl: int, meanwhile: seq<Event>)
      requires c in calls && calls[c].Caching? && calls[c].key == k && calls[c].text == text
      requires forall e | e in meanwhile :: !Involves(e, c)
      modifies this
      ensures var w := Run(old(View()), meanwhile);
        View() == w.(redis := w.redis[CacheKey(k) := text], calls := w.calls[c := Releasing(k, Duplicate(Some(text)))])
      ensures View() == Run(old(View()), meanwhile + [Await(c, now, ttl, false)])
    {
      Others(meanwhile, c);
      RunSnoc(old(View()), meanwhile, Await(c, now, ttl, false));
      redis := redis[CacheKey(k) := text];
      calls := calls[c := Releasing(k, Duplicate(Some(text)))];
    }

    method CreateRecord(c: nat, k: Key, now: int, ttl: int, meanwhile: seq<Event>) returns (answer: Answer)
      requires c in calls && calls[c] == Creating(k)
      requires forall e | e in meanwhile :: !Involves(e, c)
      modifies this
      ensures var w := Run(old(View()), meanwhile);
        && answer == (if k in w.rows then Thrown else Fresh(w.nextId))
        && View() == if k in w.rows then w.(calls := w.calls[c := Releasing(k, answer)])
                     else w.(rows := w.rows[k := Row(w.nextId, Processing, None, now + ttl)],
                             nextId := w.nextId + 1, calls := w.calls[c := Releasing(k, answer)])
      ensures View() == Run(old(View()), meanwhile + [Await(c, now, ttl, false)])
    {
      Others(meanwhile, c);
      RunSnoc(old(View()), meanwhile, Await(c, now, ttl, false));
      if k in rows {
        answer := Thrown;
      } else {
        answer := Fresh(nextId);
        rows, nextId := rows[k := Row(nextId, Processing, None, now + ttl)], nextId + 1;
      }
      calls := calls[c := Releasing(k, answer)];
    }

    /** The `finally` block; it deletes whatever lock is there. */
    method ReleaseLock(c: nat, k: Key, answer: Answer, now: int, ttl: int, meanwhile: seq<Event>)
      requires c in calls && calls[c] == Releasing(k, answer)
      requires forall e | e in meanwhile :: !Involves(e, c)
      modifies this
      ensures var w := Run(old(View()), meanwhile);
        View() == w.(redis := w.redis - {LockKey(k)}, calls := w.calls[c := Returned(k, answer)])
      ensures View() == Run(old(View()), meanwhile + [Await(c, now, ttl, false)])
    {
      Others(meanwhile, c);
      RunSnoc(old(View()), meanwhile, Await(c, now, ttl, false));
      redis := redis - {LockKey(k)};
      calls := calls[c := Returned(k, answer)];
    }

    /** One `EXISTS` of the wait loop. */
    method Poll(c: nat, k: Key, now: int, ttl: int, meanwhile: seq<Event>) returns (gone: bool)
      requires c in calls && calls[c] == Waiting(k)
      requires forall e | e in meanwhile :: !Involves(e, c)
      modifies this
      ensures var w := Run(old(View()), meanwhile);
        && (gone <==> LockKey(k) !in w.redis)
        && View() == if gone then w.(calls := w.calls[c := Rechecking(k)]) else w
      ensures View() == Run(old(View()), meanwhile + [Await(c, now, ttl, false)])
      ensures c in calls && calls[c] == if gone then Rechecking(k) else Waiting(k)
    {
      Others(meanwhile, c);
      RunSnoc(old(View()), meanwhile, Await(c, now, ttl, false));
      gone := LockKey(k) !in redis;
      if gone {
        calls := calls[c := Rechecking(k)];
      }
    }

    /** The wait loop: it ends at the first poll that finds the lock gone, and after `polls`
        polls in any case; `n` is how many it made. */
    method WaitForLockRelease(c: nat, k: Key, now: int, ttl: int, others: nat -> seq<Event>, polls: nat)
      returns (released: bool, n: nat, ghost trace: seq<Event>)
      requires c in calls && calls[c] == Waiting(k)
      requires Spares(others, c)
      modifies this
      ensures View() == Run(old(View()), trace) && OwnEvents(trace, c, k)
      ensures c in calls && calls[c] == Rechecking(k)
      ensures released ==> 0 < n <= polls && LockKey(k) !in redis
      ensures !released ==> n == polls
      ensures trace == Polls(others, c, now, ttl, n) + (if released then [] else [Await(c, now, ttl, true)])
      ensures forall m: nat | m < if released then n - 1 else n :: LockSeen(old(View()), others, c, k, now, ttl, m)
    {
      trace, n, released := [], 0, false;
      while n < polls
        invariant n <= polls && InWait(View(), old(View()), trace, others, c, k, now, ttl, n)
        invariant c in calls && calls[c] == Waiting(k)
      {
        ghost var before := View();
        released := Poll(c, k, now, ttl, others(n + 2));
        trace := PollLogged(old(View()), before, trace, others, c, k, now, ttl, n);
        n := n + 1;
        if released { return; }
      }
      RunSnoc(old(View()), trace, Await(c, now, ttl, true));
      calls := calls[c := Rechecking(k)];
      trace := trace + [Await(c, now, ttl, true)];
    }

    ghost method PollLogged(start: World, before: World, trace: seq<Event>, others: nat -> seq<Event>,
                            c: nat, k: Key, now: int, ttl: int, n: nat) returns (longer: seq<Event>)
      requires InWait(before, start, trace, others, c, k, now, ttl, n)
      requires forall e | e in others(n + 2) :: !Involves(e, c)
      requires View() == Run(before, others(n + 2) + [Await(c, now, ttl, false)])
      ensures longer == Polls(others, c, now, ttl, n + 1) && View() == Run(start, longer) && OwnEvents(longer, c, k)
      ensures forall m: nat | m < n :: LockSeen(start, others, c, k, now, ttl, m)
      ensures LockKey(k) in Run(before, others(n + 2)).redis ==>
        InWait(View(), start, longer, others, c, k, now, ttl, n + 1)
    {
      RunAppend(start, trace, others(n + 2));
      longer := Joined(start, trace, others(n + 2) + [Await(c, now, ttl, false)], c, k);
      assert longer == trace + others(n + 2) + [Await(c, now, ttl, false)];
    }

    method Complete(c: nat, k: Key, text: Text) returns (ok: bool)
      requires c !in calls
      modifies this
      ensures ok <==> k in old(rows)
      ensures cacheEnabled ==> View() == Run(old(View()), [Event.Complete(c, k, text), Await(c, 0, 0, false)])
      ensures !cacheEnabled ==> View() == Apply(old(View()), Event.Complete(c, k, text))
    {
      ok := k in rows;
      ghost var w0 := View();
      ghost var w1 := Apply(w0, Event.Complete(c, k, text));
      if ok {
        finals := finals + {(k, rows[k].id, text)};
        rows := rows[k := rows[k].(status := Completed, result := Some(text))];
        if cacheEnabled {
          redis := redis[CacheKey(k) := text];
          assert calls == calls[c := Publishing(k, text, rows[k].id)] - {c};
        }
      }
      Unroll([Event.Complete(c, k, text), Await(c, 0, 0, false)], [w0, w1, Apply(w1, Await(c, 0, 0, false))]);
    }

    method Fail(k: Key, error: Option<Text>) returns (ok: bool)
      modifies this
      ensures ok <==> k in old(rows)
      ensures View() == Apply(old(View()), Event.Fail(k, error))
    {
      ok := k in rows;
      if ok {
        if error.Some? { finals := finals + {(k, rows[k].id, error.value)}; }
        rows := rows[k := rows[k].(status := Failed, result := error)];
      }
    }
  }
}
