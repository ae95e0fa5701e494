/** Coalescing of concurrent requests (src/lib/deduplication.ts).

    `deduplicate` runs up to the await of the factory in one piece; each factory run ends in
    a later event. A run that was dropped from the in-flight map keeps going, and its end
    touches whatever entry its key has by then. */
module Deduplication {

  import opened Basics

  type Key = string
  type Value = string

  /** Entries are inserted in the order of their runs. */
  datatype Entry = Entry(run: nat, timestamp: int, subscribers: nat)

  datatype Cached = Cached(value: Value, timestamp: int)

  /** What a caller gets: a stored result, or the promise of a run. */
  datatype Promise = Stored(value: Value) | Joined(run: nat) | Started(run: nat)

  datatype State = State(
    ttl: int,
    maxInFlight: int,
    inFlight: map<Key, Entry>,
    completed: map<Key, Cached>,
    running: map<nat, Key>,                 // factory runs that have not ended
    owner: map<nat, Key>,                   // the key of every run ever started
    finished: set<(Key, Value, int)>,       // every successful end: key, result, time
    drops: multiset<Key>,                   // entries evicted, invalidated or cleaned up
    nextRun: nat)

  function Start(ttl: int, maxInFlight: int): State {
    State(ttl, maxInFlight, map[], map[], map[], map[], {}, multiset{}, 0)
  }

  datatype Event =
    | Call(key: Key, now: int, throws: bool, victim: Key)  // `throws`: the factory throws before its first await
    | End(run: nat, ok: bool, value: Value, now: int)
    | Cleanup(now: int)
    | Invalidate(keys: set<Key>)                           // invalidate, invalidatePattern, clear

  // ---------- One event ----------

  predicate Hit(s: State, k: Key, now: int) { k in s.completed && now - s.completed[k].timestamp < s.ttl }

  predicate Full(s: State) { |s.inFlight| >= s.maxInFlight && s.inFlight != map[] }

  /** First of the in-flight entries in ascending order of timestamps, the sort being stable. */
  predicate IsOldest(inFlight: map<Key, Entry>, k: Key) {
    k in inFlight && forall j | j in inFlight ::
      inFlight[k].timestamp < inFlight[j].timestamp
      || (inFlight[k].timestamp == inFlight[j].timestamp && inFlight[k].run <= inFlight[j].run)
  }

  function DropCount(s: State, k: Key): nat { s.drops[k] }

  /** Entries leave the map while their runs may go on. */
  function Drop(s: State, keys: set<Key>): State {
    s.(inFlight := s.inFlight - keys,
       drops := s.drops + multiset(keys * s.inFlight.Keys))
  }

  function Begin(s: State, k: Key, now: int, throws: bool): State {
    s.(inFlight := s.inFlight[k := Entry(s.nextRun, now, 1)],
       running := if throws then s.running else s.running[s.nextRun := k],
       owner := s.owner[s.nextRun := k],
       nextRun := s.nextRun + 1)
  }

  function Stale(s: State, now: int): set<Key> {
    set k | k in s.inFlight && now - s.inFlight[k].timestamp > s.ttl * 2
  }

  function Called(s: State, k: Key, now: int, throws: bool, victim: Key): State {
    if Hit(s, k, now) then s
    else if k in s.inFlight then
      s.(completed := s.completed - {k},
         inFlight := s.inFlight[k := s.inFlight[k].(subscribers := s.inFlight[k].subscribers + 1)])
    else if !Full(s) then Begin(s.(completed := s.completed - {k}), k, now, throws)
    else if IsOldest(s.inFlight, victim) then
      Begin(Drop(s.(completed := s.completed - {k}), {victim}), k, now, throws)
    else s                                             // not the entry the sort puts first
  }

  function Ended(s: State, r: nat, ok: bool, v: Value, now: int): State
    requires r in s.running
  {
    var k := s.running[r];
    s.(running := s.running - {r}, inFlight := s.inFlight - {k},
       completed := if ok then s.completed[k := Cached(v, now)] else s.completed,
       finished := if ok then s.finished + {(k, v, now)} else s.finished)
  }

  function Cleaned(s: State, now: int): State {
    Drop(s, Stale(s, now))
      .(completed := map k | k in s.completed && !(now - s.completed[k].timestamp > s.ttl) :: s.completed[k])
  }

  function Apply(s: State, e: Event): State {
    match e
    case Call(k, now, throws, victim) => Called(s, k, now, throws, victim)
    case End(r, ok, v, now) => if r in s.running then Ended(s, r, ok, v, now) else s
    case Cleanup(now) => Cleaned(s, now)
    case Invalidate(keys) => Drop(s, keys).(completed := s.completed - keys)
  }

  /** The answer to a call in state `s`. */
  function Answer(s: State, k: Key, now: int): Promise {
    if Hit(s, k, now) then Stored(s.completed[k].value)
    else if k in s.inFlight then Joined(s.inFlight[k].run)
    else Started(s.nextRun)
  }

  function Run(s: State, es: seq<Event>): State
    decreases es
  {
    if es == [] then s else Run(Apply(s, es[0]), es[1..])
  }

  // ---------- The invariant ----------

  ghost function Outstanding(s: State, k: Key): set<nat> {
    set r | r in s.running && s.running[r] == k
  }

  /** Runs of `k` still going that the in-flight map does not know. */
  ghost function Stray(s: State, k: Key): set<nat> {
    Outstanding(s, k) - (if k in s.inFlight then {s.inFlight[k].run} else {})
  }

  ghost predicate Inv(s: State) {
    RunsInv(s) && |s.inFlight| <= Max(1, s.maxInFlight) && forall k: Key :: KeyInv(s, k)
  }

  ghost predicate RunsInv(s: State) {
    && (forall r | r in s.owner :: r < s.nextRun)
    && (forall r | r in s.running :: r in s.owner && s.owner[r] == s.running[r])
  }

  ghost predicate KeyInv(s: State, k: Key) {
    && (k in s.inFlight ==> s.inFlight[k].run in s.owner && s.owner[s.inFlight[k].run] == k)
    && (k in s.completed ==> (k, s.completed[k].value, s.completed[k].timestamp) in s.finished)
    && |Stray(s, k)| <= DropCount(s, k)
    && (k in s.inFlight && DropCount(s, k) == 0 ==> k !in s.completed)
  }

  /** Two states that look the same to `k`, but for forgotten results. */
  ghost predicate SameFor(s: State, s': State, k: Key) {
    && (k in s'.inFlight <==> k in s.inFlight)
    && (k in s.inFlight ==> s'.inFlight[k].run == s.inFlight[k].run)
    && (k in s'.completed ==> k in s.completed && s'.completed[k] == s.completed[k])
    && Outstanding(s', k) == Outstanding(s, k)
    && DropCount(s', k) == DropCount(s, k)
    && s.finished <= s'.finished
    && (forall r | r in s.owner :: r in s'.owner && s'.owner[r] == s.owner[r])
  }

  lemma SameKeepsKeyInv(s: State, s': State, k: Key)
    requires KeyInv(s, k) && SameFor(s, s', k)
    ensures KeyInv(s', k)
  {
    assert Stray(s', k) == Stray(s, k);
  }

  lemma DropEffect(s: State, keys: set<Key>, k: Key)
    ensures var s' := Drop(s, keys);
      && (k in s'.inFlight <==> k in s.inFlight && k !in keys)
      && (k in s'.inFlight ==> s'.inFlight[k] == s.inFlight[k])
      && DropCount(s', k) == DropCount(s, k) + (if k in keys && k in s.inFlight then 1 else 0)
      && Outstanding(s', k) == Outstanding(s, k)
  {
  }

  /** Removing an entry can strand one run, which is what `drops` counts. */
  lemma DropKeepsKeyInv(s: State, keys: set<Key>, k: Key)
    requires KeyInv(s, k)
    ensures KeyInv(Drop(s, keys), k)
  {
    DropEffect(s, keys, k);
    if k in keys && k in s.inFlight {
      SubsetSize(Stray(Drop(s, keys), k), Stray(s, k) + {s.inFlight[k].run});
    } else {
      SameKeepsKeyInv(s, Drop(s, keys), k);
    }
  }

  lemma DropSize(s: State, keys: set<Key>)
    ensures |Drop(s, keys).inFlight| + |keys * s.inFlight.Keys| == |s.inFlight|
  {
    var s' := Drop(s, keys);
    assert s'.inFlight.Keys == s.inFlight.Keys - keys;
    assert s.inFlight.Keys == s'.inFlight.Keys + (keys * s.inFlight.Keys);
  }

  lemma BeginKeepsKeyInv(s: State, k: Key, now: int, throws: bool, j: Key)
    requires RunsInv(s) && KeyInv(s, j) && k !in s.inFlight && k !in s.completed
    ensures KeyInv(Begin(s, k, now, throws), j)
  {
    var s' := Begin(s, k, now, throws);
    if j == k {
      assert Stray(s', k) == Stray(s, k);
    } else {
      assert Outstanding(s', j) == Outstanding(s, j);
      SameKeepsKeyInv(s, s', j);
    }
  }

  lemma JoinKeepsKeyInv(s: State, k: Key, j: Key)
    requires KeyInv(s, j) && k in s.inFlight
    ensures KeyInv(s.(completed := s.completed - {k},
                      inFlight := s.inFlight[k := s.inFlight[k].(subscribers := s.inFlight[k].subscribers + 1)]), j)
  {
    var s' := s.(completed := s.completed - {k},
                 inFlight := s.inFlight[k := s.inFlight[k].(subscribers := s.inFlight[k].subscribers + 1)]);
    assert Outstanding(s', j) == Outstanding(s, j);
    SameKeepsKeyInv(s, s', j);
  }

  lemma EvictKeepsKeyInv(s: State, k: Key, now: int, throws: bool, victim: Key, j: Key)
    requires RunsInv(s) && KeyInv(s, j) && k !in s.inFlight && k !in s.completed
    ensures KeyInv(Begin(Drop(s, {victim}), k, now, throws), j)
  {
    DropKeepsKeyInv(s, {victim}, j);
    BeginKeepsKeyInv(Drop(s, {victim}), k, now, throws, j);
  }

  lemma CallKeepsKeyInv(s: State, k: Key, now: int, throws: bool, victim: Key, j: Key)
    requires RunsInv(s) && KeyInv(s, j)
    ensures KeyInv(Called(s, k, now, throws, victim), j)
  {
    if !Hit(s, k, now) {
      var s1 := s.(completed := s.completed - {k});
      ForgetKeepsKeyInv(s, s1.completed, j);
      if k in s.inFlight {
        JoinKeepsKeyInv(s, k, j);
      } else if !Full(s) {
        BeginKeepsKeyInv(s1, k, now, throws, j);
      } else if IsOldest(s.inFlight, victim) {
        EvictKeepsKeyInv(s1, k, now, throws, victim, j);
      }
    }
  }

  lemma EndKeepsOthers(s: State, r: nat, ok: bool, v: Value, now: int, j: Key)
    requires r in s.running && KeyInv(s, j) && j != s.running[r]
    ensures KeyInv(Ended(s, r, ok, v, now), j)
  {
    var s' := Ended(s, r, ok, v, now);
    assert Outstanding(s', j) == Outstanding(s, j);
    SameKeepsKeyInv(s, s', j);
  }

  /** A stray run that ends takes the newer run's entry with it. */
  lemma EndKeepsOwn(s: State, r: nat, ok: bool, v: Value, now: int)
    requires r in s.running && KeyInv(s, s.running[r])
    ensures KeyInv(Ended(s, r, ok, v, now), s.running[r])
  {
    var s' := Ended(s, r, ok, v, now);
    var k := s.running[r];
    assert Stray(s', k) == Outstanding(s, k) - {r};
    if k in s.inFlight && s.inFlight[k].run != r {
      assert r in Stray(s, k);
      SubsetSize(Stray(s', k), (Stray(s, k) - {r}) + {s.inFlight[k].run});
    } else {
      SubsetSize(Stray(s', k), Stray(s, k));
    }
  }

  lemma StepKeepsKeyInv(s: State, e: Event, j: Key)
    requires RunsInv(s) && KeyInv(s, j)
    ensures KeyInv(Apply(s, e), j)
  {
    match e
    case Call(k, now, throws, victim) => CallKeepsKeyInv(s, k, now, throws, victim, j);
    case End(r, ok, v, now) => if r in s.running { EndKeepsKeyInv(s, r, ok, v, now, j); }
    case Cleanup(now) => CleanupKeepsKeyInv(s, now, j);
    case Invalidate(keys) => InvalidateKeepsKeyInv(s, keys, j);
  }

  lemma EndKeepsKeyInv(s: State, r: nat, ok: bool, v: Value, now: int, j: Key)
    requires r in s.running && KeyInv(s, j)
    ensures KeyInv(Ended(s, r, ok, v, now), j)
  {
    if s.running[r] == j {
      EndKeepsOwn(s, r, ok, v, now);
    } else {
      EndKeepsOthers(s, r, ok, v, now, j);
    }
  }

  lemma CleanupKeepsKeyInv(s: State, now: int, j: Key)
    requires KeyInv(s, j)
    ensures KeyInv(Cleaned(s, now), j)
  {
    DropKeepsKeyInv(s, Stale(s, now), j);
    ForgetKeepsKeyInv(Drop(s, Stale(s, now)), Cleaned(s, now).completed, j);
  }

  lemma InvalidateKeepsKeyInv(s: State, keys: set<Key>, j: Key)
    requires KeyInv(s, j)
    ensures KeyInv(Drop(s, keys).(completed := s.completed - keys), j)
  {
    DropKeepsKeyInv(s, keys, j);
    ForgetKeepsKeyInv(Drop(s, keys), s.completed - keys, j);
  }

  lemma ForgetKeepsKeyInv(s: State, completed: map<Key, Cached>, j: Key)
    requires KeyInv(s, j)
    requires j in completed ==> j in s.completed && completed[j] == s.completed[j]
    ensures KeyInv(s.(completed := completed), j)
  {
    assert Outstanding(s.(completed := completed), j) == Outstanding(s, j);
    SameKeepsKeyInv(s, s.(completed := completed), j);
  }

  lemma BeginSize(s: State, k: Key, now: int, throws: bool)
    ensures |Begin(s, k, now, throws).inFlight| <= |s.inFlight| + 1
  {
    assert Begin(s, k, now, throws).inFlight.Keys == s.inFlight.Keys + {k};
  }

  lemma CallKeepsSize(s: State, k: Key, now: int, throws: bool, victim: Key)
    requires |s.inFlight| <= Max(1, s.maxInFlight)
    ensures |Called(s, k, now, throws, victim).inFlight| <= Max(1, s.maxInFlight)
  {
    if !Hit(s, k, now) {
      var s1 := s.(completed := s.completed - {k});
      if k in s.inFlight {
        assert Called(s, k, now, throws, victim).inFlight.Keys == s.inFlight.Keys;
      } else if !Full(s) {
        BeginSize(s1, k, now, throws);
      } else if IsOldest(s.inFlight, victim) {
        assert {victim} * s.inFlight.Keys == {victim};
        DropSize(s1, {victim});
        BeginSize(Drop(s1, {victim}), k, now, throws);
      }
    }
  }

  lemma StepKeepsRuns(s: State, e: Event)
    requires RunsInv(s)
    ensures RunsInv(Apply(s, e))
  {
    if e.Call? {
      CallKeepsRuns(s, e.key, e.now, e.throws, e.victim);
    }
  }

  lemma BeginKeepsRuns(s: State, k: Key, now: int, throws: bool)
    requires RunsInv(s)
    ensures RunsInv(Begin(s, k, now, throws))
  {
  }

  lemma CallKeepsRuns(s: State, k: Key, now: int, throws: bool, victim: Key)
    requires RunsInv(s)
    ensures RunsInv(Called(s, k, now, throws, victim))
  {
    var s1 := s.(completed := s.completed - {k});
    BeginKeepsRuns(s1, k, now, throws);
    BeginKeepsRuns(Drop(s1, {victim}), k, now, throws);
  }

  lemma StepKeepsLimits(s: State, e: Event)
    ensures Apply(s, e).maxInFlight == s.maxInFlight && Apply(s, e).ttl == s.ttl
  {
  }

  lemma StepKeepsSize(s: State, e: Event)
    requires |s.inFlight| <= Max(1, s.maxInFlight)
    ensures |Apply(s, e).inFlight| <= Max(1, s.maxInFlight)
  {
    if e.Call? {
      CallKeepsSize(s, e.key, e.now, e.throws, e.victim);
    } else {
      SubsetSize(Apply(s, e).inFlight.Keys, s.inFlight.Keys);
    }
  }

  lemma StepKeepsInv(s: State, e: Event)
    requires Inv(s)
    ensures Inv(Apply(s, e))
  {
    var s' := Apply(s, e);
    StepKeepsRuns(s, e);
    StepKeepsSize(s, e);
    StepKeepsLimits(s, e);
    forall j: Key ensures KeyInv(s', j) {
      StepKeepsKeyInv(s, e, j);
    }
  }

  // ---------- What callers may rely on ----------

  /** Main theorem, over all runs of events: a key never has more than one factory run
      outstanding, plus one per time an entry of it was dropped; and the in-flight map
      stays within its limit. */
  lemma {:induction false} OneRunPerKey(s: State, es: seq<Event>, k: Key)
    requires Inv(s)
    ensures var s' := Run(s, es);
      && Inv(s')
      && |Outstanding(s', k)| <= 1 + DropCount(s', k)
      && |s'.inFlight| <= Max(1, s'.maxInFlight)
    decreases es
  {
    if es == [] {
      assert KeyInv(s, k);
      if k in s.inFlight {
        SubsetSize(Outstanding(s, k), Stray(s, k) + {s.inFlight[k].run});
      }
    } else {
      StepKeepsInv(s, es[0]);
      OneRunPerKey(Apply(s, es[0]), es[1..], k);
    }
  }

  /** While nothing of the key was dropped, every call made during a run joins that run. */
  lemma ConcurrentCallersShare(s: State, k: Key, r: nat, now: int)
    requires Inv(s) && DropCount(s, k) == 0 && r in Outstanding(s, k)
    ensures Answer(s, k, now) == Joined(r)
    ensures Outstanding(s, k) == {r}
  {
    assert KeyInv(s, k);
    assert Stray(s, k) == {};
    assert r !in Stray(s, k);
    assert forall q | q in Outstanding(s, k) :: q !in Stray(s, k);
  }

  /** Every entry is that of a run still going. */
  ghost predicate LiveEntries(s: State) {
    forall k | k in s.inFlight :: s.inFlight[k].run in s.running && s.running[s.inFlight[k].run] == k
  }

  ghost predicate Rightful(s: State, k: Key, now: int, p: Promise) {
    match p
    case Stored(v) => exists t :: (k, v, t) in s.finished && now - t < s.ttl
    case Joined(r) => r in s.owner && s.owner[r] == k && (LiveEntries(s) ==> r in s.running && s.running[r] == k)
    case Started(r) => r !in s.owner && k !in s.inFlight
  }

  /** Whatever was dropped: a joined run is a run of the same key, still going as long as
      entries are live, and a stored answer is the result of a run of the same key that
      ended less than `ttl` ago. */
  lemma AnswersBelongToTheKey(s: State, k: Key, now: int)
    requires Inv(s)
    ensures Rightful(s, k, now, Answer(s, k, now))
  {
    assert KeyInv(s, k);
  }

  /** The entry of `k` is a promise that was rejected before it was even stored. */
  ghost predicate Poisoned(s: State, k: Key, r: nat) {
    k in s.inFlight && s.inFlight[k].run == r && k !in s.completed && Outstanding(s, k) == {}
  }

  lemma SynchronousThrowPoisons(s: State, k: Key, now: int, victim: Key)
    requires Inv(s) && Outstanding(s, k) == {} && StartsThrowing(s, Call(k, now, true, victim))
    ensures Poisoned(Apply(s, Call(k, now, true, victim)), k, s.nextRun)
  {
    var s' := Apply(s, Call(k, now, true, victim));
    assert Outstanding(s', k) == Outstanding(s, k);
  }

  /** A call that starts a run whose factory throws before its first await. */
  ghost predicate StartsThrowing(s: State, e: Event) {
    && e.Call? && e.throws && Answer(s, e.key, e.now).Started?
    && (Full(s) ==> IsOldest(s.inFlight, e.victim))
  }

  lemma BeginLiveIff(s: State, k: Key, now: int, throws: bool)
    requires RunsInv(s) && LiveEntries(s)
    ensures LiveEntries(Begin(s, k, now, throws)) <==> !throws
  {
    var s' := Begin(s, k, now, throws);
    assert s'.inFlight[k].run == s.nextRun;
    forall j | j in s.inFlight && j != k
      ensures s'.inFlight[j].run in s'.running && s'.running[s'.inFlight[j].run] == j
    {
      assert s.inFlight[j].run in s.owner;
    }
  }

  lemma CallLiveIff(s: State, k: Key, now: int, throws: bool, victim: Key)
    requires RunsInv(s) && LiveEntries(s)
    ensures LiveEntries(Called(s, k, now, throws, victim)) <==> !StartsThrowing(s, Call(k, now, throws, victim))
  {
    var s1 := s.(completed := s.completed - {k});
    assert LiveEntries(s1) && LiveEntries(Drop(s1, {victim}));
    BeginLiveIff(s1, k, now, throws);
    BeginLiveIff(Drop(s1, {victim}), k, now, throws);
  }

  /** From live entries, the only event after which an entry is dead is such a call. */
  lemma StepLiveIff(s: State, e: Event)
    requires RunsInv(s) && LiveEntries(s)
    ensures LiveEntries(Apply(s, e)) <==> !StartsThrowing(s, e)
  {
    if e.Call? {
      CallLiveIff(s, e.key, e.now, e.throws, e.victim);
    }
  }

  ghost predicate NeverStartsThrowing(s: State, es: seq<Event>)
    decreases es
  {
    es == [] || (!StartsThrowing(s, es[0]) && NeverStartsThrowing(Apply(s, es[0]), es[1..]))
  }

  /** Live entries in every state that the run goes through. */
  ghost predicate AlwaysLive(s: State, es: seq<Event>)
    decreases es
  {
    LiveEntries(s) && (es == [] || AlwaysLive(Apply(s, es[0]), es[1..]))
  }

  /** Main theorem on entries, run by run: every entry is at all times that of a run still
      going exactly if no run is started by a factory that throws synchronously. */
  lemma {:induction false} AlwaysLiveIff(s: State, es: seq<Event>)
    requires RunsInv(s) && LiveEntries(s)
    ensures AlwaysLive(s, es) <==> NeverStartsThrowing(s, es)
    decreases es
  {
    if es != [] {
      StepLiveIff(s, es[0]);
      StepKeepsRuns(s, es[0]);
      if LiveEntries(Apply(s, es[0])) {
        AlwaysLiveIff(Apply(s, es[0]), es[1..]);
      }
    }
  }

  /** Calls of `k` use one factory, which throws synchronously if `throws(k)`. */
  predicate FromFactories(es: seq<Event>, throws: Key -> bool) {
    forall i | 0 <= i < |es| && es[i].Call? :: es[i].throws == throws(es[i].key)
  }

  lemma {:induction false} NoThrowsNoStarts(s: State, es: seq<Event>)
    requires forall i | 0 <= i < |es| && es[i].Call? :: !es[i].throws
    ensures NeverStartsThrowing(s, es)
    decreases es
  {
    if es != [] {
      forall i | 0 <= i < |es[1..]| && es[1..][i].Call? ensures !es[1..][i].throws {
        assert es[1..][i] == es[i + 1];
      }
      NoThrowsNoStarts(Apply(s, es[0]), es[1..]);
    }
  }

  /** The same for the factories: whatever is called and when, entries stay live exactly if
      none of the factories throws synchronously. */
  lemma FactoriesKeepLiveIff(ttl: int, maxInFlight: int, throws: Key -> bool)
    ensures (forall es | FromFactories(es, throws) :: AlwaysLive(Start(ttl, maxInFlight), es))
       <==> forall k :: !throws(k)
  {
    var s := Start(ttl, maxInFlight);
    if forall k :: !throws(k) {
      forall es | FromFactories(es, throws) ensures AlwaysLive(s, es) {
        NoThrowsNoStarts(s, es);
        AlwaysLiveIff(s, es);
      }
    } else {
      var k :| throws(k);
      var es := [Call(k, 0, true, k)];
      assert FromFactories(es, throws);
      assert StartsThrowing(s, es[0]);
      AlwaysLiveIff(s, es);
    }
  }

  lemma BeginDropsNone(s: State, j: Key, now: int, throws: bool, k: Key)
    ensures DropCount(Begin(s, j, now, throws), k) == DropCount(s, k)
  {
  }

  lemma CallDropsOnce(s: State, j: Key, now: int, throws: bool, victim: Key, k: Key)
    ensures DropCount(s, k) <= DropCount(Called(s, j, now, throws, victim), k)
  {
    if !Hit(s, j, now) && j !in s.inFlight {
      var s1 := s.(completed := s.completed - {j});
      if !Full(s) {
        BeginDropsNone(s1, j, now, throws, k);
      } else if IsOldest(s.inFlight, victim) {
        DropEffect(s1, {victim}, k);
        BeginDropsNone(Drop(s1, {victim}), j, now, throws, k);
      }
    }
  }

  lemma DropsOnce(s: State, e: Event, k: Key)
    ensures DropCount(s, k) <= DropCount(Apply(s, e), k)
  {
    match e
    case Call(j, now, throws, victim) => CallDropsOnce(s, j, now, throws, victim, k);
    case End(_, _, _, _) =>
    case Cleanup(now) => DropEffect(s, Stale(s, now), k);
    case Invalidate(keys) => DropEffect(s, keys, k);
  }

  lemma {:induction false} DropsGrow(s: State, es: seq<Event>, k: Key)
    ensures DropCount(s, k) <= DropCount(Run(s, es), k)
    decreases es
  {
    if es != [] {
      DropsOnce(s, es[0], k);
      DropsGrow(Apply(s, es[0]), es[1..], k);
    }
  }

  lemma CallKeepsPoison(s: State, j: Key, now: int, throws: bool, victim: Key, k: Key, r: nat)
    requires Poisoned(s, k, r)
    ensures var s' := Called(s, j, now, throws, victim);
      Poisoned(s', k, r) || DropCount(s', k) > DropCount(s, k)
  {
    var s' := Called(s, j, now, throws, victim);
    if !Hit(s, j, now) {
      var s1 := s.(completed := s.completed - {j});
      assert Outstanding(s1, k) == {} && Outstanding(s', k) == {};
      if j !in s.inFlight && Full(s) && IsOldest(s.inFlight, victim) {
        DropEffect(s1, {victim}, k);
      }
    }
  }

  lemma PoisonStays(s: State, e: Event, k: Key, r: nat)
    requires Poisoned(s, k, r)
    ensures Poisoned(Apply(s, e), k, r) || DropCount(Apply(s, e), k) > DropCount(s, k)
  {
    match e
    case Call(j, now, throws, victim) => CallKeepsPoison(s, j, now, throws, victim, k, r);
    case End(q, ok, v, now) =>
      if q in s.running {
        assert q !in Outstanding(s, k);
        assert Outstanding(Ended(s, q, ok, v, now), k) == {};
      }
    case Cleanup(now) =>
      DropEffect(s, Stale(s, now), k);
      assert Outstanding(Cleaned(s, now), k) == Outstanding(s, k);
    case Invalidate(keys) =>
      DropEffect(s, keys, k);
      assert Outstanding(Apply(s, e), k) == Outstanding(s, k);
  }

  /** A factory that throws before its first await leaves its rejected promise in the map:
      the entry is stored after the failure already cleared it. Until a drop, every later
      caller gets that old rejection and the factory is never tried again. */
  lemma {:induction false} SynchronousThrowSticks(s: State, es: seq<Event>, k: Key, r: nat, now: int)
    requires Poisoned(s, k, r) && DropCount(Run(s, es), k) == DropCount(s, k)
    ensures Answer(Run(s, es), k, now) == Joined(r)
    decreases es
  {
    if es != [] {
      PoisonStays(s, es[0], k, r);
      DropsOnce(s, es[0], k);
      DropsGrow(Apply(s, es[0]), es[1..], k);
      SynchronousThrowSticks(Apply(s, es[0]), es[1..], k, r, now);
    }
  }

  // ---------- The deduplicator ----------

  class RequestDeduplicator {
    const ttl: int
    const maxInFlight: int
    var inFlight: map<Key, Entry>
    var completed: map<Key, Cached>
    var nextRun: nat
    ghost var running: map<nat, Key>
    ghost var owner: map<nat, Key>
    ghost var finished: set<(Key, Value, int)>
    ghost var drops: multiset<Key>

    constructor (ttl: int, maxInFlight: int)
      ensures View() == Start(ttl, maxInFlight) && Inv(View())
    {
      this.ttl, this.maxInFlight := ttl, maxInFlight;
      inFlight, completed, nextRun := map[], map[], 0;
      running, owner, finished, drops := map[], map[], {}, multiset{};
    }

    ghost function View(): State
      reads this
    {
      State(ttl, maxInFlight, inFlight, completed, running, owner, finished, drops, nextRun)
    }

    /** The head of the entries sorted by timestamp. */
    method FindOldest() returns (oldest: Key)
      requires inFlight != map[]
      ensures IsOldest(inFlight, oldest)
    {
      oldest :| oldest in inFlight;
      var entries := inFlight.Keys - {oldest};
      while entries != {}
        invariant entries <= inFlight.Keys && oldest in inFlight
        invariant forall k | k in inFlight && k !in entries ::
          inFlight[oldest].timestamp < inFlight[k].timestamp
          || (inFlight[oldest].timestamp == inFlight[k].timestamp && inFlight[oldest].run <= inFlight[k].run)
        decreases |entries|
      {
        var k :| k in entries;
        entries := entries - {k};
        var a, b := inFlight[k], inFlight[oldest];
        if a.timestamp < b.timestamp || (a.timestamp == b.timestamp && a.run < b.run) {
          oldest := k;
        }
      }
    }

    method Evict(k: Key)
      modifies this`inFlight, this`drops
      ensures View() == Drop(old(View()), {k})
    {
      drops := drops + multiset({k} * inFlight.Keys);
      inFlight := inFlight - {k};
    }

    /** `deduplicate` until its promise is returned; the factory has been called if it says
        Started. */
    method Deduplicate(k: Key, now: int, throws: bool) returns (p: Promise, ghost victim: Key)
      modifies this
      ensures p == Answer(old(View()), k, now)
      ensures View() == Called(old(View()), k, now, throws, victim)
    {
      if k in completed && now - completed[k].timestamp < ttl {
        return Stored(completed[k].value), k;
      }
      ghost var start := View();
      completed := completed - {k};
      if k in inFlight {
        inFlight := inFlight[k := inFlight[k].(subscribers := inFlight[k].subscribers + 1)];
        return Joined(inFlight[k].run), k;
      }
      p, victim := Started(nextRun), k;
      if |inFlight| >= maxInFlight && inFlight != map[] {
        var oldest := FindOldest();
        victim := oldest;
        Evict(oldest);
        assert View() == Drop(start.(completed := start.completed - {k}), {victim});
      }
      BeginRun(k, now, throws);
    }

    method BeginRun(k: Key, now: int, throws: bool)
      modifies this`inFlight, this`running, this`owner, this`nextRun
      ensures View() == Begin(old(View()), k, now, throws)
    {
      owner := owner[nextRun := k];
      if !throws {
        running := running[nextRun := k];
      }
      inFlight := inFlight[k := Entry(nextRun, now, 1)];
      nextRun := nextRun + 1;
    }

    /** The end of executeRequest. */
    method FactoryEnded(r: nat, k: Key, ok: bool, v: Value, now: int)
      requires r in running && running[r] == k
      modifies this
      ensures View() == Ended(old(View()), r, ok, v, now)
    {
      if ok {
        completed := completed[k := Cached(v, now)];
        finished := finished + {(k, v, now)};
      }
      inFlight := inFlight - {k};
      running := running - {r};
    }

    method CleanupEntries(now: int)
      modifies this
      ensures View() == Cleaned(old(View()), now)
    {
      CleanupCompleted(now);
      var stale := set k | k in inFlight && now - inFlight[k].timestamp > ttl * 2;
      assert stale == Stale(old(View()), now);
      drops := drops + multiset(stale * inFlight.Keys);
      inFlight := inFlight - stale;
    }

    method CleanupCompleted(now: int)
      modifies this`completed
      ensures completed ==
        map k | k in old(completed) && !(now - old(completed)[k].timestamp > ttl) :: old(completed)[k]
    {
      var keys := completed.Keys;
      while keys != {}
        invariant keys <= completed.Keys <= old(completed).Keys
        invariant forall k | k in completed :: completed[k] == old(completed)[k]
        invariant forall k | k in old(completed) && k !in keys ::
          k in completed <==> !(now - old(completed)[k].timestamp > ttl)
        decreases |keys|
      {
        var k :| k in keys;
        keys := keys - {k};
        if now - completed[k].timestamp > ttl {
          completed := completed - {k};
        }
      }
    }

    method InvalidateKeys(keys: set<Key>)
      modifies this
      ensures View() == Apply(old(View()), Invalidate(keys))
    {
      completed := completed - keys;
      drops := drops + multiset(keys * inFlight.Keys);
      inFlight := inFlight - keys;
    }
  }
}
