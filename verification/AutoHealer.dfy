/** Recovery-storm prevention of the self-healing service
    (backend/src/services/auto-healer.ts, lines 70-78, 206-263 and 484-568).

    The history of recovery actions and the time of the last one are module variables,
    shared by all healers of the process; each healer has its own configuration. The checks
    and the start of an action run in one piece; the clock does not move within it. */
module AutoHealing {

  import opened Basics

  datatype Kind = RescheduleTasks | RestartService | ScaleUp | ScaleDown | ClearQueue

  function TypeName(k: Kind): string {
    match k
    case RescheduleTasks => "reschedule-tasks"
    case RestartService => "restart-service"
    case ScaleUp => "scale-up"
    case ScaleDown => "scale-down"
    case ClearQueue => "clear-queue"
  }

  function HistoryKey(k: Kind, target: string): string { TypeName(k) + ":" + target }

  /** The key the hourly limit looks up. */
  function HourlyKey(target: string): string { "restart:" + target }

  datatype Config = Config(cooldownMs: int, maxConcurrentActions: int)

  const MAX_PER_MINUTE := 10
  const MAX_RESTARTS_PER_HOUR := 3
  const BULKHEAD := 3
  const GLOBAL_COOLDOWN := 30000
  const MINUTE := 60000
  const HOUR := 3600000

  /** An action is identified by its type, target and start time. */
  datatype Action = Action(kind: Kind, target: string, startedAt: int)

  datatype Bucket = Bucket(key: string, times: seq<int>)

  /** The module's Map, in insertion order, and its last recovery time. */
  datatype Shared = Shared(history: seq<Bucket>, lastGlobal: int)

  // ---------- The Map ----------

  function Lookup(h: seq<Bucket>, key: string): seq<int> {
    if h == [] then [] else if h[0].key == key then h[0].times else Lookup(h[1..], key)
  }

  function Put(h: seq<Bucket>, key: string, times: seq<int>): seq<Bucket> {
    if h == [] then [Bucket(key, times)]
    else if h[0].key == key then [Bucket(key, times)] + h[1..]
    else [h[0]] + Put(h[1..], key, times)
  }

  function Flat(h: seq<Bucket>): seq<int> {
    if h == [] then [] else h[0].times + Flat(h[1..])
  }

  /** `times.filter(t => t > start)` */
  function After(times: seq<int>, start: int): seq<int> {
    if times == [] then []
    else (if times[0] > start then [times[0]] else []) + After(times[1..], start)
  }

  // ---------- The checks, as coded ----------

  predicate RateLimitsAllow(s: Shared, active: nat, k: Kind, target: string, now: int) {
    && |After(Flat(s.history), now - MINUTE)| < MAX_PER_MINUTE
    && (k.RestartService? ==> |After(Lookup(s.history, HourlyKey(target)), now - HOUR)| < MAX_RESTARTS_PER_HOUR)
    && active < BULKHEAD
  }

  predicate OnCooldown(c: Config, s: Shared, active: nat, k: Kind, target: string, now: int) {
    var times := Lookup(s.history, HistoryKey(k, target));
    || now - s.lastGlobal < GLOBAL_COOLDOWN
    || (times != [] && times[|times| - 1] != 0 && now - times[|times| - 1] < c.cooldownMs)
    || !RateLimitsAllow(s, active, k, target, now)
  }

  predicate Starts(c: Config, s: Shared, active: nat, k: Kind, target: string, now: int) {
    !OnCooldown(c, s, active, k, target, now) && active < c.maxConcurrentActions
  }

  function CooledDown(s: Shared, key: string, now: int): Shared {
    Shared(Put(s.history, key, After(Lookup(s.history, key) + [now], now - HOUR)), now)
  }

  // ---------- Any number of healers ----------

  datatype World = World(shared: Shared, active: map<nat, set<Action>>, log: seq<Action>, clock: int)

  const Start := World(Shared([], 0), map[], [], 0)

  datatype Event =
    | Alert(healer: nat, kind: Kind, target: string, now: int)   // initiateHealing
    | Finished(healer: nat, action: Action)

  function ActiveOf(w: World, healer: nat): set<Action> {
    if healer in w.active then w.active[healer] else {}
  }

  function Apply(cs: nat -> Config, w: World, e: Event): World {
    match e
    case Alert(h, k, target, now) =>
      if now < w.clock then w                                     // the clock never goes back
      else if !Starts(cs(h), w.shared, |ActiveOf(w, h)|, k, target, now) then w.(clock := now)
      else
        var a := Action(k, target, now);
        World(CooledDown(w.shared, HistoryKey(k, target), now), w.active[h := ActiveOf(w, h) + {a}], w.log + [a], now)
    case Finished(h, a) => w.(active := w.active[h := ActiveOf(w, h) - {a}])
  }

  function Run(cs: nat -> Config, w: World, es: seq<Event>): World
    decreases es
  {
    if es == [] then w else Run(cs, Apply(cs, w, es[0]), es[1..])
  }

  // ---------- The rule, on the full log ----------

  function Times(log: seq<Action>): seq<int> { seq(|log|, i requires 0 <= i < |log| => log[i].startedAt) }

  predicate SameTarget(a: Action, k: Kind, target: string) { a.kind == k && a.target == target }

  /** Start if thirty seconds have passed since any action, the cooldown since the last one
      of this type and target, and fewer than min(maxConcurrentActions, 3) are active. */
  predicate Rule(c: Config, log: seq<Action>, active: nat, k: Kind, target: string, now: int) {
    && now >= GLOBAL_COOLDOWN
    && (forall a | a in log :: now - a.startedAt >= GLOBAL_COOLDOWN)
    && (forall a | a in log && SameTarget(a, k, target) :: now - a.startedAt >= c.cooldownMs)
    && active < Limit(c)
  }

  function Limit(c: Config): int { if c.maxConcurrentActions < BULKHEAD then c.maxConcurrentActions else BULKHEAD }

  predicate Spaced(log: seq<Action>) {
    && (forall i | 0 <= i < |log| :: log[i].startedAt >= GLOBAL_COOLDOWN)
    && (forall i, j | 0 <= i < j < |log| :: log[j].startedAt - log[i].startedAt >= GLOBAL_COOLDOWN)
  }

  // ---------- Facts about the Map ----------

  lemma {:induction false} LookupPut(h: seq<Bucket>, key: string, times: seq<int>, other: string)
    ensures Lookup(Put(h, key, times), other) == if other == key then times else Lookup(h, other)
  {
    if h != [] && h[0].key != key {
      LookupPut(h[1..], key, times, other);
      assert ([h[0]] + Put(h[1..], key, times))[1..] == Put(h[1..], key, times);
    } else if h != [] {
      assert ([Bucket(key, times)] + h[1..])[1..] == h[1..];
    }
  }

  lemma {:induction false} AfterAppend(a: seq<int>, b: seq<int>, start: int)
    ensures After(a + b, start) == After(a, start) + After(b, start)
  {
    if a == [] {
      assert a + b == b;
    } else {
      assert (a + b)[1..] == a[1..] + b;
      AfterAppend(a[1..], b, start);
    }
  }

  lemma {:induction false} AfterShrinks(a: seq<int>, cut: int, start: int)
    ensures |After(After(a, cut), start)| <= |After(a, start)|
  {
    if a != [] {
      AfterShrinks(a[1..], cut, start);
      AfterAppend(if a[0] > cut then [a[0]] else [], After(a[1..], cut), start);
      assert [a[0]][1..] == [];
    }
  }

  lemma {:induction false} FlatPut(h: seq<Bucket>, key: string, times: seq<int>, start: int)
    ensures |After(Flat(Put(h, key, times)), start)| + |After(Lookup(h, key), start)|
         == |After(Flat(h), start)| + |After(times, start)|
  {
    if h == [] {
      assert [Bucket(key, times)][1..] == [];
      assert times + [] == times;
    } else if h[0].key == key {
      assert ([Bucket(key, times)] + h[1..])[1..] == h[1..];
      AfterAppend(times, Flat(h[1..]), start);
      AfterAppend(h[0].times, Flat(h[1..]), start);
    } else {
      var rest := Put(h[1..], key, times);
      assert ([h[0]] + rest)[1..] == rest;
      FlatPut(h[1..], key, times, start);
      AfterAppend(h[0].times, Flat(rest), start);
      AfterAppend(h[0].times, Flat(h[1..]), start);
    }
  }

  // ---------- Facts about keys ----------

  /** No action is ever filed under the key that the hourly limit reads. */
  lemma HourlyKeyIsNeverWritten(k: Kind, target: string, service: string)
    ensures HistoryKey(k, target) != HourlyKey(service)
  {
    var a, b := HistoryKey(k, target), HourlyKey(service);
    assert a[0] == TypeName(k)[0] && b[7] == ':';
    match k
    case RestartService => assert a[7] == '-';
    case RescheduleTasks => assert a[2] == 's' && b[2] == 's' && a[3] == 'c';
    case ScaleUp => assert b[0] == 'r';
    case ScaleDown => assert b[0] == 'r';
    case ClearQueue => assert b[0] == 'r';
  }

  /** Different type or target, different key. */
  lemma HistoryKeyIsInjective(k: Kind, target: string, j: Kind, other: string)
    ensures HistoryKey(k, target) == HistoryKey(j, other) <==> k == j && target == other
  {
    var a, b := HistoryKey(k, target), HistoryKey(j, other);
    var n := |TypeName(k)| + 1;
    assert a[0] == TypeName(k)[0] && a[2] == TypeName(k)[2] && a[3] == TypeName(k)[3] && a[6] == TypeName(k)[6];
    assert b[0] == TypeName(j)[0] && b[2] == TypeName(j)[2] && b[3] == TypeName(j)[3] && b[6] == TypeName(j)[6];
    if k == j {
      assert a[n..] == target && b[n..] == other;
    }
  }

  // ---------- Spacing ----------

  predicate Apart(times: seq<int>, gap: int) { forall i, j | 0 <= i < j < |times| :: times[j] - times[i] >= gap }

  /** How many of the times lie after `start` and not after `end`. */
  function CountIn(times: seq<int>, start: int, end: int): int { |After(times, start)| - |After(times, end)| }

  lemma {:induction false} AfterNone(times: seq<int>, start: int)
    requires forall i | 0 <= i < |times| :: times[i] <= start
    ensures After(times, start) == []
  {
    if times != [] {
      AfterNone(times[1..], start);
    }
  }

  /** Among times `gap` apart, `m` of them need a stretch of more than m - 1 gaps. */
  lemma {:induction false} ApartCount(times: seq<int>, gap: int, start: int, end: int)
    requires Apart(times, gap) && gap > 0 && start <= end
    ensures var m := CountIn(times, start, end);
      m <= 0 || (m - 1) * gap < end - start
    decreases |times|
  {
    if times != [] {
      var init, last := times[..|times| - 1], times[|times| - 1];
      assert times == init + [last];
      AfterAppend(init, [last], start);
      AfterAppend(init, [last], end);
      assert [last][1..] == [];
      if start < last <= end {
        AfterNone(init, last - gap);
        AfterNone(init, end);
        if start <= last - gap {
          ApartCount(init, gap, start, last - gap);
          OneGapMore(CountIn(init, start, last - gap), gap, last - gap - start);
        } else {
          AfterNone(init, start);
        }
      } else {
        ApartCount(init, gap, start, end);
      }
    }
  }

  lemma OneGapMore(m: int, gap: int, stretch: int)
    requires gap > 0 && stretch >= 0 && (m <= 0 || (m - 1) * gap < stretch)
    ensures m + 1 <= 0 || m * gap < stretch + gap
  {
    assert m * gap == (m - 1) * gap + gap;
  }

  /** Main theorem on spacing: any sixty seconds hold at most two starts. */
  lemma AnyMinuteHoldsTwo(log: seq<Action>, start: int)
    requires Spaced(log)
    ensures CountIn(Times(log), start, start + MINUTE) <= 2
  {
    ApartCount(Times(log), GLOBAL_COOLDOWN, start, start + MINUTE);
  }

  // ---------- The invariant ----------

  /** The trimmed history of a target still ends with its latest start. */
  ghost predicate EndsWithLatest(times: seq<int>, log: seq<Action>, k: Kind, target: string) {
    && (times == [] ==> forall a | a in log :: !SameTarget(a, k, target))
    && (times != [] ==>
          && (exists a :: a in log && SameTarget(a, k, target) && a.startedAt == times[|times| - 1])
          && forall a | a in log && SameTarget(a, k, target) :: a.startedAt <= times[|times| - 1])
  }

  ghost predicate NoMoreThan(h: seq<Bucket>, log: seq<Action>) {
    forall start: int :: |After(Flat(h), start)| <= |After(Times(log), start)|
  }

  ghost predicate Inv(cs: nat -> Config, w: World) {
    && Spaced(w.log) && (forall a | a in w.log :: a.startedAt <= w.clock)
    && w.shared.lastGlobal == (if w.log == [] then 0 else w.log[|w.log| - 1].startedAt)
    && (forall k, target :: EndsWithLatest(Lookup(w.shared.history, HistoryKey(k, target)), w.log, k, target))
    && (forall service :: Lookup(w.shared.history, HourlyKey(service)) == [])
    && NoMoreThan(w.shared.history, w.log)
    && (forall h :: |ActiveOf(w, h)| <= Max(0, Limit(cs(h))))
  }

  /** Main theorem: in every reachable state the code starts an action exactly when the
      rule on the full log says so. The ten-per-minute cap and the hourly restart limit
      never decide anything. */
  lemma DecisionIsRule(cs: nat -> Config, w: World, h: nat, k: Kind, target: string, now: int)
    requires Inv(cs, w) && now >= w.clock
    ensures Starts(cs(h), w.shared, |ActiveOf(w, h)|, k, target, now)
       <==> Rule(cs(h), w.log, |ActiveOf(w, h)|, k, target, now)
  {
    MinuteCapIsIdle(cs, w, now);
    assert Lookup(w.shared.history, HourlyKey(target)) == [];
    GlobalCooldownIsSpacing(cs, w, now);
    TargetCooldown(cs, w, k, target, now, cs(h).cooldownMs);
    ChecksCombined(cs(h), w.shared, w.log, |ActiveOf(w, h)|, k, target, now);
  }

  ghost predicate Recent(log: seq<Action>, k: Kind, target: string, now: int, cooldown: int) {
    exists a :: a in log && SameTarget(a, k, target) && now - a.startedAt < cooldown
  }

  lemma ChecksCombined(c: Config, s: Shared, log: seq<Action>, active: nat, k: Kind, target: string, now: int)
    requires |After(Flat(s.history), now - MINUTE)| <= 2
    requires Lookup(s.history, HourlyKey(target)) == []
    requires now - s.lastGlobal >= GLOBAL_COOLDOWN
       <==> now >= GLOBAL_COOLDOWN && forall a | a in log :: now - a.startedAt >= GLOBAL_COOLDOWN
    requires var times := Lookup(s.history, HistoryKey(k, target));
      (times != [] && times[|times| - 1] != 0 && now - times[|times| - 1] < c.cooldownMs)
      <==> Recent(log, k, target, now, c.cooldownMs)
    ensures Starts(c, s, active, k, target, now) <==> Rule(c, log, active, k, target, now)
  {
    assert After(Lookup(s.history, HourlyKey(target)), now - HOUR) == [];
    assert RateLimitsAllow(s, active, k, target, now) <==> active < BULKHEAD;
  }

  lemma MinuteCapIsIdle(cs: nat -> Config, w: World, now: int)
    requires Inv(cs, w) && now >= w.clock
    ensures |After(Flat(w.shared.history), now - MINUTE)| <= 2
  {
    AnyMinuteHoldsTwo(w.log, now - MINUTE);
    forall i | 0 <= i < |Times(w.log)| ensures Times(w.log)[i] <= now {
      assert w.log[i] in w.log;
    }
    AfterNone(Times(w.log), now);
  }

  lemma GlobalCooldownIsSpacing(cs: nat -> Config, w: World, now: int)
    requires Inv(cs, w)
    ensures now - w.shared.lastGlobal >= GLOBAL_COOLDOWN
       <==> now >= GLOBAL_COOLDOWN && forall a | a in w.log :: now - a.startedAt >= GLOBAL_COOLDOWN
  {
    if w.log != [] {
      assert w.log[|w.log| - 1] in w.log;
    }
  }

  lemma TargetCooldown(cs: nat -> Config, w: World, k: Kind, target: string, now: int, cooldown: int)
    requires Inv(cs, w)
    ensures var times := Lookup(w.shared.history, HistoryKey(k, target));
      (times != [] && times[|times| - 1] != 0 && now - times[|times| - 1] < cooldown)
      <==> Recent(w.log, k, target, now, cooldown)
  {
    var times := Lookup(w.shared.history, HistoryKey(k, target));
    assert EndsWithLatest(times, w.log, k, target);
    if times != [] {
      var a :| a in w.log && SameTarget(a, k, target) && a.startedAt == times[|times| - 1];
      var i :| 0 <= i < |w.log| && w.log[i] == a;
      assert a.startedAt >= GLOBAL_COOLDOWN;
    }
  }

  // ---------- Every step keeps it ----------

  lemma PushedEndsWithNow(times: seq<int>, now: int)
    ensures var r := After(times + [now], now - HOUR);
      r != [] && r[|r| - 1] == now
  {
    AfterAppend(times, [now], now - HOUR);
    assert [now][1..] == [];
  }

  lemma LatestIsNow(times: seq<int>, log: seq<Action>, a: Action)
    requires times != [] && times[|times| - 1] == a.startedAt
    requires forall b | b in log :: b.startedAt <= a.startedAt
    ensures EndsWithLatest(times, log + [a], a.kind, a.target)
  {
    assert (log + [a])[|log|] == a;
  }

  lemma LatestUnchanged(times: seq<int>, log: seq<Action>, a: Action, k: Kind, target: string)
    requires EndsWithLatest(times, log, k, target) && !SameTarget(a, k, target)
    ensures EndsWithLatest(times, log + [a], k, target)
  {
    if times != [] {
      var b :| b in log && SameTarget(b, k, target) && b.startedAt == times[|times| - 1];
      assert b in log + [a];
    }
  }

  lemma LookupAfterStart(s: Shared, a: Action, j: Kind, other: string)
    ensures var before := Lookup(s.history, HistoryKey(j, other));
      Lookup(CooledDown(s, HistoryKey(a.kind, a.target), a.startedAt).history, HistoryKey(j, other))
        == if SameTarget(a, j, other) then After(before + [a.startedAt], a.startedAt - HOUR) else before
  {
    var key := HistoryKey(a.kind, a.target);
    var times := After(Lookup(s.history, key) + [a.startedAt], a.startedAt - HOUR);
    LookupPut(s.history, key, times, HistoryKey(j, other));
    HistoryKeyIsInjective(j, other, a.kind, a.target);
  }

  lemma StartKeepsHistory(s: Shared, log: seq<Action>, a: Action, j: Kind, other: string)
    requires EndsWithLatest(Lookup(s.history, HistoryKey(j, other)), log, j, other)
    requires forall b | b in log :: b.startedAt <= a.startedAt
    ensures var h := CooledDown(s, HistoryKey(a.kind, a.target), a.startedAt).history;
      EndsWithLatest(Lookup(h, HistoryKey(j, other)), log + [a], j, other)
  {
    var key := HistoryKey(a.kind, a.target);
    var past := Lookup(s.history, key);
    LookupAfterStart(s, a, j, other);
    if SameTarget(a, j, other) {
      PushedEndsWithNow(past, a.startedAt);
      LatestIsNow(After(past + [a.startedAt], a.startedAt - HOUR), log, a);
    } else {
      LatestUnchanged(Lookup(s.history, HistoryKey(j, other)), log, a, j, other);
    }
  }

  lemma StartKeepsCounts(s: Shared, log: seq<Action>, key: string, a: Action)
    requires NoMoreThan(s.history, log)
    ensures NoMoreThan(CooledDown(s, key, a.startedAt).history, log + [a])
  {
    var now := a.startedAt;
    var times := After(Lookup(s.history, key) + [now], now - HOUR);
    assert Times(log + [a]) == Times(log) + [now];
    forall start: int
      ensures |After(Flat(Put(s.history, key, times)), start)| <= |After(Times(log + [a]), start)|
    {
      FlatPut(s.history, key, times, start);
      AfterShrinks(Lookup(s.history, key) + [now], now - HOUR, start);
      AfterAppend(Lookup(s.history, key), [now], start);
      AfterAppend(Times(log), [now], start);
    }
  }

  lemma StartKeepsSpaced(log: seq<Action>, a: Action)
    requires Spaced(log) && a.startedAt >= GLOBAL_COOLDOWN
    requires forall b | b in log :: a.startedAt - b.startedAt >= GLOBAL_COOLDOWN
    ensures Spaced(log + [a])
  {
    forall i | 0 <= i < |log| ensures a.startedAt - log[i].startedAt >= GLOBAL_COOLDOWN {
      assert log[i] in log;
    }
  }

  lemma StartKeepsActive(cs: nat -> Config, w: World, h: nat, a: Action, g: nat)
    requires |ActiveOf(w, h)| < Limit(cs(h)) && |ActiveOf(w, g)| <= Max(0, Limit(cs(g)))
    ensures |ActiveOf(w.(active := w.active[h := ActiveOf(w, h) + {a}]), g)| <= Max(0, Limit(cs(g)))
  {
  }

  lemma StartKeepsLookups(s: Shared, log: seq<Action>, a: Action)
    requires forall j, other :: EndsWithLatest(Lookup(s.history, HistoryKey(j, other)), log, j, other)
    requires forall service :: Lookup(s.history, HourlyKey(service)) == []
    requires forall b | b in log :: b.startedAt <= a.startedAt
    ensures var h := CooledDown(s, HistoryKey(a.kind, a.target), a.startedAt).history;
      && (forall j, other :: EndsWithLatest(Lookup(h, HistoryKey(j, other)), log + [a], j, other))
      && (forall service :: Lookup(h, HourlyKey(service)) == [])
  {
    var key := HistoryKey(a.kind, a.target);
    var h := CooledDown(s, key, a.startedAt).history;
    forall j, other ensures EndsWithLatest(Lookup(h, HistoryKey(j, other)), log + [a], j, other) {
      StartKeepsHistory(s, log, a, j, other);
    }
    forall service ensures Lookup(h, HourlyKey(service)) == [] {
      LookupPut(s.history, key, After(Lookup(s.history, key) + [a.startedAt], a.startedAt - HOUR), HourlyKey(service));
      HourlyKeyIsNeverWritten(a.kind, a.target, service);
    }
  }

  lemma StartKeepsInv(cs: nat -> Config, w: World, h: nat, k: Kind, target: string, now: int)
    requires Inv(cs, w) && now >= w.clock && Rule(cs(h), w.log, |ActiveOf(w, h)|, k, target, now)
    ensures var a := Action(k, target, now);
      Inv(cs, World(CooledDown(w.shared, HistoryKey(k, target), now),
                    w.active[h := ActiveOf(w, h) + {a}], w.log + [a], now))
  {
    var a := Action(k, target, now);
    var key := HistoryKey(k, target);
    var w' := World(CooledDown(w.shared, key, now), w.active[h := ActiveOf(w, h) + {a}], w.log + [a], now);
    StartKeepsLookups(w.shared, w.log, a);
    StartKeepsCounts(w.shared, w.log, key, a);
    StartKeepsSpaced(w.log, a);
    forall g: nat ensures |ActiveOf(w', g)| <= Max(0, Limit(cs(g))) {
      StartKeepsActive(cs, w, h, a, g);
      assert ActiveOf(w', g) == ActiveOf(w.(active := w'.active), g);
    }
  }

  lemma StepKeepsInv(cs: nat -> Config, w: World, e: Event)
    requires Inv(cs, w)
    ensures Inv(cs, Apply(cs, w, e))
  {
    match e
    case Alert(h, k, target, now) =>
      if now >= w.clock {
        DecisionIsRule(cs, w, h, k, target, now);
        if Starts(cs(h), w.shared, |ActiveOf(w, h)|, k, target, now) {
          StartKeepsInv(cs, w, h, k, target, now);
        } else {
          IdleKeepsInv(cs, w, w.active, now);
        }
      }
    case Finished(h, a) =>
      var active := w.active[h := ActiveOf(w, h) - {a}];
      forall g: nat ensures |ActiveOf(w.(active := active), g)| <= |ActiveOf(w, g)| {
      }
      IdleKeepsInv(cs, w, active, w.clock);
  }

  lemma IdleKeepsInv(cs: nat -> Config, w: World, active: map<nat, set<Action>>, clock: int)
    requires Inv(cs, w) && clock >= w.clock
    requires forall g: nat :: |ActiveOf(w.(active := active), g)| <= |ActiveOf(w, g)|
    ensures Inv(cs, w.(active := active, clock := clock))
  {
    var w' := w.(active := active, clock := clock);
    assert forall g: nat :: ActiveOf(w', g) == ActiveOf(w.(active := active), g);
    assert forall k, target :: EndsWithLatest(Lookup(w.shared.history, HistoryKey(k, target)), w.log, k, target);
  }

  lemma StartHasInv(cs: nat -> Config)
    ensures Inv(cs, Start)
  {
    assert Times([]) == [];
  }

  /** Over every run: starts are thirty seconds apart, so their ids are distinct, and no
      healer has more than min(maxConcurrentActions, 3) actions going. */
  lemma {:induction false} EveryRunIsCalm(cs: nat -> Config, w: World, es: seq<Event>, h: nat)
    requires Inv(cs, w)
    ensures var w' := Run(cs, w, es);
      && Inv(cs, w') && Spaced(w'.log)
      && (forall i, j | 0 <= i < j < |w'.log| :: w'.log[i] != w'.log[j])
      && |ActiveOf(w', h)| <= Max(0, Limit(cs(h)))
    decreases es
  {
    if es != [] {
      StepKeepsInv(cs, w, es[0]);
      EveryRunIsCalm(cs, Apply(cs, w, es[0]), es[1..], h);
    }
  }

  // ---------- The limit that does not limit ----------

  /** Healer `h` restarts a service every `gap` milliseconds, each action finishing at once. */
  function Restarts(h: nat, service: string, gap: int, n: nat): seq<Event> {
    if n == 0 then [] else Restarts(h, service, gap, n - 1) + RestartAt(h, service, n * gap)
  }

  function RestartAt(h: nat, service: string, now: int): seq<Event> {
    [Alert(h, RestartService, service, now), Finished(h, Action(RestartService, service, now))]
  }

  predicate CanRestartEvery(c: Config, gap: int) {
    c.maxConcurrentActions >= 1 && gap >= GLOBAL_COOLDOWN && gap >= c.cooldownMs
  }

  /** A gap after everything else, with nothing going, a restart goes through. */
  lemma RestartStarts(cs: nat -> Config, h: nat, w: World, service: string, now: int)
    requires CanRestartEvery(cs(h), now - w.clock)
    requires Inv(cs, w) && ActiveOf(w, h) == {} && w.clock >= 0
    ensures var a := Action(RestartService, service, now);
      var w' := Apply(cs, w, Alert(h, RestartService, service, now));
      Inv(cs, w') && ActiveOf(w', h) == {a} && w'.clock == now && w'.log == w.log + [a]
  {
    DecisionIsRule(cs, w, h, RestartService, service, now);
    assert Rule(cs(h), w.log, 0, RestartService, service, now);
    StepKeepsInv(cs, w, Alert(h, RestartService, service, now));
  }

  lemma OneMoreRestart(cs: nat -> Config, h: nat, w: World, service: string, now: int)
    requires CanRestartEvery(cs(h), now - w.clock)
    requires Inv(cs, w) && ActiveOf(w, h) == {} && w.clock >= 0
    ensures var w' := Run(cs, w, RestartAt(h, service, now));
      && Inv(cs, w') && ActiveOf(w', h) == {} && w'.clock == now
      && w'.log == w.log + [Action(RestartService, service, now)]
  {
    var fs := RestartAt(h, service, now);
    RestartStarts(cs, h, w, service, now);
    var w1 := Apply(cs, w, fs[0]);
    StepKeepsInv(cs, w1, fs[1]);
    assert fs[1..] == [fs[1]];
    assert Run(cs, w1, fs[1..]) == Apply(cs, w1, fs[1]);
  }

  lemma {:induction false} RunAppend(cs: nat -> Config, w: World, es: seq<Event>, fs: seq<Event>)
    ensures Run(cs, w, es + fs) == Run(cs, Run(cs, w, es), fs)
    decreases es
  {
    if es == [] {
      assert es + fs == fs;
    } else {
      assert (es + fs)[1..] == es[1..] + fs;
      RunAppend(cs, Apply(cs, w, es[0]), es[1..], fs);
    }
  }

  ghost predicate Restarted(cs: nat -> Config, h: nat, w: World, service: string, gap: int, n: nat) {
    Inv(cs, w) && ActiveOf(w, h) == {} && 0 <= w.clock == n * gap && OnlyRestarts(w.log, service, gap, n)
  }

  ghost predicate OnlyRestarts(log: seq<Action>, service: string, gap: int, n: nat) {
    |log| == n && forall i: nat | i < n :: log[i] == Action(RestartService, service, (i + 1) * gap)
  }

  lemma RestartedOnceMore(cs: nat -> Config, h: nat, w: World, service: string, gap: int, n: nat)
    requires CanRestartEvery(cs(h), gap) && Restarted(cs, h, w, service, gap, n)
    ensures Restarted(cs, h, Run(cs, w, RestartAt(h, service, (n + 1) * gap)), service, gap, n + 1)
  {
    var now := (n + 1) * gap;
    assert now == w.clock + gap;
    OneMoreRestart(cs, h, w, service, now);
    OnlyRestartsAppend(w.log, service, gap, n);
  }

  lemma OnlyRestartsAppend(log: seq<Action>, service: string, gap: int, n: nat)
    requires OnlyRestarts(log, service, gap, n)
    ensures OnlyRestarts(log + [Action(RestartService, service, (n + 1) * gap)], service, gap, n + 1)
  {
  }

  /** At any gap of thirty seconds or more that the cooldown allows, `n` alerts make `n`
      restarts of one service, for every n: the hourly limit never stops one. */
  lemma {:induction false} HourlyLimitNeverBinds(cs: nat -> Config, h: nat, service: string, gap: int, n: nat)
    requires CanRestartEvery(cs(h), gap)
    ensures Restarted(cs, h, Run(cs, Start, Restarts(h, service, gap, n)), service, gap, n)
  {
    if n == 0 {
      StartHasInv(cs);
    } else {
      var w := Run(cs, Start, Restarts(h, service, gap, n - 1));
      HourlyLimitNeverBinds(cs, h, service, gap, n - 1);
      RestartedOnceMore(cs, h, w, service, gap, n - 1);
      RunAppend(cs, Start, Restarts(h, service, gap, n - 1), RestartAt(h, service, n * gap));
    }
  }

  // ---------- When the limit holds all the same ----------

  /** The start times of one type and target. */
  function TimesOf(log: seq<Action>, k: Kind, target: string): seq<int> {
    if log == [] then []
    else
      var last := log[|log| - 1];
      TimesOf(log[..|log| - 1], k, target) + (if SameTarget(last, k, target) then [last.startedAt] else [])
  }

  ghost predicate StartedAt(log: seq<Action>, k: Kind, target: string, t: int) {
    exists a :: a in log && SameTarget(a, k, target) && a.startedAt == t
  }

  lemma {:induction false} TimesOfMembers(log: seq<Action>, k: Kind, target: string, t: int)
    requires t in TimesOf(log, k, target)
    ensures StartedAt(log, k, target, t)
    decreases |log|
  {
    var init, last := log[..|log| - 1], log[|log| - 1];
    if t in TimesOf(init, k, target) {
      TimesOfMembers(init, k, target, t);
      var a :| a in init && SameTarget(a, k, target) && a.startedAt == t;
      assert a in log;
    } else {
      assert last in log;
    }
  }

  lemma TimesOfAppend(log: seq<Action>, a: Action, k: Kind, target: string)
    ensures TimesOf(log + [a], k, target) ==
      TimesOf(log, k, target) + (if SameTarget(a, k, target) then [a.startedAt] else [])
  {
    assert (log + [a])[..|log|] == log;
  }

  ghost predicate AllCoolFor(cs: nat -> Config, gap: int) {
    forall h :: cs(h).maxConcurrentActions <= 0 || cs(h).cooldownMs >= gap
  }

  ghost predicate TargetsApart(log: seq<Action>, gap: int) {
    forall k, target :: Apart(TimesOf(log, k, target), gap)
  }

  lemma StartKeepsApart(log: seq<Action>, a: Action, gap: int)
    requires TargetsApart(log, gap)
    requires forall b | b in log && SameTarget(b, a.kind, a.target) :: a.startedAt - b.startedAt >= gap
    ensures TargetsApart(log + [a], gap)
  {
    forall k, target ensures Apart(TimesOf(log + [a], k, target), gap) {
      var times := TimesOf(log, k, target);
      assert Apart(times, gap);
      TimesOfAppend(log, a, k, target);
      if SameTarget(a, k, target) {
        forall i | 0 <= i < |times| ensures a.startedAt - times[i] >= gap {
          TimesOfMembers(log, k, target, times[i]);
        }
      }
    }
  }

  lemma {:induction false} TargetsStayApart(cs: nat -> Config, w: World, es: seq<Event>, gap: int)
    requires Inv(cs, w) && AllCoolFor(cs, gap) && TargetsApart(w.log, gap)
    ensures TargetsApart(Run(cs, w, es).log, gap)
    decreases es
  {
    if es != [] {
      var e, w' := es[0], Apply(cs, w, es[0]);
      StepKeepsInv(cs, w, e);
      if w'.log != w.log {
        DecisionIsRule(cs, w, e.healer, e.kind, e.target, e.now);
        StartKeepsApart(w.log, Action(e.kind, e.target, e.now), gap);
      }
      TargetsStayApart(cs, w', es[1..], gap);
    }
  }

  function RestartsIn(log: seq<Action>, service: string, start: int, end: int): int {
    CountIn(TimesOf(log, RestartService, service), start, end)
  }

  ghost predicate HourlyLimitHolds(cs: nat -> Config) {
    forall es, service, start: int :: HourHolds(Run(cs, Start, es).log, service, start)
  }

  ghost predicate HourHolds(log: seq<Action>, service: string, start: int) {
    RestartsIn(log, service, start, start + HOUR) <= MAX_RESTARTS_PER_HOUR
  }

  /** Four restarts within an hour, at the shortest gap the healer allows. */
  lemma FourthRestart(cs: nat -> Config, h: nat, service: string)
    requires cs(h).maxConcurrentActions >= 1 && cs(h).cooldownMs < HOUR / 3
    ensures var gap := Max(GLOBAL_COOLDOWN, cs(h).cooldownMs);
      RestartsIn(Run(cs, Start, Restarts(h, service, gap, 4)).log, service, gap - 1, gap - 1 + HOUR) == 4
  {
    var gap := Max(GLOBAL_COOLDOWN, cs(h).cooldownMs);
    HourlyLimitNeverBinds(cs, h, service, gap, 4);
    FourTimes(Run(cs, Start, Restarts(h, service, gap, 4)).log, service, gap);
    AfterNone([gap, 2 * gap, 3 * gap, 4 * gap], gap - 1 + HOUR);
    AfterAll([gap, 2 * gap, 3 * gap, 4 * gap], gap - 1);
  }

  lemma FourTimes(log: seq<Action>, service: string, gap: int)
    requires OnlyRestarts(log, service, gap, 4)
    ensures TimesOf(log, RestartService, service) == [gap, 2 * gap, 3 * gap, 4 * gap]
  {
    OnlyRestartTimes(log, service, gap, 4);
    assert GapTimes(gap, 0) == [];
    assert GapTimes(gap, 1) == GapTimes(gap, 0) + [1 * gap] == [gap];
    assert GapTimes(gap, 2) == GapTimes(gap, 1) + [2 * gap] == [gap, 2 * gap];
    assert GapTimes(gap, 3) == GapTimes(gap, 2) + [3 * gap] == [gap, 2 * gap, 3 * gap];
    assert GapTimes(gap, 4) == GapTimes(gap, 3) + [4 * gap];
  }

  function GapTimes(gap: int, n: nat): seq<int> { if n == 0 then [] else GapTimes(gap, n - 1) + [n * gap] }

  lemma {:induction false} OnlyRestartTimes(log: seq<Action>, service: string, gap: int, n: nat)
    requires OnlyRestarts(log, service, gap, n)
    ensures TimesOf(log, RestartService, service) == GapTimes(gap, n)
    decreases n
  {
    if n > 0 {
      OnlyRestartTimes(log[..n - 1], service, gap, n - 1);
      assert log[n - 1] == Action(RestartService, service, n * gap);
    }
  }

  lemma {:induction false} AfterAll(times: seq<int>, start: int)
    requires forall i | 0 <= i < |times| :: times[i] > start
    ensures After(times, start) == times
  {
    if times != [] {
      AfterAll(times[1..], start);
    }
  }

  /** Main theorem on the hourly limit, which the code checks under a key it never writes: no
      service is restarted more than three times in any hour, whatever the alerts, exactly
      if each healer that can act at all has a cooldown of at least twenty minutes. */
  lemma HourlyLimitHoldsIff(cs: nat -> Config)
    ensures HourlyLimitHolds(cs) <==> AllCoolFor(cs, HOUR / 3)
  {
    if AllCoolFor(cs, HOUR / 3) {
      forall es, service, start: int ensures HourHolds(Run(cs, Start, es).log, service, start) {
        StartHasInv(cs);
        TargetsStayApart(cs, Start, es, HOUR / 3);
        ApartCount(TimesOf(Run(cs, Start, es).log, RestartService, service), HOUR / 3, start, start + HOUR);
      }
    } else {
      var h :| cs(h).maxConcurrentActions > 0 && cs(h).cooldownMs < HOUR / 3;
      FourthRestart(cs, h, "s");
      var es := Restarts(h, "s", Max(GLOBAL_COOLDOWN, cs(h).cooldownMs), 4);
      assert !HourHolds(Run(cs, Start, es).log, "s", Max(GLOBAL_COOLDOWN, cs(h).cooldownMs) - 1);
    }
  }

  // ---------- The healers ----------

  /** The module variables. */
  class RecoveryGuard {
    var history: seq<Bucket>
    var lastGlobal: int

    constructor ()
      ensures View() == Shared([], 0)
    {
      history, lastGlobal := [], 0;
    }

    function View(): Shared
      reads this
    {
      Shared(history, lastGlobal)
    }
  }

  class AutoHealer {
    const config: Config
    const guard: RecoveryGuard
    var activeActions: set<Action>

    constructor (config: Config, guard: RecoveryGuard)
      ensures this.config == config && this.guard == guard && activeActions == {}
    {
      this.config, this.guard, activeActions := config, guard, {};
    }

    method CheckRecoveryRateLimits(k: Kind, target: string, now: int) returns (ok: bool)
      ensures ok <==> RateLimitsAllow(guard.View(), |activeActions|, k, target, now)
    {
      if |After(Flat(guard.history), now - MINUTE)| >= MAX_PER_MINUTE {
        return false;
      }
      if k.RestartService? {
        var hourly := After(Lookup(guard.history, "restart:" + target), now - HOUR);
        if |hourly| >= MAX_RESTARTS_PER_HOUR {
          return false;
        }
      }
      return |activeActions| < BULKHEAD;
    }

    method IsOnCooldown(k: Kind, target: string, now: int) returns (blocked: bool)
      ensures blocked <==> OnCooldown(config, guard.View(), |activeActions|, k, target, now)
    {
      var history := Lookup(guard.history, TypeName(k) + ":" + target);
      assert history == Lookup(guard.View().history, HistoryKey(k, target));
      if now - guard.lastGlobal < GLOBAL_COOLDOWN {
        return true;
      }
      if |history| > 0 {
        var lastAction := history[|history| - 1];
        if lastAction != 0 && now - lastAction < config.cooldownMs {
          return true;
        }
      }
      var ok := CheckRecoveryRateLimits(k, target, now);
      return !ok;
    }

    method SetCooldown(k: Kind, target: string, now: int)
      modifies guard
      ensures guard.View() == CooledDown(old(guard.View()), HistoryKey(k, target), now)
    {
      var key := TypeName(k) + ":" + target;
      var history := Lookup(guard.history, key) + [now];
      guard.history := Put(guard.history, key, After(history, now - HOUR));
      guard.lastGlobal := now;
    }

    /** initiateHealing until the action is awaited; `w` is the run so far, and this is its
        healer `me`. */
    method InitiateHealing(k: Kind, target: string, now: int, ghost cs: nat -> Config, ghost w: World, ghost me: nat)
      returns (started: bool)
      requires cs(me) == config && Inv(cs, w) && now >= w.clock
      requires w.shared == guard.View() && ActiveOf(w, me) == activeActions
      modifies this, guard
      ensures started <==> Rule(config, w.log, |old(activeActions)|, k, target, now)
      ensures var w' := Apply(cs, w, Alert(me, k, target, now));
        Inv(cs, w') && w'.shared == guard.View() && ActiveOf(w', me) == activeActions
    {
      DecisionIsRule(cs, w, me, k, target, now);
      StepKeepsInv(cs, w, Alert(me, k, target, now));
      var blocked := IsOnCooldown(k, target, now);
      if blocked { return false; }
      if |activeActions| >= config.maxConcurrentActions { return false; }
      activeActions := activeActions + {Action(k, target, now)};
      SetCooldown(k, target, now);
      return true;
    }

    /** Its `finally`: the next event of the run. A slot is free again, and nothing else has
        changed for this healer or any other. */
    method FinishHealing(a: Action, ghost cs: nat -> Config, ghost w: World, ghost me: nat)
      requires cs(me) == config && Inv(cs, w)
      requires w.shared == guard.View() && ActiveOf(w, me) == activeActions
      modifies this
      ensures var w' := Apply(cs, w, Finished(me, a));
        && Inv(cs, w') && w'.shared == guard.View() && ActiveOf(w', me) == activeActions
        && forall g | g != me :: ActiveOf(w', g) == ActiveOf(w, g)
      ensures a in old(activeActions) ==> |activeActions| == |old(activeActions)| - 1
    {
      StepKeepsInv(cs, w, Finished(me, a));
      activeActions := activeActions - {a};
    }
  }
}
