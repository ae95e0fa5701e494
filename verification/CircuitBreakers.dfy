/** The two circuit breakers: src/lib/circuit-breaker.ts, whose calls may be in flight
    across state changes, and its sequential twin in src/lib/retry.ts. */
module CircuitBreakers {

  import opened Basics

  datatype CircuitState = Closed | Open | HalfOpen

  datatype Config = Config(failureThreshold: int, successThreshold: int, timeout: int, halfOpenMaxCalls: int)

  datatype Breaker = Breaker(
    state: CircuitState,
    failures: int,
    successes: int,
    lastFailureTime: Option<int>,
    nextAttempt: int,
    halfOpenCalls: int,
    totalCalls: int,
    rejectedCalls: int)

  const Fresh := Breaker(Closed, 0, 0, None, 0, 0, 0, 0)

  // ---------- The breaker of circuit-breaker.ts ----------

  /** After the check of the open state: an expired timeout starts a half-open episode. */
  function Probed(b: Breaker, now: int): Breaker {
    if b.state.Open? && now >= b.nextAttempt then b.(state := HalfOpen, halfOpenCalls := 0, successes := 0) else b
  }

  predicate Admits(c: Config, b: Breaker, now: int) {
    var p := Probed(b, now);
    !p.state.Open? && (p.state.HalfOpen? ==> p.halfOpenCalls < c.halfOpenMaxCalls)
  }

  /** `execute` up to its await. */
  function Begun(c: Config, b: Breaker, now: int): Breaker {
    var p := Probed(b, now).(totalCalls := b.totalCalls + 1);
    if !Admits(c, b, now) then p.(rejectedCalls := b.rejectedCalls + 1)
    else if p.state.HalfOpen? then p.(halfOpenCalls := p.halfOpenCalls + 1)
    else p
  }

  function Opened(c: Config, b: Breaker, now: int): Breaker {
    b.(state := Open, nextAttempt := now + c.timeout, halfOpenCalls := 0, successes := 0)
  }

  function ClosedAgain(b: Breaker): Breaker {
    b.(state := Closed, failures := 0, successes := 0, halfOpenCalls := 0, nextAttempt := 0)
  }

  function Succeeded(c: Config, b: Breaker): Breaker {
    var b' := b.(failures := 0);
    if !b.state.HalfOpen? then b'
    else if b.successes + 1 >= c.successThreshold then ClosedAgain(b')
    else b'.(successes := b.successes + 1)
  }

  function Failed(c: Config, b: Breaker, now: int): Breaker {
    var b' := b.(failures := b.failures + 1, lastFailureTime := Some(now));
    if b.state.HalfOpen? || b'.failures >= c.failureThreshold then Opened(c, b', now) else b'
  }

  class CircuitBreaker {
    const config: Config
    var state: CircuitState
    var failures: int
    var successes: int
    var lastFailureTime: Option<int>
    var nextAttempt: int
    var halfOpenCalls: int
    var totalCalls: int
    var rejectedCalls: int

    constructor (config: Config)
      ensures this.config == config && View() == Fresh
    {
      this.config := config;
      state, failures, successes, lastFailureTime, nextAttempt := Closed, 0, 0, None, 0;
      halfOpenCalls, totalCalls, rejectedCalls := 0, 0, 0;
    }

    function View(): Breaker
      reads this
    {
      Breaker(state, failures, successes, lastFailureTime, nextAttempt, halfOpenCalls, totalCalls, rejectedCalls)
    }

    /** `execute` until the wrapped function is awaited, or the call is refused. */
    method Begin(now: int) returns (admitted: bool)
      modifies this
      ensures View() == Begun(config, old(View()), now)
      ensures admitted <==> Admits(config, old(View()), now)
    {
      totalCalls := totalCalls + 1;
      if state.Open? {
        if now < nextAttempt {
          rejectedCalls := rejectedCalls + 1;
          return false;
        }
        state, halfOpenCalls, successes := HalfOpen, 0, 0;
      }
      if state.HalfOpen? && halfOpenCalls >= config.halfOpenMaxCalls {
        rejectedCalls := rejectedCalls + 1;
        return false;
      }
      if state.HalfOpen? {
        halfOpenCalls := halfOpenCalls + 1;
      }
      return true;
    }

    method OnSuccess()
      modifies this
      ensures View() == Succeeded(config, old(View()))
    {
      failures := 0;
      if state.HalfOpen? {
        successes := successes + 1;
        if successes >= config.successThreshold {
          ForceClose();
        }
      }
    }

    method OnFailure(now: int)
      modifies this
      ensures View() == Failed(config, old(View()), now)
    {
      failures, lastFailureTime := failures + 1, Some(now);
      if state.HalfOpen? {
        ForceOpen(now);
      } else if failures >= config.failureThreshold {
        ForceOpen(now);
      }
    }

    method ForceOpen(now: int)
      modifies this
      ensures View() == Opened(config, old(View()), now)
    {
      state, nextAttempt, halfOpenCalls, successes := Open, now + config.timeout, 0, 0;
    }

    method ForceClose()
      modifies this
      ensures View() == ClosedAgain(old(View()))
    {
      state, failures, successes, halfOpenCalls, nextAttempt := Closed, 0, 0, 0, 0;
    }

    method Reset()
      modifies this
      ensures View() == Fresh
    {
      ForceClose();
      totalCalls, rejectedCalls, lastFailureTime := 0, 0, None;
    }
  }

  // ---------- Calls in flight ----------

  /** The breaker with its calls in flight; each call remembers the half-open episode that
      admitted it, or None if the breaker was closed. */
  datatype World = World(breaker: Breaker, flying: map<nat, Option<nat>>, episode: nat)

  datatype Event =
    | Call(id: nat, now: int)
    | Finish(id: nat, ok: bool, now: int)
    | DoForceOpen(now: int)
    | DoForceClose
    | DoReset

  function Apply(c: Config, w: World, e: Event): World {
    match e
    case Call(id, now) =>
      var p := Probed(w.breaker, now);
      var episode := if w.breaker.state.Open? && p.state.HalfOpen? then w.episode + 1 else w.episode;
      var b := Begun(c, w.breaker, now);
      if id in w.flying then w
      else if Admits(c, w.breaker, now)
      then World(b, w.flying[id := if b.state.HalfOpen? then Some(episode) else None], episode)
      else World(b, w.flying, episode)
    case Finish(id, ok, now) =>
      if id !in w.flying then w
      else World(if ok then Succeeded(c, w.breaker) else Failed(c, w.breaker, now), w.flying - {id}, w.episode)
    case DoForceOpen(now) => w.(breaker := Opened(c, w.breaker, now))
    case DoForceClose => w.(breaker := ClosedAgain(w.breaker))
    case DoReset => w.(breaker := Fresh)
  }

  function Run(c: Config, w: World, es: seq<Event>): World
    decreases es
  {
    if es == [] then w else Run(c, Apply(c, w, es[0]), es[1..])
  }

  const Start := World(Fresh, map[], 0)

  /** The calls of the running half-open episode that have not finished. */
  ghost function Current(w: World): set<nat> {
    set id | id in w.flying && w.flying[id] == Some(w.episode)
  }

  /** Every slot handed out in this episode is either still flying or was counted as a
      success; a stale completion can only add successes or end the episode. */
  ghost predicate Accounted(c: Config, w: World) {
    && (forall id | id in w.flying && w.flying[id].Some? :: w.flying[id].value <= w.episode)
    && (w.breaker.state.HalfOpen? ==>
          && 0 <= w.breaker.successes
          && (w.breaker.successes == 0 || w.breaker.successes < c.successThreshold)
          && w.breaker.halfOpenCalls <= w.breaker.successes + |Current(w)|)
  }

  lemma CallAccounted(c: Config, w: World, id: nat, now: int)
    requires Accounted(c, w) && id !in w.flying && Admits(c, w.breaker, now)
    ensures Accounted(c, Apply(c, w, Call(id, now)))
  {
    var w' := Apply(c, w, Call(id, now));
    if w.breaker.state.HalfOpen? {
      assert Current(w') == Current(w) + {id};
    } else if w'.breaker.state.HalfOpen? {
      assert {id} <= Current(w');
      SubsetSize({id}, Current(w'));
    }
  }

  lemma FinishAccounted(c: Config, w: World, id: nat, ok: bool, now: int)
    requires Accounted(c, w) && id in w.flying
    ensures Accounted(c, Apply(c, w, Finish(id, ok, now)))
  {
    var w' := Apply(c, w, Finish(id, ok, now));
    assert Current(w') == Current(w) - {id};
  }

  lemma AccountedStep(c: Config, w: World, e: Event)
    requires Accounted(c, w)
    ensures Accounted(c, Apply(c, w, e))
  {
    match e
    case Call(id, now) =>
      if id !in w.flying && Admits(c, w.breaker, now) {
        CallAccounted(c, w, id, now);
      } else {
        RefusedAccounted(c, w, id, now);
      }
    case Finish(id, ok, now) =>
      if id in w.flying {
        FinishAccounted(c, w, id, ok, now);
      }
    case DoForceOpen(now) =>
    case DoForceClose =>
    case DoReset =>
  }

  lemma RefusedAccounted(c: Config, w: World, id: nat, now: int)
    requires Accounted(c, w) && (id in w.flying || !Admits(c, w.breaker, now))
    ensures Accounted(c, Apply(c, w, Call(id, now)))
  {
    var w' := Apply(c, w, Call(id, now));
    if w.breaker.state.HalfOpen? {
      assert Current(w') == Current(w);
    }
  }

  lemma {:induction false} AccountedRun(c: Config, w: World, es: seq<Event>)
    requires Accounted(c, w)
    ensures Accounted(c, Run(c, w, es))
    decreases es
  {
    if es != [] {
      AccountedStep(c, w, es[0]);
      AccountedRun(c, Apply(c, w, es[0]), es[1..]);
    }
  }

  /** Half-open, nothing of this episode in flight, and yet no call will ever be let in. */
  ghost predicate Wedged(c: Config, w: World) {
    && w.breaker.state.HalfOpen? && Current(w) == {}
    && forall now: int :: !Admits(c, w.breaker, now)
  }

  lemma {:induction false} RunAppend(c: Config, w: World, es: seq<Event>, fs: seq<Event>)
    ensures Run(c, w, es + fs) == Run(c, Run(c, w, es), fs)
    decreases es
  {
    if es == [] {
      assert es + fs == fs;
    } else {
      assert (es + fs)[1..] == es[1..] + fs;
      RunAppend(c, Apply(c, w, es[0]), es[1..], fs);
    }
  }

  /** `n` probes one after the other, each succeeding. */
  function Probes(n: nat, now: int): seq<Event> {
    if n == 0 then [] else Probes(n - 1, now) + [Call(n, now), Finish(n, true, now)]
  }

  lemma {:induction false} ProbesUseUpSlots(c: Config, n: nat)
    requires 1 <= n <= c.halfOpenMaxCalls && n < c.successThreshold
    ensures var w := Run(c, Start, [DoForceOpen(0)] + Probes(n, c.timeout));
      && w.breaker.state.HalfOpen? && w.flying == map[]
      && w.breaker.halfOpenCalls == n && w.breaker.successes == n
  {
    var now := c.timeout;
    var last := [Call(n, now), Finish(n, true, now)];
    var before := [DoForceOpen(0)] + Probes(n - 1, now);
    assert [DoForceOpen(0)] + Probes(n, now) == before + last;
    RunAppend(c, Start, before, last);
    var w := Run(c, Start, before);
    if n == 1 {
      assert Probes(0, now) == [] && before == [DoForceOpen(0)];
      assert Run(c, Start, before) == Apply(c, Start, DoForceOpen(0));
    } else {
      ProbesUseUpSlots(c, n - 1);
    }
    var w1 := Apply(c, w, Call(n, now));
    var w2 := Apply(c, w1, Finish(n, true, now));
    assert last[1..] == [Finish(n, true, now)];
    assert Run(c, w1, last[1..]) == w2;
  }

  /** Main theorem. Over all runs, with calls completing in any later episode, the breaker
      never wedges exactly when one half-open episode has room for as many calls as are
      needed to close it. */
  lemma NeverWedgedIff(c: Config)
    ensures (forall es :: !Wedged(c, Run(c, Start, es)))
       <==> Max(1, c.successThreshold) <= c.halfOpenMaxCalls
  {
    if Max(1, c.successThreshold) <= c.halfOpenMaxCalls {
      forall es ensures !Wedged(c, Run(c, Start, es)) {
        AccountedRun(c, Start, es);
        var w := Run(c, Start, es);
        if w.breaker.state.HalfOpen? && Current(w) == {} {
          assert Admits(c, w.breaker, 0);
        }
      }
    } else if c.halfOpenMaxCalls >= 1 {
      var es := [DoForceOpen(0)] + Probes(c.halfOpenMaxCalls, c.timeout);
      ProbesUseUpSlots(c, c.halfOpenMaxCalls);
      assert Wedged(c, Run(c, Start, es));
    } else {
      var es := [DoForceOpen(0), Call(0, c.timeout)];
      var w1 := Apply(c, Start, DoForceOpen(0));
      assert es[1..] == [Call(0, c.timeout)];
      assert Run(c, w1, es[1..]) == Apply(c, w1, Call(0, c.timeout));
      assert Wedged(c, Run(c, Start, es));
    }
  }

  // ---------- The twin of retry.ts ----------

  datatype TwinConfig = TwinConfig(failureThreshold: int, successThreshold: int, timeoutMs: int)

  datatype Twin = Twin(state: CircuitState, failureCount: int, successCount: int, nextAttemptTime: Option<int>)

  const FreshTwin := Twin(Closed, 0, 0, None)

  /** JavaScript's `x || d` on numbers. */
  function Or(x: int, d: int): int { if x != 0 then x else d }

  predicate TwinAdmits(t: Twin, now: int) {
    t.state.Open? ==> now >= if t.nextAttemptTime.Some? then t.nextAttemptTime.value else 0
  }

  function TwinBegun(t: Twin, now: int): Twin {
    if t.state.Open? && TwinAdmits(t, now) then t.(state := HalfOpen, successCount := 0) else t
  }

  function TwinSucceeded(c: TwinConfig, t: Twin): Twin {
    var t' := t.(failureCount := 0);
    if !t.state.HalfOpen? then t'
    else if t.successCount + 1 >= Or(c.successThreshold, 3) then t'.(state := Closed, successCount := 0)
    else t'.(successCount := t.successCount + 1)
  }

  function TwinFailed(c: TwinConfig, t: Twin, now: int): Twin {
    var t' := t.(failureCount := t.failureCount + 1);
    if t.state.HalfOpen? || t'.failureCount >= Or(c.failureThreshold, 5)
    then t'.(state := Open, nextAttemptTime := Some(now + Or(c.timeoutMs, 60000))) else t'
  }

  class SequentialCircuitBreaker {
    const config: TwinConfig
    var state: CircuitState
    var failureCount: int
    var successCount: int
    var nextAttemptTime: Option<int>

    constructor (config: TwinConfig)
      ensures this.config == config && View() == FreshTwin
    {
      this.config := config;
      state, failureCount, successCount, nextAttemptTime := Closed, 0, 0, None;
    }

    function View(): Twin
      reads this
    {
      Twin(state, failureCount, successCount, nextAttemptTime)
    }

    method CanExecute(now: int) returns (admitted: bool)
      modifies this
      ensures View() == TwinBegun(old(View()), now)
      ensures admitted <==> TwinAdmits(old(View()), now)
    {
      if state.Closed? { return true; }
      if state.Open? {
        if now >= (match nextAttemptTime case Some(t) => t case None => 0) {
          state, successCount := HalfOpen, 0;
          return true;
        }
        return false;
      }
      return true;
    }

    method RecordSuccess()
      modifies this
      ensures View() == TwinSucceeded(config, old(View()))
    {
      failureCount := 0;
      if state.HalfOpen? {
        successCount := successCount + 1;
        if successCount >= Or(config.successThreshold, 3) {
          state, successCount := Closed, 0;
        }
      }
    }

    method RecordFailure(now: int)
      modifies this
      ensures View() == TwinFailed(config, old(View()), now)
    {
      failureCount := failureCount + 1;
      if state.HalfOpen? || failureCount >= Or(config.failureThreshold, 5) {
        state, nextAttemptTime := Open, Some(now + Or(config.timeoutMs, 60000));
      }
    }
  }

  // ---------- Retrying behind the twin ----------

  datatype Attempt = Succeeds | Retryable | Fatal

  /** RetryManager.execute: attempt i ends as `attempts(i)`. */
  method Execute(attempts: nat -> Attempt, maxAttempts: int) returns (ok: bool, made: nat)
    ensures maxAttempts <= 0 ==> !ok && made == 0
    ensures maxAttempts > 0 ==>
      && 1 <= made <= maxAttempts
      && (forall i: nat | i < made - 1 :: attempts(i).Retryable?)
      && (attempts(made - 1).Retryable? ==> made == maxAttempts)
      && (ok <==> attempts(made - 1).Succeeds?)
  {
    var attempt := 1;
    made := 0;
    while attempt <= maxAttempts
      invariant 1 <= attempt && made == attempt - 1
      invariant attempt > 1 ==> attempt <= maxAttempts
      invariant forall i: nat | i < made :: attempts(i).Retryable?
    {
      made := attempt;
      match attempts(attempt - 1) {
        case Succeeds => return true, made;
        case Fatal => return false, made;
        case Retryable => if attempt == maxAttempts { return false, made; }
      }
      attempt := attempt + 1;
    }
    return false, made;
  }

  // ---------- One call at a time ----------

  /** A call made at `at`; if admitted, it ends at `done`. */
  datatype Trial = Trial(at: int, done: int, ok: bool)

  function Try(c: Config, b: Breaker, t: Trial): Breaker {
    var b' := Begun(c, b, t.at);
    if !Admits(c, b, t.at) then b' else if t.ok then Succeeded(c, b') else Failed(c, b', t.done)
  }

  function TwinTry(c: TwinConfig, b: Twin, t: Trial): Twin {
    var b' := TwinBegun(b, t.at);
    if !TwinAdmits(b, t.at) then b' else if t.ok then TwinSucceeded(c, b') else TwinFailed(c, b', t.done)
  }

  function Tries(c: Config, h: seq<Trial>): Breaker {
    if h == [] then Fresh else Try(c, Tries(c, h[..|h| - 1]), h[|h| - 1])
  }

  function TwinTries(c: TwinConfig, h: seq<Trial>): Twin {
    if h == [] then FreshTwin else TwinTry(c, TwinTries(c, h[..|h| - 1]), h[|h| - 1])
  }

  predicate Alike(c: Config, tc: TwinConfig) {
    && c.failureThreshold == tc.failureThreshold > 0
    && c.successThreshold == tc.successThreshold > 0
    && c.timeout == tc.timeoutMs > 0
  }

  /** RetryManager.executeWithCircuitBreaker is one trial, however many attempts it makes. */
  method ExecuteWithCircuitBreaker(breaker: SequentialCircuitBreaker, attempts: nat -> Attempt, maxAttempts: int,
                                   at: int, done: int) returns (admitted: bool, ok: bool)
    modifies breaker
    ensures admitted <==> TwinAdmits(old(breaker.View()), at)
    ensures breaker.View() == TwinTry(breaker.config, old(breaker.View()), Trial(at, done, ok))
    ensures ok ==> admitted && exists i: nat :: i < maxAttempts && attempts(i).Succeeds?
  {
    admitted := breaker.CanExecute(at);
    if !admitted { return admitted, false; }
    var made;
    ok, made := Execute(attempts, maxAttempts);
    if ok {
      breaker.RecordSuccess();
    } else {
      breaker.RecordFailure(done);
    }
  }

  /** Same state and same counts, in the fields that matter in that state. */
  predicate Matches(b: Breaker, t: Twin) {
    && b.state == t.state && b.failures == t.failureCount
    && (b.state.HalfOpen? ==> b.successes == t.successCount)
    && (b.state.Open? ==> Some(b.nextAttempt) == t.nextAttemptTime)
  }

  /** With one call at a time every slot taken was a success. */
  predicate Settled(c: Config, b: Breaker) {
    b.state.HalfOpen? ==> 0 <= b.successes == b.halfOpenCalls < c.successThreshold
  }

  ghost predicate Indistinguishable(c: Config, tc: TwinConfig) {
    forall h, at: int | Chronological(h, at) :: AgreeAfter(c, tc, h, at)
  }

  /** One call at a time under a clock that never goes back, up to time `at`. */
  ghost predicate Chronological(h: seq<Trial>, at: int) {
    && (forall i | 0 <= i < |h| :: h[i].at <= h[i].done <= at)
    && (forall i, j | 0 <= i < j < |h| :: h[i].done <= h[j].at)
  }

  /** After history `h`: the same state, and the same decision on a call made at `at`. */
  ghost predicate AgreeAfter(c: Config, tc: TwinConfig, h: seq<Trial>, at: int) {
    && Matches(Tries(c, h), TwinTries(tc, h))
    && (Admits(c, Tries(c, h), at) <==> TwinAdmits(TwinTries(tc, h), at))
  }

  lemma {:induction false} TwinsAgree(c: Config, tc: TwinConfig, h: seq<Trial>)
    requires Alike(c, tc) && c.successThreshold <= c.halfOpenMaxCalls
    ensures Matches(Tries(c, h), TwinTries(tc, h)) && Settled(c, Tries(c, h))
  {
    if h != [] {
      TwinsAgree(c, tc, h[..|h| - 1]);
    }
  }

  /** Fails until open, waits out the timeout, then `n` successful probes. */
  function Breaking(c: Config, n: nat): seq<Trial>
    requires c.failureThreshold > 0
  {
    seq(c.failureThreshold, i => Trial(0, 0, false)) + seq(n, i => Trial(c.timeout, c.timeout, true))
  }

  lemma {:induction false} FailuresOpen(c: Config, n: nat)
    requires 0 < c.timeout && n <= c.failureThreshold
    ensures var b := Tries(c, seq(n, i => Trial(0, 0, false)));
      && b.failures == n
      && if n == c.failureThreshold && n > 0 then b.state.Open? && b.nextAttempt == c.timeout else b.state.Closed?
  {
    if n > 0 {
      var h := seq(n, i => Trial(0, 0, false));
      assert h[..n - 1] == seq(n - 1, i => Trial(0, 0, false));
      FailuresOpen(c, n - 1);
    }
  }

  lemma {:induction false} ProbesSaturate(c: Config, n: nat)
    requires c.failureThreshold > 0 && c.timeout > 0
    requires 1 <= n <= c.halfOpenMaxCalls && n < c.successThreshold
    ensures var b := Tries(c, Breaking(c, n));
      b.state.HalfOpen? && b.halfOpenCalls == n && b.successes == n
  {
    var h := Breaking(c, n);
    assert h[..|h| - 1] == Breaking(c, n - 1);
    if n == 1 {
      assert Breaking(c, 0) == seq(c.failureThreshold, i => Trial(0, 0, false));
      FailuresOpen(c, c.failureThreshold);
    } else {
      ProbesSaturate(c, n - 1);
    }
  }

  /** Main theorem. Used sequentially with equal positive settings, the two breakers show
      the same states and take the same decisions after every history exactly when the
      first one's half-open limit is at least its success threshold. */
  lemma BisimilarIff(c: Config, tc: TwinConfig)
    requires Alike(c, tc)
    ensures Indistinguishable(c, tc) <==> c.successThreshold <= c.halfOpenMaxCalls
  {
    if c.successThreshold <= c.halfOpenMaxCalls {
      forall h, at: int ensures AgreeAfter(c, tc, h, at) {
        TwinsAgree(c, tc, h);
      }
    } else if c.halfOpenMaxCalls >= 1 {
      var h := Breaking(c, c.halfOpenMaxCalls);
      ProbesSaturate(c, c.halfOpenMaxCalls);
      assert Chronological(h, c.timeout);
      assert !Admits(c, Tries(c, h), c.timeout);
      assert !AgreeAfter(c, tc, h, c.timeout);
    } else {
      var h := seq(c.failureThreshold, i => Trial(0, 0, false));
      FailuresOpen(c, c.failureThreshold);
      assert Chronological(h, c.timeout);
      assert !Admits(c, Tries(c, h), c.timeout);
      assert !AgreeAfter(c, tc, h, c.timeout);
    }
  }
}
