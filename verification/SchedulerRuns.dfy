/** The weighted scheduler in motion (backend/src/services/priority-scheduler.ts).

    Any number of getNextBatch calls and applyAging passes run interleaved, with tasks
    submitted, promoted and cancelled meanwhile; each Redis command is one atomic event. */
module SchedulerRuns {

  import opened Basics
  import opened PriorityScheduling

  datatype Stage =
    | Reading(queue: Class)                                // zrange is next
    | Removing(queue: Class, pending: seq<Member>)         // read, not yet removed by zrem
    | Finished

  /** `slots` are those left after CRITICAL. */
  datatype Call = Call(batchSize: int, stage: Stage, tasks: seq<Member>, slots: int)

  datatype Pass =
    | Scanning(queue: Class)                               // zrange of the whole class is next
    | Scoring(queue: Class, pending: seq<Member>)          // read, not yet written back by zadd
    | Over

  /** Call `call` took this text of this queue into its batch. */
  datatype Handout = Handout(call: nat, queue: Class, member: Member)

  type Place = (Class, Member)

  datatype World = World(
    queues: Queues,
    calls: map<nat, Call>,
    passes: map<nat, Pass>,
    log: seq<Handout>,
    added: multiset<Place>,         // a text came into a queue that did not hold it
    cancelled: multiset<Place>,
    wasted: multiset<Place>,        // handed out although no longer queued
    revived: multiset<Place>)       // aged although no longer queued

  datatype Event =
    | Submit(member: Member, now: int)           // the zadd of submitTask and promoteTask
    | Cancel(queue: Class, member: Member)       // the zrem of cancelTask and promoteTask
    | Begin(call: nat, batchSize: int)
    | Read(call: nat)
    | Remove(call: nat)
    | BeginPass(pass: nat)
    | Scan(pass: nat)
    | Rescore(pass: nat, now: int)

  const Start := World(Queues([], [], [], []), map[], map[], [], multiset{}, multiset{}, multiset{}, multiset{})

  // ---------- One event ----------

  function Get(q: Queues, k: Class): seq<Scored> {
    match k
    case CRITICAL => q.critical
    case HIGH => q.high
    case MEDIUM => q.medium
    case LOW => q.low
  }

  function Put(q: Queues, k: Class, s: seq<Scored>): Queues {
    match k
    case CRITICAL => q.(critical := s)
    case HIGH => q.(high := s)
    case MEDIUM => q.(medium := s)
    case LOW => q.(low := s)
  }

  function Enter(w: World, k: Class, m: Member, score: real): World {
    w.(queues := Put(w.queues, k, ZAdd(Get(w.queues, k), m, score)),
       added := if Holds(Get(w.queues, k), m) then w.added else w.added + multiset{(k, m)})
  }

  function Leave(w: World, k: Class, m: Member): World {
    w.(queues := Put(w.queues, k, ZRem(Get(w.queues, k), m)))
  }

  /** The last index that the zrange of class `k` asks for. */
  function Stop(c: Call, k: Class): int {
    match k
    case CRITICAL => c.batchSize - 1
    case HIGH => HighShare(c.slots) - 1
    case MEDIUM => MediumShare(c.slots) - 1
    case LOW => c.batchSize - |c.tasks| - 1
  }

  /** What a call does once class `k` is through. */
  function Advance(c: Call, k: Class): Call {
    var left := c.batchSize - |c.tasks|;
    match k
    case CRITICAL => c.(slots := left, stage := if left <= 0 then Finished else Reading(HIGH))
    case HIGH => c.(stage := Reading(MEDIUM))
    case MEDIUM => c.(stage := if left > 0 then Reading(LOW) else Finished)
    case LOW => c.(stage := Finished)
  }

  function AdvancePass(k: Class): Pass {
    match k
    case CRITICAL => Scanning(HIGH)
    case HIGH => Scanning(MEDIUM)
    case MEDIUM => Scanning(LOW)
    case LOW => Over
  }

  /** What the next zrange of a call returns. */
  function ReadBy(w: World, c: Call): seq<Member>
    requires c.stage.Reading?
  {
    var q := Get(w.queues, c.stage.queue);
    Members(q[..ZRange(q, Stop(c, c.stage.queue))])
  }

  function AfterRead(w: World, c: Call): Call
    requires c.stage.Reading?
  {
    var read := ReadBy(w, c);
    if read == [] then Advance(c, c.stage.queue) else c.(stage := Removing(c.stage.queue, read))
  }

  function AfterRemove(c: Call): Call
    requires c.stage.Removing? && c.stage.pending != []
  {
    var c' := c.(tasks := c.tasks + [c.stage.pending[0]]);
    if |c.stage.pending| == 1 then Advance(c', c.stage.queue)
    else c'.(stage := Removing(c.stage.queue, c.stage.pending[1..]))
  }

  /** push and zrem of the first task read. */
  function Removed(w: World, id: nat, c: Call): World
    requires c.stage.Removing? && c.stage.pending != []
  {
    var k, m := c.stage.queue, c.stage.pending[0];
    Leave(w, k, m).(
      calls := w.calls[id := AfterRemove(c)],
      log := w.log + [Handout(id, k, m)],
      wasted := if Holds(Get(w.queues, k), m) then w.wasted else w.wasted + multiset{(k, m)})
  }

  function AfterScan(w: World, k: Class): Pass {
    var read := Members(Get(w.queues, k));
    if read == [] then AdvancePass(k) else Scoring(k, read)
  }

  /** zadd of the re-scored text of the first task read. */
  function Rescored(w: World, id: nat, k: Class, pending: seq<Member>, now: int): World
    requires pending != []
  {
    var m := pending[0];
    var copy := Aged(m, k, now);
    Enter(w, k, copy, Score(copy, now)).(
      passes := w.passes[id := if |pending| == 1 then AdvancePass(k) else Scoring(k, pending[1..])],
      revived := if Holds(Get(w.queues, k), m) then w.revived else w.revived + multiset{(k, m)})
  }

  function Apply(w: World, e: Event): World {
    match e
    case Submit(m, now) => Enter(w, m.priority, m, Score(m, now))
    case Cancel(k, m) =>
      if Holds(Get(w.queues, k), m) then Leave(w, k, m).(cancelled := w.cancelled + multiset{(k, m)}) else w
    case Begin(c, batchSize) =>
      if c in w.calls then w else w.(calls := w.calls[c := Call(batchSize, Reading(CRITICAL), [], batchSize)])
    case Read(c) =>
      if c in w.calls && w.calls[c].stage.Reading? then w.(calls := w.calls[c := AfterRead(w, w.calls[c])]) else w
    case Remove(c) =>
      if c in w.calls && w.calls[c].stage.Removing? && w.calls[c].stage.pending != []
      then Removed(w, c, w.calls[c]) else w
    case BeginPass(p) => if p in w.passes then w else w.(passes := w.passes[p := Scanning(HIGH)])
    case Scan(p) =>
      if p in w.passes && w.passes[p].Scanning?
      then w.(passes := w.passes[p := AfterScan(w, w.passes[p].queue)]) else w
    case Rescore(p, now) =>
      if p in w.passes && w.passes[p].Scoring? && w.passes[p].pending != []
      then Rescored(w, p, w.passes[p].queue, w.passes[p].pending, now) else w
  }

  function Run(w: World, es: seq<Event>): World
    decreases es
  {
    if es == [] then w else Run(Apply(w, es[0]), es[1..])
  }

  lemma {:induction false} RunAppend(w: World, es: seq<Event>, fs: seq<Event>)
    ensures Run(w, es + fs) == Run(Run(w, es), fs)
    decreases es
  {
    if es == [] {
      assert es + fs == fs;
    } else {
      assert (es + fs)[1..] == es[1..] + fs;
      RunAppend(Apply(w, es[0]), es[1..], fs);
    }
  }

  // ---------- Every queue stays a sorted set ----------

  ghost predicate Ordered(w: World) {
    forall k :: Ascending(Get(w.queues, k)) && Distinct(Get(w.queues, k))
  }

  /** CRITICAL is not aged. */
  ghost predicate PassesAge(w: World) {
    forall p | p in w.passes && !w.passes[p].Over? :: !w.passes[p].queue.CRITICAL?
  }

  lemma EnterKeepsOrder(w: World, k: Class, m: Member, score: real)
    requires Ordered(w)
    ensures Ordered(Enter(w, k, m, score))
  {
    ZAddEffect(Get(w.queues, k), m, score);
    forall j ensures Ascending(Get(Enter(w, k, m, score).queues, j)) && Distinct(Get(Enter(w, k, m, score).queues, j)) {
      assert Ascending(Get(w.queues, j)) && Distinct(Get(w.queues, j));
    }
  }

  lemma LeaveKeepsOrder(w: World, k: Class, m: Member)
    requires Ordered(w)
    ensures Ordered(Leave(w, k, m))
  {
    ZRemEffect(Get(w.queues, k), m);
    forall j ensures Ascending(Get(Leave(w, k, m).queues, j)) && Distinct(Get(Leave(w, k, m).queues, j)) {
      assert Ascending(Get(w.queues, j)) && Distinct(Get(w.queues, j));
    }
  }

  lemma SameQueuesKeepOrder(w: World, w': World)
    requires Ordered(w) && w'.queues == w.queues
    ensures Ordered(w')
  {
  }

  lemma OrderedStep(w: World, e: Event)
    requires Ordered(w)
    ensures Ordered(Apply(w, e))
  {
    var w' := Apply(w, e);
    if w'.queues == w.queues {
      SameQueuesKeepOrder(w, w');
    } else {
      match e
      case Submit(m, now) => EnterKeepsOrder(w, m.priority, m, Score(m, now));
      case Cancel(k, m) =>
        LeaveKeepsOrder(w, k, m);
        SameQueuesKeepOrder(Leave(w, k, m), w');
      case Remove(c) =>
        var k, m := w.calls[c].stage.queue, w.calls[c].stage.pending[0];
        LeaveKeepsOrder(w, k, m);
        SameQueuesKeepOrder(Leave(w, k, m), w');
      case Rescore(p, now) =>
        var k, copy := w.passes[p].queue, Aged(w.passes[p].pending[0], w.passes[p].queue, now);
        EnterKeepsOrder(w, k, copy, Score(copy, now));
        SameQueuesKeepOrder(Enter(w, k, copy, Score(copy, now)), w');
    }
  }

  lemma PassesAgeStep(w: World, e: Event)
    requires PassesAge(w)
    ensures PassesAge(Apply(w, e))
  {
  }

  /** So what any zrange of a call leaves behind scores no lower than what it reads. */
  lemma ReadIsCheapest(w: World, c: Call)
    requires Ordered(w) && c.stage.Reading?
    ensures var q := Get(w.queues, c.stage.queue);
      var n := ZRange(q, Stop(c, c.stage.queue));
      && ReadBy(w, c) == Members(q[..n])
      && forall x, y | x in q[..n] && y in q[n..] :: x.score <= y.score
  {
    assert Ascending(Get(w.queues, c.stage.queue));
  }

  lemma {:induction false} OrderedRun(w: World, es: seq<Event>)
    requires Ordered(w) && PassesAge(w)
    ensures Ordered(Run(w, es)) && PassesAge(Run(w, es))
    decreases es
  {
    if es != [] {
      OrderedStep(w, es[0]);
      PassesAgeStep(w, es[0]);
      OrderedRun(Apply(w, es[0]), es[1..]);
    }
  }

  // ---------- Conservation in every run ----------

  function One(b: bool): nat { if b then 1 else 0 }

  /** How often a text of a queue has been handed out. */
  function Handed(log: seq<Handout>, k: Class, m: Member): nat {
    if log == [] then 0
    else
      var last := log[|log| - 1];
      Handed(log[..|log| - 1], k, m) + One(last.queue == k && last.member == m)
  }

  /** The batch of a call, as far as it has come. */
  function TasksOf(log: seq<Handout>, c: nat): seq<Member> {
    if log == [] then []
    else
      var last := log[|log| - 1];
      TasksOf(log[..|log| - 1], c) + (if last.call == c then [last.member] else [])
  }

  lemma LogAppend(log: seq<Handout>, h: Handout, k: Class, m: Member, c: nat)
    ensures Handed(log + [h], k, m) == Handed(log, k, m) + One(h.queue == k && h.member == m)
    ensures TasksOf(log + [h], c) == TasksOf(log, c) + (if h.call == c then [h.member] else [])
  {
    assert (log + [h])[..|log|] == log;
  }

  /** What came in was handed out, cancelled or is still queued; a text handed out more often
      than that was wasted. */
  ghost predicate Balanced(w: World) {
    forall k, m :: BalancedAt(w, k, m)
  }

  ghost predicate BalancedAt(w: World, k: Class, m: Member) {
    Handed(w.log, k, m) + w.cancelled[(k, m)] + One(Holds(Get(w.queues, k), m)) == w.added[(k, m)] + w.wasted[(k, m)]
  }

  ghost predicate BatchesAreLogged(w: World) {
    forall c :: TasksOf(w.log, c) == if c in w.calls then w.calls[c].tasks else []
  }

  lemma EnterHolds(w: World, k: Class, m: Member, score: real, j: Class, x: Member)
    ensures Holds(Get(Enter(w, k, m, score).queues, j), x) <==> Holds(Get(w.queues, j), x) || (j == k && x == m)
  {
    ZAddHolds(Get(w.queues, k), m, score, x);
  }

  lemma LeaveHolds(w: World, k: Class, m: Member, j: Class, x: Member)
    requires Ordered(w)
    ensures Holds(Get(Leave(w, k, m).queues, j), x) <==> Holds(Get(w.queues, j), x) && !(j == k && x == m)
  {
    assert Ascending(Get(w.queues, k)) && Distinct(Get(w.queues, k));
    ZRemEffect(Get(w.queues, k), m);
    if x != m {
      ZRemHolds(Get(w.queues, k), m, x);
    }
  }

  lemma SubmitBalanced(w: World, m: Member, now: int, j: Class, x: Member)
    requires BalancedAt(w, j, x)
    ensures BalancedAt(Enter(w, m.priority, m, Score(m, now)), j, x)
  {
    EnterHolds(w, m.priority, m, Score(m, now), j, x);
  }

  lemma CancelBalanced(w: World, k: Class, m: Member, j: Class, x: Member)
    requires Ordered(w) && BalancedAt(w, j, x) && Holds(Get(w.queues, k), m)
    ensures BalancedAt(Leave(w, k, m).(cancelled := w.cancelled + multiset{(k, m)}), j, x)
  {
    LeaveHolds(w, k, m, j, x);
  }

  lemma RemoveBalanced(w: World, id: nat, c: Call, j: Class, x: Member)
    requires Ordered(w) && BalancedAt(w, j, x) && c.stage.Removing? && c.stage.pending != []
    ensures BalancedAt(Removed(w, id, c), j, x)
  {
    var k, m := c.stage.queue, c.stage.pending[0];
    LeaveHolds(w, k, m, j, x);
    LogAppend(w.log, Handout(id, k, m), j, x, id);
  }

  lemma RescoreBalanced(w: World, p: nat, k: Class, pending: seq<Member>, now: int, j: Class, x: Member)
    requires BalancedAt(w, j, x) && pending != []
    ensures BalancedAt(Rescored(w, p, k, pending, now), j, x)
  {
    var copy := Aged(pending[0], k, now);
    EnterHolds(w, k, copy, Score(copy, now), j, x);
  }

  lemma BalancedStep(w: World, e: Event, j: Class, x: Member)
    requires Ordered(w) && BalancedAt(w, j, x)
    ensures BalancedAt(Apply(w, e), j, x)
  {
    match e
    case Submit(m, now) => SubmitBalanced(w, m, now, j, x);
    case Cancel(k, m) => if Holds(Get(w.queues, k), m) { CancelBalanced(w, k, m, j, x); }
    case Remove(c) =>
      if c in w.calls && w.calls[c].stage.Removing? && w.calls[c].stage.pending != [] {
        RemoveBalanced(w, c, w.calls[c], j, x);
      }
    case Rescore(p, now) =>
      if p in w.passes && w.passes[p].Scoring? && w.passes[p].pending != [] {
        RescoreBalanced(w, p, w.passes[p].queue, w.passes[p].pending, now, j, x);
      }
    case Begin(_, _) =>
    case Read(_) =>
    case BeginPass(_) =>
    case Scan(_) =>
  }

  lemma BatchesLoggedStep(w: World, e: Event)
    requires BatchesAreLogged(w)
    ensures BatchesAreLogged(Apply(w, e))
  {
    if e.Remove? && e.call in w.calls && w.calls[e.call].stage.Removing? && w.calls[e.call].stage.pending != [] {
      RemoveLogged(w, e.call, w.calls[e.call]);
    } else {
      forall c
        ensures TasksOf(Apply(w, e).log, c) == if c in Apply(w, e).calls then Apply(w, e).calls[c].tasks else []
      {
        assert TasksOf(w.log, c) == if c in w.calls then w.calls[c].tasks else [];
      }
    }
  }

  lemma RemoveLogged(w: World, id: nat, c: Call)
    requires BatchesAreLogged(w) && id in w.calls && w.calls[id] == c && c.stage.Removing? && c.stage.pending != []
    ensures BatchesAreLogged(Removed(w, id, c))
  {
    var w' := Removed(w, id, c);
    var k, m := c.stage.queue, c.stage.pending[0];
    forall d ensures TasksOf(w'.log, d) == if d in w'.calls then w'.calls[d].tasks else [] {
      assert TasksOf(w.log, d) == if d in w.calls then w.calls[d].tasks else [];
      LogAppend(w.log, Handout(id, k, m), k, m, d);
    }
  }

  /** Main theorem on contents, over all runs and interleavings: every text that ever came
      into a queue is still there, was cancelled, or stands in the batch of some call, and
      what is handed out beyond that is exactly what was read by one call and had already
      been removed by another. */
  lemma {:induction false} EveryRunIsBalanced(w: World, es: seq<Event>)
    requires Ordered(w) && PassesAge(w) && Balanced(w) && BatchesAreLogged(w)
    ensures Balanced(Run(w, es)) && BatchesAreLogged(Run(w, es))
    decreases es
  {
    if es != [] {
      OrderedStep(w, es[0]);
      PassesAgeStep(w, es[0]);
      BatchesLoggedStep(w, es[0]);
      forall k, m ensures BalancedAt(Apply(w, es[0]), k, m) {
        assert BalancedAt(w, k, m);
        BalancedStep(w, es[0], k, m);
      }
      EveryRunIsBalanced(Apply(w, es[0]), es[1..]);
    }
  }

  // ---------- Who is at work on what ----------

  ghost predicate CallHas(w: World, c: nat, k: Class, m: Member) {
    c in w.calls && w.calls[c].stage.Removing? && w.calls[c].stage.queue == k && m in w.calls[c].stage.pending
  }

  ghost predicate PassHas(w: World, p: nat, k: Class, m: Member) {
    p in w.passes && w.passes[p].Scoring? && w.passes[p].queue == k && m in w.passes[p].pending
  }

  predicate NoRepeat(ms: seq<Member>) { forall i, j | 0 <= i < j < |ms| :: ms[i] != ms[j] }

  /** What was read and not yet dealt with is still queued, and no call shares it with
      another call or with a pass. */
  ghost predicate Sound(w: World) {
    CallsHold(w) && PassesHold(w) && NoneTwice(w) && CallsApart(w) && PassesApart(w)
  }

  ghost predicate CallsHold(w: World) {
    forall c, k, m | CallHas(w, c, k, m) :: Holds(Get(w.queues, k), m)
  }

  ghost predicate PassesHold(w: World) {
    forall p, k, m | PassHas(w, p, k, m) :: Holds(Get(w.queues, k), m)
  }

  ghost predicate NoneTwice(w: World) {
    forall c | c in w.calls && w.calls[c].stage.Removing? :: NoRepeat(w.calls[c].stage.pending)
  }

  ghost predicate CallsApart(w: World) {
    forall c, d, k, m | CallHas(w, c, k, m) && CallHas(w, d, k, m) :: c == d
  }

  ghost predicate PassesApart(w: World) {
    forall c, p, k, m | CallHas(w, c, k, m) :: !PassHas(w, p, k, m)
  }

  ghost predicate InCall(w: World, k: Class, m: Member) { exists c :: CallHas(w, c, k, m) }

  ghost predicate InPass(w: World, k: Class, m: Member) { exists p :: PassHas(w, p, k, m) }

  /** The event reads or cancels nothing that someone else has read and not yet dealt with;
      two passes may read the same. */
  ghost predicate Separate(w: World, e: Event) {
    match e
    case Read(c) =>
      c in w.calls && w.calls[c].stage.Reading? ==>
        forall m | m in ReadBy(w, w.calls[c]) ::
          !InCall(w, w.calls[c].stage.queue, m) && !InPass(w, w.calls[c].stage.queue, m)
    case Scan(p) =>
      p in w.passes && w.passes[p].Scanning? ==>
        forall m | m in Members(Get(w.queues, w.passes[p].queue)) :: !InCall(w, w.passes[p].queue, m)
    case Cancel(k, m) => !InCall(w, k, m) && !InPass(w, k, m)
    case _ => true
  }

  /** The rest of what has begun: commands on tasks already read. */
  predicate Finishing(es: seq<Event>) { forall i | 0 <= i < |es| :: es[i].Remove? || es[i].Rescore? }

  // ---------- A separate event keeps it, any other breaks it ----------

  lemma MembersHeld(q: seq<Scored>, n: nat)
    requires n <= |q| && Distinct(q)
    ensures NoRepeat(Members(q[..n])) && forall m | m in Members(q[..n]) :: Holds(q, m)
  {
    forall m | m in Members(q[..n]) ensures Holds(q, m) {
      var i :| 0 <= i < n && Members(q[..n])[i] == m;
      assert q[i] in q;
    }
  }

  lemma AllMembersHeld(q: seq<Scored>, m: Member)
    ensures m in Members(q) <==> Holds(q, m)
  {
    if m in Members(q) {
      var i :| 0 <= i < |q| && Members(q)[i] == m;
      assert q[i] in q;
    }
    if Holds(q, m) {
      var x :| x in q && x.member == m;
      var i :| 0 <= i < |q| && q[i] == x;
      assert Members(q)[i] == m;
    }
  }

  /** Read by call `c`: what the call then has, and nothing else changes hands. */
  lemma ReadEffect(w: World, c: nat)
    requires Ordered(w) && c in w.calls && w.calls[c].stage.Reading?
    ensures var w' := Apply(w, Read(c));
      var k := w.calls[c].stage.queue;
      && w'.queues == w.queues && w'.passes == w.passes
      && (forall d | d != c :: d in w'.calls <==> d in w.calls)
      && (forall d | d != c && d in w.calls :: w'.calls[d] == w.calls[d])
      && (forall j, m :: CallHas(w', c, j, m) <==> j == k && m in ReadBy(w, w.calls[c]))
      && (w'.calls[c].stage.Removing? ==> NoRepeat(w'.calls[c].stage.pending))
      && (forall m | m in ReadBy(w, w.calls[c]) :: Holds(Get(w.queues, k), m))
  {
    var k := w.calls[c].stage.queue;
    var q := Get(w.queues, k);
    assert Distinct(q);
    MembersHeld(q, ZRange(q, Stop(w.calls[c], k)));
  }

  lemma ReadSoundIff(w: World, c: nat)
    requires Ordered(w) && Sound(w)
    ensures Sound(Apply(w, Read(c))) <==> Separate(w, Read(c))
  {
    if c in w.calls && w.calls[c].stage.Reading? {
      var w' := Apply(w, Read(c));
      var k := w.calls[c].stage.queue;
      ReadEffect(w, c);
      assert forall d, j, m | d != c :: CallHas(w', d, j, m) <==> CallHas(w, d, j, m);
      assert forall p, j, m :: PassHas(w', p, j, m) <==> PassHas(w, p, j, m);
      if Sound(w') {
        forall m | m in ReadBy(w, w.calls[c]) ensures !InCall(w, k, m) && !InPass(w, k, m) {
          assert CallHas(w', c, k, m);
        }
      }
      if Separate(w, Read(c)) {
        forall j, m | CallHas(w', c, j, m) ensures !InCall(w, j, m) && !InPass(w, j, m) {
        }
      }
    }
  }

  lemma ScanSoundIff(w: World, p: nat)
    requires Ordered(w) && Sound(w)
    ensures Sound(Apply(w, Scan(p))) <==> Separate(w, Scan(p))
  {
    if p in w.passes && w.passes[p].Scanning? {
      var w' := Apply(w, Scan(p));
      var k := w.passes[p].queue;
      var read := Members(Get(w.queues, k));
      assert forall c, j, m :: CallHas(w', c, j, m) <==> CallHas(w, c, j, m);
      assert forall r, j, m | r != p :: PassHas(w', r, j, m) <==> PassHas(w, r, j, m);
      assert forall j, m :: PassHas(w', p, j, m) <==> j == k && m in read;
      forall m ensures m in read <==> Holds(Get(w.queues, k), m) {
        AllMembersHeld(Get(w.queues, k), m);
      }
      if Sound(w') {
        forall m | m in read ensures !InCall(w, k, m) {
          assert PassHas(w', p, k, m);
        }
      }
    }
  }

  lemma CancelSoundIff(w: World, k: Class, m: Member)
    requires Ordered(w) && Sound(w)
    ensures Sound(Apply(w, Cancel(k, m))) <==> Separate(w, Cancel(k, m))
  {
    var w' := Apply(w, Cancel(k, m));
    assert forall c, j, x :: CallHas(w', c, j, x) <==> CallHas(w, c, j, x);
    assert forall p, j, x :: PassHas(w', p, j, x) <==> PassHas(w, p, j, x);
    forall j, x ensures Holds(Get(w'.queues, j), x) <==> Holds(Get(w.queues, j), x) && !(j == k && x == m) {
      LeaveHolds(w, k, m, j, x);
    }
  }

  /** Removing takes the task from the call and from the queue. */
  lemma RemoveEffect(w: World, c: nat)
    requires Ordered(w) && c in w.calls && w.calls[c].stage.Removing? && w.calls[c].stage.pending != []
    ensures var w' := Apply(w, Remove(c));
      var k, m := w.calls[c].stage.queue, w.calls[c].stage.pending[0];
      && w'.passes == w.passes
      && (forall d | d != c :: d in w'.calls <==> d in w.calls)
      && (forall d | d != c && d in w.calls :: w'.calls[d] == w.calls[d])
      && (forall j, x :: CallHas(w', c, j, x) ==> j == k && x in w.calls[c].stage.pending[1..])
      && (forall j, x :: Holds(Get(w'.queues, j), x) <==> Holds(Get(w.queues, j), x) && !(j == k && x == m))
  {
    var k, m := w.calls[c].stage.queue, w.calls[c].stage.pending[0];
    forall j, x
      ensures Holds(Get(Apply(w, Remove(c)).queues, j), x) <==> Holds(Get(w.queues, j), x) && !(j == k && x == m)
    {
      LeaveHolds(w, k, m, j, x);
    }
  }

  lemma SoundShrinks(w: World, w': World, k: Class, m: Member)
    requires Sound(w) && NoneTwice(w')
    requires forall d, j, x | CallHas(w', d, j, x) :: CallHas(w, d, j, x) && !(j == k && x == m)
    requires forall p, j, x | PassHas(w', p, j, x) :: PassHas(w, p, j, x) && !(j == k && x == m)
    requires forall j, x | Holds(Get(w.queues, j), x) && !(j == k && x == m) :: Holds(Get(w'.queues, j), x)
    ensures Sound(w')
  {
  }

  lemma RemoveTakes(w: World, c: nat)
    requires Ordered(w) && Sound(w) && c in w.calls && w.calls[c].stage.Removing? && w.calls[c].stage.pending != []
    ensures var w' := Apply(w, Remove(c));
      var k, m := w.calls[c].stage.queue, w.calls[c].stage.pending[0];
      && NoneTwice(w')
      && (forall d, j, x | CallHas(w', d, j, x) :: CallHas(w, d, j, x) && !(j == k && x == m))
      && (forall p, j, x | PassHas(w', p, j, x) :: PassHas(w, p, j, x) && !(j == k && x == m))
  {
    var w' := Apply(w, Remove(c));
    var k, pending := w.calls[c].stage.queue, w.calls[c].stage.pending;
    RemoveEffect(w, c);
    assert CallHas(w, c, k, pending[0]);
    assert NoRepeat(pending) && NoRepeat(pending[1..]);
    forall d, j, x | CallHas(w', d, j, x) ensures CallHas(w, d, j, x) && !(j == k && x == pending[0]) {
      if d == c {
        var i :| 0 <= i < |pending[1..]| && pending[1..][i] == x;
        assert pending[i + 1] == x != pending[0];
      } else {
        assert CallHas(w, d, j, x);
      }
    }
  }

  lemma RemoveKeepsSound(w: World, c: nat)
    requires Ordered(w) && Sound(w)
    ensures Sound(Apply(w, Remove(c)))
    ensures Apply(w, Remove(c)).wasted == w.wasted && Apply(w, Remove(c)).revived == w.revived
  {
    if c in w.calls && w.calls[c].stage.Removing? && w.calls[c].stage.pending != [] {
      var k, m := w.calls[c].stage.queue, w.calls[c].stage.pending[0];
      assert CallHas(w, c, k, m);
      RemoveEffect(w, c);
      RemoveTakes(w, c);
      SoundShrinks(w, Apply(w, Remove(c)), k, m);
    }
  }

  lemma RescoreKeepsSound(w: World, p: nat, now: int)
    requires Sound(w)
    ensures Sound(Apply(w, Rescore(p, now)))
    ensures Apply(w, Rescore(p, now)).wasted == w.wasted && Apply(w, Rescore(p, now)).revived == w.revived
  {
    var w' := Apply(w, Rescore(p, now));
    if p in w.passes && w.passes[p].Scoring? && w.passes[p].pending != [] {
      var k, m := w.passes[p].queue, w.passes[p].pending[0];
      var copy := Aged(m, k, now);
      assert PassHas(w, p, k, m);
      forall j, x ensures Holds(Get(w.queues, j), x) ==> Holds(Get(w'.queues, j), x) {
        EnterHolds(w, k, copy, Score(copy, now), j, x);
      }
      assert forall d, j, x :: CallHas(w', d, j, x) <==> CallHas(w, d, j, x);
      assert forall r, j, x :: PassHas(w', r, j, x) ==> PassHas(w, r, j, x);
    }
  }

  lemma OtherKeepsSound(w: World, e: Event)
    requires Sound(w) && (e.Submit? || e.Begin? || e.BeginPass?)
    ensures Sound(Apply(w, e))
  {
    var w' := Apply(w, e);
    assert forall d, j, x :: CallHas(w', d, j, x) <==> CallHas(w, d, j, x);
    assert forall r, j, x :: PassHas(w', r, j, x) <==> PassHas(w, r, j, x);
    if e.Submit? {
      forall j, x ensures Holds(Get(w.queues, j), x) ==> Holds(Get(w'.queues, j), x) {
        EnterHolds(w, e.member.priority, e.member, Score(e.member, e.now), j, x);
      }
    }
  }

  /** Event by event: from a sound state exactly the separate events lead to sound ones. */
  lemma SoundStepIff(w: World, e: Event)
    requires Ordered(w) && Sound(w)
    ensures Sound(Apply(w, e)) <==> Separate(w, e)
    ensures Separate(w, e) ==> Apply(w, e).wasted == w.wasted && Apply(w, e).revived == w.revived
  {
    match e
    case Read(c) => ReadSoundIff(w, c);
    case Scan(p) => ScanSoundIff(w, p);
    case Cancel(k, m) => CancelSoundIff(w, k, m);
    case Remove(c) => RemoveKeepsSound(w, c);
    case Rescore(p, now) => RescoreKeepsSound(w, p, now);
    case _ => OtherKeepsSound(w, e);
  }

  // ---------- Exactly when it goes wrong ----------

  /** However the commands on what is already read are ordered from time `clock` on, nothing
      is handed out or aged that is no longer queued. */
  ghost predicate Clean(w: World, clock: int) {
    forall es | Finishing(es) && NotBefore(es, clock) :: FinishesClean(w, es)
  }

  predicate NotBefore(es: seq<Event>, clock: int) { forall i | 0 <= i < |es| && es[i].Rescore? :: es[i].now >= clock }

  ghost predicate FinishesClean(w: World, es: seq<Event>) {
    Run(w, es).wasted == w.wasted && Run(w, es).revived == w.revived
  }

  lemma {:induction false} SoundFinishesClean(w: World, es: seq<Event>)
    requires Ordered(w) && Sound(w) && Finishing(es)
    ensures FinishesClean(w, es)
    decreases es
  {
    if es != [] {
      var w' := Apply(w, es[0]);
      SoundStepIff(w, es[0]);
      OrderedStep(w, es[0]);
      forall i | 0 <= i < |es[1..]| ensures es[1..][i].Remove? || es[1..][i].Rescore? {
        assert es[1..][i] == es[i + 1];
      }
      SoundFinishesClean(w', es[1..]);
    }
  }

  lemma StepRecords(w: World, e: Event)
    ensures w.wasted <= Apply(w, e).wasted && w.revived <= Apply(w, e).revived
  {
  }

  lemma {:induction false} RunRecords(w: World, es: seq<Event>)
    ensures w.wasted <= Run(w, es).wasted && w.revived <= Run(w, es).revived
    decreases es
  {
    if es != [] {
      StepRecords(w, es[0]);
      RunRecords(Apply(w, es[0]), es[1..]);
    }
  }

  /** `w'` is reached from `w` by finishing some of what is read, none of it before `clock`. */
  ghost predicate Reaches(w: World, w': World, clock: int) {
    exists es :: FinishesFrom(es, clock) && w' == Run(w, es)
  }

  /** Commands that finish what is read, none before `clock`. */
  ghost predicate FinishesFrom(es: seq<Event>, clock: int) { Finishing(es) && NotBefore(es, clock) }

  lemma ReachesStep(w: World, e: Event, clock: int)
    requires e.Remove? || (e.Rescore? && e.now >= clock)
    ensures Reaches(w, Apply(w, e), clock)
  {
    var es := [e];
    RunCons(w, e, []);
    assert [e] + [] == es;
    assert FinishesFrom(es, clock) && Apply(w, e) == Run(w, es);
  }

  lemma ReachesOn(w: World, mid: World, w': World, clock: int)
    requires Reaches(w, mid, clock) && Reaches(mid, w', clock)
    ensures Reaches(w, w', clock)
  {
    var es :| FinishesFrom(es, clock) && mid == Run(w, es);
    var fs :| FinishesFrom(fs, clock) && w' == Run(mid, fs);
    RunAppend(w, es, fs);
    assert FinishesFrom(es + fs, clock);
  }

  lemma ReachesRecords(w: World, w': World, clock: int)
    requires Reaches(w, w', clock)
    ensures w.wasted <= w'.wasted && w.revived <= w'.revived
  {
    var es :| FinishesFrom(es, clock) && w' == Run(w, es);
    RunRecords(w, es);
  }

  /** A call that finishes up to its i-th pending task: that task is gone from the queue, and
      was wasted if it was gone before. Nobody else has moved. */
  lemma {:induction false} RemovesUpTo(w: World, c: nat, k: Class, pending: seq<Member>, i: nat, m: Member, clock: int)
    returns (w': World)
    requires Ordered(w) && c in w.calls && w.calls[c].stage == Removing(k, pending) && i < |pending| && pending[i] == m
    ensures Reaches(w, w', clock) && Ordered(w') && !Holds(Get(w'.queues, k), m) && w'.passes == w.passes
    ensures forall d | d != c && d in w.calls :: d in w'.calls && w'.calls[d] == w.calls[d]
    ensures c in w'.calls && (i + 1 < |pending| ==> w'.calls[c].stage == Removing(k, pending[i + 1..]))
    ensures !Holds(Get(w.queues, k), m) ==> w.wasted < w'.wasted
    decreases i
  {
    w' := OneRemove(w, c, k, pending, m, clock);
    if i > 0 {
      var w1 := w';
      assert pending[1..][i..] == pending[i + 1..];
      w' := RemovesUpTo(w1, c, k, pending[1..], i - 1, m, clock);
      ReachesOn(w, w1, w', clock);
    }
  }

  lemma OneRemove(w: World, c: nat, k: Class, pending: seq<Member>, m: Member, clock: int) returns (w': World)
    requires Ordered(w) && c in w.calls && w.calls[c].stage == Removing(k, pending) && pending != []
    ensures Reaches(w, w', clock) && Ordered(w') && !Holds(Get(w'.queues, k), pending[0]) && w'.passes == w.passes
    ensures forall d | d != c && d in w.calls :: d in w'.calls && w'.calls[d] == w.calls[d]
    ensures c in w'.calls && (|pending| > 1 ==> w'.calls[c].stage == Removing(k, pending[1..]))
    ensures !Holds(Get(w.queues, k), m) ==> !Holds(Get(w'.queues, k), m)
    ensures if m == pending[0] && !Holds(Get(w.queues, k), m) then w.wasted < w'.wasted else w.wasted <= w'.wasted
  {
    w' := Apply(w, Remove(c));
    ReachesStep(w, Remove(c), clock);
    OrderedStep(w, Remove(c));
    RemoveEffect(w, c);
  }

  lemma RunCons(w: World, e: Event, es: seq<Event>)
    ensures Run(w, [e] + es) == Run(Apply(w, e), es)
  {
    assert ([e] + es)[1..] == es;
  }

  /** A time, not before `clock`, at which aging cannot produce the text `m`. */
  function OtherTime(k: Class, m: Member, clock: int): int {
    if Boost(m, k, clock) != m.agingBoost then clock else clock + 1
  }

  lemma OtherTimeIsOther(k: Class, m: Member, x: Member, clock: int)
    requires !k.CRITICAL?
    ensures Aged(x, k, OtherTime(k, m, clock)) != m
  {
    assert Boost(m, k, clock) != Boost(m, k, clock + 1);
  }

  ghost predicate NeverAgedTo(k: Class, now: int, m: Member) { forall x :: Aged(x, k, now) != m }

  lemma OneRescore(w: World, p: nat, k: Class, pending: seq<Member>, now: int, m: Member, clock: int)
    returns (w': World)
    requires p in w.passes && w.passes[p] == Scoring(k, pending) && pending != [] && now >= clock
    requires !Holds(Get(w.queues, k), m) && NeverAgedTo(k, now, m)
    ensures Reaches(w, w', clock) && !Holds(Get(w'.queues, k), m) && p in w'.passes
    ensures |pending| > 1 ==> w'.passes[p] == Scoring(k, pending[1..])
    ensures if pending[0] == m then w.revived < w'.revived else w.revived <= w'.revived
  {
    var copy := Aged(pending[0], k, now);
    w' := Apply(w, Rescore(p, now));
    ReachesStep(w, Rescore(p, now), clock);
    EnterHolds(w, k, copy, Score(copy, now), k, m);
  }

  /** A pass that finishes up to a task that is gone revives it. */
  lemma {:induction false} RescoresUpTo(w: World, p: nat, k: Class, pending: seq<Member>, i: nat, now: int, m: Member,
                                        clock: int) returns (w': World)
    requires p in w.passes && w.passes[p] == Scoring(k, pending) && i < |pending| && pending[i] == m && now >= clock
    requires !Holds(Get(w.queues, k), m) && NeverAgedTo(k, now, m)
    ensures Reaches(w, w', clock) && w.revived < w'.revived
    decreases i
  {
    w' := OneRescore(w, p, k, pending, now, m, clock);
    if i > 0 {
      var w1 := w';
      w' := RescoresUpTo(w1, p, k, pending[1..], i - 1, now, m, clock);
      ReachesOn(w, w1, w', clock);
    }
  }

  lemma PassRevives(w: World, p: nat, k: Class, m: Member, clock: int) returns (w': World)
    requires PassesAge(w) && PassHas(w, p, k, m) && !Holds(Get(w.queues, k), m)
    ensures Reaches(w, w', clock) && w.revived < w'.revived
  {
    var pending, now := w.passes[p].pending, OtherTime(k, m, clock);
    var i :| 0 <= i < |pending| && pending[i] == m;
    forall x ensures Aged(x, k, now) != m {
      OtherTimeIsOther(k, m, x, clock);
    }
    w' := RescoresUpTo(w, p, k, pending, i, now, m, clock);
  }

  lemma CallWastes(w: World, c: nat, k: Class, m: Member, clock: int) returns (w': World)
    requires Ordered(w) && CallHas(w, c, k, m) && !Holds(Get(w.queues, k), m)
    ensures Reaches(w, w', clock) && w.wasted < w'.wasted
  {
    var pending := w.calls[c].stage.pending;
    var i :| 0 <= i < |pending| && pending[i] == m;
    w' := RemovesUpTo(w, c, k, pending, i, m, clock);
  }

  /** A call that has a task twice wastes it by itself. */
  lemma RepeatWastes(w: World, c: nat, i: nat, j: nat, clock: int) returns (w': World)
    requires Ordered(w) && c in w.calls && w.calls[c].stage.Removing?
    requires i < j < |w.calls[c].stage.pending| && w.calls[c].stage.pending[i] == w.calls[c].stage.pending[j]
    ensures Reaches(w, w', clock) && w.wasted < w'.wasted
  {
    var k, pending := w.calls[c].stage.queue, w.calls[c].stage.pending;
    var w1 := RemovesUpTo(w, c, k, pending, i, pending[j], clock);
    assert pending[i + 1..][j - i - 1] == pending[j];
    w' := CallWastes(w1, c, k, pending[j], clock);
    ReachesRecords(w, w1, clock);
    ReachesOn(w, w1, w', clock);
  }

  /** A call first, then whoever shares the task with it. */
  lemma SharedIsDirty(w: World, c: nat, d: nat, p: nat, k: Class, m: Member, clock: int) returns (w': World)
    requires Ordered(w) && PassesAge(w) && CallHas(w, c, k, m)
    requires (c != d && CallHas(w, d, k, m)) || PassHas(w, p, k, m)
    ensures Reaches(w, w', clock) && (w.wasted < w'.wasted || w.revived < w'.revived)
  {
    var pending := w.calls[c].stage.pending;
    var i :| 0 <= i < |pending| && pending[i] == m;
    var w1 := RemovesUpTo(w, c, k, pending, i, m, clock);
    if PassHas(w, p, k, m) {
      w' := PassRevives(w1, p, k, m, clock);
    } else {
      w' := CallWastes(w1, d, k, m, clock);
    }
    ReachesRecords(w, w1, clock);
    ReachesOn(w, w1, w', clock);
  }

  /** From an unsound state, some order of the commands that finish what is read hands out or
      ages a task that is no longer queued. */
  lemma UnsoundIsDirty(w: World, clock: int) returns (w': World)
    requires Ordered(w) && PassesAge(w) && !Sound(w)
    ensures Reaches(w, w', clock) && (w.wasted < w'.wasted || w.revived < w'.revived)
  {
    if !CallsHold(w) {
      var c, k, m :| CallHas(w, c, k, m) && !Holds(Get(w.queues, k), m);
      w' := CallWastes(w, c, k, m, clock);
    } else if !PassesHold(w) {
      var p, k, m :| PassHas(w, p, k, m) && !Holds(Get(w.queues, k), m);
      w' := PassRevives(w, p, k, m, clock);
    } else if !NoneTwice(w) {
      var c :| c in w.calls && w.calls[c].stage.Removing? && !NoRepeat(w.calls[c].stage.pending);
      var pending := w.calls[c].stage.pending;
      var i, j :| 0 <= i < j < |pending| && pending[i] == pending[j];
      w' := RepeatWastes(w, c, i, j, clock);
    } else if !CallsApart(w) {
      var c, d, k, m :| CallHas(w, c, k, m) && CallHas(w, d, k, m) && c != d;
      w' := SharedIsDirty(w, c, d, 0, k, m, clock);
    } else {
      var c, p, k, m :| CallHas(w, c, k, m) && PassHas(w, p, k, m);
      w' := SharedIsDirty(w, c, c, p, k, m, clock);
    }
  }

  /** A state finishes cleanly in every order, from whatever time on, exactly if it is
      sound. */
  lemma CleanIffSound(w: World, clock: int)
    requires Ordered(w) && PassesAge(w)
    ensures Clean(w, clock) <==> Sound(w)
  {
    if Sound(w) {
      forall es | Finishing(es) ensures FinishesClean(w, es) {
        SoundFinishesClean(w, es);
      }
    } else {
      var w' := UnsoundIsDirty(w, clock);
      var es :| FinishesFrom(es, clock) && w' == Run(w, es);
      assert !FinishesClean(w, es);
    }
  }

  function TimeAfter(e: Event, clock: int): int {
    if e.Submit? || e.Rescore? then Max(clock, e.now) else clock
  }

  ghost predicate AlwaysClean(w: World, es: seq<Event>, clock: int)
    decreases es
  {
    Clean(w, clock) && (es == [] || AlwaysClean(Apply(w, es[0]), es[1..], TimeAfter(es[0], clock)))
  }

  ghost predicate AllSeparate(w: World, es: seq<Event>)
    decreases es
  {
    es == [] || (Separate(w, es[0]) && AllSeparate(Apply(w, es[0]), es[1..]))
  }

  /** Main theorem on overlaps, run by run: at every moment what has begun can finish in any
      order without a task handed out twice or brought back, exactly if no zrange ever reads
      and no cancellation removes what another call or pass has read and not yet dealt
      with. */
  lemma {:induction false} AlwaysCleanIff(w: World, es: seq<Event>, clock: int)
    requires Ordered(w) && PassesAge(w) && Sound(w)
    ensures AlwaysClean(w, es, clock) <==> AllSeparate(w, es)
    decreases es
  {
    CleanIffSound(w, clock);
    if es != [] {
      var w' := Apply(w, es[0]);
      OrderedStep(w, es[0]);
      PassesAgeStep(w, es[0]);
      SoundStepIff(w, es[0]);
      CleanIffSound(w', TimeAfter(es[0], clock));
      if Sound(w') {
        AlwaysCleanIff(w', es[1..], TimeAfter(es[0], clock));
      }
    }
  }

  lemma {:induction false} SeparateRunIsClean(w: World, es: seq<Event>)
    requires Ordered(w) && Sound(w) && AllSeparate(w, es)
    ensures Sound(Run(w, es)) && FinishesClean(w, es)
    decreases es
  {
    if es != [] {
      SoundStepIff(w, es[0]);
      OrderedStep(w, es[0]);
      SeparateRunIsClean(Apply(w, es[0]), es[1..]);
    }
  }

  lemma StartIsWell()
    ensures Ordered(Start) && PassesAge(Start) && Balanced(Start) && BatchesAreLogged(Start) && Sound(Start)
  {
  }

  /** So in a run of separate events nothing is lost and nothing is handed out more often than
      it came in; a text that came in once is handed out at most once, and exactly once if it
      is no longer queued and was not cancelled. Aging never brings a task back. */
  lemma SeparateRunsHandOutOnce(es: seq<Event>, k: Class, m: Member)
    requires AllSeparate(Start, es)
    ensures var w := Run(Start, es);
      && Handed(w.log, k, m) + w.cancelled[(k, m)] + One(Holds(Get(w.queues, k), m)) == w.added[(k, m)]
      && w.wasted == multiset{} && w.revived == multiset{}
      && (w.added[(k, m)] <= 1 ==> Handed(w.log, k, m) <= 1)
  {
    StartIsWell();
    EveryRunIsBalanced(Start, es);
    SeparateRunIsClean(Start, es);
    assert BalancedAt(Run(Start, es), k, m);
  }

  // ---------- Two runs that go wrong ----------

  lemma SubmitOne(m: Member, now: int)
    ensures var w := Apply(Start, Submit(m, now));
      && Get(w.queues, m.priority) == [Scored(m, Score(m, now))] && w.calls == map[] && w.passes == map[]
      && forall k | k != m.priority :: Get(w.queues, k) == []
  {
    assert ZRem([], m) == [] && ZInsert([], Scored(m, Score(m, now))) == [Scored(m, Score(m, now))];
  }

  lemma ReadOne(w: World, c: nat, x: Scored)
    requires c in w.calls && w.calls[c].stage.Reading?
    requires Get(w.queues, w.calls[c].stage.queue) == [x] && ZRange([x], Stop(w.calls[c], w.calls[c].stage.queue)) == 1
    ensures var w' := Apply(w, Read(c));
      && w'.calls == w.calls[c := w.calls[c].(stage := Removing(w.calls[c].stage.queue, [x.member]))]
      && w'.queues == w.queues && w'.passes == w.passes
  {
    assert Members([x][..1]) == [x.member];
  }

  lemma RemoveOne(w: World, c: nat, k: Class, m: Member)
    requires c in w.calls && w.calls[c].stage == Removing(k, [m])
    ensures var w' := Apply(w, Remove(c));
      && w'.calls == w.calls[c := Advance(w.calls[c].(tasks := w.calls[c].tasks + [m]), k)] && w'.passes == w.passes
  {
  }

  lemma Twice(w: World, a: Event, b: Event)
    ensures Run(w, [a, b]) == Apply(Apply(w, a), b)
  {
    assert [a, b][1..] == [b] && [b][1..] == [];
    assert Run(Apply(w, a), [b]) == Run(Apply(Apply(w, a), b), []);
  }

  lemma BothRead(w: World, x: Scored)
    requires w.calls == map[0 := Call(1, Reading(CRITICAL), [], 1), 1 := Call(1, Reading(CRITICAL), [], 1)]
    requires w.queues.critical == [x]
    ensures var reading := Call(1, Removing(CRITICAL, [x.member]), [], 1);
      Run(w, [Read(0), Read(1)]).calls == map[0 := reading, 1 := reading]
  {
    assert ZRange([x], 0) == 1;
    ReadOne(w, 0, x);
    ReadOne(Apply(w, Read(0)), 1, x);
    Twice(w, Read(0), Read(1));
  }

  lemma BothRemove(w: World, m: Member)
    requires var reading := Call(1, Removing(CRITICAL, [m]), [], 1);
      w.calls == map[0 := reading, 1 := reading]
    ensures var done := Call(1, Finished, [m], 0);
      Run(w, [Remove(0), Remove(1)]).calls == map[0 := done, 1 := done]
  {
    assert [] + [m] == [m];
    RemoveOne(w, 0, CRITICAL, m);
    RemoveOne(Apply(w, Remove(0)), 1, CRITICAL, m);
    Twice(w, Remove(0), Remove(1));
  }

  lemma BothBegin(w: World)
    requires w.calls == map[]
    ensures var w' := Run(w, [Begin(0, 1), Begin(1, 1)]);
      && w'.calls == map[0 := Call(1, Reading(CRITICAL), [], 1), 1 := Call(1, Reading(CRITICAL), [], 1)]
      && w'.queues == w.queues
  {
    Twice(w, Begin(0, 1), Begin(1, 1));
  }

  /** One queued task and two calls that both read before either removes: each has it in its
      batch. */
  lemma OverlappingCallsShareTask(m: Member, now: int)
    requires m.priority == CRITICAL
    ensures var done := Call(1, Finished, [m], 0);
      Run(Apply(Start, Submit(m, now)), [Begin(0, 1), Begin(1, 1)] + [Read(0), Read(1)] + [Remove(0), Remove(1)]).calls
        == map[0 := done, 1 := done]
  {
    var w := Apply(Start, Submit(m, now));
    SubmitOne(m, now);
    BothBegin(w);
    BothRead(Run(w, [Begin(0, 1), Begin(1, 1)]), Scored(m, Score(m, now)));
    RunAppend(w, [Begin(0, 1), Begin(1, 1)], [Read(0), Read(1)]);
    BothRemove(Run(w, [Begin(0, 1), Begin(1, 1)] + [Read(0), Read(1)]), m);
    RunAppend(w, [Begin(0, 1), Begin(1, 1)] + [Read(0), Read(1)], [Remove(0), Remove(1)]);
  }

  lemma PassReads(w: World, x: Scored)
    requires w.queues.high == [x] && w.passes == map[]
    ensures var w' := Run(w, [BeginPass(0), Scan(0)]);
      w'.passes == map[0 := Scoring(HIGH, [x.member])] && w'.calls == w.calls && w'.queues == w.queues
  {
    assert Members([x]) == [x.member];
    Twice(w, BeginPass(0), Scan(0));
  }

  lemma SkipsCritical(w: World)
    requires w.queues.critical == [] && w.calls == map[]
    ensures var w' := Run(w, [Begin(0, 1), Read(0)]);
      && w'.calls == map[0 := Call(1, Reading(HIGH), [], 1)] && w'.queues == w.queues && w'.passes == w.passes
  {
    var w1 := Apply(w, Begin(0, 1));
    assert w1.calls[0] == Call(1, Reading(CRITICAL), [], 1);
    assert ReadBy(w1, w1.calls[0]) == [];
    Twice(w, Begin(0, 1), Read(0));
  }

  /** With one slot left, HIGH is offered none and read whole. */
  lemma HandsOutHigh(w: World, x: Scored)
    requires w.queues.high == [x] && w.calls == map[0 := Call(1, Reading(HIGH), [], 1)]
    ensures var w' := Run(w, [Read(0), Remove(0)]);
      w'.calls == map[0 := Call(1, Reading(MEDIUM), [x.member], 1)] && w'.passes == w.passes
  {
    assert ZRange([x], HighShare(1) - 1) == 1 && [] + [x.member] == [x.member];
    ReadOne(w, 0, x);
    RemoveOne(Apply(w, Read(0)), 0, HIGH, x.member);
    Twice(w, Read(0), Remove(0));
  }

  /** One queued task, read by an aging pass and then handed out: the pass puts it back. */
  lemma PoppedTaskComesBack(m: Member, now: int, later: int)
    requires m.priority == HIGH
    ensures var es := [BeginPass(0), Scan(0)] + [Begin(0, 1), Read(0)] + [Read(0), Remove(0)];
      var w := Apply(Run(Apply(Start, Submit(m, now)), es), Rescore(0, later));
      && w.calls == map[0 := Call(1, Reading(MEDIUM), [m], 1)]
      && Holds(w.queues.high, Aged(m, HIGH, later)) && Aged(m, HIGH, later).id == m.id
  {
    var x := Scored(m, Score(m, now));
    var w := Apply(Start, Submit(m, now));
    SubmitOne(m, now);
    PassReads(w, x);
    var w2 := Run(w, [BeginPass(0), Scan(0)]);
    SkipsCritical(w2);
    RunAppend(w, [BeginPass(0), Scan(0)], [Begin(0, 1), Read(0)]);
    var w4 := Run(w2, [Begin(0, 1), Read(0)]);
    HandsOutHigh(w4, x);
    RunAppend(w, [BeginPass(0), Scan(0)] + [Begin(0, 1), Read(0)], [Read(0), Remove(0)]);
    PassPutsBack(Run(w4, [Read(0), Remove(0)]), m, later);
  }

  lemma PassPutsBack(w: World, m: Member, now: int)
    requires w.passes == map[0 := Scoring(HIGH, [m])]
    ensures var w' := Apply(w, Rescore(0, now));
      w'.calls == w.calls && Holds(w'.queues.high, Aged(m, HIGH, now))
  {
    var copy := Aged(m, HIGH, now);
    EnterHolds(w, HIGH, copy, Score(copy, now), HIGH, copy);
  }

  // ---------- Sizes in every run ----------

  /** How far a batch can have grown, whatever the queues hold at each zrange. */
  ghost predicate Bounded(c: Call) {
    match c.stage
    case Finished => c.slots == 0 || c.slots >= 9 ==> |c.tasks| <= c.batchSize
    case Reading(k) => BoundedReading(c, k)
    case Removing(k, pending) =>
      if k.CRITICAL? then c.batchSize >= 1 ==> |c.tasks| + |pending| <= c.batchSize
      else
        && c.slots > 0
        && (c.slots >= 9 ==> |c.tasks| + |pending| <= c.batchSize - c.slots + Offered(c.slots, k))
        && (k.LOW? ==> |c.tasks| + |pending| <= c.batchSize)
  }

  ghost predicate BoundedReading(c: Call, k: Class) {
    match k
    case CRITICAL => c.tasks == []
    case HIGH => 0 < c.slots == c.batchSize - |c.tasks|
    case MEDIUM => c.slots > 0 && (c.slots >= 9 ==> |c.tasks| <= c.batchSize - c.slots + Offered(c.slots, HIGH))
    case LOW =>
      c.slots > 0 && |c.tasks| < c.batchSize
      && (c.slots >= 9 ==> |c.tasks| <= c.batchSize - c.slots + Offered(c.slots, MEDIUM))
  }

  /** The slots offered to the classes up to this one. */
  function Offered(slots: int, k: Class): int {
    match k
    case CRITICAL => 0
    case HIGH => HighShare(slots)
    case MEDIUM => HighShare(slots) + MediumShare(slots)
    case LOW => slots
  }

  ghost predicate AllBounded(w: World) { forall c | c in w.calls :: Bounded(w.calls[c]) }

  lemma ReadBounded(w: World, c: Call)
    requires Bounded(c) && c.stage.Reading?
    ensures Bounded(AfterRead(w, c))
  {
  }

  lemma RemoveBounded(c: Call)
    requires Bounded(c) && c.stage.Removing? && c.stage.pending != []
    ensures Bounded(AfterRemove(c))
  {
  }

  lemma BoundedStep(w: World, e: Event)
    requires AllBounded(w)
    ensures AllBounded(Apply(w, e))
  {
    if e.Read? && e.call in w.calls && w.calls[e.call].stage.Reading? {
      ReadBounded(w, w.calls[e.call]);
    } else if e.Remove? && e.call in w.calls && w.calls[e.call].stage.Removing? && w.calls[e.call].stage.pending != [] {
      RemoveBounded(w.calls[e.call]);
    }
  }

  lemma {:induction false} BoundedRun(w: World, es: seq<Event>)
    requires AllBounded(w)
    ensures AllBounded(Run(w, es))
    decreases es
  {
    if es != [] {
      BoundedStep(w, es[0]);
      BoundedRun(Apply(w, es[0]), es[1..]);
    }
  }

  /** Main theorem on size, over all runs and overlaps: a call left with zero or at least nine
      slots after CRITICAL returns at most batchSize tasks, and with nine or more it offers
      LOW at least 53 percent of them. */
  lemma BatchFitsInEveryRun(es: seq<Event>, c: nat)
    requires c in Run(Start, es).calls
    ensures var call := Run(Start, es).calls[c];
      && (call.stage.Finished? && (call.slots == 0 || call.slots >= 9) ==> |call.tasks| <= call.batchSize)
      && (call.stage == Reading(LOW) && call.slots >= 9 ==> 100 * (Stop(call, LOW) + 1) >= 53 * call.slots)
  {
    BoundedRun(Start, es);
    assert Bounded(Run(Start, es).calls[c]);
  }

  /** Tasks submitted one by one, each with its own id. */
  function Submissions(n: nat): seq<Event> {
    if n == 0 then [] else Submissions(n - 1) + [Submit(Member(seq(n, i => 'x'), MEDIUM, 0, None, 0.0), 0)]
  }

  lemma {:induction false} ZAddLonger(q: seq<Scored>, m: Member, score: real)
    requires !Holds(q, m)
    ensures |ZAdd(q, m, score)| == |q| + 1
  {
    ZRemAbsent(q, m);
    ZInsertLonger(q, Scored(m, score));
  }

  lemma {:induction false} ZRemAbsent(q: seq<Scored>, m: Member)
    requires !Holds(q, m)
    ensures ZRem(q, m) == q
  {
    if q != [] {
      assert q[0] in q && forall x :: x in q[1..] ==> x in q;
      ZRemAbsent(q[1..], m);
    }
  }

  lemma {:induction false} ZInsertLonger(q: seq<Scored>, x: Scored)
    ensures |ZInsert(q, x)| == |q| + 1
  {
    if q != [] && q[0].score <= x.score {
      ZInsertLonger(q[1..], x);
    }
  }

  ghost predicate OnlyMedium(w: World, n: nat) {
    && w.calls == map[] && |w.queues.medium| == n && w.queues.critical == [] && w.queues.high == []
    && forall m :: Holds(w.queues.medium, m) ==> |m.id| <= n
  }

  lemma OneMoreMedium(w: World, m: Member, n: nat)
    requires OnlyMedium(w, n) && m.priority == MEDIUM && |m.id| == n + 1
    ensures OnlyMedium(Enter(w, MEDIUM, m, Score(m, 0)), n + 1)
  {
    ZAddLonger(w.queues.medium, m, Score(m, 0));
    forall x ensures Holds(ZAdd(w.queues.medium, m, Score(m, 0)), x) <==> Holds(w.queues.medium, x) || x == m {
      ZAddHolds(w.queues.medium, m, Score(m, 0), x);
    }
  }

  lemma {:induction false} AllSubmitted(n: nat)
    ensures OnlyMedium(Run(Start, Submissions(n)), n)
  {
    if n > 0 {
      var w, m := Run(Start, Submissions(n - 1)), Member(seq(n, i => 'x'), MEDIUM, 0, None, 0.0);
      AllSubmitted(n - 1);
      OneMoreMedium(w, m, n - 1);
      RunAppend(Start, Submissions(n - 1), [Submit(m, 0)]);
      RunCons(w, Submit(m, 0), []);
      assert [Submit(m, 0)] + [] == [Submit(m, 0)];
    }
  }

  /** A call that finds CRITICAL and HIGH empty and one task more than its size in MEDIUM. */
  lemma TakesTooMuch(w: World, r: int)
    requires 1 <= r <= 8 && |w.queues.medium| == r + 1 && w.queues.critical == [] && w.queues.high == []
    requires w.calls == map[0 := Call(r, Reading(CRITICAL), [], r)]
    ensures var class_ := [Read(0)] + Removes(0, 0);
      var w' := Run(Run(Run(w, class_), class_), [Read(0)] + Removes(0, r + 1));
      && 0 in w'.calls && w'.calls[0].stage.Finished? && w'.calls[0].slots == r
      && w'.calls[0].batchSize == r && |w'.calls[0].tasks| == r + 1
  {
    var class_ := [Read(0)] + Removes(0, 0);
    EmptyClass(w, r, CRITICAL);
    EmptyClass(Run(w, class_), r, HIGH);
    AllOfMedium(Run(Run(w, class_), class_), r);
  }

  lemma AllOfMedium(w: World, r: int)
    requires 1 <= r <= 8 && |w.queues.medium| == r + 1 && w.calls == map[0 := Call(r, Reading(MEDIUM), [], r)]
    ensures var w' := Run(w, [Read(0)] + Removes(0, r + 1));
      && 0 in w'.calls && w'.calls[0].stage.Finished? && w'.calls[0].slots == r
      && w'.calls[0].batchSize == r && |w'.calls[0].tasks| == r + 1
  {
    OneClass(w, 0);
  }

  /** With room left, a class that is empty leads on to the next one. */
  lemma EmptyClass(w: World, r: int, k: Class)
    requires 1 <= r && (k.CRITICAL? || k.HIGH?) && Get(w.queues, k) == []
    requires w.calls == map[0 := Call(r, Reading(k), [], r)]
    ensures var w' := Run(w, [Read(0)] + Removes(0, 0));
      && w'.queues == w.queues
      && w'.calls == map[0 := Call(r, Reading(if k.CRITICAL? then HIGH else MEDIUM), [], r)]
  {
    OneClass(w, 0);
    assert [] + Members([][..0]) == [] && Get(w.queues, k)[0..] == [];
  }

  lemma RunFour(w: World, a: seq<Event>, b: seq<Event>, c: seq<Event>, d: seq<Event>)
    ensures Run(w, a + b + c + d) == Run(Run(Run(Run(w, a), b), c), d)
  {
    RunAppend(w, a, b);
    RunAppend(w, a + b, c);
    RunAppend(w, a + b + c, d);
  }

  lemma BeginsAlone(w: World, r: int)
    requires w.calls == map[]
    ensures var w' := Run(w, [Begin(0, r)]);
      w'.calls == map[0 := Call(r, Reading(CRITICAL), [], r)] && w'.queues == w.queues
  {
    assert [Begin(0, r)][1..] == [];
  }

  lemma OverfullRun(r: int) returns (es: seq<Event>)
    requires 1 <= r <= 8
    ensures var w := Run(Start, es);
      0 in w.calls && !FitsAt(w.calls[0], r)
  {
    var class_ := [Read(0)] + Removes(0, 0);
    var w := Run(Start, Submissions(r + 1));
    AllSubmitted(r + 1);
    BeginsAlone(w, r);
    TakesTooMuch(Run(w, [Begin(0, r)]), r);
    RunFour(w, [Begin(0, r)], class_, class_, [Read(0)] + Removes(0, r + 1));
    es := Submissions(r + 1) + ([Begin(0, r)] + class_ + class_ + ([Read(0)] + Removes(0, r + 1)));
    RunAppend(Start, Submissions(r + 1), [Begin(0, r)] + class_ + class_ + ([Read(0)] + Removes(0, r + 1)));
  }

  predicate FitsAt(c: Call, r: int) { c.stage.Finished? && c.slots == r ==> |c.tasks| <= c.batchSize }

  ghost predicate AlwaysFitsAt(r: int) {
    forall es, c | c in Run(Start, es).calls :: FitsAt(Run(Start, es).calls[c], r)
  }

  /** So the slots left after CRITICAL guarantee the size in every run exactly if there are
      none or at least nine. */
  lemma FitsInEveryRunIff(r: nat)
    ensures AlwaysFitsAt(r) <==> r == 0 || r >= 9
  {
    if r == 0 || r >= 9 {
      forall es, c | c in Run(Start, es).calls ensures FitsAt(Run(Start, es).calls[c], r) {
        BatchFitsInEveryRun(es, c);
      }
    } else {
      var es := OverfullRun(r);
      assert 0 in Run(Start, es).calls;
    }
  }

  // ---------- A call that nobody disturbs ----------

  lemma RemoveHead(w: World, c: nat, k: Class, q: seq<Scored>, n: nat)
    requires 0 < n <= |q| && Get(w.queues, k) == q
    requires c in w.calls && w.calls[c].stage == Removing(k, Members(q[..n]))
    ensures var w' := Apply(w, Remove(c));
      var call := w.calls[c].(tasks := w.calls[c].tasks + [q[0].member]);
      && w'.queues == Put(w.queues, k, q[1..])
      && w'.calls == w.calls[c := if n == 1 then Advance(call, k)
                                  else call.(stage := Removing(k, Members(q[1..][..n - 1])))]
  {
    assert Members(q[..n])[0] == q[0].member;
    assert Members(q[..n])[1..] == Members(q[1..][..n - 1]);
  }

  function Removes(c: nat, n: nat): seq<Event> { if n == 0 then [] else [Remove(c)] + Removes(c, n - 1) }

  /** One class: the zrange and all its zrems. */
  lemma {:induction false} RemovesAll(w: World, c: nat, k: Class, q: seq<Scored>, n: nat)
    requires 0 < n <= |q| && Get(w.queues, k) == q
    requires c in w.calls && w.calls[c].stage == Removing(k, Members(q[..n]))
    ensures var w' := Run(w, Removes(c, n));
      && w'.queues == Put(w.queues, k, q[n..])
      && w'.calls == w.calls[c := Advance(w.calls[c].(tasks := w.calls[c].tasks + Members(q[..n])), k)]
    decreases n
  {
    var w1 := Apply(w, Remove(c));
    RemoveHead(w, c, k, q, n);
    RunCons(w, Remove(c), Removes(c, n - 1));
    MembersCons(q, n, w.calls[c].tasks);
    if n == 1 {
      assert Members(q[..1]) == [q[0].member];
    } else {
      RemovesAll(w1, c, k, q[1..], n - 1);
      PutTwice(w.queues, k, q[1..], q[1..][n - 1..]);
      AdvanceForgets(w.calls[c].(tasks := w.calls[c].tasks + Members(q[..n])),
                     Removing(k, Members(q[1..][..n - 1])), k);
      assert q[1..][n - 1..] == q[n..];
    }
  }

  lemma MembersCons(q: seq<Scored>, n: nat, tasks: seq<Member>)
    requires 0 < n <= |q|
    ensures tasks + Members(q[..n]) == (tasks + [q[0].member]) + Members(q[1..][..n - 1])
  {
    assert Members(q[..n]) == [q[0].member] + Members(q[1..][..n - 1]);
  }

  lemma AdvanceForgets(c: Call, stage: Stage, k: Class)
    ensures Advance(c.(stage := stage), k) == Advance(c, k)
  {
  }

  lemma PutTwice(q: Queues, k: Class, a: seq<Scored>, b: seq<Scored>)
    ensures Put(Put(q, k, a), k, b) == Put(q, k, b) && Get(Put(q, k, a), k) == a
  {
  }

  lemma ReadAll(w: World, c: nat)
    requires c in w.calls && w.calls[c].stage.Reading?
    ensures var k := w.calls[c].stage.queue;
      var q := Get(w.queues, k);
      var n := ZRange(q, Stop(w.calls[c], k));
      var w' := Apply(w, Read(c));
      && w'.queues == w.queues
      && w'.calls == w.calls[c := if n == 0 then Advance(w.calls[c], k)
                                  else w.calls[c].(stage := Removing(k, Members(q[..n])))]
  {
  }

  lemma OneClass(w: World, c: nat)
    requires c in w.calls && w.calls[c].stage.Reading?
    ensures var call := w.calls[c];
      var k := call.stage.queue;
      var q := Get(w.queues, k);
      var n := ZRange(q, Stop(call, k));
      var w' := Run(w, [Read(c)] + Removes(c, n));
      && w'.queues == Put(w.queues, k, q[n..])
      && w'.calls == w.calls[c := Advance(call.(tasks := call.tasks + Members(q[..n])), k)]
  {
    var call := w.calls[c];
    var k := call.stage.queue;
    var q := Get(w.queues, k);
    var n := ZRange(q, Stop(call, k));
    var w1 := Apply(w, Read(c));
    ReadAll(w, c);
    RunCons(w, Read(c), Removes(c, n));
    if n == 0 {
      assert call.tasks + Members(q[..0]) == call.tasks && q[0..] == q;
    } else {
      RemovesAll(w1, c, k, q, n);
      AdvanceForgets(call.(tasks := call.tasks + Members(q[..n])), Removing(k, Members(q[..n])), k);
    }
  }
}
