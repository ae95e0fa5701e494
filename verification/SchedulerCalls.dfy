/** getNextBatch and applyAging as programs over Redis
    (backend/src/services/priority-scheduler.ts, lines 205-329).

    Before its n-th command a call or pass is suspended while the others perform
    `others(n)`. Whatever they do, the whole execution is a run of the machine. */
module SchedulerCalls {

  import opened Basics
  import opened PriorityScheduling
  import opened SchedulerRuns

  predicate OfCall(e: Event, c: nat) { (e.Begin? || e.Read? || e.Remove?) && e.call == c }

  predicate OfPass(e: Event, p: nat) { (e.BeginPass? || e.Scan? || e.Rescore?) && e.pass == p }

  /** The commands `own`, each after what the others do before it. */
  function Interleaved(own: seq<Event>, others: nat -> seq<Event>, n: nat): seq<Event> {
    if own == [] then []
    else
      var last := |own| - 1;
      Interleaved(own[..last], others, n) + (others(n + last) + [own[last]])
  }

  lemma InterleavedSnoc(own: seq<Event>, e: Event, others: nat -> seq<Event>, n: nat)
    ensures Interleaved(own + [e], others, n) == Interleaved(own, others, n) + (others(n + |own|) + [e])
  {
    assert (own + [e])[..|own|] == own;
  }

  lemma InterleavedOne(e: Event, others: nat -> seq<Event>, n: nat)
    ensures Interleaved([e], others, n) == others(n) + [e]
  {
    assert [e][..0] == [] && [] + (others(n) + [e]) == others(n) + [e];
  }

  lemma {:induction false} InterleavedAppend(a: seq<Event>, b: seq<Event>, others: nat -> seq<Event>, n: nat)
    ensures Interleaved(a + b, others, n) == Interleaved(a, others, n) + Interleaved(b, others, n + |a|)
    decreases |b|
  {
    if b == [] {
      assert a + b == a;
    } else {
      var init, last := b[..|b| - 1], b[|b| - 1];
      InterleavedAppend(a, init, others, n);
      AppendOne(a, init, last, others, n);
      assert b == init + [last];
    }
  }

  lemma AppendOne(a: seq<Event>, init: seq<Event>, last: Event, others: nat -> seq<Event>, n: nat)
    requires Interleaved(a + init, others, n) == Interleaved(a, others, n) + Interleaved(init, others, n + |a|)
    ensures Interleaved(a + (init + [last]), others, n) ==
      Interleaved(a, others, n) + Interleaved(init + [last], others, n + |a|)
  {
    InterleavedSnoc(a + init, last, others, n);
    InterleavedSnoc(init, last, others, n + |a|);
    assert n + |a + init| == n + |a| + |init|;
    Regroup(a, init, [last]);
    Regroup(Interleaved(a, others, n), Interleaved(init, others, n + |a|), others(n + |a| + |init|) + [last]);
  }

  lemma Regroup(a: seq<Event>, b: seq<Event>, c: seq<Event>)
    ensures a + b + c == a + (b + c)
  {
  }

  lemma Continues(start: World, before: seq<Event>, more: seq<Event>, others: nat -> seq<Event>)
    ensures Run(start, Interleaved(before + more, others, 0)) ==
      Run(Run(start, Interleaved(before, others, 0)), Interleaved(more, others, |before|))
  {
    InterleavedAppend(before, more, others, 0);
    RunInTwo(start, Interleaved(before + more, others, 0),
             Interleaved(before, others, 0), Interleaved(more, others, |before|));
  }

  lemma RunInTwo(start: World, whole: seq<Event>, a: seq<Event>, b: seq<Event>)
    requires whole == a + b
    ensures Run(start, whole) == Run(Run(start, a), b)
  {
    RunAppend(start, a, b);
  }

  ghost predicate SparesCall(others: nat -> seq<Event>, c: nat) { forall i: nat, e | e in others(i) :: !OfCall(e, c) }

  ghost predicate SparesPass(others: nat -> seq<Event>, p: nat) { forall i: nat, e | e in others(i) :: !OfPass(e, p) }

  ghost predicate Quiet(others: nat -> seq<Event>) { forall n :: others(n) == [] }

  lemma {:induction false} InterleavedQuiet(own: seq<Event>, others: nat -> seq<Event>, n: nat)
    requires Quiet(others)
    ensures Interleaved(own, others, n) == own
    decreases |own|
  {
    if own != [] {
      InterleavedQuiet(own[..|own| - 1], others, n);
      assert others(n + |own| - 1) == [];
    }
  }

  lemma {:induction false} OthersKeepCall(w: World, es: seq<Event>, c: nat)
    requires c in w.calls && forall e | e in es :: !OfCall(e, c)
    ensures c in Run(w, es).calls && Run(w, es).calls[c] == w.calls[c]
    decreases es
  {
    if es != [] {
      assert es[0] in es;
      OtherKeepsCall(w, es[0], c);
      OthersKeepCall(Apply(w, es[0]), es[1..], c);
    }
  }

  lemma OtherKeepsCall(w: World, e: Event, c: nat)
    requires c in w.calls && !OfCall(e, c)
    ensures c in Apply(w, e).calls && Apply(w, e).calls[c] == w.calls[c]
  {
  }

  lemma {:induction false} OthersKeepPass(w: World, es: seq<Event>, p: nat)
    requires p in w.passes && forall e | e in es :: !OfPass(e, p)
    ensures p in Run(w, es).passes && Run(w, es).passes[p] == w.passes[p]
    decreases es
  {
    if es != [] {
      assert es[0] in es;
      OtherKeepsPass(w, es[0], p);
      OthersKeepPass(Apply(w, es[0]), es[1..], p);
    }
  }

  lemma OtherKeepsPass(w: World, e: Event, p: nat)
    requires p in w.passes && !OfPass(e, p)
    ensures p in Apply(w, e).passes && Apply(w, e).passes[p] == w.passes[p]
  {
  }

  lemma {:induction false} RemovesSnoc(c: nat, n: nat)
    ensures Removes(c, n) + [Remove(c)] == Removes(c, n + 1) && |Removes(c, n)| == n
  {
    if n > 0 {
      RemovesSnoc(c, n - 1);
      assert [Remove(c)] + Removes(c, n - 1) + [Remove(c)] == [Remove(c)] + (Removes(c, n - 1) + [Remove(c)]);
    }
  }

  lemma RunSnoc(w: World, es: seq<Event>, e: Event)
    ensures Run(w, es + [e]) == Apply(Run(w, es), e)
  {
    RunAppend(w, es, [e]);
    RunCons(Run(w, es), e, []);
    assert [e] + [] == [e];
  }

  // ---------- The pieces of an undisturbed batch ----------

  lemma BatchInPieces(s: Queues, batchSize: int, c: nat, h: nat, m: nat, l: nat)
    requires c == TakenCritical(s, batchSize) && batchSize - c > 0
    requires h == ZRange(s.high, HighShare(batchSize - c) - 1)
    requires m == ZRange(s.medium, MediumShare(batchSize - c) - 1)
    requires l == if batchSize - c - h - m > 0 then ZRange(s.low, batchSize - c - h - m - 1) else 0
    ensures Batch(s, batchSize) ==
      Members(s.critical[..c]) + Members(s.high[..h]) + Members(s.medium[..m]) + Members(s.low[..l])
    ensures Rest(s, batchSize) == Queues(s.critical[c..], s.high[h..], s.medium[m..], s.low[l..])
  {
    assert Remaining(s, batchSize) == batchSize - c;
    assert TakenHigh(s, batchSize) == h && TakenMedium(s, batchSize) == m;
    assert OfferedLow(s, batchSize) == batchSize - c - h - m;
    assert TakenLow(s, batchSize) == l;
  }

  /** These tasks, and this left behind, are what an undisturbed call makes of `s`. */
  ghost predicate IsBatch(s: Queues, after: Queues, batchSize: int, tasks: seq<Member>) {
    tasks == Batch(s, batchSize) && after == Rest(s, batchSize)
  }

  lemma BatchOfCritical(s: Queues, after: Queues, batchSize: int, tasks: seq<Member>)
    requires TakenQuietly(s, after, CRITICAL, batchSize - 1, tasks) && batchSize - |tasks| <= 0
    ensures IsBatch(s, after, batchSize, tasks)
  {
    assert Remaining(s, batchSize) == batchSize - |tasks|;
  }

  /** What a zrange up to `stop` returns. */
  function ReadAs(w: World, k: Class, stop: int): seq<Member> {
    var q := Get(w.queues, k);
    Members(q[..ZRange(q, stop)])
  }

  // ---------- The scheduler ----------

  class PriorityScheduler {
    var redis: World                       // the sorted sets, and who is at work on them

    constructor ()
      ensures redis == Start
    {
      redis := Start;
    }

    /** zrange of one class. */
    method ReadClass(c: nat, k: Class, stop: int, meanwhile: seq<Event>) returns (read: seq<Member>)
      requires c in redis.calls && redis.calls[c].stage == Reading(k) && stop == Stop(redis.calls[c], k)
      requires forall e | e in meanwhile :: !OfCall(e, c)
      modifies this
      ensures read == ReadAs(Run(old(redis), meanwhile), k, stop)
      ensures redis == Run(old(redis), meanwhile + [Read(c)])
      ensures c in redis.calls
      ensures redis.calls[c] ==
        if read == [] then Advance(old(redis.calls[c]), k) else old(redis.calls[c]).(stage := Removing(k, read))
    {
      OthersKeepCall(redis, meanwhile, c);
      RunSnoc(redis, meanwhile, Read(c));
      redis := Run(redis, meanwhile);
      var call, q := redis.calls[c], Get(redis.queues, k);
      read := Members(q[..ZRange(q, stop)]);
      call := if read == [] then Advance(call, k) else call.(stage := Removing(k, read));
      redis := redis.(calls := redis.calls[c := call]);
    }

    /** push and zrem of one task. */
    method RemoveFirst(c: nat, k: Class, pending: seq<Member>, meanwhile: seq<Event>)
      requires c in redis.calls && redis.calls[c].stage == Removing(k, pending) && pending != []
      requires forall e | e in meanwhile :: !OfCall(e, c)
      modifies this
      ensures redis == Run(old(redis), meanwhile + [Remove(c)])
      ensures c in redis.calls && redis.calls[c] == AfterRemove(old(redis.calls[c]))
    {
      OthersKeepCall(redis, meanwhile, c);
      RunSnoc(redis, meanwhile, Remove(c));
      redis := Run(redis, meanwhile);
      var q, task := Get(redis.queues, k), pending[0];
      var call := redis.calls[c].(tasks := redis.calls[c].tasks + [task]);
      call := if |pending| == 1 then Advance(call, k) else call.(stage := Removing(k, pending[1..]));
      redis := redis.(queues := Put(redis.queues, k, ZRem(q, task)), calls := redis.calls[c := call],
                      log := redis.log + [Handout(c, k, task)],
                      wasted := redis.wasted + if Holds(q, task) then multiset{} else multiset{(k, task)});
    }

    method RemoveNext(c: nat, k: Class, read: seq<Member>, i: nat, others: nat -> seq<Event>, n: nat,
                      ghost start: World, ghost call: Call)
      requires i < |read| && InLoop(redis, c, k, read, i, others, n, start, call)
      requires forall e | e in others(n + 1 + i) :: !OfCall(e, c)
      modifies this
      ensures InLoop(redis, c, k, read, i + 1, others, n, start, call)
    {
      MidwayStep(call, k, read, i);
      RemoveFirst(c, k, read[i..], others(n + 1 + i));
      NextCommand(c, i, others, n);
      RunAppend(start, Interleaved(ClassCommands(c, i), others, n), others(n + 1 + i) + [Remove(c)]);
    }

    /** The zrem loop over what was read. */
    method RemoveRead(c: nat, k: Class, read: seq<Member>, others: nat -> seq<Event>, n: nat,
                      ghost start: World, ghost call: Call)
      requires InLoop(redis, c, k, read, 0, others, n, start, call)
      requires SparesCall(others, c)
      modifies this
      ensures InLoop(redis, c, k, read, |read|, others, n, start, call)
    {
      var i := 0;
      while i < |read|
        invariant 0 <= i <= |read| && InLoop(redis, c, k, read, i, others, n, start, call)
      {
        RemoveNext(c, k, read, i, others, n, start, call);
        i := i + 1;
      }
    }

    /** The zrange and the zrem loop of one class. */
    method TakeFrom(c: nat, k: Class, stop: int, others: nat -> seq<Event>, n: nat) returns (taken: seq<Member>)
      requires c in redis.calls && redis.calls[c].stage == Reading(k) && stop == Stop(redis.calls[c], k)
      requires SparesCall(others, c)
      modifies this
      ensures redis == Run(old(redis), Interleaved(ClassCommands(c, |taken|), others, n))
      ensures taken == ReadAs(Run(old(redis), others(n)), k, stop)
      ensures c in redis.calls
        && redis.calls[c] == Advance(old(redis.calls[c]).(tasks := old(redis.calls[c]).tasks + taken), k)
    {
      ghost var start, call := redis, redis.calls[c];
      taken := ReadClass(c, k, stop, others(n));
      FirstCommand(c, others, n);
      assert redis.calls[c] == Midway(call, k, taken, 0) by {
        assert call.tasks + taken[..0] == call.tasks && taken[0..] == taken;
      }
      RemoveRead(c, k, taken, others, n, start, call);
      assert taken[..|taken|] == taken;
    }

    /** The next class of the call whose commands so far are `before`, `n` of them. */
    method TakeClass(c: nat, k: Class, stop: int, others: nat -> seq<Event>, n: nat, ghost start: World,
                     ghost before: seq<Event>)
      returns (taken: seq<Member>, ghost own: seq<Event>)
      requires c in redis.calls && redis.calls[c].stage == Reading(k) && stop == Stop(redis.calls[c], k)
      requires SparesCall(others, c)
      requires n == |before| && Under(redis, start, c, before, others)
      modifies this
      ensures Under(redis, start, c, own, others) && |own| == n + 1 + |taken|
      ensures c in redis.calls
      ensures redis.calls[c] == Advance(old(redis.calls[c]).(tasks := old(redis.calls[c]).tasks + taken), k)
      ensures Quiet(others) ==> TakenQuietly(old(redis).queues, redis.queues, k, stop, taken)
    {
      ghost var w := redis;
      taken := TakeFrom(c, k, stop, others, n);
      own := before + ClassCommands(c, |taken|);
      Continues(start, before, ClassCommands(c, |taken|), others);
      CommandsAreOwn(c, before, |taken|);
      if Quiet(others) {
        QuietClass(w, c, others, n, taken);
      }
    }

    method StartCall(c: nat, batchSize: int)
      requires c !in redis.calls
      modifies this
      ensures redis == Run(old(redis), [Begin(c, batchSize)]) && redis.queues == old(redis).queues
      ensures c in redis.calls && redis.calls[c] == Call(batchSize, Reading(CRITICAL), [], batchSize)
    {
      RunCons(redis, Begin(c, batchSize), []);
      assert [Begin(c, batchSize)] + [] == [Begin(c, batchSize)];
      redis := redis.(calls := redis.calls[c := Call(batchSize, Reading(CRITICAL), [], batchSize)]);
    }

    /** getNextBatch. Whatever the others do before each of its commands, it is a run of the
        machine in which call `c` finishes with this batch; undisturbed it is `Batch`. */
    method GetNextBatch(c: nat, batchSize: int, others: nat -> seq<Event>)
      returns (tasks: seq<Member>, ghost own: seq<Event>)
      requires c !in redis.calls
      requires SparesCall(others, c)
      modifies this
      ensures Under(redis, Run(old(redis), [Begin(c, batchSize)]), c, own, others)
      ensures c in redis.calls && redis.calls[c].stage.Finished? && tasks == redis.calls[c].tasks
      ensures Quiet(others) ==> IsBatch(old(redis).queues, redis.queues, batchSize, tasks)
    {
      StartCall(c, batchSize);
      ghost var s := redis.queues;
      tasks, own := FillBatch(c, batchSize, others);
      if Quiet(others) {
        PiecesMakeBatch(s, redis.queues, batchSize, tasks);
      }
    }

    method TakeCritical(c: nat, batchSize: int, others: nat -> seq<Event>)
      returns (tasks: seq<Member>, ghost own: seq<Event>)
      requires c in redis.calls && redis.calls[c] == Call(batchSize, Reading(CRITICAL), [], batchSize)
      requires SparesCall(others, c)
      modifies this
      ensures Under(redis, old(redis), c, own, others) && |own| == 1 + |tasks|
      ensures c in redis.calls
      ensures var left := batchSize - |tasks|;
        redis.calls[c] == Call(batchSize, if left <= 0 then Finished else Reading(HIGH), tasks, left)
      ensures Quiet(others) ==> TakenQuietly(old(redis).queues, redis.queues, CRITICAL, batchSize - 1, tasks)
    {
      tasks, own := TakeClass(c, CRITICAL, batchSize - 1, others, 0, redis, []);
      assert [] + tasks == tasks;
    }

    method FillBatch(c: nat, batchSize: int, others: nat -> seq<Event>)
      returns (tasks: seq<Member>, ghost own: seq<Event>)
      requires c in redis.calls && redis.calls[c] == Call(batchSize, Reading(CRITICAL), [], batchSize)
      requires SparesCall(others, c)
      modifies this
      ensures Under(redis, old(redis), c, own, others)
      ensures c in redis.calls && redis.calls[c].stage.Finished? && tasks == redis.calls[c].tasks
      ensures Quiet(others) ==> InPieces(old(redis).queues, redis.queues, batchSize, tasks)
    {
      ghost var start := redis;
      tasks, own := TakeCritical(c, batchSize, others);
      if batchSize - |tasks| <= 0 {
        assert Quiet(others) ==>
          FromPieces(start.queues, redis.queues, redis.queues, batchSize, tasks, [], [], [], tasks);
        return;
      }
      tasks, own := TakeTheRest(c, batchSize, batchSize - |tasks|, others, start, own, tasks);
    }

    /** HIGH and MEDIUM by their shares, and LOW if there is room. */
    method TakeTheRest(c: nat, batchSize: int, slots: int, others: nat -> seq<Event>,
                       ghost start: World, ghost before: seq<Event>, critical: seq<Member>)
      returns (tasks: seq<Member>, ghost own: seq<Event>)
      requires c in redis.calls && redis.calls[c] == Call(batchSize, Reading(HIGH), critical, slots)
      requires slots == batchSize - |critical| > 0
      requires SparesCall(others, c)
      requires Under(redis, start, c, before, others) && |before| == 1 + |critical|
      requires Quiet(others) ==> TakenQuietly(start.queues, redis.queues, CRITICAL, batchSize - 1, critical)
      modifies this
      ensures Under(redis, start, c, own, others)
      ensures c in redis.calls && redis.calls[c].stage.Finished? && tasks == redis.calls[c].tasks
      ensures Quiet(others) ==> InPieces(start.queues, redis.queues, batchSize, tasks)
    {
      ghost var q0 := redis.queues;
      var high, medium, low;
      high, own := TakeClass(c, HIGH, HighShare(slots) - 1, others, 1 + |critical|, start, before);
      ghost var q1 := redis.queues;
      medium, own := TakeClass(c, MEDIUM, MediumShare(slots) - 1, others, 2 + |critical| + |high|, start, own);
      ghost var q2 := redis.queues;
      tasks := critical + high + medium;
      low, own := TakeLow(c, batchSize, others, start, own, tasks);
      tasks := tasks + low;
      if Quiet(others) {
        AllPieces(start.queues, q0, q1, q2, redis.queues, batchSize, slots, critical, high, medium, low);
      }
    }

    /** LOW fills what is left. */
    method TakeLow(c: nat, batchSize: int, others: nat -> seq<Event>, ghost start: World, ghost before: seq<Event>,
                   tasks: seq<Member>) returns (low: seq<Member>, ghost own: seq<Event>)
      requires c in redis.calls && redis.calls[c].tasks == tasks && redis.calls[c].batchSize == batchSize
      requires redis.calls[c].stage == if batchSize - |tasks| > 0 then Reading(LOW) else Finished
      requires SparesCall(others, c)
      requires Under(redis, start, c, before, others) && |before| == 3 + |tasks|
      modifies this
      ensures Under(redis, start, c, own, others)
      ensures c in redis.calls && redis.calls[c].stage.Finished? && redis.calls[c].tasks == tasks + low
      ensures Quiet(others) ==>
        if batchSize - |tasks| > 0
        then TakenQuietly(old(redis).queues, redis.queues, LOW, batchSize - |tasks| - 1, low)
        else redis.queues == old(redis).queues && low == []
    {
      low, own := [], before;
      if batchSize - |tasks| > 0 {
        low, own := TakeClass(c, LOW, batchSize - |tasks| - 1, others, 3 + |tasks|, start, before);
      } else {
        assert tasks + [] == tasks;
      }
    }

    /** The zrange of a pass. */
    method ScanClass(p: nat, k: Class, meanwhile: seq<Event>) returns (read: seq<Member>)
      requires p in redis.passes && redis.passes[p] == Scanning(k)
      requires forall e | e in meanwhile :: !OfPass(e, p)
      modifies this
      ensures redis == Run(old(redis), meanwhile + [Scan(p)])
      ensures read == Members(Get(Run(old(redis), meanwhile).queues, k))
      ensures p in redis.passes && redis.passes[p] == PassMidway(k, read, 0)
    {
      OthersKeepPass(redis, meanwhile, p);
      RunSnoc(redis, meanwhile, Scan(p));
      redis := Run(redis, meanwhile);
      read := Members(Get(redis.queues, k));
      assert read[0..] == read;
      redis := redis.(passes := redis.passes[p := if read == [] then AdvancePass(k) else Scoring(k, read)]);
    }

    /** The zadd of one re-scored task. */
    method RescoreFirst(p: nat, k: Class, pending: seq<Member>, now: int, meanwhile: seq<Event>)
      requires p in redis.passes && redis.passes[p] == Scoring(k, pending) && pending != []
      requires forall e | e in meanwhile :: !OfPass(e, p)
      modifies this
      ensures redis == Run(old(redis), meanwhile + [Rescore(p, now)])
      ensures p in redis.passes
      ensures redis.passes[p] == if |pending| == 1 then AdvancePass(k) else Scoring(k, pending[1..])
    {
      OthersKeepPass(redis, meanwhile, p);
      RunSnoc(redis, meanwhile, Rescore(p, now));
      redis := Run(redis, meanwhile);
      var q, task := Get(redis.queues, k), pending[0].(agingBoost := Boost(pending[0], k, now));
      var next := if |pending| == 1 then AdvancePass(k) else Scoring(k, pending[1..]);
      redis := redis.(queues := Put(redis.queues, k, ZAdd(q, task, Score(task, now))),
                      passes := redis.passes[p := next],
                      added := redis.added + if Holds(q, task) then multiset{} else multiset{(k, task)},
                      revived := redis.revived +
                        if Holds(q, pending[0]) then multiset{} else multiset{(k, pending[0])});
    }

    method RescoreNext(p: nat, k: Class, read: seq<Member>, i: nat, clock: nat -> int, others: nat -> seq<Event>,
                       n: nat, ghost start: World)
      requires i < |read| && InAging(redis, p, k, read, i, clock, others, n, start)
      requires forall e | e in others(n + 1 + i) :: !OfPass(e, p)
      modifies this
      ensures InAging(redis, p, k, read, i + 1, clock, others, n, start)
    {
      assert read[i..][0] == read[i] && read[i..][1..] == read[i + 1..];
      RescoreFirst(p, k, read[i..], clock(n + 1 + i), others(n + 1 + i));
      NextRescore(p, clock, i, others, n);
      RunAppend(start, Interleaved(AgingCommands(p, clock, n, i), others, n),
                others(n + 1 + i) + [Rescore(p, clock(n + 1 + i))]);
    }

    /** applyAging on one class; command number `i` is issued at time `clock(i)`. */
    method AgeClass(p: nat, k: Class, clock: nat -> int, others: nat -> seq<Event>, n: nat) returns (count: nat)
      requires p in redis.passes && redis.passes[p] == Scanning(k)
      requires SparesPass(others, p)
      modifies this
      ensures redis == Run(old(redis), Interleaved(AgingCommands(p, clock, n, count), others, n))
      ensures count == |Get(Run(old(redis), others(n)).queues, k)|
      ensures p in redis.passes && redis.passes[p] == AdvancePass(k)
    {
      ghost var start := redis;
      var read := ScanClass(p, k, others(n));
      FirstScan(p, clock, others, n);
      count := 0;
      while count < |read|
        invariant 0 <= count <= |read| && InAging(redis, p, k, read, count, clock, others, n, start)
      {
        RescoreNext(p, k, read, count, clock, others, n, start);
        count := count + 1;
      }
    }

    /** The next class of the pass whose commands so far are `before`, `n` of them. */
    method AgeNext(p: nat, k: Class, clock: nat -> int, others: nat -> seq<Event>, n: nat, ghost start: World,
                   ghost before: seq<Event>)
      returns (count: nat, ghost own: seq<Event>)
      requires p in redis.passes && redis.passes[p] == Scanning(k)
      requires SparesPass(others, p)
      requires n == |before| && UnderPass(redis, start, p, before, others)
      modifies this
      ensures UnderPass(redis, start, p, own, others) && |own| == n + 1 + count
      ensures p in redis.passes && redis.passes[p] == AdvancePass(k)
    {
      count := AgeClass(p, k, clock, others, n);
      AgingCommandsOnly(p, clock, n, count);
      own := before + AgingCommands(p, clock, n, count);
      Continues(start, before, AgingCommands(p, clock, n, count), others);
      OwnTogether(p, before, AgingCommands(p, clock, n, count));
    }

    method StartPass(p: nat)
      requires p !in redis.passes
      modifies this
      ensures redis == Run(old(redis), [BeginPass(p)])
      ensures p in redis.passes && redis.passes[p] == Scanning(HIGH)
    {
      RunCons(redis, BeginPass(p), []);
      assert [BeginPass(p)] + [] == [BeginPass(p)];
      redis := redis.(passes := redis.passes[p := Scanning(HIGH)]);
    }

    /** applyAging: whatever the others do, a run of the machine in which pass `p` scans and
        re-scores HIGH, MEDIUM and LOW and ends. */
    method ApplyAging(p: nat, clock: nat -> int, others: nat -> seq<Event>) returns (ghost own: seq<Event>)
      requires p !in redis.passes
      requires SparesPass(others, p)
      modifies this
      ensures UnderPass(redis, Run(old(redis), [BeginPass(p)]), p, own, others)
      ensures p in redis.passes && redis.passes[p].Over?
    {
      StartPass(p);
      own := AgeAll(p, clock, others);
    }

    /** The three classes in turn. */
    method AgeAll(p: nat, clock: nat -> int, others: nat -> seq<Event>) returns (ghost own: seq<Event>)
      requires p in redis.passes && redis.passes[p] == Scanning(HIGH)
      requires SparesPass(others, p)
      modifies this
      ensures UnderPass(redis, old(redis), p, own, others)
      ensures p in redis.passes && redis.passes[p].Over?
    {
      ghost var start := redis;
      own := [];
      var n, i := 0, 0;
      while i < 3
        invariant 0 <= i <= 3 && n == |own| && UnderPass(redis, start, p, own, others)
        invariant p in redis.passes && redis.passes[p] == if i < 3 then Scanning(AgedClass(i)) else Over
      {
        var count;
        count, own := AgeNext(p, AgedClass(i), clock, others, n, start, own);
        n := n + 1 + count;
        i := i + 1;
      }
    }
  }

  function AgedClass(i: nat): Class { if i == 0 then HIGH else if i == 1 then MEDIUM else LOW }

  /** A pass with the first `i` of what it read written back. */
  function PassMidway(k: Class, read: seq<Member>, i: nat): Pass
    requires i <= |read|
  {
    if i == |read| then AdvancePass(k) else Scoring(k, read[i..])
  }

  function Rescorings(p: nat, clock: nat -> int, n: nat, i: nat): seq<Event> {
    if i == 0 then [] else Rescorings(p, clock, n, i - 1) + [Rescore(p, clock(n + i - 1))]
  }

  /** The commands that age `i` tasks of one class, the zrange being command number `n`. */
  function AgingCommands(p: nat, clock: nat -> int, n: nat, i: nat): seq<Event> {
    [Scan(p)] + Rescorings(p, clock, n + 1, i)
  }

  ghost predicate InAging(w: World, p: nat, k: Class, read: seq<Member>, i: nat, clock: nat -> int,
                          others: nat -> seq<Event>, n: nat, start: World)
  {
    && i <= |read| && p in w.passes && w.passes[p] == PassMidway(k, read, i)
    && w == Run(start, Interleaved(AgingCommands(p, clock, n, i), others, n))
  }

  lemma {:induction false} RescoringsOnly(p: nat, clock: nat -> int, n: nat, i: nat)
    ensures |Rescorings(p, clock, n, i)| == i
    ensures forall e | e in Rescorings(p, clock, n, i) :: e.Rescore? && e.pass == p
  {
    if i > 0 {
      RescoringsOnly(p, clock, n, i - 1);
    }
  }

  lemma FirstScan(p: nat, clock: nat -> int, others: nat -> seq<Event>, n: nat)
    ensures Interleaved(AgingCommands(p, clock, n, 0), others, n) == others(n) + [Scan(p)]
  {
    InterleavedOne(Scan(p), others, n);
    assert AgingCommands(p, clock, n, 0) == [Scan(p)];
  }

  lemma NextRescore(p: nat, clock: nat -> int, i: nat, others: nat -> seq<Event>, n: nat)
    ensures Interleaved(AgingCommands(p, clock, n, i + 1), others, n) ==
      Interleaved(AgingCommands(p, clock, n, i), others, n) + (others(n + 1 + i) + [Rescore(p, clock(n + 1 + i))])
  {
    var own, e := AgingCommands(p, clock, n, i), Rescore(p, clock(n + 1 + i));
    RescoringsOnly(p, clock, n + 1, i);
    InterleavedSnoc(own, e, others, n);
    Regroup([Scan(p)], Rescorings(p, clock, n + 1, i), [e]);
  }

  lemma AgingCommandsOnly(p: nat, clock: nat -> int, n: nat, i: nat)
    ensures |AgingCommands(p, clock, n, i)| == 1 + i
    ensures forall e | e in AgingCommands(p, clock, n, i) :: (e.Scan? || e.Rescore?) && e.pass == p
  {
    RescoringsOnly(p, clock, n + 1, i);
  }

  lemma OwnTogether(p: nat, before: seq<Event>, more: seq<Event>)
    requires forall e | e in before :: (e.Scan? || e.Rescore?) && e.pass == p
    requires forall e | e in more :: (e.Scan? || e.Rescore?) && e.pass == p
    ensures forall e | e in before + more :: (e.Scan? || e.Rescore?) && e.pass == p
  {
  }

  ghost predicate UnderPass(w: World, start: World, p: nat, own: seq<Event>, others: nat -> seq<Event>) {
    w == Run(start, Interleaved(own, others, 0)) && forall e | e in own :: (e.Scan? || e.Rescore?) && e.pass == p
  }

  /** A run of which the commands of call `c` since `start` are `own`. */
  ghost predicate Under(w: World, start: World, c: nat, own: seq<Event>, others: nat -> seq<Event>) {
    w == Run(start, Interleaved(own, others, 0)) && forall e | e in own :: e == Read(c) || e == Remove(c)
  }

  ghost predicate InPieces(s: Queues, after: Queues, batchSize: int, tasks: seq<Member>) {
    exists middle, c, h, m, l :: FromPieces(s, middle, after, batchSize, c, h, m, l, tasks)
  }

  /** CRITICAL taken first, then the rest if there is room. */
  ghost predicate FromPieces(s: Queues, middle: Queues, after: Queues, batchSize: int,
                             c: seq<Member>, h: seq<Member>, m: seq<Member>, l: seq<Member>, tasks: seq<Member>)
  {
    && TakenQuietly(s, middle, CRITICAL, batchSize - 1, c)
    && if batchSize - |c| > 0 then RestTaken(middle, after, batchSize - |c|, h, m, l) && tasks == c + h + m + l
       else after == middle && tasks == c
  }

  lemma AllPieces(s: Queues, q0: Queues, q1: Queues, q2: Queues, q3: Queues, batchSize: int, slots: int,
                  c: seq<Member>, h: seq<Member>, m: seq<Member>, l: seq<Member>)
    requires TakenQuietly(s, q0, CRITICAL, batchSize - 1, c) && slots == batchSize - |c| > 0
    requires TakenQuietly(q0, q1, HIGH, HighShare(slots) - 1, h)
    requires TakenQuietly(q1, q2, MEDIUM, MediumShare(slots) - 1, m)
    requires if slots - |h| - |m| > 0 then TakenQuietly(q2, q3, LOW, slots - |h| - |m| - 1, l) else q3 == q2 && l == []
    ensures InPieces(s, q3, batchSize, c + h + m + l)
  {
    RestFromPieces(q0, q1, q2, q3, slots, h, m, l);
    assert FromPieces(s, q0, q3, batchSize, c, h, m, l, c + h + m + l);
  }

  lemma PiecesMakeBatch(s: Queues, after: Queues, batchSize: int, tasks: seq<Member>)
    requires InPieces(s, after, batchSize, tasks)
    ensures IsBatch(s, after, batchSize, tasks)
  {
    var middle, c, h, m, l :| FromPieces(s, middle, after, batchSize, c, h, m, l, tasks);
    if batchSize - |c| > 0 {
      BatchFromPieces(s, middle, after, batchSize, c, h, m, l);
    } else {
      BatchOfCritical(s, after, batchSize, c);
    }
  }

  lemma RestFromPieces(q0: Queues, q1: Queues, q2: Queues, q3: Queues, slots: int,
                       h: seq<Member>, m: seq<Member>, l: seq<Member>)
    requires TakenQuietly(q0, q1, HIGH, HighShare(slots) - 1, h)
    requires TakenQuietly(q1, q2, MEDIUM, MediumShare(slots) - 1, m)
    requires if slots - |h| - |m| > 0 then TakenQuietly(q2, q3, LOW, slots - |h| - |m| - 1, l) else q3 == q2 && l == []
    ensures RestTaken(q0, q3, slots, h, m, l)
  {
  }

  lemma BatchFromPieces(s: Queues, q1: Queues, q2: Queues, batchSize: int,
                        c: seq<Member>, h: seq<Member>, m: seq<Member>, l: seq<Member>)
    requires TakenQuietly(s, q1, CRITICAL, batchSize - 1, c) && batchSize - |c| > 0
    requires RestTaken(q1, q2, batchSize - |c|, h, m, l)
    ensures IsBatch(s, q2, batchSize, c + h + m + l)
  {
    var nh, nm := ZRange(s.high, HighShare(batchSize - |c|) - 1), ZRange(s.medium, MediumShare(batchSize - |c|) - 1);
    BatchInPieces(s, batchSize, |c|, nh, nm,
                  if batchSize - |c| - nh - nm > 0 then ZRange(s.low, batchSize - |c| - nh - nm - 1) else 0);
  }

  ghost predicate TakenQuietly(before: Queues, after: Queues, k: Class, stop: int, taken: seq<Member>) {
    var q := Get(before, k);
    taken == Members(q[..ZRange(q, stop)]) && after == Put(before, k, q[ZRange(q, stop)..])
  }

  /** HIGH, MEDIUM and LOW taken with nobody else at work. */
  ghost predicate RestTaken(before: Queues, after: Queues, slots: int, h: seq<Member>, m: seq<Member>, l: seq<Member>) {
    var nh, nm := ZRange(before.high, HighShare(slots) - 1), ZRange(before.medium, MediumShare(slots) - 1);
    var nl := if slots - nh - nm > 0 then ZRange(before.low, slots - nh - nm - 1) else 0;
    && h == Members(before.high[..nh]) && m == Members(before.medium[..nm]) && l == Members(before.low[..nl])
    && after == Queues(before.critical, before.high[nh..], before.medium[nm..], before.low[nl..])
  }

  lemma QuietClass(w: World, c: nat, others: nat -> seq<Event>, n: nat, taken: seq<Member>)
    requires Quiet(others) && c in w.calls && w.calls[c].stage.Reading?
    requires taken == ReadAs(Run(w, others(n)), w.calls[c].stage.queue, Stop(w.calls[c], w.calls[c].stage.queue))
    ensures var k := w.calls[c].stage.queue;
      var w' := Run(w, Interleaved(ClassCommands(c, |taken|), others, n));
      TakenQuietly(w.queues, w'.queues, k, Stop(w.calls[c], k), taken)
  {
    assert others(n) == [] && Run(w, []) == w;
    InterleavedQuiet(ClassCommands(c, |taken|), others, n);
    OneClass(w, c);
  }

  lemma CommandsAreOwn(c: nat, before: seq<Event>, n: nat)
    requires forall e | e in before :: e == Read(c) || e == Remove(c)
    ensures forall e | e in before + ClassCommands(c, n) :: e == Read(c) || e == Remove(c)
    ensures |before + ClassCommands(c, n)| == |before| + 1 + n
  {
    RemovesOnly(c, n);
  }

  lemma {:induction false} RemovesOnly(c: nat, n: nat)
    ensures |Removes(c, n)| == n && forall e | e in Removes(c, n) :: e == Remove(c)
  {
    if n > 0 {
      RemovesOnly(c, n - 1);
    }
  }

  /** After the zrange and `i` rounds of the zrem loop. */
  ghost predicate InLoop(w: World, c: nat, k: Class, read: seq<Member>, i: nat, others: nat -> seq<Event>, n: nat,
                         start: World, call: Call)
  {
    && i <= |read| && c in w.calls && w.calls[c] == Midway(call, k, read, i)
    && w == Run(start, Interleaved(ClassCommands(c, i), others, n))
  }

  /** The commands that take `n` tasks out of one class. */
  function ClassCommands(c: nat, n: nat): seq<Event> { [Read(c)] + Removes(c, n) }

  lemma FirstCommand(c: nat, others: nat -> seq<Event>, n: nat)
    ensures Interleaved(ClassCommands(c, 0), others, n) == others(n) + [Read(c)]
  {
    InterleavedOne(Read(c), others, n);
    assert ClassCommands(c, 0) == [Read(c)];
  }

  lemma NextCommand(c: nat, i: nat, others: nat -> seq<Event>, n: nat)
    ensures Interleaved(ClassCommands(c, i + 1), others, n) ==
      Interleaved(ClassCommands(c, i), others, n) + (others(n + 1 + i) + [Remove(c)])
  {
    RemovesSnoc(c, i);
    InterleavedSnoc(ClassCommands(c, i), Remove(c), others, n);
    assert ClassCommands(c, i) + [Remove(c)] == ClassCommands(c, i + 1);
  }

  /** A call with the first `i` of what it read in its batch. */
  function Midway(call: Call, k: Class, read: seq<Member>, i: nat): Call
    requires i <= |read|
  {
    var c := call.(tasks := call.tasks + read[..i]);
    if i == |read| then Advance(c, k) else c.(stage := Removing(k, read[i..]))
  }

  lemma MidwayStep(call: Call, k: Class, read: seq<Member>, i: nat)
    requires i < |read|
    ensures AfterRemove(Midway(call, k, read, i)) == Midway(call, k, read, i + 1)
  {
    assert read[i..][1..] == read[i + 1..];
    assert call.tasks + read[..i] + [read[i]] == call.tasks + read[..i + 1];
  }
}
