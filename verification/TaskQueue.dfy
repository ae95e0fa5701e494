/** The client-side priority queue with retries (src/lib/task-queue.ts).

    Times are milliseconds. Priorities are kept 60000 times larger than in the source, so
    that an age in minutes is an exact integer. */
module TaskQueue {

  import opened Basics

  type Id = string

  datatype Class = Critical | High | Medium | Low

  datatype Task = Task(id: Id, class_: Class, submittedAt: int, maxRetries: int)

  datatype Entry = Entry(id: Id, task: Task, priority: int, retryCount: nat, maxRetries: int)

  function Weight(c: Class): int {
    match c
    case Critical => 100
    case High => 75
    case Medium => 50
    case Low => 25
  }

  const MINUTE := 60000

  /** Class weight plus one point per minute of age, at most ten. */
  function Priority(t: Task, now: int): int { Weight(t.class_) * MINUTE + Min(now - t.submittedAt, 10 * MINUTE) }

  // ---------- Ordering ----------

  predicate Sorted(q: seq<Entry>) { forall i, j | 0 <= i < j < |q| :: q[i].priority >= q[j].priority }

  /** Critical before high before medium before low. */
  predicate ByClass(q: seq<Entry>) {
    forall i, j | 0 <= i < j < |q| :: Weight(q[i].task.class_) >= Weight(q[j].task.class_)
  }

  /** Before the first entry of smaller priority. */
  function Inserted(q: seq<Entry>, e: Entry): (r: seq<Entry>)
    ensures forall x :: x in r <==> x in q || x == e
  {
    if q == [] then [e]
    else if q[0].priority < e.priority then [e] + q
    else [q[0]] + Inserted(q[1..], e)
  }

  /** The stable sort by descending priority. */
  function SortedByPriority(q: seq<Entry>): (r: seq<Entry>)
    ensures forall x :: x in r <==> x in q
  {
    if q == [] then []
    else
      assert q == q[..|q| - 1] + [q[|q| - 1]];
      Inserted(SortedByPriority(q[..|q| - 1]), q[|q| - 1])
  }

  function Recalculated(q: seq<Entry>, now: int): seq<Entry> {
    seq(|q|, i requires 0 <= i < |q| => q[i].(priority := Priority(q[i].task, now)))
  }

  function Reordered(q: seq<Entry>, now: int): seq<Entry> { SortedByPriority(Recalculated(q, now)) }

  /** The entries of one priority, in queue order. */
  function OfPriority(q: seq<Entry>, p: int): seq<Entry> {
    if q == [] then []
    else (if q[0].priority == p then [q[0]] else []) + OfPriority(q[1..], p)
  }

  lemma {:induction false} OfPriorityAppend(a: seq<Entry>, b: seq<Entry>, p: int)
    ensures OfPriority(a + b, p) == OfPriority(a, p) + OfPriority(b, p)
  {
    if a == [] {
      assert a + b == b;
    } else {
      var first := if a[0].priority == p then [a[0]] else [];
      assert (a + b)[1..] == a[1..] + b;
      OfPriorityAppend(a[1..], b, p);
      assert OfPriority(a + b, p) == first + OfPriority(a[1..] + b, p);
    }
  }

  lemma {:induction false} OfPriorityBelow(q: seq<Entry>, p: int)
    requires forall i | 0 <= i < |q| :: q[i].priority < p
    ensures OfPriority(q, p) == []
  {
    if q != [] {
      OfPriorityBelow(q[1..], p);
    }
  }

  lemma {:induction false} InsertedSorted(q: seq<Entry>, e: Entry)
    requires Sorted(q)
    ensures Sorted(Inserted(q, e))
  {
    if q != [] && q[0].priority >= e.priority {
      var rest := Inserted(q[1..], e);
      InsertedSorted(q[1..], e);
      forall j | 0 <= j < |rest| ensures rest[j].priority <= q[0].priority {
        assert rest[j] in rest;
        if rest[j] in q[1..] {
          var i :| 0 <= i < |q[1..]| && q[1..][i] == rest[j];
          assert q[i + 1] == rest[j];
        }
      }
    }
  }

  lemma {:induction false} InsertedAt(q: seq<Entry>, e: Entry, i: nat)
    requires i <= |q| && forall j | 0 <= j < i :: q[j].priority >= e.priority
    requires i < |q| ==> q[i].priority < e.priority
    ensures Inserted(q, e) == q[..i] + [e] + q[i..]
  {
    if i > 0 {
      InsertedAt(q[1..], e, i - 1);
      assert q[..i] == [q[0]] + q[1..][..i - 1];
    }
  }

  lemma {:induction false} InsertedKeepsAll(q: seq<Entry>, e: Entry)
    ensures multiset(Inserted(q, e)) == multiset(q) + multiset{e}
  {
    if q != [] && q[0].priority >= e.priority {
      InsertedKeepsAll(q[1..], e);
      assert q == [q[0]] + q[1..];
    }
  }

  /** The new entry goes behind every entry of the same priority. */
  lemma {:induction false} InsertedBehindEquals(q: seq<Entry>, e: Entry, p: int)
    requires Sorted(q)
    ensures OfPriority(Inserted(q, e), p) == OfPriority(q, p) + if e.priority == p then [e] else []
  {
    if q == [] {
      assert [e][1..] == [];
    } else if q[0].priority < e.priority {
      assert ([e] + q)[1..] == q;
      if e.priority == p {
        OfPriorityBelow(q, p);
      }
    } else {
      var rest := Inserted(q[1..], e);
      InsertedBehindEquals(q[1..], e, p);
      assert ([q[0]] + rest)[1..] == rest;
    }
  }

  /** Main theorem on order: sorting sorts, keeps every entry, and keeps the insertion order
      of entries of equal priority. */
  lemma {:induction false} SortIsStable(q: seq<Entry>, p: int)
    ensures Sorted(SortedByPriority(q))
    ensures multiset(SortedByPriority(q)) == multiset(q)
    ensures OfPriority(SortedByPriority(q), p) == OfPriority(q, p)
  {
    if q != [] {
      var init, last := q[..|q| - 1], q[|q| - 1];
      assert q == init + [last];
      SortIsStable(init, p);
      InsertedSorted(SortedByPriority(init), last);
      InsertedKeepsAll(SortedByPriority(init), last);
      InsertedBehindEquals(SortedByPriority(init), last, p);
      OfPriorityAppend(init, [last], p);
      assert [last][1..] == [];
    }
  }

  // ---------- Classes ----------

  /** The stored priority was computed from the stored task, at some time at which the task
      was submitted less than `skew` in the future. */
  ghost predicate InBand(e: Entry, skew: int) {
    Weight(e.task.class_) * MINUTE - skew < e.priority <= (Weight(e.task.class_) + 10) * MINUTE
  }

  /** Priorities computed at different times still separate the classes, because fifteen
      minutes of skew and ten of age never bridge the gap of 25 between two of them. */
  lemma SortedIsByClass(q: seq<Entry>)
    requires Sorted(q) && forall i | 0 <= i < |q| :: InBand(q[i], 15 * MINUTE)
    ensures ByClass(q)
  {
  }

  // ---------- The queue in motion ----------

  datatype State = State(
    queue: seq<Entry>,
    processing: set<Id>,
    maxConcurrent: int,
    hasProcessor: bool,
    flying: map<Id, Entry>,      // suspended in processQueue
    waiting: map<Id, Entry>,     // backing off until a timer fires
    done: set<Id>,
    abandoned: set<Id>,
    removed: set<Id>,            // by remove or dequeue
    accepted: map<Id, int>,      // every id ever queued, with its maxRetries
    runs: map<Id, nat>)

  function Start(maxConcurrent: int): State {
    State([], {}, maxConcurrent, false, map[], map[], {}, {}, {}, map[], map[])
  }

  datatype Event =
    | Enqueue(task: Task, now: int)
    | SetProcessor
    | SetMaxConcurrent(max: int)
    | Settle(id: Id, ok: bool)          // the processor's promise for an entry in flight
    | BackoffEnds(id: Id, now: int)
    | Dequeue
    | Remove(id: Id)

  function IdSeq(q: seq<Entry>): seq<Id> { seq(|q|, i requires 0 <= i < |q| => q[i].id) }

  function Ids(q: seq<Entry>): multiset<Id> { multiset(IdSeq(q)) }

  /** The position of an id, or the length of the queue. */
  function Position(q: seq<Entry>, id: Id): (i: nat)
    ensures i <= |q| && (i < |q| ==> q[i].id == id)
    ensures forall j | 0 <= j < i :: q[j].id != id
  {
    if q == [] then 0 else if q[0].id == id then 0 else 1 + Position(q[1..], id)
  }

  function Runs(s: State, id: Id): nat { if id in s.runs then s.runs[id] else 0 }

  function NewEntry(t: Task, now: int): Entry {
    Entry(t.id, t, Priority(t, now), 0, if t.maxRetries != 0 then t.maxRetries else 3)
  }

  /** processQueue with room and work. */
  function Launched(s: State): State
    requires s.queue != []
  {
    var e := s.queue[0];
    s.(queue := s.queue[1..], processing := s.processing + {e.id}, flying := s.flying[e.id := e],
       runs := s.runs[e.id := Runs(s, e.id) + 1])
  }

  /** processQueue: take one entry if there is room. */
  function Processed(s: State): State {
    if !s.hasProcessor || |s.processing| >= s.maxConcurrent || s.queue == [] then s else Launched(s)
  }

  function Without(q: seq<Entry>, i: nat): seq<Entry>
    requires i < |q|
  {
    q[..i] + q[i + 1..]
  }

  function Apply(s: State, e: Event): State {
    match e
    case Enqueue(t, now) =>
      var i := Position(s.queue, t.id);
      if i < |s.queue| then s.(queue := Reordered(s.queue[i := s.queue[i].(task := t)], now))
      else
        var n := NewEntry(t, now);
        Processed(s.(queue := Inserted(s.queue, n), accepted := s.accepted[t.id := n.maxRetries]))
    case SetProcessor => Processed(s.(hasProcessor := true))
    case SetMaxConcurrent(m) => Processed(s.(maxConcurrent := m))
    case Settle(id, ok) => if id in s.flying then Processed(Settled(s, id, ok)) else s
    case BackoffEnds(id, now) =>
      if id !in s.waiting then s
      else s.(queue := Reordered(s.queue + [s.waiting[id]], now), waiting := s.waiting - {id})
    case Dequeue =>
      if s.queue == [] then s else s.(queue := s.queue[1..], removed := s.removed + {s.queue[0].id})
    case Remove(id) =>
      var i := Position(s.queue, id);
      if i < |s.queue| then s.(queue := Without(s.queue, i), removed := s.removed + {id}) else s
  }

  function Settled(s: State, id: Id, ok: bool): State
    requires id in s.flying
  {
    var e := s.flying[id];
    var s' := s.(processing := s.processing - {id}, flying := s.flying - {id});
    if ok then s'.(done := s.done + {id})
    else if e.retryCount < e.maxRetries then s'.(waiting := s.waiting[id := e.(retryCount := e.retryCount + 1)])
    else s'.(abandoned := s.abandoned + {id})
  }

  function Run(s: State, es: seq<Event>): State
    decreases es
  {
    if es == [] then s else Run(Apply(s, es[0]), es[1..])
  }

  // ---------- Order in every run ----------

  ghost predicate Timely(t: Task, clock: int) { Ahead(t, clock, 15 * MINUTE) }

  /** The task is stamped less than `d` in the future. */
  ghost predicate Ahead(t: Task, clock: int, d: int) { t.submittedAt - clock < d }

  /** The queue is sorted by priorities in band, and so will be whatever comes back. */
  ghost predicate OrderInv(s: State, clock: int) {
    && Sorted(s.queue)
    && (forall e | e in s.queue :: InBand(e, 15 * MINUTE) && Timely(e.task, clock))
    && (forall id | id in s.flying :: Timely(s.flying[id].task, clock))
    && (forall id | id in s.waiting :: Timely(s.waiting[id].task, clock))
  }

  function TimeOf(e: Event, clock: int): int {
    if e.Enqueue? || e.BackoffEnds? then e.now else clock
  }

  /** The clock never goes back, and every task is stamped less than `d` ahead. */
  ghost predicate WellTimed(clock: int, es: seq<Event>, d: int)
    decreases es
  {
    es == [] ||
    (clock <= TimeOf(es[0], clock)
     && (es[0].Enqueue? ==> Ahead(es[0].task, es[0].now, d))
     && WellTimed(TimeOf(es[0], clock), es[1..], d))
  }

  lemma SliceSorted(q: seq<Entry>, i: nat)
    requires Sorted(q) && i < |q|
    ensures Sorted(q[1..]) && Sorted(Without(q, i))
    ensures forall x | x in Without(q, i) :: x in q
    ensures forall x | x in q[1..] :: x in q
  {
  }

  lemma ReorderedOrder(q: seq<Entry>, now: int)
    requires forall e | e in q :: Timely(e.task, now)
    ensures Sorted(Reordered(q, now))
    ensures forall e | e in Reordered(q, now) :: InBand(e, 15 * MINUTE) && Timely(e.task, now)
  {
    var r := Recalculated(q, now);
    SortIsStable(r, 0);
    forall e | e in Reordered(q, now) ensures InBand(e, 15 * MINUTE) && Timely(e.task, now) {
      assert e in r;
      var i :| 0 <= i < |r| && r[i] == e;
      assert q[i] in q;
    }
  }

  lemma ProcessedOrder(s: State, clock: int)
    requires OrderInv(s, clock)
    ensures OrderInv(Processed(s), clock)
  {
    if s.queue != [] {
      SliceSorted(s.queue, 0);
      assert s.queue[0] in s.queue;
    }
  }

  lemma EnqueueOrder(s: State, t: Task, now: int)
    requires OrderInv(s, now) && Timely(t, now)
    ensures OrderInv(Apply(s, Enqueue(t, now)), now)
  {
    var i := Position(s.queue, t.id);
    if i < |s.queue| {
      ReorderedOrder(s.queue[i := s.queue[i].(task := t)], now);
    } else {
      var n := NewEntry(t, now);
      InsertedSorted(s.queue, n);
      ProcessedOrder(s.(queue := Inserted(s.queue, n), accepted := s.accepted[t.id := n.maxRetries]), now);
    }
  }

  lemma TakeOrder(s: State, i: nat, clock: int)
    requires OrderInv(s, clock) && i < |s.queue|
    ensures OrderInv(s.(queue := Without(s.queue, i), removed := s.removed + {s.queue[i].id}), clock)
  {
    SliceSorted(s.queue, i);
  }

  lemma BackoffOrder(s: State, id: Id, now: int)
    requires OrderInv(s, now) && id in s.waiting
    ensures OrderInv(Apply(s, BackoffEnds(id, now)), now)
  {
    ReorderedOrder(s.queue + [s.waiting[id]], now);
  }

  lemma LaterOrder(s: State, clock: int, now: int)
    requires OrderInv(s, clock) && clock <= now
    ensures OrderInv(s, now)
  {
  }

  lemma SettledOrder(s: State, id: Id, ok: bool, clock: int)
    requires OrderInv(s, clock) && id in s.flying
    ensures OrderInv(Settled(s, id, ok), clock)
  {
  }

  lemma OrderStep(s: State, e: Event, clock: int)
    requires OrderInv(s, clock) && clock <= TimeOf(e, clock)
    requires e.Enqueue? ==> Timely(e.task, e.now)
    ensures OrderInv(Apply(s, e), TimeOf(e, clock))
  {
    LaterOrder(s, clock, TimeOf(e, clock));
    match e
    case Enqueue(t, now) => EnqueueOrder(s, t, now);
    case SetProcessor => ProcessedOrder(s.(hasProcessor := true), clock);
    case SetMaxConcurrent(m) => ProcessedOrder(s.(maxConcurrent := m), clock);
    case Settle(id, ok) =>
      if id in s.flying {
        SettledOrder(s, id, ok, clock);
        ProcessedOrder(Settled(s, id, ok), clock);
      }
    case BackoffEnds(id, now) => if id in s.waiting { BackoffOrder(s, id, now); }
    case Dequeue =>
      if s.queue != [] {
        assert Without(s.queue, 0) == s.queue[1..];
        TakeOrder(s, 0, clock);
      }
    case Remove(id) => if Position(s.queue, id) < |s.queue| { TakeOrder(s, Position(s.queue, id), clock); }
  }

  /** In every run with stamps less than fifteen minutes ahead the queue stays sorted by its
      stored priorities and partitioned by class, although those date from different times. */
  lemma {:induction false} QueueStaysOrdered(s: State, es: seq<Event>, clock: int, d: int)
    requires OrderInv(s, clock) && WellTimed(clock, es, d) && d <= 15 * MINUTE
    ensures Sorted(Run(s, es).queue) && ByClass(Run(s, es).queue)
    decreases es
  {
    if es == [] {
      SortedIsByClass(s.queue);
    } else {
      OrderStep(s, es[0], clock);
      QueueStaysOrdered(Apply(s, es[0]), es[1..], TimeOf(es[0], clock), d);
    }
  }

  ghost predicate AlwaysByClass(maxConcurrent: int, clock: int, d: int) {
    forall es | WellTimed(clock, es, d) :: ByClass(Run(Start(maxConcurrent), es).queue)
  }

  /** A critical task stamped a quarter of an hour ahead goes behind a high one that has
      waited ten minutes. */
  lemma FifteenMinutesAreTooMany(maxConcurrent: int, now: int)
    ensures var high := Task("h", High, now - 10 * MINUTE, 3);
            var critical := Task("c", Critical, now + 15 * MINUTE, 3);
            !ByClass(Run(Start(maxConcurrent), [Enqueue(high, now), Enqueue(critical, now)]).queue)
  {
    var s0 := Start(maxConcurrent);
    var high := Task("h", High, now - 10 * MINUTE, 3);
    var critical := Task("c", Critical, now + 15 * MINUTE, 3);
    var h, c := NewEntry(high, now), NewEntry(critical, now);
    var s1 := Apply(s0, Enqueue(high, now));
    assert s1.queue == [h] && !s1.hasProcessor;
    assert [h][1..] == [];
    assert Inserted([h], c) == [h, c];
    var s2 := Apply(s1, Enqueue(critical, now));
    assert s2.queue == [h, c];
    assert [Enqueue(high, now), Enqueue(critical, now)][1..] == [Enqueue(critical, now)];
    assert Run(s1, [Enqueue(critical, now)]) == s2;
    assert Weight([h, c][0].task.class_) < Weight([h, c][1].task.class_);
  }

  /** Main theorem on order: whatever is submitted, updated, retried and removed, and when,
      the queue is always partitioned by class exactly if stamps of fifteen minutes ahead and
      more are ruled out. */
  lemma StaysByClassIff(maxConcurrent: int, clock: int, d: int)
    ensures AlwaysByClass(maxConcurrent, clock, d) <==> d <= 15 * MINUTE
  {
    if d <= 15 * MINUTE {
      forall es | WellTimed(clock, es, d) ensures ByClass(Run(Start(maxConcurrent), es).queue) {
        StartIsConserved(maxConcurrent, clock);
        QueueStaysOrdered(Start(maxConcurrent), es, clock, d);
      }
    } else {
      var es := [Enqueue(Task("h", High, clock - 10 * MINUTE, 3), clock),
                 Enqueue(Task("c", Critical, clock + 15 * MINUTE, 3), clock)];
      assert es[1..] == [es[1]];
      assert WellTimed(clock, [es[1]], d);
      assert WellTimed(clock, es, d);
      FifteenMinutesAreTooMany(maxConcurrent, clock);
    }
  }

  // ---------- Conservation in every run ----------

  function One(b: bool): nat { if b then 1 else 0 }

  /** In how many of the six places the entry with this id is. */
  function Places(s: State, id: Id): nat {
    Ids(s.queue)[id] + One(id in s.flying) + One(id in s.waiting)
      + One(id in s.done) + One(id in s.abandoned) + One(id in s.removed)
  }

  /** An entry knows its limit, and how often it has run. */
  ghost predicate Counts(s: State, e: Entry, running: nat) {
    && e.id in s.accepted && e.maxRetries == s.accepted[e.id]
    && Runs(s, e.id) == e.retryCount + running && e.retryCount <= Max(0, e.maxRetries)
  }

  ghost predicate Conserved(s: State) {
    SlotsOk(s) && QueueCounts(s) && forall id: Id :: IdOk(s, id)
  }

  ghost predicate SlotsOk(s: State) {
    s.processing == s.flying.Keys && |s.processing| <= Max(0, s.maxConcurrent)
  }

  ghost predicate QueueCounts(s: State) {
    forall e | e in s.queue :: Counts(s, e, 0)
  }

  ghost predicate IdOk(s: State, id: Id) {
    && Places(s, id) == One(id in s.accepted)
    && (id in s.flying ==> s.flying[id].id == id && Counts(s, s.flying[id], 1))
    && (id in s.waiting ==> s.waiting[id].id == id && Counts(s, s.waiting[id], 0))
    && Runs(s, id) <= if id in s.accepted then Max(0, s.accepted[id]) + 1 else 0
  }

  /** An id is submitted again only while it is queued; the limit is never lowered. */
  ghost predicate Fair(s: State, e: Event) {
    && (e.Enqueue? ==> e.task.id !in s.accepted || Position(s.queue, e.task.id) < |s.queue|)
    && (e.SetMaxConcurrent? ==> e.max >= s.maxConcurrent)
  }

  ghost predicate FairRun(s: State, es: seq<Event>)
    decreases es
  {
    es == [] || (Fair(s, es[0]) && FairRun(Apply(s, es[0]), es[1..]))
  }

  lemma IdsTake(q: seq<Entry>, i: nat)
    requires i < |q|
    ensures Ids(q) == Ids(Without(q, i)) + multiset{q[i].id}
    ensures Ids(q) == Ids(q[1..]) + multiset{q[0].id}
  {
    var ids := IdSeq(q);
    assert ids == ids[..i] + [ids[i]] + ids[i + 1..];
    assert IdSeq(Without(q, i)) == ids[..i] + ids[i + 1..];
    assert ids == [ids[0]] + ids[1..] && IdSeq(q[1..]) == ids[1..];
  }

  lemma {:induction false} IdsInserted(q: seq<Entry>, e: Entry)
    ensures Ids(Inserted(q, e)) == Ids(q) + multiset{e.id}
  {
    if q == [] {
      assert IdSeq([e]) == [e.id];
    } else if q[0].priority < e.priority {
      assert IdSeq([e] + q) == [e.id] + IdSeq(q);
    } else {
      IdsInserted(q[1..], e);
      assert IdSeq([q[0]] + Inserted(q[1..], e)) == [q[0].id] + IdSeq(Inserted(q[1..], e));
      assert IdSeq(q) == [q[0].id] + IdSeq(q[1..]);
    }
  }

  lemma {:induction false} IdsSorted(q: seq<Entry>)
    ensures Ids(SortedByPriority(q)) == Ids(q)
  {
    if q != [] {
      IdsSorted(q[..|q| - 1]);
      IdsInserted(SortedByPriority(q[..|q| - 1]), q[|q| - 1]);
      assert IdSeq(q) == IdSeq(q[..|q| - 1]) + [q[|q| - 1].id];
    }
  }

  lemma IdsReordered(q: seq<Entry>, now: int)
    ensures Ids(Reordered(q, now)) == Ids(q)
    ensures forall e | e in Reordered(q, now) :: exists d :: d in q && e == d.(priority := e.priority)
  {
    var r := Recalculated(q, now);
    IdsSorted(r);
    assert IdSeq(r) == IdSeq(q);
    forall e | e in Reordered(q, now) ensures exists d :: d in q && e == d.(priority := e.priority) {
      assert e in r;
      var i :| 0 <= i < |r| && r[i] == e;
      assert q[i] in q;
    }
  }

  lemma QueuedIsCounted(q: seq<Entry>, e: Entry)
    requires e in q
    ensures Ids(q)[e.id] >= 1
  {
    var i :| 0 <= i < |q| && q[i] == e;
    assert IdSeq(q)[i] == e.id;
  }

  lemma LaunchedIdOk(s: State, id: Id)
    requires s.queue != [] && IdOk(s, id) && QueueCounts(s)
    ensures IdOk(Launched(s), id)
  {
    var e := s.queue[0];
    IdsTake(s.queue, 0);
    assert e in s.queue && Counts(s, e, 0);
    QueuedIsCounted(s.queue, e);
  }

  lemma LaunchedQueueCounts(s: State)
    requires s.queue != [] && IdOk(s, s.queue[0].id) && QueueCounts(s)
    ensures QueueCounts(Launched(s))
  {
    var s' := Launched(s);
    IdsTake(s.queue, 0);
    forall d | d in s'.queue ensures Counts(s', d, 0) {
      QueuedIsCounted(s'.queue, d);
      assert d in s.queue && Counts(s, d, 0) && d.id != s.queue[0].id;
    }
  }

  lemma ProcessedConserved(s: State)
    requires Conserved(s)
    ensures Conserved(Processed(s))
  {
    if s.hasProcessor && |s.processing| < s.maxConcurrent && s.queue != [] {
      assert Processed(s) == Launched(s);
      forall id: Id ensures IdOk(Launched(s), id) {
        assert IdOk(s, id);
        LaunchedIdOk(s, id);
      }
      assert IdOk(s, s.queue[0].id);
      LaunchedQueueCounts(s);
      LaunchedSlotsOk(s);
    }
  }

  lemma LaunchedSlotsOk(s: State)
    requires SlotsOk(s) && s.queue != [] && |s.processing| < s.maxConcurrent
    ensures SlotsOk(Launched(s))
  {
  }

  /** A queue of the same ids and counts may replace the queue. */
  lemma RequeuedConserved(s: State, q: seq<Entry>, now: int)
    requires Conserved(s) && Ids(q) == Ids(s.queue) && forall e | e in q :: Counts(s, e, 0)
    ensures Conserved(s.(queue := Reordered(q, now)))
  {
    var s' := s.(queue := Reordered(q, now));
    IdsReordered(q, now);
    forall id: Id ensures IdOk(s', id) {
      assert IdOk(s, id);
    }
    forall e | e in s'.queue ensures Counts(s', e, 0) {
      var d :| d in q && e == d.(priority := e.priority);
      assert Counts(s, d, 0);
    }
  }

  lemma UpdateConserved(s: State, t: Task, now: int, i: nat)
    requires Conserved(s) && i < |s.queue|
    ensures Conserved(s.(queue := Reordered(s.queue[i := s.queue[i].(task := t)], now)))
  {
    var q := s.queue[i := s.queue[i].(task := t)];
    assert IdSeq(q) == IdSeq(s.queue);
    forall e | e in q ensures Counts(s, e, 0) {
      var j :| 0 <= j < |q| && q[j] == e;
      assert s.queue[j] in s.queue && Counts(s, s.queue[j], 0);
    }
    RequeuedConserved(s, q, now);
  }

  lemma AcceptConserved(s: State, n: Entry)
    requires Conserved(s) && n.id !in s.accepted && n.retryCount == 0
    ensures Conserved(s.(queue := Inserted(s.queue, n), accepted := s.accepted[n.id := n.maxRetries]))
  {
    var s' := s.(queue := Inserted(s.queue, n), accepted := s.accepted[n.id := n.maxRetries]);
    IdsInserted(s.queue, n);
    assert IdOk(s, n.id);
    forall id: Id ensures IdOk(s', id) {
      assert IdOk(s, id);
    }
    forall e | e in s'.queue ensures Counts(s', e, 0) {
      if e in s.queue {
        assert Counts(s, e, 0);
        QueuedIsCounted(s.queue, e);
      }
    }
  }

  lemma SettledIdOk(s: State, id: Id, ok: bool, j: Id)
    requires id in s.flying && IdOk(s, id) && IdOk(s, j)
    ensures IdOk(Settled(s, id, ok), j)
  {
  }

  lemma SettledConserved(s: State, id: Id, ok: bool)
    requires Conserved(s) && id in s.flying
    ensures Conserved(Settled(s, id, ok))
  {
    var s' := Settled(s, id, ok);
    assert IdOk(s, id);
    forall j: Id ensures IdOk(s', j) {
      assert IdOk(s, j);
      SettledIdOk(s, id, ok, j);
    }
    SettledSlotsOk(s, id, ok);
    SettledQueueCounts(s, id, ok);
  }

  lemma SettledSlotsOk(s: State, id: Id, ok: bool)
    requires SlotsOk(s) && id in s.flying
    ensures SlotsOk(Settled(s, id, ok))
  {
    var rest := s.processing - {id};
    assert s.processing == rest + {id};
    assert Settled(s, id, ok).processing == rest;
  }

  lemma SettledQueueCounts(s: State, id: Id, ok: bool)
    requires QueueCounts(s) && id in s.flying
    ensures QueueCounts(Settled(s, id, ok))
  {
    var s' := Settled(s, id, ok);
    assert s'.queue == s.queue && s'.accepted == s.accepted && s'.runs == s.runs;
    forall e | e in s'.queue ensures Counts(s', e, 0) {
      assert Counts(s, e, 0);
    }
  }

  /** First the entry rejoins the queue's end, then the queue is reordered. */
  lemma BackoffConserved(s: State, id: Id, now: int)
    requires Conserved(s) && id in s.waiting
    ensures Conserved(Apply(s, BackoffEnds(id, now)))
  {
    var q := s.queue + [s.waiting[id]];
    var s1 := s.(queue := q, waiting := s.waiting - {id});
    assert IdOk(s, id);
    assert IdSeq(q) == IdSeq(s.queue) + [id];
    forall j: Id ensures IdOk(s1, j) {
      assert IdOk(s, j);
    }
    forall e | e in q ensures Counts(s1, e, 0) {
      assert Counts(s, e, 0);
    }
    RequeuedConserved(s1, q, now);
  }

  lemma TakeConserved(s: State, i: nat)
    requires Conserved(s) && i < |s.queue|
    ensures Conserved(s.(queue := Without(s.queue, i), removed := s.removed + {s.queue[i].id}))
  {
    var s' := s.(queue := Without(s.queue, i), removed := s.removed + {s.queue[i].id});
    IdsTake(s.queue, i);
    assert s.queue[i] in s.queue;
    QueuedIsCounted(s.queue, s.queue[i]);
    forall j: Id ensures IdOk(s', j) {
      assert IdOk(s, j);
    }
    forall e | e in s'.queue ensures Counts(s', e, 0) {
      assert e in s.queue && Counts(s, e, 0);
    }
  }

  lemma EnqueueConserved(s: State, t: Task, now: int)
    requires Conserved(s) && Fair(s, Enqueue(t, now))
    ensures Conserved(Apply(s, Enqueue(t, now)))
  {
    var i := Position(s.queue, t.id);
    if i < |s.queue| {
      UpdateConserved(s, t, now, i);
    } else {
      var n := NewEntry(t, now);
      AcceptConserved(s, n);
      ProcessedConserved(s.(queue := Inserted(s.queue, n), accepted := s.accepted[t.id := n.maxRetries]));
    }
  }

  lemma SettingsConserved(s: State, max: int, hasProcessor: bool)
    requires Conserved(s) && max >= s.maxConcurrent
    ensures Conserved(s.(maxConcurrent := max, hasProcessor := hasProcessor))
  {
    var s' := s.(maxConcurrent := max, hasProcessor := hasProcessor);
    forall j: Id ensures IdOk(s', j) {
      assert IdOk(s, j);
    }
    forall e | e in s'.queue ensures Counts(s', e, 0) {
      assert Counts(s, e, 0);
    }
  }

  lemma ConservedStep(s: State, e: Event)
    requires Conserved(s) && Fair(s, e)
    ensures Conserved(Apply(s, e))
  {
    match e
    case Enqueue(t, now) => EnqueueConserved(s, t, now);
    case SetProcessor =>
      SettingsConserved(s, s.maxConcurrent, true);
      ProcessedConserved(s.(hasProcessor := true));
    case SetMaxConcurrent(m) =>
      SettingsConserved(s, m, s.hasProcessor);
      ProcessedConserved(s.(maxConcurrent := m));
    case Settle(id, ok) =>
      if id in s.flying {
        SettledConserved(s, id, ok);
        ProcessedConserved(Settled(s, id, ok));
      }
    case BackoffEnds(id, now) => if id in s.waiting { BackoffConserved(s, id, now); }
    case Dequeue =>
      if s.queue != [] {
        assert Without(s.queue, 0) == s.queue[1..];
        TakeConserved(s, 0);
      }
    case Remove(id) =>
      var i := Position(s.queue, id);
      if i < |s.queue| { TakeConserved(s, i); }
  }

  /** Main theorem: in every fair run each accepted entry is in exactly one of the six
      places, no more entries are in flight than allowed, and none runs more often than its
      retries allow. */
  lemma {:induction false} EveryEntryIsSomewhere(s: State, es: seq<Event>, id: Id)
    requires Conserved(s) && FairRun(s, es)
    ensures var s' := Run(s, es);
      && Places(s', id) == One(id in s'.accepted)
      && |s'.flying| <= Max(0, s'.maxConcurrent)
      && Runs(s', id) <= if id in s'.accepted then Max(0, s'.accepted[id]) + 1 else 0
    decreases es
  {
    if es == [] {
      assert s.flying.Keys == s.processing && |s.flying.Keys| == |s.flying|;
      assert IdOk(s, id);
    } else {
      ConservedStep(s, es[0]);
      EveryEntryIsSomewhere(Apply(s, es[0]), es[1..], id);
    }
  }

  lemma StartIsConserved(maxConcurrent: int, clock: int)
    ensures Conserved(Start(maxConcurrent)) && OrderInv(Start(maxConcurrent), clock)
  {
    assert IdSeq([]) == [];
  }

  // ---------- The queue ----------

  class PriorityTaskQueue {
    var queue: seq<Entry>
    var processing: set<Id>
    var maxConcurrent: int
    var hasProcessor: bool
    var flying: map<Id, Entry>
    var waiting: map<Id, Entry>
    ghost var done: set<Id>
    ghost var abandoned: set<Id>
    ghost var removed: set<Id>
    ghost var accepted: map<Id, int>
    ghost var runs: map<Id, nat>

    constructor (maxConcurrent: int)
      ensures View() == Start(maxConcurrent)
    {
      queue, processing, this.maxConcurrent, hasProcessor := [], {}, maxConcurrent, false;
      flying, waiting, done, abandoned, removed, accepted, runs := map[], map[], {}, {}, {}, map[], map[];
    }

    ghost function View(): State
      reads this
    {
      State(queue, processing, maxConcurrent, hasProcessor, flying, waiting, done, abandoned, removed, accepted, runs)
    }

    method FindIndex(id: Id) returns (i: nat)
      ensures i == Position(queue, id)
    {
      i := 0;
      while i < |queue|
        invariant 0 <= i <= |queue|
        invariant Position(queue, id) == i + Position(queue[i..], id)
      {
        if queue[i].id == id { return; }
        assert queue[i..][1..] == queue[i + 1..];
        i := i + 1;
      }
    }

    method InsertByPriority(e: Entry)
      modifies this`queue
      ensures queue == Inserted(old(queue), e)
    {
      var i := 0;
      while i < |queue| && queue[i].priority >= e.priority
        invariant 0 <= i <= |queue| && queue == old(queue)
        invariant forall j | 0 <= j < i :: queue[j].priority >= e.priority
      {
        i := i + 1;
      }
      InsertedAt(queue, e, i);
      queue := queue[..i] + [e] + queue[i..];
    }

    method ReorderQueue(now: int)
      modifies this`queue
      ensures queue == Reordered(old(queue), now)
    {
      var i := 0;
      while i < |queue|
        invariant 0 <= i <= |queue| == |old(queue)|
        invariant forall j | 0 <= j < |queue| ::
          queue[j] == if j < i then old(queue)[j].(priority := Priority(old(queue)[j].task, now)) else old(queue)[j]
      {
        queue := queue[i := queue[i].(priority := Priority(queue[i].task, now))];
        i := i + 1;
      }
      assert queue == Recalculated(old(queue), now);
      queue := SortedByPriority(queue);
    }

    method ProcessQueue()
      modifies this
      ensures View() == Processed(old(View()))
    {
      if !hasProcessor || |processing| >= maxConcurrent || |queue| == 0 { return; }
      var next := queue[0];
      runs := runs[next.id := Runs(View(), next.id) + 1];
      queue := queue[1..];
      processing := processing + {next.id};
      flying := flying[next.id := next];
    }

    method Submit(t: Task, now: int)
      modifies this
      ensures View() == Apply(old(View()), Enqueue(t, now))
    {
      var i := FindIndex(t.id);
      if i < |queue| {
        queue := queue[i := queue[i].(task := t)];
        ReorderQueue(now);
        return;
      }
      var n := Entry(t.id, t, Priority(t, now), 0, if t.maxRetries != 0 then t.maxRetries else 3);
      InsertByPriority(n);
      accepted := accepted[t.id := n.maxRetries];
      ProcessQueue();
    }

    /** processQueue after its await: the retry decision, and the next entry. */
    method OnSettled(id: Id, ok: bool)
      requires id in flying
      modifies this
      ensures View() == Apply(old(View()), Settle(id, ok))
    {
      LeaveProcessing(id, ok);
      ProcessQueue();
    }

    method LeaveProcessing(id: Id, ok: bool)
      requires id in flying
      modifies this
      ensures View() == Settled(old(View()), id, ok)
    {
      var e := flying[id];
      if ok {
        done := done + {id};
      } else if e.retryCount < e.maxRetries {
        waiting := waiting[id := e.(retryCount := e.retryCount + 1)];
      } else {
        abandoned := abandoned + {id};
      }
      processing := processing - {id};
      flying := flying - {id};
    }

    /** The backoff timer; it does not call processQueue. */
    method OnBackoffEnds(id: Id, now: int)
      requires id in waiting
      modifies this
      ensures View() == Apply(old(View()), BackoffEnds(id, now))
    {
      queue := queue + [waiting[id]];
      waiting := waiting - {id};
      ReorderQueue(now);
    }

    /** dequeue. */
    method TakeFirst() returns (task: Option<Task>)
      modifies this
      ensures View() == Apply(old(View()), Dequeue)
      ensures task == if old(queue) == [] then None else Some(old(queue)[0].task)
    {
      if |queue| == 0 { return None; }
      task := Some(queue[0].task);
      removed := removed + {queue[0].id};
      queue := queue[1..];
    }

    method InstallProcessor()
      modifies this
      ensures View() == Apply(old(View()), SetProcessor)
    {
      hasProcessor := true;
      ProcessQueue();
    }

    method Resize(max: int)
      modifies this
      ensures View() == Apply(old(View()), SetMaxConcurrent(max))
    {
      maxConcurrent := max;
      ProcessQueue();
    }

    method TakeOut(id: Id) returns (found: bool)
      modifies this
      ensures View() == Apply(old(View()), Remove(id))
      ensures found <==> exists e :: e in old(queue) && e.id == id
    {
      var i := FindIndex(id);
      found := i < |queue|;
      if found {
        assert queue[i] in queue;
        queue := queue[..i] + queue[i + 1..];
        removed := removed + {id};
      }
    }
  }
}
