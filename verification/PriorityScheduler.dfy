/** The sorted sets, scores and batches of the weighted scheduler
    (backend/src/services/priority-scheduler.ts).

    A Redis sorted set is the sequence of its members by ascending score. The text of a
    member is opaque: two members are the same exactly when all their fields are. */
module PriorityScheduling {

  import opened Basics

  datatype Class = CRITICAL | HIGH | MEDIUM | LOW

  /** The JSON text of a task; `agingBoost` is part of it. */
  datatype Member = Member(id: string, priority: Class, createdAt: int, deadline: Option<int>, agingBoost: real)

  datatype Scored = Scored(member: Member, score: real)

  datatype Queues = Queues(critical: seq<Scored>, high: seq<Scored>, medium: seq<Scored>, low: seq<Scored>)

  // ---------- Redis ----------

  /** How many members zrange(key, 0, stop) returns; a negative stop counts from the end. */
  function ZRange(q: seq<Scored>, stop: int): (n: nat)
    ensures n <= |q|
  {
    var last := if stop < 0 then |q| + stop else stop;
    if last < 0 then 0 else if last >= |q| then |q| else last + 1
  }

  function ZRem(q: seq<Scored>, m: Member): (r: seq<Scored>)
    ensures forall y :: y in r ==> y in q
  {
    if q == [] then [] else if q[0].member == m then q[1..] else [q[0]] + ZRem(q[1..], m)
  }

  function ZInsert(q: seq<Scored>, x: Scored): (r: seq<Scored>)
    ensures forall y :: y in r <==> y in q || y == x
  {
    if q == [] then [x] else if q[0].score > x.score then [x] + q else [q[0]] + ZInsert(q[1..], x)
  }

  function ZAdd(q: seq<Scored>, m: Member, score: real): seq<Scored> {
    ZInsert(ZRem(q, m), Scored(m, score))
  }

  predicate Ascending(q: seq<Scored>) { forall i, j | 0 <= i < j < |q| :: q[i].score <= q[j].score }

  predicate Distinct(q: seq<Scored>) { forall i, j | 0 <= i < j < |q| :: q[i].member != q[j].member }

  predicate Holds(q: seq<Scored>, m: Member) { exists x :: x in q && x.member == m }

  function Members(q: seq<Scored>): seq<Member> { seq(|q|, i requires 0 <= i < |q| => q[i].member) }

  lemma {:induction false} ZRemEffect(q: seq<Scored>, m: Member)
    requires Distinct(q) && Ascending(q)
    ensures Distinct(ZRem(q, m)) && Ascending(ZRem(q, m)) && !Holds(ZRem(q, m), m)
  {
    if q == [] {
    } else if q[0].member == m {
      forall x | x in q[1..] ensures x.member != m {
        var i :| 0 <= i < |q[1..]| && q[1..][i] == x;
        assert q[i + 1] == x;
      }
    } else {
      var rest := ZRem(q[1..], m);
      ZRemEffect(q[1..], m);
      forall i | 0 <= i < |rest| ensures rest[i].member != q[0].member && q[0].score <= rest[i].score {
        assert rest[i] in q[1..];
        var j :| 0 <= j < |q[1..]| && q[1..][j] == rest[i];
        assert q[j + 1] == rest[i];
      }
    }
  }

  lemma {:induction false} ZInsertAscending(q: seq<Scored>, x: Scored)
    requires Ascending(q)
    ensures Ascending(ZInsert(q, x))
  {
    if q != [] && q[0].score <= x.score {
      var rest := ZInsert(q[1..], x);
      ZInsertAscending(q[1..], x);
      forall i | 0 <= i < |rest| ensures q[0].score <= rest[i].score {
        assert rest[i] in rest;
        if rest[i] != x {
          var j :| 0 <= j < |q[1..]| && q[1..][j] == rest[i];
          assert q[j + 1] == rest[i];
        }
      }
    }
  }

  lemma {:induction false} ZInsertDistinct(q: seq<Scored>, x: Scored)
    requires Distinct(q) && forall i | 0 <= i < |q| :: q[i].member != x.member
    ensures Distinct(ZInsert(q, x))
  {
    if q != [] && q[0].score <= x.score {
      var rest := ZInsert(q[1..], x);
      ZInsertDistinct(q[1..], x);
      forall i | 0 <= i < |rest| ensures rest[i].member != q[0].member {
        assert rest[i] in rest;
        if rest[i] != x {
          var j :| 0 <= j < |q[1..]| && q[1..][j] == rest[i];
          assert q[j + 1] == rest[i];
        }
      }
    }
  }

  lemma ZAddEffect(q: seq<Scored>, m: Member, score: real)
    requires Distinct(q) && Ascending(q)
    ensures Distinct(ZAdd(q, m, score)) && Ascending(ZAdd(q, m, score))
  {
    ZRemEffect(q, m);
    var rest := ZRem(q, m);
    forall i | 0 <= i < |rest| ensures rest[i].member != m {
      assert rest[i] in rest;
    }
    ZInsertAscending(rest, Scored(m, score));
    ZInsertDistinct(rest, Scored(m, score));
  }

  // ---------- One batch ----------

  /** floor(n * 0.35) and floor(n * 0.12). */
  function HighShare(n: int): int { n * 35 / 100 }

  function MediumShare(n: int): int { n * 12 / 100 }

  /** How many tasks each class gives up, in the order the batch is filled. */
  function TakenCritical(s: Queues, batchSize: int): nat { ZRange(s.critical, batchSize - 1) }

  function Remaining(s: Queues, batchSize: int): int { batchSize - TakenCritical(s, batchSize) }

  function TakenHigh(s: Queues, batchSize: int): (n: nat)
    ensures n <= |s.high|
  {
    var r := Remaining(s, batchSize);
    if r <= 0 then 0 else ZRange(s.high, HighShare(r) - 1)
  }

  function TakenMedium(s: Queues, batchSize: int): (n: nat)
    ensures n <= |s.medium|
  {
    var r := Remaining(s, batchSize);
    if r <= 0 then 0 else ZRange(s.medium, MediumShare(r) - 1)
  }

  function OfferedLow(s: Queues, batchSize: int): int {
    Remaining(s, batchSize) - TakenHigh(s, batchSize) - TakenMedium(s, batchSize)
  }

  function TakenLow(s: Queues, batchSize: int): (n: nat)
    ensures n <= |s.low|
  {
    if Remaining(s, batchSize) <= 0 || OfferedLow(s, batchSize) <= 0 then 0
    else ZRange(s.low, OfferedLow(s, batchSize) - 1)
  }

  function Batch(s: Queues, batchSize: int): seq<Member> {
    Members(s.critical[..TakenCritical(s, batchSize)]) + Members(s.high[..TakenHigh(s, batchSize)])
      + Members(s.medium[..TakenMedium(s, batchSize)]) + Members(s.low[..TakenLow(s, batchSize)])
  }

  function Rest(s: Queues, batchSize: int): Queues {
    Queues(s.critical[TakenCritical(s, batchSize)..], s.high[TakenHigh(s, batchSize)..],
           s.medium[TakenMedium(s, batchSize)..], s.low[TakenLow(s, batchSize)..])
  }

  // ---------- When the batch is too large ----------

  /** A share of less than one slot becomes a zrange to -1: the whole queue. */
  lemma Shares(s: Queues, batchSize: int)
    requires Remaining(s, batchSize) > 0
    ensures var r := Remaining(s, batchSize);
      && TakenHigh(s, batchSize) == (if r <= 2 then |s.high| else Min(|s.high|, HighShare(r)))
      && TakenMedium(s, batchSize) == (if r <= 8 then |s.medium| else Min(|s.medium|, MediumShare(r)))
      && TakenLow(s, batchSize) == (if OfferedLow(s, batchSize) <= 0 then 0 else Min(|s.low|, OfferedLow(s, batchSize)))
  {
  }

  /** Main theorem on size, for every content of the queues: the batch is at most
      batchSize exactly if zero or at least nine slots remain after CRITICAL, or the
      classes that are then taken whole happen to be short. */
  lemma BatchFitsIff(s: Queues, batchSize: int)
    ensures var r := Remaining(s, batchSize);
      |Batch(s, batchSize)| <= batchSize <==>
        || r == 0 || r >= 9
        || (1 <= r <= 2 && |s.high| + |s.medium| <= r)
        || (3 <= r <= 8 && Min(|s.high|, HighShare(r)) + |s.medium| <= r)
  {
    if Remaining(s, batchSize) > 0 {
      Shares(s, batchSize);
    }
  }

  /** So the number of slots alone guarantees the size exactly when it is zero or nine and
      more. */
  lemma FitsWhateverIsQueuedIff(batchSize: int, r: int)
    requires 0 <= r <= batchSize
    ensures (forall s | Remaining(s, batchSize) == r :: |Batch(s, batchSize)| <= batchSize) <==> r == 0 || r >= 9
  {
    if r == 0 || r >= 9 {
      forall s | Remaining(s, batchSize) == r ensures |Batch(s, batchSize)| <= batchSize {
        BatchFitsIff(s, batchSize);
      }
    } else {
      var s := Queues(Filler(CRITICAL, batchSize - r), [], Filler(MEDIUM, r + 1), []);
      assert Remaining(s, batchSize) == r;
      BatchFitsIff(s, batchSize);
    }
  }

  function Filler(k: Class, n: nat): seq<Scored> { seq(n, i => Scored(Member("t", k, i, None, 0.0), BaseScore(k))) }

  /** A batch size of zero asks for all of CRITICAL, and a negative one for all but some. */
  lemma NonPositiveBatch(s: Queues, batchSize: int)
    requires batchSize <= 0
    ensures Batch(s, batchSize) == Members(s.critical[..Max(0, |s.critical| + batchSize)])
  {
  }

  /** From nine slots on, LOW is offered at least 53 percent of them. */
  lemma LowIsOfferedAShare(s: Queues, batchSize: int)
    requires Remaining(s, batchSize) >= 9
    ensures 100 * OfferedLow(s, batchSize) >= 53 * Remaining(s, batchSize)
    ensures TakenLow(s, batchSize) == Min(|s.low|, OfferedLow(s, batchSize))
  {
    Shares(s, batchSize);
  }

  // ---------- Scores and aging ----------

  function BaseScore(c: Class): real {
    match c
    case CRITICAL => 0.0
    case HIGH => 100.0
    case MEDIUM => 200.0
    case LOW => 300.0
  }

  /** Boost per second of waiting. */
  function AgingRate(c: Class): real {
    match c
    case CRITICAL => 0.0
    case HIGH => 0.1
    case MEDIUM => 0.05
    case LOW => 0.02
  }

  function DeadlinePenalty(deadline: Option<int>, now: int): real {
    match deadline
    case None => 0.0
    case Some(d) =>
      if d - now < 0 then -1000.0 else if d - now < 60000 then -500.0 else if d - now < 300000 then -200.0 else 0.0
  }

  function Score(m: Member, now: int): real {
    BaseScore(m.priority) - m.agingBoost * 10.0 + DeadlinePenalty(m.deadline, now)
  }

  function Boost(m: Member, queue: Class, now: int): real {
    ((now - m.createdAt) as real) / 1000.0 * AgingRate(queue)
  }

  function Aged(m: Member, queue: Class, now: int): Member { m.(agingBoost := Boost(m, queue, now)) }

  /** The loop of applyAging over the members read at its start. */
  function AfterAging(q: seq<Scored>, seen: seq<Scored>, queue: Class, now: int): seq<Scored>
    decreases |seen|
  {
    if seen == [] then q
    else
      var m := Aged(seen[0].member, queue, now);
      AfterAging(ZAdd(q, m, Score(m, now)), seen[1..], queue, now)
  }

  lemma {:induction false} ZRemHolds(q: seq<Scored>, m: Member, x: Member)
    requires x != m
    ensures Holds(ZRem(q, m), x) <==> Holds(q, x)
  {
    if q != [] && q[0].member != m {
      ZRemHolds(q[1..], m, x);
      var rest := ZRem(q[1..], m);
      assert ([q[0]] + rest)[0] == q[0];
      assert forall y :: y in [q[0]] + rest <==> y == q[0] || y in rest;
      assert forall y :: y in q <==> y == q[0] || y in q[1..];
    } else if q != [] {
      assert forall y :: y in q <==> y == q[0] || y in q[1..];
    }
  }

  lemma ZAddHolds(q: seq<Scored>, m: Member, score: real, x: Member)
    ensures Holds(ZAdd(q, m, score), x) <==> Holds(q, x) || x == m
  {
    if x == m {
      assert Scored(m, score) in ZAdd(q, m, score);
    } else {
      ZRemHolds(q, m, x);
      var removed := ZRem(q, m);
      if Holds(removed, x) {
        var y :| y in removed && y.member == x;
        assert y in ZAdd(q, m, score);
      }
    }
  }

  /** Main theorem on aging: it only ever adds. Every old member stays, beside the re-scored
      text of each member that was read. */
  lemma {:induction false} AgingOnlyAdds(q: seq<Scored>, seen: seq<Scored>, queue: Class, now: int, x: Member)
    ensures Holds(AfterAging(q, seen, queue, now), x) <==>
      Holds(q, x) || exists i :: 0 <= i < |seen| && x == Aged(seen[i].member, queue, now)
    decreases |seen|
  {
    if seen != [] {
      var m := Aged(seen[0].member, queue, now);
      ZAddHolds(q, m, Score(m, now), x);
      AgingOnlyAdds(ZAdd(q, m, Score(m, now)), seen[1..], queue, now, x);
      if exists i :: 0 <= i < |seen| && x == Aged(seen[i].member, queue, now) {
        var i :| 0 <= i < |seen| && x == Aged(seen[i].member, queue, now);
        if i > 0 { assert seen[1..][i - 1] == seen[i]; }
      }
      if exists i :: 0 <= i < |seen[1..]| && x == Aged(seen[1..][i].member, queue, now) {
        var i :| 0 <= i < |seen[1..]| && x == Aged(seen[1..][i].member, queue, now);
        assert seen[i + 1] == seen[1..][i];
      }
    }
  }

  /** A task is queued twice after aging exactly when its boost changed; cancelling it, which
      removes the stored text, then leaves the other one to run. */
  lemma AgedTaskIsQueuedTwiceIff(q: seq<Scored>, m: Member, queue: Class, now: int)
    requires Holds(q, m)
    ensures var copy := Aged(m, queue, now);
      var aged := AfterAging(q, q, queue, now);
      && Holds(aged, m) && Holds(aged, copy) && copy.id == m.id
      && (copy != m <==> m.agingBoost != Boost(m, queue, now))
      && (copy != m ==> Holds(ZRem(aged, m), copy))
  {
    var copy := Aged(m, queue, now);
    var aged := AfterAging(q, q, queue, now);
    var y :| y in q && y.member == m;
    var i :| 0 <= i < |q| && q[i] == y;
    AgingOnlyAdds(q, q, queue, now, m);
    AgingOnlyAdds(q, q, queue, now, copy);
    if copy != m {
      ZRemHolds(aged, m, copy);
    }
  }

  lemma TwoLowTasks(x: Scored, y: Scored)
    ensures Batch(Queues([], [], [], [y, x]), 10) == [y.member, x.member]
  {
    var s := Queues([], [], [], [y, x]);
    assert TakenCritical(s, 10) == 0 && TakenHigh(s, 10) == 0 && TakenMedium(s, 10) == 0;
    assert TakenLow(s, 10) == 2 && s.low[..2] == s.low;
  }

  lemma AgedQueue(x: Scored, now: int)
    requires var copy := Aged(x.member, LOW, now);
      copy != x.member && Score(copy, now) < x.score
    ensures var copy := Aged(x.member, LOW, now);
      AfterAging([x], [x], LOW, now) == [Scored(copy, Score(copy, now)), x]
  {
    var copy := Aged(x.member, LOW, now);
    var y := Scored(copy, Score(copy, now));
    assert [x][1..] == [];
    assert ZRem([], copy) == [];
    assert ZRem([x], copy) == [x];
    assert ZInsert([x], y) == [y] + [x];
    assert AfterAging(ZAdd([x], copy, Score(copy, now)), [], LOW, now) == [y, x];
  }

  /** One submitted task, one aging pass: the next batch runs it twice. */
  lemma AgedTaskRunsTwice(id: string, createdAt: int, now: int)
    requires now > createdAt
    ensures var m := Member(id, LOW, createdAt, None, 0.0);
      var q := AfterAging([Scored(m, 300.0)], [Scored(m, 300.0)], LOW, now);
      Batch(Queues([], [], [], q), 10) == [Aged(m, LOW, now), m] && m != Aged(m, LOW, now)
  {
    var m := Member(id, LOW, createdAt, None, 0.0);
    var copy := Aged(m, LOW, now);
    assert copy.agingBoost > 0.0;
    AgedQueue(Scored(m, 300.0), now);
    TwoLowTasks(Scored(m, 300.0), Scored(copy, Score(copy, now)));
  }
}
