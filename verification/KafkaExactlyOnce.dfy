/** Exactly-once consumption of one topic partition by one consumer group
    (backend/src/services/kafka-exactly-once.ts).

    The world is the broker's log of committed transactions, the two stores of
    processed offsets (database rows and Redis keys) and the call in progress.
    Every `await` of the service is one atomic event; key expiry, cleanup and the
    death of the process may happen between any two of them. */
module KafkaExactlyOnce {

  import opened Basics

  datatype Message = Message(key: string, value: string)

  /** An output record carries the header naming the source offset. */
  datatype Record = Record(source: nat, message: Message)

  /** A committed transaction: its records become visible together with offset + 1. */
  datatype Txn = Txn(offset: nat, records: seq<Record>)

  datatype Answer = Failure | Success(messages: seq<Message>)

  datatype Call =
    | Idle
    | AskingCache(offset: nat)
    | AskingLedger(offset: nat)
    | Caching(offset: nat)                                               // recorded: cache and return true
    | Opening(offset: nat)
    | Handling(offset: nat)
    | Sending(offset: nat, messages: seq<Message>, pending: seq<Record>) // inside the transaction
    | Committing(offset: nat, messages: seq<Message>, pending: seq<Record>)
    | Recording(offset: nat)
    | Finishing(offset: nat)

  datatype World = World(
    txns: seq<Txn>,                            // the broker's committed transactions
    ledger: map<nat, int>,                     // processedOffset rows: offset to processedAt
    cache: set<nat>,                           // Redis keys that have not expired
    answered: set<(nat, seq<Message>)>,        // every successful handler answer so far
    call: Call)

  datatype Event =
    | Deliver(offset: nat)     // the consumer hands over a message; a call in progress is dead
    | Await(answer: Answer, now: int) // the pending await of the call takes effect
    | Reject                   // it throws instead: the transaction, if any, is aborted
    | Expire(offset: nat)      // the Redis TTL of a key runs out
    | Cleanup(cutoff: int)     // cleanupOldOffsets

  // ---------- The broker ----------

  /** The offset the group resumes from after a restart. */
  function Committed(txns: seq<Txn>): nat {
    if txns == [] then 0 else txns[|txns| - 1].offset + 1
  }

  /** What a read_committed consumer of the output topic sees. */
  function Outputs(txns: seq<Txn>): seq<Record> {
    if txns == [] then [] else Outputs(txns[..|txns| - 1]) + txns[|txns| - 1].records
  }

  function Stamp(offset: nat, messages: seq<Message>): seq<Record> {
    seq(|messages|, i requires 0 <= i < |messages| => Record(offset, messages[i]))
  }

  // ---------- One event ----------

  function Apply(w: World, e: Event): World {
    match e
    case Deliver(o) => w.(call := AskingCache(o))
    case Await(answer, now) => Proceed(w, answer, now)
    case Reject => w.(call := Idle)
    case Expire(o) => w.(cache := w.cache - {o})
    case Cleanup(cutoff) => w.(ledger := map o | o in w.ledger && !(w.ledger[o] < cutoff) :: w.ledger[o])
  }

  function Proceed(w: World, answer: Answer, now: int): World {
    match w.call
    case Idle => w
    case AskingCache(o) => w.(call := if o in w.cache then Idle else AskingLedger(o))
    case AskingLedger(o) => w.(call := if o in w.ledger then Caching(o) else Opening(o))
    case Caching(o) => w.(cache := w.cache + {o}, call := Idle)
    case Opening(o) => w.(call := Handling(o))
    case Handling(o) =>
      if answer.Failure? then w.(call := Idle)
      else w.(call := Sending(o, answer.messages, []), answered := w.answered + {(o, answer.messages)})
    case Sending(o, ms, pending) =>
      if |pending| < |ms|
      then w.(call := Sending(o, ms, pending + [Record(o, ms[|pending|])]))
      else w.(call := Committing(o, ms, pending))                // sendOffsets
    case Committing(o, _, pending) => w.(txns := w.txns + [Txn(o, pending)], call := Recording(o))
    case Recording(o) =>
      if o in w.ledger then w.(call := Idle)                      // unique constraint: abort path
      else w.(ledger := w.ledger[o := now], call := Finishing(o))
    case Finishing(o) => w.(cache := w.cache + {o}, call := Idle)
  }

  function Run(w: World, es: seq<Event>): World
    decreases es
  {
    if es == [] then w else Run(Apply(w, es[0]), es[1..])
  }

  lemma {:induction false} RunSplit(w: World, es: seq<Event>, fs: seq<Event>)
    ensures Run(w, es + fs) == Run(Run(w, es), fs)
    decreases es
  {
    if es == [] {
      assert es + fs == fs;
    } else {
      assert (es + fs)[1..] == es[1..] + fs;
      RunSplit(Apply(w, es[0]), es[1..], fs);
    }
  }

  const Start := World([], map[], {}, {}, Idle)

  // ---------- The guarantee ----------

  /** Offsets 0, 1, 2, ... were committed in order and once each, and each one's
      records are exactly what some handler call answered for that offset. */
  ghost predicate ExactlyOnce(w: World) {
    forall i | 0 <= i < |w.txns| ::
      && w.txns[i].offset == i
      && exists ms :: (i, ms) in w.answered && w.txns[i].records == Stamp(i, ms)
  }

  ghost predicate RecordedBelow(w: World) {
    && (forall o | o in w.ledger :: o < Committed(w.txns))
    && (forall o | o in w.cache :: o < Committed(w.txns))
  }

  /** The call in progress works on the message right at the committed offset, or
      has just committed it. */
  ghost predicate CallAtFrontier(w: World) {
    match w.call
    case Idle => true
    case AskingCache(o) => o == Committed(w.txns)
    case AskingLedger(o) => o == Committed(w.txns)
    case Caching(o) => o < Committed(w.txns)
    case Opening(o) => o == Committed(w.txns)
    case Handling(o) => o == Committed(w.txns)
    case Sending(o, ms, pending) =>
      && o == Committed(w.txns) && (o, ms) in w.answered
      && |pending| <= |ms| && pending == Stamp(o, ms[..|pending|])
    case Committing(o, ms, pending) =>
      o == Committed(w.txns) && (o, ms) in w.answered && pending == Stamp(o, ms)
    case Recording(o) => o < Committed(w.txns)
    case Finishing(o) => o < Committed(w.txns)
  }

  ghost predicate Inv(w: World) {
    ExactlyOnce(w) && RecordedBelow(w) && CallAtFrontier(w)
  }

  /** The consumer only ever receives the message at the committed offset: it moves on
      after a call returned true and otherwise restarts from the broker's offset. */
  ghost predicate FromCommitted(w: World, es: seq<Event>)
    decreases es
  {
    es == [] ||
    ((es[0].Deliver? ==> es[0].offset == Committed(w.txns)) && FromCommitted(Apply(w, es[0]), es[1..]))
  }

  lemma ExactlyOnceCommits(w: World)
    requires ExactlyOnce(w)
    ensures Committed(w.txns) == |w.txns|
  {
  }

  lemma InvStep(w: World, e: Event)
    requires Inv(w)
    requires e.Deliver? ==> e.offset == Committed(w.txns)
    ensures Inv(Apply(w, e))
  {
    if e.Await? {
      AwaitKeepsInv(w, e.answer, e.now);
    } else {
      SameOutputs(w, Apply(w, e));
    }
  }

  lemma AwaitKeepsInv(w: World, answer: Answer, now: int)
    requires Inv(w)
    ensures Inv(Proceed(w, answer, now))
  {
    match w.call
    case Handling(_) => HandlerKeepsInv(w, answer, now);
    case Sending(_, _, _) => SendKeepsInv(w, answer, now);
    case Committing(o, ms, pending) =>
      ExactlyOnceCommits(w);
      CommitKeepsExactlyOnce(w, o, ms, pending);
      assert Committed(Proceed(w, answer, now).txns) == o + 1;
    case _ => SameOutputs(w, Proceed(w, answer, now));
  }

  lemma SameOutputs(w: World, w': World)
    requires ExactlyOnce(w) && w'.txns == w.txns && w'.answered == w.answered
    ensures ExactlyOnce(w')
  {
    forall i | 0 <= i < |w'.txns|
      ensures w'.txns[i].offset == i && exists ms :: (i, ms) in w'.answered && w'.txns[i].records == Stamp(i, ms)
    {
      assert w.txns[i].offset == i;
      var ms :| (i, ms) in w.answered && w.txns[i].records == Stamp(i, ms);
    }
  }

  lemma HandlerKeepsInv(w: World, answer: Answer, now: int)
    requires Inv(w) && w.call.Handling?
    ensures Inv(Proceed(w, answer, now))
  {
    if answer.Success? {
      assert forall p :: p in w.answered ==> p in Proceed(w, answer, now).answered;
      assert Stamp(w.call.offset, answer.messages[..0]) == [];
    }
  }

  lemma SendKeepsInv(w: World, answer: Answer, now: int)
    requires Inv(w) && w.call.Sending?
    ensures Inv(Proceed(w, answer, now))
  {
    var ms, pending := w.call.messages, w.call.pending;
    assert |pending| == |ms| ==> ms[..|pending|] == ms;
  }

  lemma CommitKeepsExactlyOnce(w: World, o: nat, ms: seq<Message>, records: seq<Record>)
    requires ExactlyOnce(w) && o == Committed(w.txns)
    requires (o, ms) in w.answered && records == Stamp(o, ms)
    ensures ExactlyOnce(w.(txns := w.txns + [Txn(o, records)], call := Recording(o)))
  {
    ExactlyOnceCommits(w);
    var w' := w.(txns := w.txns + [Txn(o, records)], call := Recording(o));
    forall i | 0 <= i < |w'.txns|
      ensures w'.txns[i].offset == i && exists ms :: (i, ms) in w'.answered && w'.txns[i].records == Stamp(i, ms)
    {
      if i < |w.txns| {
        assert w'.txns[i] == w.txns[i];
      }
    }
  }

  /** Main theorem: crashes, aborts, expiry and cleanup at any point of any number of
      calls never lose, repeat or reorder a message, and both stores of processed
      offsets stay strictly below the committed one. */
  lemma {:induction false} EveryRunIsExactlyOnce(w: World, es: seq<Event>)
    requires Inv(w) && FromCommitted(w, es)
    ensures Inv(Run(w, es))
    decreases es
  {
    if es != [] {
      InvStep(w, es[0]);
      EveryRunIsExactlyOnce(Apply(w, es[0]), es[1..]);
    }
  }

  /** The records of one offset, in output order. */
  function OfSource(records: seq<Record>, o: nat): seq<Record> {
    if records == [] then []
    else OfSource(records[..|records| - 1], o) +
         (if records[|records| - 1].source == o then [records[|records| - 1]] else [])
  }

  lemma {:induction false} OfSourceSplit(a: seq<Record>, b: seq<Record>, o: nat)
    ensures OfSource(a + b, o) == OfSource(a, o) + OfSource(b, o)
  {
    if b == [] {
      assert a + b == a;
    } else {
      var b' := b[..|b| - 1];
      assert (a + b)[..|a + b| - 1] == a + b';
      OfSourceSplit(a, b', o);
    }
  }

  lemma {:induction false} OfSourceUniform(records: seq<Record>, source: nat, o: nat)
    requires forall r | r in records :: r.source == source
    ensures OfSource(records, o) == if source == o then records else []
  {
    if records != [] {
      var init := records[..|records| - 1];
      assert records == init + [records[|records| - 1]];
      OfSourceUniform(init, source, o);
    }
  }

  /** Read back from the output topic: a message below the committed offset left exactly
      one handler answer there, in one piece, and no other message left anything. */
  lemma {:induction false} OutputsPerMessage(w: World, o: nat)
    requires ExactlyOnce(w)
    ensures o < Committed(w.txns) ==>
      exists ms :: (o, ms) in w.answered && OfSource(Outputs(w.txns), o) == Stamp(o, ms)
    ensures o >= Committed(w.txns) ==> OfSource(Outputs(w.txns), o) == []
    decreases |w.txns|
  {
    ExactlyOnceCommits(w);
    if w.txns != [] {
      var last := |w.txns| - 1;
      var w' := w.(txns := w.txns[..last]);
      PrefixIsExactlyOnce(w);
      ExactlyOnceCommits(w');
      OutputsPerMessage(w', o);
      OfSourceSplit(Outputs(w'.txns), w.txns[last].records, o);
      LastTransaction(w, o);
    }
  }

  lemma PrefixIsExactlyOnce(w: World)
    requires ExactlyOnce(w) && w.txns != []
    ensures ExactlyOnce(w.(txns := w.txns[..|w.txns| - 1]))
  {
    var w' := w.(txns := w.txns[..|w.txns| - 1]);
    forall i | 0 <= i < |w'.txns|
      ensures w'.txns[i].offset == i && exists ms :: (i, ms) in w'.answered && w'.txns[i].records == Stamp(i, ms)
    {
      assert w'.txns[i] == w.txns[i];
    }
  }

  lemma LastTransaction(w: World, o: nat)
    requires ExactlyOnce(w) && w.txns != []
    ensures var last := |w.txns| - 1;
      if o == last then exists ms :: (o, ms) in w.answered && OfSource(w.txns[last].records, o) == Stamp(o, ms)
      else OfSource(w.txns[last].records, o) == []
  {
    var last := |w.txns| - 1;
    assert w.txns[last].offset == last;
    var ms :| (last, ms) in w.answered && w.txns[last].records == Stamp(last, ms);
    OfSourceUniform(w.txns[last].records, last, o);
  }

  // ---------- One call, and when redelivery is harmless ----------

  datatype Outcome = ReturnedTrue | ReturnedFalse | Threw | Died

  /** How a call is cut off: an await throws, it throws and then so does the abort, or the
      process dies. */
  datatype Cut = Throws | ThrowsTwice | Dies

  /** What the caller sees of a cut before the try block, and of one inside it. */
  function CutBefore(cut: Cut): Outcome { if cut.Dies? then Died else Threw }

  function CutInside(cut: Cut): Outcome {
    match cut
    case Throws => ReturnedFalse
    case ThrowsTwice => Threw
    case Dies => Died
  }

  /** The state after one undisturbed call whose first `awaits` awaits take effect.
      Awaits: cache, ledger, open, handler, one per message, offsets, commit, record, cache. */
  function Attempt(w: World, o: nat, answer: Answer, awaits: nat, now: int): World {
    if o in w.cache then w.(call := Idle)
    else if o in w.ledger then w.(cache := if awaits >= 3 then w.cache + {o} else w.cache, call := Idle)
    else if answer.Failure? || awaits < 4 then w.(call := Idle)
    else
      var n := |answer.messages|;
      World(
        if awaits >= n + 6 then w.txns + [Txn(o, Stamp(o, answer.messages))] else w.txns,
        if awaits >= n + 7 then w.ledger[o := now] else w.ledger,
        if awaits >= n + 8 then w.cache + {o} else w.cache,
        w.answered + {(o, answer.messages)},
        Idle)
  }

  /** The same call as events of the machine. */
  function Script(o: nat, answer: Answer, awaits: nat, now: int): seq<Event> {
    [Deliver(o)] + seq(awaits, i => Await(answer, now)) + [Reject]
  }

  lemma {:induction false} Awaits(w: World, k: nat, answer: Answer, now: int)
    ensures k > 0 ==>
              Run(w, seq(k, i => Await(answer, now))) ==
              Run(Proceed(w, answer, now), seq(k - 1, i => Await(answer, now)))
  {
    if k > 0 {
      var es := seq(k, i => Await(answer, now));
      assert es[0] == Await(answer, now);
      assert es[1..] == seq(k - 1, i => Await(answer, now));
    }
  }

  lemma {:induction false} IdleAwaits(w: World, k: nat, answer: Answer, now: int)
    requires w.call.Idle?
    ensures Run(w, seq(k, i => Await(answer, now))) == w
  {
    Awaits(w, k, answer, now);
    if k > 0 {
      IdleAwaits(w, k - 1, answer, now);
    }
  }

  /** From the send loop on, `k` more awaits: the loop, sendOffsets, commit, record, cache. */
  lemma {:induction false} SendingAwaits(w: World, k: nat, answer: Answer, now: int)
    requires w.call.Sending? && |w.call.pending| <= |w.call.messages|
    requires w.call.pending == Stamp(w.call.offset, w.call.messages[..|w.call.pending|])
    requires w.call.offset !in w.ledger
    ensures var o, left := w.call.offset, |w.call.messages| - |w.call.pending|;
      Run(w, seq(k, i => Await(answer, now))).(call := Idle) ==
      World(
        if k >= left + 2 then w.txns + [Txn(o, Stamp(o, w.call.messages))] else w.txns,
        if k >= left + 3 then w.ledger[o := now] else w.ledger,
        if k >= left + 4 then w.cache + {o} else w.cache,
        w.answered, Idle)
    decreases |w.call.messages| - |w.call.pending|
  {
    var o, ms, pending := w.call.offset, w.call.messages, w.call.pending;
    Awaits(w, k, answer, now);
    if k > 0 {
      var w1 := Proceed(w, answer, now);
      if |pending| < |ms| {
        assert w1.call.pending == Stamp(o, ms[..|pending| + 1]);
        SendingAwaits(w1, k - 1, answer, now);
      } else {
        assert ms[..|pending|] == ms;
        Awaits(w1, k - 1, answer, now);
        if k > 1 {
          var w2 := Proceed(w1, answer, now);
          Awaits(w2, k - 2, answer, now);
          if k > 2 {
            var w3 := Proceed(w2, answer, now);
            Awaits(w3, k - 3, answer, now);
            if k > 3 {
              IdleAwaits(Proceed(w3, answer, now), k - 4, answer, now);
            }
          }
        }
      }
    }
  }

  /** A call is a run of the machine, so the main theorem speaks about it. */
  lemma {:induction false} AttemptIsRun(w: World, o: nat, answer: Answer, awaits: nat, now: int)
    ensures Run(w, Script(o, answer, awaits, now)) == Attempt(w, o, answer, awaits, now)
  {
    var es := seq(awaits, i => Await(answer, now));
    var w0 := Apply(w, Deliver(o));
    assert Script(o, answer, awaits, now) == [Deliver(o)] + (es + [Reject]);
    assert ([Deliver(o)] + (es + [Reject]))[1..] == es + [Reject];
    RunSplit(w0, es, [Reject]);
    assert Run(Run(w0, es), [Reject]) == Run(w0, es).(call := Idle);
    UndisturbedCall(w0, o, answer, awaits, now);
  }

  lemma {:induction false} UndisturbedCall(w: World, o: nat, answer: Answer, awaits: nat, now: int)
    requires w.call == AskingCache(o)
    ensures Run(w, seq(awaits, i => Await(answer, now))).(call := Idle) == Attempt(w, o, answer, awaits, now)
  {
    Awaits(w, awaits, answer, now);
    if awaits > 0 {
      var w1 := Proceed(w, answer, now);
      if o in w.cache {
        IdleAwaits(w1, awaits - 1, answer, now);
      } else {
        Awaits(w1, awaits - 1, answer, now);
        if awaits > 1 {
          var w2 := Proceed(w1, answer, now);
          Awaits(w2, awaits - 2, answer, now);
          if awaits > 2 {
            var w3 := Proceed(w2, answer, now);
            if o in w.ledger {
              IdleAwaits(w3, awaits - 3, answer, now);
            } else {
              Awaits(w3, awaits - 3, answer, now);
              if awaits > 3 {
                var w4 := Proceed(w3, answer, now);
                if answer.Failure? {
                  IdleAwaits(w4, awaits - 4, answer, now);
                } else {
                  assert Stamp(o, answer.messages[..0]) == [];
                  SendingAwaits(w4, awaits - 4, answer, now);
                }
              }
            }
          }
        }
      }
    }
  }

  /** The rest of a run after offset `o` was handed over: no other delivery, and as asked for
      no expiry of its key or no cleanup that reaches its row. */
  ghost predicate Follows(w: World, o: nat, es: seq<Event>, keyKept: bool, rowKept: bool) {
    forall e | e in es ::
      && !e.Deliver?
      && (keyKept ==> e != Expire(o))
      && (rowKept && e.Cleanup? && o in w.ledger ==> e.cutoff <= w.ledger[o])
  }

  ghost predicate Harmless(w: World, o: nat, keyKept: bool, rowKept: bool) {
    forall es | Follows(w, o, es, keyKept, rowKept) :: ExactlyOnce(Run(w, [Deliver(o)] + es))
  }

  /** When may a caller hand over offset `o`, whatever happens then? In general exactly when it
      is the committed offset; beyond that exactly when it is recorded in Redis and its key
      will not expire, or in the database and its row will not be cleaned up, before the call
      has looked. */
  lemma RedeliveryIsHarmlessIff(w: World, o: nat, keyKept: bool, rowKept: bool)
    requires Inv(w) && w.call.Idle?
    ensures Harmless(w, o, keyKept, rowKept)
       <==> o == Committed(w.txns) || (keyKept && o in w.cache) || (rowKept && o in w.ledger)
  {
    if o == Committed(w.txns) {
      forall es | Follows(w, o, es, keyKept, rowKept) ensures ExactlyOnce(Run(w, [Deliver(o)] + es)) {
        assert ([Deliver(o)] + es)[1..] == es;
        NoDeliverFromCommitted(Apply(w, Deliver(o)), es);
        EveryRunIsExactlyOnce(w, [Deliver(o)] + es);
      }
    } else if (keyKept && o in w.cache) || (rowKept && o in w.ledger) {
      forall es | Follows(w, o, es, keyKept, rowKept) ensures ExactlyOnce(Run(w, [Deliver(o)] + es)) {
        assert ([Deliver(o)] + es)[1..] == es;
        RecordedIsFound(w, Apply(w, Deliver(o)), o, es, keyKept, rowKept);
      }
    } else {
      RecordsCanVanish(w, o, keyKept, rowKept);
    }
  }

  /** The call has found the record of `o`, or will. */
  ghost predicate WillFind(start: World, w: World, o: nat, keyKept: bool, rowKept: bool) {
    && w.txns == start.txns && w.answered == start.answered
    && (w.call.Idle? || w.call == AskingCache(o) || (w.call == AskingLedger(o) && rowKept && o in start.ledger)
        || w.call == Caching(o))
    && ((keyKept && o in w.cache) || (rowKept && o in start.ledger && o in w.ledger && w.ledger[o] == start.ledger[o]))
    && (w.call == AskingLedger(o) ==> o in w.ledger && w.ledger[o] == start.ledger[o])
  }

  lemma {:induction false} RecordedIsFound(start: World, w: World, o: nat, es: seq<Event>, keyKept: bool, rowKept: bool)
    requires Follows(start, o, es, keyKept, rowKept) && WillFind(start, w, o, keyKept, rowKept) && ExactlyOnce(start)
    ensures ExactlyOnce(Run(w, es))
    decreases es
  {
    if es != [] {
      assert es[0] in es && forall e | e in es[1..] :: e in es;
      RecordedIsFound(start, Apply(w, es[0]), o, es[1..], keyKept, rowKept);
    }
  }

  /** Otherwise its key expires, its row is cleaned up, and the call commits it once more. */
  lemma RecordsCanVanish(w: World, o: nat, keyKept: bool, rowKept: bool)
    requires Inv(w) && w.call.Idle? && o != Committed(w.txns)
    requires !(keyKept && o in w.cache) && !(rowKept && o in w.ledger)
    ensures !Harmless(w, o, keyKept, rowKept)
  {
    var vanish := (if o in w.cache then [Expire(o)] else []) +
                  (if o in w.ledger then [Cleanup(w.ledger[o] + 1)] else []);
    var awaits := seq(6, i => Await(Success([]), 0));
    var w0 := Apply(w, Deliver(o));
    var w1 := Run(w0, vanish);
    RecordsVanish(w, o, vanish);
    UndisturbedCall(w1, o, Success([]), 6, 0);
    RunSplit(w0, vanish, awaits);
    assert ([Deliver(o)] + (vanish + awaits))[1..] == vanish + awaits;
    ExactlyOnceCommits(w);
    var w' := Run(w, [Deliver(o)] + (vanish + awaits));
    assert w'.txns[|w.txns|].offset == o;
    assert Follows(w, o, vanish + awaits, keyKept, rowKept);
  }

  lemma RecordsVanish(w: World, o: nat, vanish: seq<Event>)
    requires vanish == (if o in w.cache then [Expire(o)] else []) +
                       (if o in w.ledger then [Cleanup(w.ledger[o] + 1)] else [])
    ensures var w1 := Run(Apply(w, Deliver(o)), vanish);
      w1.call == AskingCache(o) && w1.txns == w.txns && o !in w1.cache && o !in w1.ledger
  {
    var w0 := Apply(w, Deliver(o));
    if |vanish| == 1 {
      assert vanish[1..] == [];
      assert Run(w0, vanish) == Apply(w0, vanish[0]);
    } else if |vanish| == 2 {
      assert vanish == [Expire(o), Cleanup(w.ledger[o] + 1)];
      assert vanish[1..] == [vanish[1]] && [vanish[1]][1..] == [];
      assert Run(Apply(w0, vanish[0]), [vanish[1]]) == Apply(Apply(w0, vanish[0]), vanish[1]);
    }
  }

  lemma {:induction false} NoDeliverFromCommitted(w: World, es: seq<Event>)
    requires forall e | e in es :: !e.Deliver?
    ensures FromCommitted(w, es)
    decreases es
  {
    if es != [] {
      assert es[0] in es;
      NoDeliverFromCommitted(Apply(w, es[0]), es[1..]);
    }
  }

  /** The retry the error log announces is not safe inside the process: when the database
      insert fails after the commit, calling again with the same message, instead of
      restarting from the broker's offset, publishes the output twice. */
  lemma RetryInProcessDuplicates(m: Message)
    ensures var failedInsert := Attempt(Start, 0, Success([m]), 7, 0);
            var retried := Attempt(failedInsert, 0, Success([m]), 9, 0);
            && Outputs(failedInsert.txns) == [Record(0, m)]
            && Outputs(retried.txns) == [Record(0, m), Record(0, m)]
            && !ExactlyOnce(retried)
  {
    var failedInsert := Attempt(Start, 0, Success([m]), 7, 0);
    var retried := Attempt(failedInsert, 0, Success([m]), 9, 0);
    assert Stamp(0, [m]) == [Record(0, m)];
    assert failedInsert.txns == [Txn(0, [Record(0, m)])];
    assert retried.txns == [Txn(0, [Record(0, m)]), Txn(0, [Record(0, m)])];
    assert retried.txns[..1] == failedInsert.txns && failedInsert.txns[..0] == [];
    assert retried.txns[1].offset == 0;
  }

  // ---------- A call among expiring keys and cleanups ----------

  /** Redis expiry and the cleanup job, which run on their own. */
  predicate Timers(es: seq<Event>) { forall i | 0 <= i < |es| :: es[i].Expire? || es[i].Cleanup? }

  /** The first `n` awaits of a call, before the i-th of which the timers do `timers(i)`. */
  function Timed(answer: Answer, now: int, timers: nat -> seq<Event>, n: nat): seq<Event> {
    if n == 0 then [] else Timed(answer, now, timers, n - 1) + (timers(n - 1) + [Await(answer, now)])
  }

  /** After `n` awaits of the call that was handed `o`. */
  ghost predicate Reached(w: World, start: World, o: nat, answer: Answer, now: int, timers: nat -> seq<Event>, n: nat) {
    w == Run(Run(start, [Deliver(o)]), Timed(answer, now, timers, n))
  }

  /** What the caller sees of a call that stands at `w` after `n` awaits: it has ended by
      itself, or was cut off before the try block or inside it. */
  ghost function Seen(w: World, o: nat, awaits: nat, cut: Cut, n: nat): Outcome {
    if w.call.Idle? then
      if o in w.cache then ReturnedTrue else if awaits > n then ReturnedFalse else CutBefore(cut)
    else if w.call.AskingCache? || w.call.AskingLedger? || w.call.Caching? || w.call.Opening? then CutBefore(cut)
    else CutInside(cut)
  }

  lemma ReachedNext(start: World, o: nat, answer: Answer, now: int, timers: nat -> seq<Event>, n: nat, w: World)
    requires Reached(w, start, o, answer, now, timers, n)
    ensures Reached(Proceed(Run(w, timers(n)), answer, now), start, o, answer, now, timers, n + 1)
  {
    var more := timers(n) + [Await(answer, now)];
    RunSplit(Run(start, [Deliver(o)]), Timed(answer, now, timers, n), more);
    RunSplit(w, timers(n), [Await(answer, now)]);
    assert [Await(answer, now)][1..] == [];
  }

  /** With nothing expiring or cleaned up meanwhile it is an undisturbed call. */
  lemma {:induction false} QuietIsAttempt(start: World, o: nat, answer: Answer, now: int, timers: nat -> seq<Event>,
                                          n: nat, w: World)
    requires Reached(w, start, o, answer, now, timers, n) && forall i :: timers(i) == []
    ensures w.(call := Idle) == Attempt(start, o, answer, n, now)
  {
    QuietTimed(answer, now, timers, n);
    assert [Deliver(o)][1..] == [];
    var w0 := Apply(start, Deliver(o));
    assert Run(start, [Deliver(o)]) == w0;
    UndisturbedCall(w0, o, answer, n, now);
  }

  lemma {:induction false} QuietTimed(answer: Answer, now: int, timers: nat -> seq<Event>, n: nat)
    requires forall i :: timers(i) == []
    ensures Timed(answer, now, timers, n) == seq(n, i => Await(answer, now))
  {
    if n > 0 {
      QuietTimed(answer, now, timers, n - 1);
      assert timers(n - 1) == [];
    }
  }

  // ---------- The service ----------

  class KafkaExactlyOnceService {
    var txns: seq<Txn>
    var ledger: map<nat, int>
    var cache: set<nat>
    ghost var answered: set<(nat, seq<Message>)>
    ghost var call: Call

    constructor ()
      ensures View() == Start && Inv(View())
    {
      txns, ledger, cache, answered, call := [], map[], {}, {}, Idle;
    }

    ghost function View(): World
      reads this
    {
      World(txns, ledger, cache, answered, call)
    }

    /** What expires or is cleaned up while the call is suspended. */
    method Tick(es: seq<Event>)
      requires Timers(es)
      modifies this`cache, this`ledger
      ensures View() == Run(old(View()), es)
      ensures cache <= old(cache) && ledger.Keys <= old(ledger).Keys
    {
      var i := 0;
      assert es[0..] == es;
      while i < |es|
        invariant 0 <= i <= |es|
        invariant Run(View(), es[i..]) == Run(old(View()), es)
        invariant cache <= old(cache) && ledger.Keys <= old(ledger).Keys
      {
        assert es[i..][0] == es[i] && es[i..][1..] == es[i + 1..];
        match es[i] {
          case Expire(o) => cache := cache - {o};
          case Cleanup(cutoff) => var count := CleanupOldOffsets(cutoff);
        }
        i := i + 1;
      }
    }

    method CleanupOldOffsets(cutoff: int) returns (count: nat)
      modifies this`ledger
      ensures View() == Apply(old(View()), Cleanup(cutoff))
      ensures count == |old(ledger)| - |ledger|
    {
      var kept := map o | o in ledger && !(ledger[o] < cutoff) :: ledger[o];
      assert kept.Keys <= ledger.Keys;
      SubsetSize(kept.Keys, ledger.Keys);
      count := |ledger| - |kept|;
      ledger := kept;
    }

    /** processExactlyOnce: `n` of its awaits take effect, the timers do as they like before
        each, and unless it ends by itself the call is cut off after `awaits` of them as `cut`
        says. It returns true exactly if it ended with `o` recorded. */
    method ProcessExactlyOnce(o: nat, answer: Answer, awaits: nat, cut: Cut, now: int, timers: nat -> seq<Event>)
      returns (outcome: Outcome, n: nat)
      requires forall i: nat :: Timers(timers(i))
      modifies this
      ensures Reached(View(), old(View()), o, answer, now, timers, n)
      ensures outcome == Seen(View(), o, awaits, cut, n) && n <= awaits && (call.Idle? || n == awaits)
    {
      ghost var start := View();
      call := AskingCache(o);
      assert [Deliver(o)][1..] == [];
      assert Reached(View(), start, o, answer, now, timers, 0);
      if awaits < 1 { return CutBefore(cut), 0; }
      Meanwhile(start, o, answer, now, timers, 0);
      if o in cache {
        call := Idle;
        return ReturnedTrue, 1;
      }
      call := AskingLedger(o);
      if awaits < 2 { return CutBefore(cut), 1; }
      Meanwhile(start, o, answer, now, timers, 1);
      if o in ledger {
        call := Caching(o);
        outcome, n := CacheAgain(start, o, answer, awaits, cut, now, timers);
      } else {
        call := Opening(o);
        outcome, n := ProcessNew(start, o, answer, awaits, cut, now, timers);
      }
    }

    /** What happens before await number `n`; what the await itself does comes next. */
    method Meanwhile(ghost start: World, o: nat, answer: Answer, now: int, timers: nat -> seq<Event>, n: nat)
      requires Reached(View(), start, o, answer, now, timers, n) && Timers(timers(n))
      modifies this`cache, this`ledger
      ensures Reached(Proceed(View(), answer, now), start, o, answer, now, timers, n + 1)
      ensures cache <= old(cache) && ledger.Keys <= old(ledger).Keys
    {
      ReachedNext(start, o, answer, now, timers, n, View());
      Tick(timers(n));
    }

    /** Recorded in the database: cached for next time. */
    method CacheAgain(ghost start: World, o: nat, answer: Answer, awaits: nat, cut: Cut, now: int,
                      timers: nat -> seq<Event>)
      returns (outcome: Outcome, n: nat)
      requires Reached(View(), start, o, answer, now, timers, 2) && call == Caching(o) && awaits >= 2
      requires forall i: nat :: Timers(timers(i))
      modifies this
      ensures Reached(View(), start, o, answer, now, timers, n)
      ensures outcome == Seen(View(), o, awaits, cut, n) && n <= awaits && (call.Idle? || n == awaits)
    {
      if awaits < 3 { return CutBefore(cut), 2; }
      Meanwhile(start, o, answer, now, timers, 2);
      cache := cache + {o};
      call := Idle;
      return ReturnedTrue, 3;
    }

    /** Not recorded: the transaction is opened and the handler called. */
    method ProcessNew(ghost start: World, o: nat, answer: Answer, awaits: nat, cut: Cut, now: int,
                      timers: nat -> seq<Event>)
      returns (outcome: Outcome, n: nat)
      requires Reached(View(), start, o, answer, now, timers, 2) && call == Opening(o) && awaits >= 2
      requires o !in cache && o !in ledger && forall i: nat :: Timers(timers(i))
      modifies this
      ensures Reached(View(), start, o, answer, now, timers, n)
      ensures outcome == Seen(View(), o, awaits, cut, n) && n <= awaits && (call.Idle? || n == awaits)
    {
      if awaits < 3 { return CutBefore(cut), 2; }
      Meanwhile(start, o, answer, now, timers, 2);
      call := Handling(o);
      outcome, n := Handle(start, o, answer, awaits, cut, now, timers);
    }

    /** The try block. */
    method Handle(ghost start: World, o: nat, answer: Answer, awaits: nat, cut: Cut, now: int,
                  timers: nat -> seq<Event>)
      returns (outcome: Outcome, n: nat)
      requires Reached(View(), start, o, answer, now, timers, 3) && call == Handling(o) && awaits >= 3
      requires o !in cache && o !in ledger && forall i: nat :: Timers(timers(i))
      modifies this
      ensures Reached(View(), start, o, answer, now, timers, n)
      ensures outcome == Seen(View(), o, awaits, cut, n) && n <= awaits && (call.Idle? || n == awaits)
    {
      if awaits < 4 { return CutInside(cut), 3; }
      Meanwhile(start, o, answer, now, timers, 3);
      if answer.Failure? {
        call := Idle;
        return if awaits < 5 then CutBefore(cut) else ReturnedFalse, 4;    // the abort is the fifth await
      }
      answered := answered + {(o, answer.messages)};
      call := Sending(o, answer.messages, []);
      var sent, pending := SendOutputs(start, o, answer, awaits, now, timers);
      if !sent { return CutInside(cut), awaits; }
      outcome, n := CommitAndRecord(start, o, answer, awaits, cut, now, timers, pending);
    }

    /** One send per output message; `sent` if the loop was not cut off. */
    method SendOutputs(ghost start: World, o: nat, answer: Answer, awaits: nat, now: int, timers: nat -> seq<Event>)
      returns (sent: bool, pending: seq<Record>)
      requires answer.Success? && call == Sending(o, answer.messages, []) && awaits >= 4
      requires Reached(View(), start, o, answer, now, timers, 4)
      requires o !in cache && o !in ledger && forall i: nat :: Timers(timers(i))
      modifies this`cache, this`ledger, this`call
      ensures o !in cache && o !in ledger && call == Sending(o, answer.messages, pending)
      ensures sent ==> pending == Stamp(o, answer.messages) && awaits >= |answer.messages| + 4
      ensures var n := if sent then |answer.messages| + 4 else awaits;
        Reached(View(), start, o, answer, now, timers, n)
    {
      pending := [];
      var i := 0;
      while i < |answer.messages|
        invariant i <= |answer.messages| && i + 4 <= awaits
        invariant o !in cache && o !in ledger && call == Sending(o, answer.messages, pending)
        invariant pending == Stamp(o, answer.messages[..i])
        invariant Reached(View(), start, o, answer, now, timers, i + 4)
      {
        if awaits < i + 5 { return false, pending; }
        pending := SendOne(start, o, answer, now, timers, i, pending);
        i := i + 1;
      }
      assert answer.messages[..i] == answer.messages;
      return true, pending;
    }

    method SendOne(ghost start: World, o: nat, answer: Answer, now: int, timers: nat -> seq<Event>,
                   i: nat, before: seq<Record>) returns (pending: seq<Record>)
      requires answer.Success? && i < |answer.messages| && call == Sending(o, answer.messages, before)
      requires before == Stamp(o, answer.messages[..i]) && Timers(timers(i + 4))
      requires Reached(View(), start, o, answer, now, timers, i + 4)
      modifies this`cache, this`ledger, this`call
      ensures pending == Stamp(o, answer.messages[..i + 1]) && call == Sending(o, answer.messages, pending)
      ensures Reached(View(), start, o, answer, now, timers, i + 5)
      ensures cache <= old(cache) && ledger.Keys <= old(ledger).Keys
    {
      Meanwhile(start, o, answer, now, timers, i + 4);
      pending := before + [Record(o, answer.messages[i])];
      call := Sending(o, answer.messages, pending);
    }

    /** sendOffsets, commit, and the two records. */
    method CommitAndRecord(ghost start: World, o: nat, answer: Answer, awaits: nat, cut: Cut, now: int,
                           timers: nat -> seq<Event>, pending: seq<Record>) returns (outcome: Outcome, n: nat)
      requires answer.Success? && call == Sending(o, answer.messages, pending)
      requires |pending| == |answer.messages| && awaits >= |answer.messages| + 4
      requires Reached(View(), start, o, answer, now, timers, |answer.messages| + 4)
      requires o !in cache && o !in ledger && forall i: nat :: Timers(timers(i))
      modifies this
      ensures Reached(View(), start, o, answer, now, timers, n)
      ensures outcome == Seen(View(), o, awaits, cut, n) && n <= awaits && (call.Idle? || n == awaits)
    {
      n := |answer.messages| + 4;
      if awaits < n + 1 { return CutInside(cut), n; }
      Meanwhile(start, o, answer, now, timers, n);
      call := Committing(o, answer.messages, pending);
      if awaits < n + 2 { return CutInside(cut), n + 1; }
      Meanwhile(start, o, answer, now, timers, n + 1);
      txns := txns + [Txn(o, pending)];
      call := Recording(o);
      outcome, n := RecordOffset(start, o, answer, awaits, cut, now, timers, n + 2);
    }

    /** The two records after the commit; a throw here still takes the abort path. */
    method RecordOffset(ghost start: World, o: nat, answer: Answer, awaits: nat, cut: Cut, now: int,
                        timers: nat -> seq<Event>, committed: nat) returns (outcome: Outcome, n: nat)
      requires call == Recording(o) && Reached(View(), start, o, answer, now, timers, committed) && committed <= awaits
      requires o !in cache && o !in ledger && forall i: nat :: Timers(timers(i))
      modifies this
      ensures Reached(View(), start, o, answer, now, timers, n)
      ensures outcome == Seen(View(), o, awaits, cut, n) && n <= awaits && (call.Idle? || n == awaits)
    {
      if awaits < committed + 1 { return CutInside(cut), committed; }
      Meanwhile(start, o, answer, now, timers, committed);
      ledger := ledger[o := now];
      call := Finishing(o);
      outcome, n := CacheOffset(start, o, answer, awaits, cut, now, timers, committed + 1);
    }

    method CacheOffset(ghost start: World, o: nat, answer: Answer, awaits: nat, cut: Cut, now: int,
                       timers: nat -> seq<Event>, done: nat) returns (outcome: Outcome, n: nat)
      requires call == Finishing(o) && Reached(View(), start, o, answer, now, timers, done) && done <= awaits
      requires forall i: nat :: Timers(timers(i))
      modifies this
      ensures Reached(View(), start, o, answer, now, timers, n)
      ensures outcome == Seen(View(), o, awaits, cut, n) && n <= awaits && (call.Idle? || n == awaits)
    {
      if awaits < done + 1 { return CutInside(cut), done; }
      Meanwhile(start, o, answer, now, timers, done);
      cache := cache + {o};
      call := Idle;
      return ReturnedTrue, done + 1;
    }
  }
}
