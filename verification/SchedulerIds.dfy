/** What the runs of the scheduler mean for task ids
    (backend/src/services/priority-scheduler.ts): a task is queued and handed out as a text,
    and aging writes a new text for the same task. */
module SchedulerIds {

  import opened PriorityScheduling
  import opened SchedulerRuns

  /** No task id stands for two texts, queued or handed out, nor for two hand-outs. */
  ghost predicate OneOfAnId(w: World) { HandedOnce(w) && NoneLeft(w) && QueuedOnce(w) }

  ghost predicate HandedOnce(w: World) {
    forall i, j | 0 <= i < j < |w.log| :: w.log[i].member.id != w.log[j].member.id
  }

  ghost predicate NoneLeft(w: World) {
    forall i, k, m | 0 <= i < |w.log| && Holds(Get(w.queues, k), m) :: m.id != w.log[i].member.id
  }

  ghost predicate QueuedOnce(w: World) {
    forall k, m, j, x | Holds(Get(w.queues, k), m) && Holds(Get(w.queues, j), x) && m.id == x.id :: k == j && m == x
  }

  /** The id is neither queued nor handed out. */
  ghost predicate FreshId(w: World, id: string) {
    && (forall i | 0 <= i < |w.log| :: w.log[i].member.id != id)
    && (forall k, m | Holds(Get(w.queues, k), m) :: m.id != id)
  }

  /** An aging pass writes a text that differs from the one it read. */
  ghost predicate Changes(w: World, e: Event) {
    && e.Rescore? && e.pass in w.passes && w.passes[e.pass].Scoring? && w.passes[e.pass].pending != []
    && Aged(w.passes[e.pass].pending[0], w.passes[e.pass].queue, e.now) != w.passes[e.pass].pending[0]
  }

  lemma SameHoldings(w: World, w': World)
    requires OneOfAnId(w) && w'.log == w.log && w'.queues == w.queues
    ensures OneOfAnId(w')
  {
  }

  lemma FewerHoldings(w: World, w': World)
    requires OneOfAnId(w) && w'.log == w.log
    requires forall k, m | Holds(Get(w'.queues, k), m) :: Holds(Get(w.queues, k), m)
    ensures OneOfAnId(w')
  {
  }

  lemma SubmitKeepsIds(w: World, m: Member, now: int)
    requires OneOfAnId(w) && FreshId(w, m.id)
    ensures OneOfAnId(Apply(w, Submit(m, now)))
  {
    var w' := Apply(w, Submit(m, now));
    forall k, x ensures Holds(Get(w'.queues, k), x) <==> Holds(Get(w.queues, k), x) || (k == m.priority && x == m) {
      EnterHolds(w, m.priority, m, Score(m, now), k, x);
    }
  }

  lemma RemoveKeepsIds(w: World, c: nat)
    requires Ordered(w) && Sound(w) && OneOfAnId(w)
    ensures OneOfAnId(Apply(w, Remove(c)))
  {
    if c in w.calls && w.calls[c].stage.Removing? && w.calls[c].stage.pending != [] {
      var k, m := w.calls[c].stage.queue, w.calls[c].stage.pending[0];
      assert CallHas(w, c, k, m);
      RemoveEffect(w, c);
      HandedKeepsIds(w, Apply(w, Remove(c)), Handout(c, k, m));
    }
  }

  lemma HandedKeepsIds(w: World, w': World, h: Handout)
    requires OneOfAnId(w) && Holds(Get(w.queues, h.queue), h.member) && w'.log == w.log + [h]
    requires forall k, m ::
      Holds(Get(w'.queues, k), m) <==> Holds(Get(w.queues, k), m) && !(k == h.queue && m == h.member)
    ensures OneOfAnId(w')
  {
    forall i, j | 0 <= i < j < |w'.log| ensures w'.log[i].member.id != w'.log[j].member.id {
      assert w'.log[i] == w.log[i];
    }
    forall i, k, m | 0 <= i < |w'.log| && Holds(Get(w'.queues, k), m) ensures m.id != w'.log[i].member.id {
      if i < |w.log| {
        assert w'.log[i] == w.log[i];
      }
    }
  }

  lemma RescoreKeepsIdsIff(w: World, p: nat, now: int)
    requires Sound(w) && OneOfAnId(w)
    ensures OneOfAnId(Apply(w, Rescore(p, now))) <==> !Changes(w, Rescore(p, now))
  {
    if p in w.passes && w.passes[p].Scoring? && w.passes[p].pending != [] {
      var w' := Apply(w, Rescore(p, now));
      var k, m := w.passes[p].queue, w.passes[p].pending[0];
      var copy := Aged(m, k, now);
      assert PassHas(w, p, k, m);
      forall j, x ensures Holds(Get(w'.queues, j), x) <==> Holds(Get(w.queues, j), x) || (j == k && x == copy) {
        EnterHolds(w, k, copy, Score(copy, now), j, x);
      }
      assert copy.id == m.id && Holds(Get(w'.queues, k), m) && Holds(Get(w'.queues, k), copy);
      if copy == m {
        FewerHoldings(w, w');
      }
    }
  }

  /** Event by event, in sound states and with a new id for each submission: ids stay single
      exactly if the event is not an aging that changes the text. */
  lemma IdsStepIff(w: World, e: Event)
    requires Ordered(w) && Sound(w) && OneOfAnId(w) && (e.Submit? ==> FreshId(w, e.member.id))
    ensures OneOfAnId(Apply(w, e)) <==> !Changes(w, e)
  {
    match e
    case Submit(m, now) => SubmitKeepsIds(w, m, now);
    case Remove(c) => RemoveKeepsIds(w, c);
    case Rescore(p, now) => RescoreKeepsIdsIff(w, p, now);
    case Cancel(k, m) =>
      forall j, x ensures Holds(Get(Apply(w, e).queues, j), x) ==> Holds(Get(w.queues, j), x) {
        LeaveHolds(w, k, m, j, x);
      }
      FewerHoldings(w, Apply(w, e));
    case _ => SameHoldings(w, Apply(w, e));
  }

  ghost predicate AllFresh(w: World, es: seq<Event>)
    decreases es
  {
    es == [] || ((es[0].Submit? ==> FreshId(w, es[0].member.id)) && AllFresh(Apply(w, es[0]), es[1..]))
  }

  ghost predicate NeverChanges(w: World, es: seq<Event>)
    decreases es
  {
    es == [] || (!Changes(w, es[0]) && NeverChanges(Apply(w, es[0]), es[1..]))
  }

  ghost predicate AlwaysOneOfAnId(w: World, es: seq<Event>)
    decreases es
  {
    OneOfAnId(w) && (es == [] || AlwaysOneOfAnId(Apply(w, es[0]), es[1..]))
  }

  /** Main theorem on ids, run by run: without overlaps and with a new id for each submission,
      every id stands at all times for at most one text, queued or handed out, exactly if no
      aging pass ever changes a text. */
  lemma {:induction false} IdsStaySingleIff(w: World, es: seq<Event>)
    requires Ordered(w) && Sound(w) && OneOfAnId(w) && AllSeparate(w, es) && AllFresh(w, es)
    ensures AlwaysOneOfAnId(w, es) <==> NeverChanges(w, es)
    decreases es
  {
    if es != [] {
      IdsStepIff(w, es[0]);
      OrderedStep(w, es[0]);
      SoundStepIff(w, es[0]);
      if OneOfAnId(Apply(w, es[0])) {
        IdsStaySingleIff(Apply(w, es[0]), es[1..]);
      }
    }
  }

  lemma {:induction false} AlwaysAtTheEnd(w: World, es: seq<Event>)
    requires AlwaysOneOfAnId(w, es)
    ensures OneOfAnId(Run(w, es))
    decreases es
  {
    if es != [] {
      AlwaysAtTheEnd(Apply(w, es[0]), es[1..]);
    }
  }

  /** In such a run no task is handed out twice, by whatever calls. */
  lemma NoTaskTwice(es: seq<Event>, i: nat, j: nat)
    requires AllSeparate(Start, es) && AllFresh(Start, es) && NeverChanges(Start, es)
    requires i < j < |Run(Start, es).log|
    ensures Run(Start, es).log[i].member.id != Run(Start, es).log[j].member.id
  {
    StartIsWell();
    IdsStaySingleIff(Start, es);
    AlwaysAtTheEnd(Start, es);
  }

  lemma {:induction false} HandedSomewhere(log: seq<Handout>, k: Class, m: Member) returns (i: nat)
    requires Handed(log, k, m) > 0
    ensures i < |log| && log[i].queue == k && log[i].member == m
    decreases |log|
  {
    var last := |log| - 1;
    if log[last].queue == k && log[last].member == m {
      i := last;
    } else {
      i := HandedSomewhere(log[..last], k, m);
    }
  }

  /** And where aging did change a text, both come out: once neither is queued any more and
      none was cancelled, the task has been handed out twice. */
  lemma BothTextsComeOut(es: seq<Event>, k: Class, m: Member, copy: Member) returns (i: nat, j: nat)
    requires AllSeparate(Start, es) && m != copy && m.id == copy.id
    requires var w := Run(Start, es);
      && w.added[(k, m)] > 0 && w.added[(k, copy)] > 0 && w.cancelled[(k, m)] == 0 && w.cancelled[(k, copy)] == 0
      && !Holds(Get(w.queues, k), m) && !Holds(Get(w.queues, k), copy)
    ensures var log := Run(Start, es).log;
      i < |log| && j < |log| && i != j && log[i].member.id == log[j].member.id == m.id
  {
    var w := Run(Start, es);
    SeparateRunsHandOutOnce(es, k, m);
    SeparateRunsHandOutOnce(es, k, copy);
    i := HandedSomewhere(w.log, k, m);
    j := HandedSomewhere(w.log, k, copy);
  }
}
