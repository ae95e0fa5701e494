/** The task lifecycle saga (backend/src/sagas/task-lifecycle-saga.ts): five steps with
    compensations, any number of sagas interleaved over shared nodes and tasks.

    Each database or HTTP call of a step is one atomic event, and each may throw. A step
    that throws half-way keeps the writes it made, as the code has no transaction around
    them except in the reservation. The engine runs the steps forward and, on a throw, the
    compensations of the completed steps in reverse. */
module TaskSaga {

  import opened Basics

  type NodeId = string
  type TaskId = string

  datatype Node = Node(online: bool, maintenance: bool, running: int, max: int, latency: int)

  datatype TaskStatus = PENDING | SCHEDULED | RUNNING | COMPLETED | OTHER

  datatype ExecStatus = ExecScheduled | ExecRunning | ExecCompleted | ExecCancelled

  datatype Task = Task(status: TaskStatus, node: Option<NodeId>, execs: seq<ExecStatus>)

  /** The awaits of the five `execute` functions, in order. */
  datatype Point =
    | Validate
    | FindNode | Reserve
    | UpdateTask | CreateExec
    | MarkRunning | MarkExecs | RunTask
    | MarkCompleted | CompleteExecs | Publish

  /** The awaits of the `compensate` functions, in reverse step order. */
  datatype Undo = CancelOnAgent | CancelExecs | ResetTask | CancelScheduled | ReadNode | Decrement

  datatype Phase = Forward(point: Point) | Backward(undo: Undo) | Succeeded | Compensated

  datatype Saga = Saga(
    task: TaskId,
    phase: Phase,
    node: Option<NodeId>,       // the node found, then reserved
    failedAt: Option<Point>,
    before: Option<Task>)       // the task's row when the saga started

  datatype World = World(nodes: map<NodeId, Node>, tasks: map<TaskId, Task>, sagas: map<nat, Saga>)

  datatype Event =
    | Start(saga: nat, task: TaskId)
    | Await(saga: nat, ok: bool, pick: NodeId)    // `pick` breaks ties of the node query
    | Health(node: NodeId, online: bool, maintenance: bool, latency: int)

  // ---------- Selecting and reserving a node ----------

  predicate Suitable(n: Node) { n.online && !n.maintenance && n.running < 10 }

  /** First of the ascending order by tasksRunning, then latency. */
  predicate Best(nodes: map<NodeId, Node>, pick: NodeId) {
    && pick in nodes && Suitable(nodes[pick])
    && forall m | m in nodes && Suitable(nodes[m]) ::
         nodes[pick].running < nodes[m].running
         || (nodes[pick].running == nodes[m].running && nodes[pick].latency <= nodes[m].latency)
  }

  predicate AnySuitable(nodes: map<NodeId, Node>) { exists m | m in nodes :: Suitable(nodes[m]) }

  // ---------- One event ----------

  function Apply(w: World, e: Event): World {
    match e
    case Start(id, t) =>
      if id in w.sagas then w
      else
        var row := if t in w.tasks then Some(w.tasks[t]) else None;
        w.(sagas := w.sagas[id := Saga(t, Forward(Validate), None, None, row)])
    case Await(id, ok, pick) => if id in w.sagas then Proceed(w, id, ok, pick) else w
    case Health(n, online, maintenance, latency) =>
      if n !in w.nodes then w
      else w.(nodes := w.nodes[n := w.nodes[n].(online := online, maintenance := maintenance, latency := latency)])
  }

  function Proceed(w: World, id: nat, ok: bool, pick: NodeId): World
    requires id in w.sagas
  {
    var s := w.sagas[id];
    match s.phase
    case Forward(p) =>
      if p.FindNode? && ok && AnySuitable(w.nodes) then
        if Best(w.nodes, pick)
        then w.(sagas := w.sagas[id := s.(phase := Forward(Reserve), node := Some(pick))])
        else w                                       // not what the query returns
      else if !ok || Throws(w, s) then w.(sagas := w.sagas[id := Fail(s)])
      else
        var w' := w.(sagas := w.sagas[id := s.(phase := After(p))]);
        if p.Reserve?
        then w'.(nodes := w.nodes[s.node.value := Bumped(w.nodes[s.node.value], 1)])
        else w'.(tasks := w.tasks[s.task := Written(w.tasks[s.task], s.node, p)])
    case Backward(u) =>
      var w' := w.(sagas := w.sagas[id := s.(phase := AfterUndo(w, s, u))]);
      if u.Decrement? && s.node.Some? && s.node.value in w.nodes
      then w'.(nodes := w.nodes[s.node.value := Bumped(w.nodes[s.node.value], -1)])
      else if s.task in w.tasks then w'.(tasks := w.tasks[s.task := Undone(w.tasks[s.task], u)])
      else w'
    case Succeeded => w
    case Compensated => w
  }

  function Bumped(n: Node, d: int): Node { n.(running := n.running + d) }

  /** A missing row makes an update throw; the reservation rolls back above capacity. */
  predicate Throws(w: World, s: Saga)
    requires s.phase.Forward?
  {
    match s.phase.point
    case Validate => s.task !in w.tasks || w.tasks[s.task].status != PENDING
    case FindNode => !AnySuitable(w.nodes)
    case Reserve =>
      s.node.None? || s.node.value !in w.nodes || w.nodes[s.node.value].running + 1 > w.nodes[s.node.value].max
    case _ => s.task !in w.tasks
  }

  function After(p: Point): Phase {
    match p
    case Validate => Forward(FindNode)
    case FindNode => Forward(Reserve)
    case Reserve => Forward(UpdateTask)
    case UpdateTask => Forward(CreateExec)
    case CreateExec => Forward(MarkRunning)
    case MarkRunning => Forward(MarkExecs)
    case MarkExecs => Forward(RunTask)
    case RunTask => Forward(MarkCompleted)
    case MarkCompleted => Forward(CompleteExecs)
    case CompleteExecs => Forward(Publish)
    case Publish => Succeeded
  }

  /** The write of a forward await to its task's row and executions. */
  function Written(t: Task, node: Option<NodeId>, p: Point): Task {
    match p
    case UpdateTask => t.(node := node, status := SCHEDULED)
    case CreateExec => t.(execs := t.execs + [ExecScheduled])
    case MarkRunning => t.(status := RUNNING)
    case MarkExecs => t.(execs := UpdateMany(t.execs, ExecScheduled, ExecRunning))
    case MarkCompleted => t.(status := COMPLETED)
    case CompleteExecs => t.(execs := seq(|t.execs|, i => ExecCompleted))
    case _ => t
  }

  /** Which compensation comes first: completed steps only, last one first. */
  function Fail(s: Saga): Saga
    requires s.phase.Forward?
  {
    s.(failedAt := Some(s.phase.point), phase := FirstUndo(s.phase.point))
  }

  function FirstUndo(p: Point): Phase {
    match p
    case Validate => Compensated
    case FindNode => Compensated
    case Reserve => Compensated
    case UpdateTask => Backward(ReadNode)
    case CreateExec => Backward(ReadNode)
    case MarkRunning => Backward(ResetTask)
    case MarkExecs => Backward(ResetTask)
    case RunTask => Backward(ResetTask)
    case MarkCompleted => Backward(CancelOnAgent)
    case CompleteExecs => Backward(CancelOnAgent)
    case Publish => Backward(CancelOnAgent)
  }

  function AfterUndo(w: World, s: Saga, u: Undo): Phase {
    match u
    case CancelOnAgent => Backward(CancelExecs)
    case CancelExecs => Backward(ResetTask)
    case ResetTask => Backward(CancelScheduled)
    case CancelScheduled => Backward(ReadNode)
    case ReadNode =>
      if s.node.Some? && s.node.value in w.nodes && w.nodes[s.node.value].running > 0
      then Backward(Decrement) else Compensated
    case Decrement => Compensated
  }

  function Undone(t: Task, u: Undo): Task {
    match u
    case CancelExecs => t.(execs := UpdateMany(t.execs, ExecRunning, ExecCancelled))
    case ResetTask => t.(node := None, status := PENDING)
    case CancelScheduled => t.(execs := UpdateMany(t.execs, ExecScheduled, ExecCancelled))
    case _ => t
  }

  function UpdateMany(execs: seq<ExecStatus>, from: ExecStatus, to: ExecStatus): seq<ExecStatus> {
    seq(|execs|, i requires 0 <= i < |execs| => if execs[i] == from then to else execs[i])
  }

  function Run(w: World, es: seq<Event>): World
    decreases es
  {
    if es == [] then w else Run(Apply(w, es[0]), es[1..])
  }

  // ---------- Node counters ----------

  ghost predicate Holds(s: Saga, n: NodeId) {
    && s.node == Some(n)
    && match s.phase
       case Forward(p) => !p.Validate? && !p.FindNode? && !p.Reserve?
       case Backward(_) => true
       case Succeeded => true
       case Compensated => false
  }

  ghost function Holders(w: World, n: NodeId): set<nat> {
    set id | id in w.sagas && Holds(w.sagas[id], n)
  }

  /** `base` is every node's counter without any of these sagas. */
  ghost predicate Counted(w: World, base: map<NodeId, nat>) {
    && w.nodes.Keys == base.Keys
    && (forall n | n in base :: w.nodes[n].running == base[n] + |Holders(w, n)|)
    && (forall n | n in base && base[n] <= w.nodes[n].max :: w.nodes[n].running <= w.nodes[n].max)
    && (forall id | id in w.sagas :: Placed(w.sagas[id], base))
  }

  /** From the reservation on, the saga's node is one of the nodes. */
  ghost predicate Placed(s: Saga, base: map<NodeId, nat>) {
    (s.phase.Backward? || (s.phase.Forward? && !s.phase.point.Validate? && !s.phase.point.FindNode?)) ==>
      s.node.Some? && s.node.value in base
  }

  lemma SetChange(a: set<nat>, b: set<nat>, id: nat)
    requires a - {id} == b - {id}
    ensures |a| + (if id in b then 1 else 0) == |b| + (if id in a then 1 else 0)
  {
    assert a == (a - {id}) + if id in a then {id} else {};
    assert b == (b - {id}) + if id in b then {id} else {};
  }

  lemma HoldersChange(w: World, w': World, id: nat, n: NodeId)
    requires id in w.sagas && id in w'.sagas && w'.sagas == w.sagas[id := w'.sagas[id]]
    ensures |Holders(w', n)| + (if Holds(w.sagas[id], n) then 1 else 0)
         == |Holders(w, n)| + (if Holds(w'.sagas[id], n) then 1 else 0)
  {
    var a, b := Holders(w', n), Holders(w, n);
    forall x | x != id ensures x in a <==> x in b {
    }
    SetChange(a, b, id);
  }

  /** Event `e` moved one saga, and the counter of `n` along with its reservation. */
  ghost predicate MovesTogether(w: World, w': World, id: nat, base: map<NodeId, nat>, n: NodeId)
    requires id in w.sagas && n in w.nodes
  {
    && id in w'.sagas && w'.sagas == w.sagas[id := w'.sagas[id]]
    && w'.nodes.Keys == w.nodes.Keys && Placed(w'.sagas[id], base)
    && w'.nodes[n].max == w.nodes[n].max
    && w'.nodes[n].running - w.nodes[n].running ==
         (if Holds(w'.sagas[id], n) then 1 else 0) - (if Holds(w.sagas[id], n) then 1 else 0)
    && (w'.nodes[n].running <= w.nodes[n].running || w'.nodes[n].running <= w.nodes[n].max)
  }

  lemma ForwardMovesTogether(w: World, e: Event, base: map<NodeId, nat>, n: NodeId)
    requires w.nodes.Keys == base.Keys && e.Await? && e.saga in w.sagas && n in base
    requires Placed(w.sagas[e.saga], base) && w.sagas[e.saga].phase.Forward?
    ensures MovesTogether(w, Apply(w, e), e.saga, base, n)
  {
    var s := w.sagas[e.saga];
    var p := s.phase.point;
    assert FirstUndo(p).Compensated? || FirstUndo(p).Backward?;
    assert After(p) == Succeeded || After(p).Forward?;
  }

  lemma BackwardMovesTogether(w: World, e: Event, base: map<NodeId, nat>, n: NodeId)
    requires w.nodes.Keys == base.Keys && e.Await? && e.saga in w.sagas && n in base
    requires Placed(w.sagas[e.saga], base) && !w.sagas[e.saga].phase.Forward?
    requires forall m | m in base && Holds(w.sagas[e.saga], m) :: w.nodes[m].running > 0
    ensures MovesTogether(w, Apply(w, e), e.saga, base, n)
  {
    var s := w.sagas[e.saga];
    if s.phase.Backward? {
      assert Holds(s, s.node.value);
    }
  }

  lemma CounterMatchesHold(w: World, e: Event, base: map<NodeId, nat>, n: NodeId)
    requires Counted(w, base) && e.Await? && e.saga in w.sagas && n in base
    ensures MovesTogether(w, Apply(w, e), e.saga, base, n)
  {
    if w.sagas[e.saga].phase.Forward? {
      ForwardMovesTogether(w, e, base, n);
    } else {
      forall m | m in base && Holds(w.sagas[e.saga], m) ensures w.nodes[m].running > 0 {
        assert e.saga in Holders(w, m);
        assert |Holders(w, m)| > 0;
      }
      BackwardMovesTogether(w, e, base, n);
    }
  }

  lemma CountedNode(w: World, w': World, id: nat, base: map<NodeId, nat>, n: NodeId)
    requires Counted(w, base) && id in w.sagas && n in base && MovesTogether(w, w', id, base, n)
    ensures w'.nodes[n].running == base[n] + |Holders(w', n)|
    ensures base[n] <= w'.nodes[n].max ==> w'.nodes[n].running <= w'.nodes[n].max
  {
    HoldersChange(w, w', id, n);
  }

  lemma CountedAwait(w: World, e: Event, base: map<NodeId, nat>)
    requires Counted(w, base) && e.Await? && e.saga in w.sagas
    ensures Counted(Apply(w, e), base)
  {
    var w' := Apply(w, e);
    if base == map[] {
      NoNodes(w, e, base);
    } else {
      var n :| n in base;
      CounterMatchesHold(w, e, base, n);
    }
    forall n | n in base
      ensures w'.nodes[n].running == base[n] + |Holders(w', n)|
      ensures base[n] <= w'.nodes[n].max ==> w'.nodes[n].running <= w'.nodes[n].max
    {
      CounterMatchesHold(w, e, base, n);
      CountedNode(w, w', e.saga, base, n);
    }
  }

  lemma CountedStep(w: World, e: Event, base: map<NodeId, nat>)
    requires Counted(w, base)
    ensures Counted(Apply(w, e), base)
  {
    if e.Await? && e.saga in w.sagas {
      CountedAwait(w, e, base);
    } else {
      var w' := Apply(w, e);
      forall n ensures Holders(w', n) == Holders(w, n) {
        forall x ensures x in Holders(w', n) <==> x in Holders(w, n) {
        }
      }
    }
  }

  lemma NoNodes(w: World, e: Event, base: map<NodeId, nat>)
    requires Counted(w, base) && base == map[] && e.Await? && e.saga in w.sagas
    ensures var w' := Apply(w, e);
      && w'.nodes.Keys == {} && w'.sagas == w.sagas[e.saga := w'.sagas[e.saga]] && Placed(w'.sagas[e.saga], base)
  {
    assert !AnySuitable(w.nodes);
  }

  /** Main theorem. However many sagas run and whichever of their awaits fail, at any
      time each node's tasksRunning is its own starting value plus one per saga holding a
      reservation there, so it never drops below that value and never exceeds maxTasks. */
  lemma {:induction false} CountersFollowReservations(w: World, es: seq<Event>, base: map<NodeId, nat>)
    requires Counted(w, base)
    ensures var w' := Run(w, es);
      && Counted(w', base)
      && forall n | n in base ::
           && base[n] <= w'.nodes[n].running == base[n] + |Holders(w', n)|
           && (base[n] <= w'.nodes[n].max ==> w'.nodes[n].running <= w'.nodes[n].max)
    decreases es
  {
    if es != [] {
      CountedStep(w, es[0], base);
      CountersFollowReservations(Apply(w, es[0]), es[1..], base);
    }
  }

  // ---------- What happens to the task ----------

  /** The row after all forward writes that precede `p`. */
  function Progress(t: Task, node: Option<NodeId>, p: Point): Task {
    var scheduled := t.execs + [ExecScheduled];
    match p
    case CreateExec => Task(SCHEDULED, node, t.execs)
    case MarkRunning => Task(SCHEDULED, node, scheduled)
    case MarkExecs => Task(RUNNING, node, scheduled)
    case RunTask => Task(RUNNING, node, UpdateMany(scheduled, ExecScheduled, ExecRunning))
    case MarkCompleted => Task(RUNNING, node, UpdateMany(scheduled, ExecScheduled, ExecRunning))
    case CompleteExecs => Task(COMPLETED, node, UpdateMany(scheduled, ExecScheduled, ExecRunning))
    case Publish => Task(COMPLETED, node, seq(|scheduled|, i => ExecCompleted))
    case _ => t
  }

  /** What a fully compensated saga that failed at `f` leaves of the row `t`. */
  function Leftover(t: Task, node: Option<NodeId>, f: Point): Task {
    var scheduled := t.execs + [ExecScheduled];
    var running := UpdateMany(scheduled, ExecScheduled, ExecRunning);
    match f
    case CreateExec => Task(SCHEDULED, node, t.execs)
    case MarkRunning => Task(PENDING, None, UpdateMany(scheduled, ExecScheduled, ExecCancelled))
    case MarkExecs => Task(PENDING, None, UpdateMany(scheduled, ExecScheduled, ExecCancelled))
    case RunTask => Task(PENDING, None, running)
    case MarkCompleted => Task(PENDING, None, UpdateMany(running, ExecRunning, ExecCancelled))
    case CompleteExecs => Task(PENDING, None, UpdateMany(running, ExecRunning, ExecCancelled))
    case Publish => Task(PENDING, None, seq(|scheduled|, i => ExecCompleted))
    case _ => t
  }

  /** The row just before compensation `u` of a failure at `f`. */
  function Regress(t: Task, node: Option<NodeId>, f: Point, u: Undo): Task {
    var failed := Progress(t, node, f);
    var cancelled := if FirstUndo(f) == Backward(CancelOnAgent) then Undone(failed, CancelExecs) else failed;
    match u
    case CancelOnAgent => failed
    case CancelExecs => failed
    case ResetTask => cancelled
    case CancelScheduled => Undone(cancelled, ResetTask)
    case ReadNode => Leftover(t, node, f)
    case Decrement => Leftover(t, node, f)
  }

  /** The row a saga in this phase has made of `s.before`. */
  function Expected(s: Saga): Option<Task> {
    match s.before
    case None => None
    case Some(t) =>
      match s.phase
      case Forward(p) => Some(Progress(t, s.node, p))
      case Succeeded => Some(Progress(t, s.node, Publish))
      case Backward(u) => if s.failedAt.None? then None else Some(Regress(t, s.node, s.failedAt.value, u))
      case Compensated => if s.failedAt.None? then None else Some(Leftover(t, s.node, s.failedAt.value))
  }

  function Row(w: World, t: TaskId): Option<Task> { if t in w.tasks then Some(w.tasks[t]) else None }

  /** A backward phase is one its failure leads to, and past validation the row was there
      and PENDING. */
  ghost predicate Plausible(s: Saga) {
    match s.phase
    case Forward(p) => !p.Validate? ==> WasPending(s)
    case Succeeded => WasPending(s)
    case Compensated => s.failedAt.Some? && (!s.failedAt.value.Validate? ==> WasPending(s))
    case Backward(u) =>
      && WasPending(s)
      && s.failedAt.Some? && FirstUndo(s.failedAt.value) != Compensated
      && match u
         case CancelOnAgent => FirstUndo(s.failedAt.value) == Backward(CancelOnAgent)
         case CancelExecs => FirstUndo(s.failedAt.value) == Backward(CancelOnAgent)
         case ResetTask => FirstUndo(s.failedAt.value) != Backward(ReadNode)
         case CancelScheduled => FirstUndo(s.failedAt.value) != Backward(ReadNode)
         case ReadNode => true
         case Decrement => true
  }

  ghost predicate WasPending(s: Saga) { s.before.Some? && s.before.value.status == PENDING }

  predicate Unfinished(w: World, id: nat) {
    id in w.sagas && !w.sagas[id].phase.Succeeded? && !w.sagas[id].phase.Compensated?
  }

  ghost predicate RowAsExpected(w: World, id: nat)
    requires id in w.sagas
  {
    Plausible(w.sagas[id]) && Row(w, w.sagas[id].task) == Expected(w.sagas[id])
  }

  /** Each unfinished saga's row is what the saga itself has made of it. */
  ghost predicate Tracked(w: World) {
    forall id | Unfinished(w, id) :: RowAsExpected(w, id)
  }

  ghost predicate DistinctTasks(w: World) {
    forall i, j | Unfinished(w, i) && Unfinished(w, j) && i != j :: w.sagas[i].task != w.sagas[j].task
  }

  /** No task is given to a saga while another one is at work on it; later sagas may well
      retry what an earlier one gave up. */
  ghost predicate OneSagaPerTask(w: World, es: seq<Event>)
    decreases es
  {
    DistinctTasks(w) && (es == [] || OneSagaPerTask(Apply(w, es[0]), es[1..]))
  }

  /** One event keeps the unfinished sagas tracked, and the one that it finishes as well. */
  lemma TrackedStep(w: World, e: Event)
    requires Tracked(w) && DistinctTasks(w) && DistinctTasks(Apply(w, e))
    ensures Tracked(Apply(w, e))
    ensures e.Await? && Unfinished(w, e.saga) ==> RowAsExpected(Apply(w, e), e.saga)
  {
    var w' := Apply(w, e);
    if e.Await? && Unfinished(w, e.saga) {
      OwnAwait(w, e);
    }
    forall id | Unfinished(w', id) ensures RowAsExpected(w', id) {
      if !(e.Await? && id == e.saga) && id in w.sagas {
        OtherSagaStays(w, e, id);
      }
    }
  }

  lemma OtherSagaStays(w: World, e: Event, id: nat)
    requires DistinctTasks(w) && Unfinished(w, id) && RowAsExpected(w, id) && !(e.Await? && e.saga == id)
    ensures Unfinished(Apply(w, e), id) && RowAsExpected(Apply(w, e), id)
  {
    if e.Await? && e.saga in w.sagas {
      if Unfinished(w, e.saga) {
        AwaitTouchesOwn(w, e);
        assert w.sagas[e.saga].task != w.sagas[id].task;
      }
    }
  }

  /** An await moves its own saga and writes to its own task's row. */
  lemma AwaitTouchesOwn(w: World, e: Event)
    requires e.Await? && e.saga in w.sagas
    ensures var w' := Apply(w, e);
      && w'.sagas.Keys == w.sagas.Keys && w'.sagas[e.saga].task == w.sagas[e.saga].task
      && (forall id | id in w.sagas && id != e.saga :: w'.sagas[id] == w.sagas[id])
      && (forall t | t != w.sagas[e.saga].task :: Row(w', t) == Row(w, t))
      && (!Unfinished(w, e.saga) ==> w' == w)
  {
  }

  lemma AwaitKeepsDistinct(w: World, e: Event)
    requires DistinctTasks(w) && e.Await?
    ensures DistinctTasks(Apply(w, e))
  {
    if e.saga in w.sagas {
      AwaitTouchesOwn(w, e);
      forall i | Unfinished(Apply(w, e), i) ensures Unfinished(w, i) {
      }
    }
  }

  lemma OwnAwait(w: World, e: Event)
    requires e.Await? && e.saga in w.sagas && RowAsExpected(w, e.saga)
    ensures e.saga in Apply(w, e).sagas && RowAsExpected(Apply(w, e), e.saga)
  {
    var s := w.sagas[e.saga];
    match s.phase
    case Forward(p) => ForwardAwait(w, e);
    case Backward(u) => BackwardAwait(w, e);
    case Succeeded =>
    case Compensated =>
  }

  lemma ForwardAwait(w: World, e: Event)
    requires e.Await? && e.saga in w.sagas && RowAsExpected(w, e.saga) && w.sagas[e.saga].phase.Forward?
    ensures e.saga in Apply(w, e).sagas && RowAsExpected(Apply(w, e), e.saga)
  {
    var s := w.sagas[e.saga];
    var p := s.phase.point;
    if s.before.Some? {
      var t := s.before.value;
      assert p != Publish ==> After(p).Forward?;
    }
  }

  lemma BackwardAwait(w: World, e: Event)
    requires e.Await? && e.saga in w.sagas && RowAsExpected(w, e.saga) && w.sagas[e.saga].phase.Backward?
    ensures e.saga in Apply(w, e).sagas && RowAsExpected(Apply(w, e), e.saga)
  {
    var s := w.sagas[e.saga];
    if s.phase.undo.CancelScheduled? {
      LastWrite(s.before.value, s.node, s.failedAt.value);
    }
  }

  /** The compensations composed leave what `Leftover` says. */
  lemma LastWrite(t: Task, node: Option<NodeId>, f: Point)
    requires FirstUndo(f) != Compensated && FirstUndo(f) != Backward(ReadNode)
    ensures Undone(Regress(t, node, f, CancelScheduled), CancelScheduled) == Leftover(t, node, f)
  {
    var scheduled := t.execs + [ExecScheduled];
    var running := UpdateMany(scheduled, ExecScheduled, ExecRunning);
    assert UpdateMany(running, ExecScheduled, ExecCancelled) == running;
    var cancelled := UpdateMany(running, ExecRunning, ExecCancelled);
    assert UpdateMany(cancelled, ExecScheduled, ExecCancelled) == cancelled;
    var done := seq(|scheduled|, i => ExecCompleted);
    assert UpdateMany(done, ExecRunning, ExecCancelled) == done;
    assert UpdateMany(done, ExecScheduled, ExecCancelled) == done;
  }

  /** Before any saga the counters themselves are the starting values, and both invariants
      hold whatever is in the database. */
  lemma BeforeAnySaga(nodes: map<NodeId, Node>, tasks: map<TaskId, Task>, base: map<NodeId, nat>)
    requires nodes.Keys == base.Keys && forall n | n in base :: nodes[n].running == base[n]
    ensures Counted(World(nodes, tasks, map[]), base)
    ensures Tracked(World(nodes, tasks, map[])) && DistinctTasks(World(nodes, tasks, map[]))
  {
    assert forall n :: Holders(World(nodes, tasks, map[]), n) == {};
  }

  lemma {:induction false} TrackedRun(w: World, es: seq<Event>)
    requires Tracked(w) && OneSagaPerTask(w, es)
    ensures Tracked(Run(w, es)) && DistinctTasks(Run(w, es))
    decreases es
  {
    if es != [] {
      assert OneSagaPerTask(Apply(w, es[0]), es[1..]);
      TrackedStep(w, es[0]);
      TrackedRun(Apply(w, es[0]), es[1..]);
    }
  }

  /** Event `e` ends the last compensation of saga `id`, or fails it with nothing to undo. */
  ghost predicate Compensates(w: World, e: Event, id: nat) {
    && e.Await? && e.saga == id && Unfinished(w, id)
    && id in Apply(w, e).sagas && Apply(w, e).sagas[id].phase.Compensated?
  }

  /** Main theorem: in every run, whatever the others do, a saga leaves its task, when its
      compensation ends, exactly as the failing point alone determines, and holds no
      reservation. */
  lemma CompensationLeaves(w: World, es: seq<Event>, e: Event, id: nat)
    requires Tracked(w) && OneSagaPerTask(w, es)
    requires Compensates(Run(w, es), e, id)
    ensures var w' := Apply(Run(w, es), e);
      var s := w'.sagas[id];
      && s.failedAt.Some? && (!s.failedAt.value.Validate? ==> WasPending(s))
      && Row(w', s.task) == (if s.before.None? then None else Some(Leftover(s.before.value, s.node, s.failedAt.value)))
      && forall n :: !Holds(s, n)
  {
    TrackedRun(w, es);
    AwaitKeepsDistinct(Run(w, es), e);
    TrackedStep(Run(w, es), e);
  }

  /** At that moment, against the row before the saga. The status has come back exactly
      unless creating the execution record is what failed: the task is then stuck as
      SCHEDULED. The node assignment has come back with the same exception if the row had
      none. */
  lemma RestoredIff(w: World, es: seq<Event>, e: Event, id: nat)
    requires Tracked(w) && OneSagaPerTask(w, es)
    requires Compensates(Run(w, es), e, id) && Apply(Run(w, es), e).sagas[id].before.Some?
    ensures var w' := Apply(Run(w, es), e);
      var s := w'.sagas[id];
      && s.task in w'.tasks && s.failedAt.Some?
      && (w'.tasks[s.task].status == s.before.value.status <==> !s.failedAt.value.CreateExec?)
      && (w'.tasks[s.task].node == s.before.value.node <==>
            if s.failedAt.value.CreateExec? then s.before.value.node == s.node
            else FirstUndo(s.failedAt.value).Compensated? || s.failedAt.value.UpdateTask? || s.before.value.node.None?)
  {
    CompensationLeaves(w, es, e, id);
  }

  predicate EarlyFailure(f: Point) { FirstUndo(f).Compensated? || f.UpdateTask? || f.CreateExec? }

  /** What becomes of an execution the task had before the saga failed at `f`. */
  predicate Survives(x: ExecStatus, f: Point) {
    if EarlyFailure(f) then true
    else match f
         case MarkCompleted => x != ExecScheduled && x != ExecRunning
         case CompleteExecs => x != ExecScheduled && x != ExecRunning
         case Publish => x == ExecCompleted
         case _ => x != ExecScheduled
  }

  /** What becomes of the execution that the saga created. */
  function Created(f: Point): Option<ExecStatus> {
    if EarlyFailure(f) then None
    else if f.RunTask? then Some(ExecRunning)
    else if f.Publish? then Some(ExecCompleted)
    else Some(ExecCancelled)
  }

  lemma LeftoverExecs(t: Task, node: Option<NodeId>, f: Point)
    ensures var r := Leftover(t, node, f).execs;
      && |r| == |t.execs| + (if Created(f).Some? then 1 else 0)
      && (Created(f).Some? ==> r[|t.execs|] == Created(f).value)
      && (forall i | 0 <= i < |t.execs| :: r[i] == t.execs[i] <==> Survives(t.execs[i], f))
      && (forall i | 0 <= i < |t.execs| && !Survives(t.execs[i], f) :: r[i] == Created(f).value)
  {
  }

  /** At that moment the executions of the task, whatever they were before: each old one is
      as it was exactly if it survives the failing point, and otherwise shares the fate of
      the one the saga created. */
  lemma ExecutionsLeft(w: World, es: seq<Event>, e: Event, id: nat)
    requires Tracked(w) && OneSagaPerTask(w, es)
    requires Compensates(Run(w, es), e, id) && Apply(Run(w, es), e).sagas[id].before.Some?
    ensures var w' := Apply(Run(w, es), e);
      var s := w'.sagas[id];
      && s.task in w'.tasks && s.failedAt.Some?
      && var r, was, f := w'.tasks[s.task].execs, s.before.value.execs, s.failedAt.value;
         && |r| == |was| + (if Created(f).Some? then 1 else 0)
         && (Created(f).Some? ==> r[|was|] == Created(f).value)
         && (forall i | 0 <= i < |was| :: r[i] == was[i] <==> Survives(was[i], f))
         && (forall i | 0 <= i < |was| && !Survives(was[i], f) :: r[i] == Created(f).value)
  {
    CompensationLeaves(w, es, e, id);
    var s := Apply(Run(w, es), e).sagas[id];
    LeftoverExecs(s.before.value, s.node, s.failedAt.value);
  }

  /** So an execution is left RUNNING, for good, exactly if the run on the agent is what
      failed, or one was RUNNING before and the failure came before the completion step; and
      SCHEDULED only if one was before and the saga created none. */
  lemma OrphansLeftIff(w: World, es: seq<Event>, e: Event, id: nat)
    requires Tracked(w) && OneSagaPerTask(w, es)
    requires Compensates(Run(w, es), e, id) && Apply(Run(w, es), e).sagas[id].before.Some?
    ensures var w' := Apply(Run(w, es), e);
      var s := w'.sagas[id];
      && s.task in w'.tasks && s.failedAt.Some?
      && var r, was, f := w'.tasks[s.task].execs, s.before.value.execs, s.failedAt.value;
         && (ExecRunning in r <==>
               f.RunTask? || (ExecRunning in was && !f.MarkCompleted? && !f.CompleteExecs? && !f.Publish?))
         && (ExecScheduled in r <==> ExecScheduled in was && EarlyFailure(f))
  {
    ExecutionsLeft(w, es, e, id);
    var w' := Apply(Run(w, es), e);
    var s := w'.sagas[id];
    OrphansIn(w'.tasks[s.task].execs, s.before.value.execs, s.failedAt.value);
  }

  lemma OrphansIn(r: seq<ExecStatus>, was: seq<ExecStatus>, f: Point)
    requires |r| == |was| + (if Created(f).Some? then 1 else 0)
    requires Created(f).Some? ==> r[|was|] == Created(f).value
    requires forall i | 0 <= i < |was| :: r[i] == was[i] <==> Survives(was[i], f)
    requires forall i | 0 <= i < |was| && !Survives(was[i], f) :: r[i] == Created(f).value
    ensures ExecRunning in r <==>
      f.RunTask? || (ExecRunning in was && !f.MarkCompleted? && !f.CompleteExecs? && !f.Publish?)
    ensures ExecScheduled in r <==> ExecScheduled in was && EarlyFailure(f)
  {
    forall x | x in was && Survives(x, f) ensures x in r {
      var i :| 0 <= i < |was| && was[i] == x;
      assert r[i] == x;
    }
    forall x | x in r && Created(f) != Some(x) ensures x in was && Survives(x, f) {
      var i :| 0 <= i < |r| && r[i] == x;
      assert i < |was|;
    }
  }

  // ---------- The steps against the database ----------

  class TaskLifecycleSaga {
    var nodes: map<NodeId, Node>
    var tasks: map<TaskId, Task>

    constructor (nodes: map<NodeId, Node>, tasks: map<TaskId, Task>)
      ensures this.nodes == nodes && this.tasks == tasks
    {
      this.nodes, this.tasks := nodes, tasks;
    }

    /** Step 1, one await: of a run `w` of the machine on this database it is the next event
        of saga `saga`, which goes on to the node query exactly if it returns. */
    method ValidateTask(id: TaskId, fail: Option<Point>, ghost w: World, ghost saga: nat)
      returns (failed: Option<Point>)
      requires w.tasks == tasks && saga in w.sagas
      requires w.sagas[saga].task == id && w.sagas[saga].phase == Forward(Validate)
      ensures var w' := Apply(w, Await(saga, fail != Some(Validate), ""));
        && w'.tasks == tasks && w'.nodes == w.nodes
        && w'.sagas[saga].phase == (if failed.None? then Forward(FindNode) else Compensated)
        && w'.sagas[saga].failedAt == (if failed.None? then w.sagas[saga].failedAt else failed)
      ensures failed.None? ==> id in tasks && tasks[id].status == PENDING
    {
      if fail == Some(Validate) || id !in tasks || tasks[id].status != PENDING {
        return Some(Validate);
      }
      assert tasks == tasks[id := tasks[id]];
      return None;
    }

    /** Step 2: the query, then the transaction with its rollback. */
    method ReserveResources(pick: NodeId, fail: Option<Point>) returns (failed: Option<Point>)
      requires AnySuitable(nodes) ==> Best(nodes, pick)
      modifies this`nodes
      ensures failed.Some? ==> (failed == Some(FindNode) || failed == Some(Reserve)) && nodes == old(nodes)
      ensures failed.None? ==>
        && Best(old(nodes), pick) && old(nodes)[pick].running < old(nodes)[pick].max
        && nodes == old(nodes)[pick := Bumped(old(nodes)[pick], 1)]
      ensures failed.None? <==>
        && fail != Some(FindNode) && fail != Some(Reserve)
        && AnySuitable(old(nodes)) && old(nodes)[pick].running + 1 <= old(nodes)[pick].max
    {
      if fail == Some(FindNode) || pick !in nodes || !Suitable(nodes[pick]) {
        return Some(FindNode);
      }
      var before := nodes;
      var node := nodes[pick].(running := nodes[pick].running + 1);
      nodes := nodes[pick := node];
      if fail == Some(Reserve) || node.running > node.max {
        nodes := before;
        return Some(Reserve);
      }
      return None;
    }

    method ReleaseReservation(pick: NodeId)
      modifies this`nodes
      ensures nodes == if pick in old(nodes) && old(nodes)[pick].running > 0
                       then old(nodes)[pick := Bumped(old(nodes)[pick], -1)] else old(nodes)
    {
      if pick in nodes && nodes[pick].running > 0 {
        nodes := nodes[pick := nodes[pick].(running := nodes[pick].running - 1)];
      }
    }

    /** Step 3: two writes. */
    method ScheduleTask(id: TaskId, pick: NodeId, fail: Option<Point>) returns (failed: Option<Point>)
      requires id in tasks
      modifies this`tasks
      ensures failed == if fail == Some(UpdateTask) || fail == Some(CreateExec) then fail else None
      ensures tasks == old(tasks)[id := Progress(old(tasks)[id], Some(pick), failed.GetOr(MarkRunning))]
    {
      if fail == Some(UpdateTask) { assert tasks == tasks[id := tasks[id]]; return fail; }
      tasks := tasks[id := tasks[id].(node := Some(pick), status := SCHEDULED)];
      if fail == Some(CreateExec) { return fail; }
      tasks := tasks[id := tasks[id].(execs := tasks[id].execs + [ExecScheduled])];
      return None;
    }

    method UnscheduleTask(id: TaskId)
      requires id in tasks
      modifies this`tasks
      ensures tasks == old(tasks)[id := Undone(Undone(old(tasks)[id], ResetTask), CancelScheduled)]
    {
      tasks := tasks[id := tasks[id].(node := None, status := PENDING)];
      tasks := tasks[id := tasks[id].(execs := UpdateMany(tasks[id].execs, ExecScheduled, ExecCancelled))];
    }

    /** Step 4: two writes and the run on the agent. */
    method ExecuteTask(id: TaskId, ghost t: Task, ghost node: Option<NodeId>, fail: Option<Point>)
      returns (failed: Option<Point>)
      requires id in tasks && tasks[id] == Progress(t, node, MarkRunning)
      modifies this`tasks
      ensures failed ==
        if fail == Some(MarkRunning) || fail == Some(MarkExecs) || fail == Some(RunTask) then fail else None
      ensures tasks == old(tasks)[id := Progress(t, node, failed.GetOr(MarkCompleted))]
    {
      if fail == Some(MarkRunning) { assert tasks == tasks[id := tasks[id]]; return fail; }
      tasks := tasks[id := tasks[id].(status := RUNNING)];
      if fail == Some(MarkExecs) { return fail; }
      tasks := tasks[id := tasks[id].(execs := UpdateMany(tasks[id].execs, ExecScheduled, ExecRunning))];
      if fail == Some(RunTask) { return fail; }
      return None;
    }

    method CancelExecution(id: TaskId)
      requires id in tasks
      modifies this`tasks
      ensures tasks == old(tasks)[id := Undone(old(tasks)[id], CancelExecs)]
    {
      tasks := tasks[id := tasks[id].(execs := UpdateMany(tasks[id].execs, ExecRunning, ExecCancelled))];
    }

    /** Step 5: two writes and the event. */
    method CompleteTask(id: TaskId, ghost t: Task, ghost node: Option<NodeId>, fail: Option<Point>)
      returns (failed: Option<Point>)
      requires id in tasks && tasks[id] == Progress(t, node, MarkCompleted)
      modifies this`tasks
      ensures failed ==
        if fail == Some(MarkCompleted) || fail == Some(CompleteExecs) || fail == Some(Publish) then fail else None
      ensures tasks == old(tasks)[id := Progress(t, node, failed.GetOr(Publish))]
    {
      if fail == Some(MarkCompleted) { assert tasks == tasks[id := tasks[id]]; return fail; }
      tasks := tasks[id := tasks[id].(status := COMPLETED)];
      if fail == Some(CompleteExecs) { return fail; }
      tasks := tasks[id := tasks[id].(execs := seq(|tasks[id].execs|, i => ExecCompleted))];
      if fail == Some(Publish) { return fail; }
      return None;
    }

    /** One saga running alone, with `fail` as the await that throws, if any. */
    method RunSaga(id: TaskId, pick: NodeId, fail: Option<Point>) returns (failed: Option<Point>)
      requires AnySuitable(nodes) ==> Best(nodes, pick)
      requires forall n | n in nodes :: nodes[n].running >= 0
      modifies this
      ensures failed.None? ==>
        && id in old(tasks) && pick in old(nodes)
        && tasks == old(tasks)[id := Progress(old(tasks)[id], Some(pick), Publish)]
        && nodes == old(nodes)[pick := Bumped(old(nodes)[pick], 1)]   // the reservation is kept
      ensures failed.Some? ==>
        && nodes == old(nodes)
        && if id in old(tasks) then tasks == old(tasks)[id := Leftover(old(tasks)[id], Some(pick), failed.value)]
           else tasks == old(tasks)
    {
      ghost var row := Row(World(nodes, tasks, map[]), id);
      ghost var start := World(nodes, tasks, map[0 := Saga(id, Forward(Validate), None, None, row)]);
      failed := ValidateTask(id, fail, start, 0);
      if failed.Some? { assert tasks == if id in tasks then tasks[id := tasks[id]] else tasks; return; }
      failed := ReserveResources(pick, fail);
      if failed.Some? { assert tasks == tasks[id := tasks[id]]; return; }
      ghost var t := tasks[id];
      failed := RunReserved(id, pick, t, fail);
      if failed.Some? {
        Compensate(id, pick, t, failed.value);
        assert nodes == old(nodes);
      }
    }

    method RunReserved(id: TaskId, pick: NodeId, ghost t: Task, fail: Option<Point>) returns (failed: Option<Point>)
      requires id in tasks && tasks[id] == t
      modifies this`tasks
      ensures failed.Some? ==> FirstUndo(failed.value) != Compensated
      ensures tasks == old(tasks)[id := Progress(t, Some(pick), failed.GetOr(Publish))]
    {
      failed := ScheduleTask(id, pick, fail);
      if failed.Some? { return; }
      failed := ExecuteTask(id, t, Some(pick), fail);
      if failed.Some? { return; }
      failed := CompleteTask(id, t, Some(pick), fail);
    }

    /** Reverse compensation of the completed steps. */
    method Compensate(id: TaskId, pick: NodeId, ghost t: Task, f: Point)
      requires id in tasks && tasks[id] == Progress(t, Some(pick), f) && FirstUndo(f) != Compensated
      modifies this
      ensures tasks == old(tasks)[id := Leftover(t, Some(pick), f)]
      ensures nodes == if pick in old(nodes) && old(nodes)[pick].running > 0
                       then old(nodes)[pick := Bumped(old(nodes)[pick], -1)] else old(nodes)
    {
      if FirstUndo(f) == Backward(CancelOnAgent) {
        CancelExecution(id);
      }
      if FirstUndo(f) != Backward(ReadNode) {
        LastWrite(t, Some(pick), f);
        UnscheduleTask(id);
      }
      ReleaseReservation(pick);
    }
  }
}
