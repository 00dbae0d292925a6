// The task registry of the agent manager, as values: tasks and agent slots
// keyed by id with their JavaScript Map insertion order, the assignment pass
// that pairs pending tasks with idle agents, and the settlement of a task.
// The class in manager.dfy is proved against these functions.
module Scheduling {
  import opened Wrappers
  import opened Strings
  import Worker
  import ProcessOutcome

  type TaskId = string
  type AgentId = string
  type Time = nat

  datatype Priority = High | Medium | Low

  /** The rank the comparator looks priorities up by: lower is dispatched first. */
  function Rank(p: Priority): nat {
    match p
    case High => 0
    case Medium => 1
    case Low => 2
  }

  datatype TaskStatus = Pending | InProgress | Completed | Failed

  datatype Task = Task(
    id: TaskId,
    description: string,
    priority: Priority,
    status: TaskStatus,
    createdAt: Time,
    assignedTo: Option<AgentId>,
    result: Option<Worker.WorkerResult>,
    error: Option<string>,
    completedAt: Option<Time>)

  datatype AgentStatus = Idle | Working

  /** The manager's bookkeeping for one pooled agent. */
  datatype AgentSlot = AgentSlot(status: AgentStatus, currentTask: Option<TaskId>)

  /** Both maps, each with the insertion order a JavaScript Map iterates in. */
  datatype Registry = Registry(
    tasks: map<TaskId, Task>,
    taskOrder: seq<TaskId>,
    agents: map<AgentId, AgentSlot>,
    agentOrder: seq<AgentId>)

  /** What the manager broadcasts, and the hand-off of a task to an agent. */
  datatype Effect =
    | TaskCreated(task: Task)
    | TaskUpdated(task: Task)
    | AgentUpdated(agentId: AgentId, status: AgentStatus, currentTask: Option<TaskId>)
    | Dispatched(agentId: AgentId, task: Task)

  datatype Step = Step(registry: Registry, effects: seq<Effect>)

  /** How a worker's promise settles. */
  datatype WorkerSettlement = Fulfilled(result: Worker.WorkerResult) | Rejected(message: string)

  ghost predicate Distinct<T>(s: seq<T>) {
    forall i, j :: 0 <= i < j < |s| ==> s[i] != s[j]
  }

  ghost predicate KeyedById(tasks: map<TaskId, Task>) {
    forall id :: id in tasks ==> tasks[id].id == id
  }

  /** The maps and their orders agree, and every reference between them resolves. */
  ghost predicate WellFormed(r: Registry) {
    && Distinct(r.taskOrder)
    && (forall id :: id in r.tasks <==> id in r.taskOrder)
    && KeyedById(r.tasks)
    && Distinct(r.agentOrder)
    && (forall a :: a in r.agents <==> a in r.agentOrder)
    && (forall id :: id in r.tasks && r.tasks[id].assignedTo.Some? ==> r.tasks[id].assignedTo.value in r.agents)
    && (forall a :: a in r.agents && r.agents[a].currentTask.Some? ==> r.agents[a].currentTask.value in r.tasks)
  }

  /** The task side and the agent side tell the same story: a task is in
    * progress exactly when one working agent holds it. */
  ghost predicate Coherent(r: Registry) {
    WellFormed(r) && TasksAgree(r) && AgentsAgree(r)
  }

  /** A task is unassigned exactly while pending, and an in-progress task's
    * agent is working on it. */
  ghost predicate TasksAgree(r: Registry) {
    && (forall id :: id in r.tasks ==> (r.tasks[id].status == Pending <==> r.tasks[id].assignedTo.None?))
    && (forall id :: id in r.tasks && r.tasks[id].status == InProgress ==>
          && r.tasks[id].assignedTo.Some? && r.tasks[id].assignedTo.value in r.agents
          && r.agents[r.tasks[id].assignedTo.value] == AgentSlot(Working, Some(id)))
  }

  /** An agent holds a task exactly while working, and that task is in
    * progress and assigned to it. */
  ghost predicate AgentsAgree(r: Registry) {
    && (forall a :: a in r.agents ==> (r.agents[a].status == Idle <==> r.agents[a].currentTask.None?))
    && (forall a :: a in r.agents && r.agents[a].currentTask.Some? ==>
          && r.agents[a].currentTask.value in r.tasks
          && r.tasks[r.agents[a].currentTask.value].status == InProgress
          && r.tasks[r.agents[a].currentTask.value].assignedTo == Some(a))
  }

  /** After a pass, either nothing is pending or nobody is idle. */
  ghost predicate Saturated(r: Registry) {
    || (forall id :: id in r.tasks ==> r.tasks[id].status != Pending)
    || (forall a :: a in r.agents ==> r.agents[a].status != Idle)
  }

  // ---------------------------------------------------------------------
  // The queue: pending tasks in insertion order, stably sorted by rank.

  /** The pending tasks, in the order the task map iterates them. */
  function PendingTasks(tasks: map<TaskId, Task>, order: seq<TaskId>): (ps: seq<Task>)
    requires KeyedById(tasks)
    ensures forall t :: t in ps ==> t.status == Pending && t.id in order && t.id in tasks && tasks[t.id] == t
    ensures forall id :: id in order && id in tasks && tasks[id].status == Pending ==> tasks[id] in ps
  {
    if order == [] then []
    else
      var rest := PendingTasks(tasks, order[1..]);
      if order[0] in tasks && tasks[order[0]].status == Pending then [tasks[order[0]]] + rest else rest
  }

  lemma {:induction false} PendingTasksDistinct(tasks: map<TaskId, Task>, order: seq<TaskId>)
    requires KeyedById(tasks) && Distinct(order)
    ensures Distinct(PendingTasks(tasks, order))
  {
    if order != [] {
      PendingTasksDistinct(tasks, order[1..]);
      var rest := PendingTasks(tasks, order[1..]);
      if order[0] in tasks && tasks[order[0]].status == Pending {
        forall t | t in rest ensures t != tasks[order[0]] {
          assert t.id in order[1..];
        }
      }
    }
  }

  /** Agents whose status is idle, in the order the agent map iterates them. */
  function IdleAgents(agents: map<AgentId, AgentSlot>, order: seq<AgentId>): (idle: seq<AgentId>)
    ensures forall a :: a in idle ==> a in order && a in agents && agents[a].status == Idle
    ensures forall a :: a in order && a in agents && agents[a].status == Idle ==> a in idle
  {
    if order == [] then []
    else
      var rest := IdleAgents(agents, order[1..]);
      if order[0] in agents && agents[order[0]].status == Idle then [order[0]] + rest else rest
  }

  lemma {:induction false} IdleAgentsDistinct(agents: map<AgentId, AgentSlot>, order: seq<AgentId>)
    requires Distinct(order)
    ensures Distinct(IdleAgents(agents, order))
  {
    if order != [] {
      IdleAgentsDistinct(agents, order[1..]);
      assert order[0] !in order[1..];
    }
  }

  /** `a` comes strictly before `b` in `order`. */
  ghost predicate Before<T>(order: seq<T>, a: T, b: T) {
    exists k, l :: 0 <= k < l < |order| && order[k] == a && order[l] == b
  }

  /** The tasks of `s` appear in the order their ids appear in `order`. */
  ghost predicate InOrder(s: seq<Task>, order: seq<TaskId>) {
    forall i, j :: 0 <= i < j < |s| ==> Before(order, s[i].id, s[j].id)
  }

  /** The items of `s` appear in the order they appear in `order`. */
  ghost predicate Ordered<T>(s: seq<T>, order: seq<T>) {
    forall i, j :: 0 <= i < j < |s| ==> Before(order, s[i], s[j])
  }

  lemma BeforeInTail<T>(order: seq<T>, a: T, b: T)
    requires |order| > 0 && Before(order[1..], a, b)
    ensures Before(order, a, b)
  {
    var k, l :| 0 <= k < l < |order[1..]| && order[1..][k] == a && order[1..][l] == b;
    assert order[k + 1] == a && order[l + 1] == b;
  }

  /** The pending tasks come in creation order. */
  lemma {:induction false} PendingTasksInOrder(tasks: map<TaskId, Task>, order: seq<TaskId>)
    requires KeyedById(tasks)
    ensures InOrder(PendingTasks(tasks, order), order)
    decreases |order|
  {
    if order != [] {
      PendingTasksInOrder(tasks, order[1..]);
      var ps, rest := PendingTasks(tasks, order), PendingTasks(tasks, order[1..]);
      forall i, j | 0 <= i < j < |ps| ensures Before(order, ps[i].id, ps[j].id) {
        if order[0] in tasks && tasks[order[0]].status == Pending {
          assert ps[j] == rest[j - 1] && ps[j] in rest;
          if i == 0 {
            var l :| 0 <= l < |order[1..]| && order[1..][l] == ps[j].id;
            assert order[0] == ps[0].id && order[l + 1] == ps[j].id;
          } else {
            assert ps[i] == rest[i - 1];
            BeforeInTail(order, ps[i].id, ps[j].id);
          }
        } else {
          BeforeInTail(order, ps[i].id, ps[j].id);
        }
      }
    }
  }

  /** The idle agents come in pool order. */
  lemma {:induction false} IdleAgentsInOrder(agents: map<AgentId, AgentSlot>, order: seq<AgentId>)
    ensures Ordered(IdleAgents(agents, order), order)
    decreases |order|
  {
    if order != [] {
      IdleAgentsInOrder(agents, order[1..]);
      var idle, rest := IdleAgents(agents, order), IdleAgents(agents, order[1..]);
      forall i, j | 0 <= i < j < |idle| ensures Before(order, idle[i], idle[j]) {
        if order[0] in agents && agents[order[0]].status == Idle {
          assert idle[j] == rest[j - 1] && idle[j] in rest;
          if i == 0 {
            var l :| 0 <= l < |order[1..]| && order[1..][l] == idle[j];
            assert order[0] == idle[0] && order[l + 1] == idle[j];
          } else {
            assert idle[i] == rest[i - 1];
            assert Before(order[1..], rest[i - 1], rest[j - 1]);
            BeforeInTail(order, idle[i], idle[j]);
          }
        } else {
          assert Before(order[1..], rest[i], rest[j]);
          BeforeInTail(order, idle[i], idle[j]);
        }
      }
    }
  }

  ghost predicate SortedByRank(s: seq<Task>) {
    forall i, j :: 0 <= i < j < |s| ==> Rank(s[i].priority) <= Rank(s[j].priority)
  }

  /** Puts t after every element ranked strictly before it. */
  function Insert(t: Task, s: seq<Task>): (r: seq<Task>)
    ensures multiset(r) == multiset(s) + multiset{t}
    ensures forall x :: x in r <==> x == t || x in s
  {
    if s == [] || Rank(t.priority) <= Rank(s[0].priority) then [t] + s
    else
      assert s == [s[0]] + s[1..];
      [s[0]] + Insert(t, s[1..])
  }

  lemma RestRankedAtLeast(s: seq<Task>)
    requires SortedByRank(s) && |s| > 0
    ensures forall x :: x in s[1..] ==> Rank(s[0].priority) <= Rank(x.priority)
  {
    forall x | x in s[1..] ensures Rank(s[0].priority) <= Rank(x.priority) {
      var k :| 0 <= k < |s[1..]| && s[1..][k] == x;
      assert s[k + 1] == x;
    }
  }

  lemma {:induction false} InsertSorted(t: Task, s: seq<Task>)
    requires SortedByRank(s)
    ensures SortedByRank(Insert(t, s))
  {
    if s == [] || Rank(t.priority) <= Rank(s[0].priority) {
      if s != [] {
        RestRankedAtLeast(s);
        assert s == [s[0]] + s[1..];
      }
    } else {
      assert SortedByRank(s[1..]);
      InsertSorted(t, s[1..]);
      RestRankedAtLeast(s);
      var r := Insert(t, s[1..]);
      var full := [s[0]] + r;
      forall i, j | 0 <= i < j < |full| ensures Rank(full[i].priority) <= Rank(full[j].priority) {
        if i == 0 {
          assert full[j] in r;
        } else {
          assert full[i] == r[i - 1] && full[j] == r[j - 1];
        }
      }
    }
  }

  lemma {:induction false} InsertDistinct(t: Task, s: seq<Task>)
    requires Distinct(s) && t !in s
    ensures Distinct(Insert(t, s))
  {
    if s == [] || Rank(t.priority) <= Rank(s[0].priority) {
    } else {
      assert Distinct(s[1..]);
      InsertDistinct(t, s[1..]);
      assert s[0] !in s[1..];
      var r := Insert(t, s[1..]);
      var full := [s[0]] + r;
      forall i, j | 0 <= i < j < |full| ensures full[i] != full[j] {
        if i == 0 {
          assert full[j] in r;
        } else {
          assert full[i] == r[i - 1] && full[j] == r[j - 1];
        }
      }
    }
  }

  /** The comparator sort of assignPendingTasks: stable, by rank. */
  function SortByPriority(s: seq<Task>): (r: seq<Task>)
    ensures multiset(r) == multiset(s)
    ensures forall x :: x in r <==> x in s
    ensures SortedByRank(r)
  {
    if s == [] then []
    else
      assert s == [s[0]] + s[1..];
      InsertSorted(s[0], SortByPriority(s[1..]));
      Insert(s[0], SortByPriority(s[1..]))
  }

  lemma {:induction false} SortKeepsDistinct(s: seq<Task>)
    requires Distinct(s)
    ensures Distinct(SortByPriority(s))
  {
    if s != [] {
      assert Distinct(s[1..]);
      SortKeepsDistinct(s[1..]);
      assert s[0] !in s[1..];
      InsertDistinct(s[0], SortByPriority(s[1..]));
    }
  }

  /** The subsequence of tasks with priority p. */
  function WithPriority(s: seq<Task>, p: Priority): (r: seq<Task>)
    ensures forall t :: t in r ==> t in s && t.priority == p
    ensures forall t :: t in s && t.priority == p ==> t in r
  {
    if s == [] then []
    else if s[0].priority == p then [s[0]] + WithPriority(s[1..], p)
    else WithPriority(s[1..], p)
  }

  /** Concatenating the priority classes, best first. */
  function Grouped(s: seq<Task>): seq<Task> {
    WithPriority(s, High) + WithPriority(s, Medium) + WithPriority(s, Low)
  }

  lemma {:induction false} InsertKeepsOtherClasses(t: Task, s: seq<Task>, p: Priority)
    requires t.priority != p
    ensures WithPriority(Insert(t, s), p) == WithPriority(s, p)
  {
    if s == [] || Rank(t.priority) <= Rank(s[0].priority) {
      assert ([t] + s)[1..] == s;
    } else {
      InsertKeepsOtherClasses(t, s[1..], p);
      assert ([s[0]] + Insert(t, s[1..]))[1..] == Insert(t, s[1..]);
    }
  }

  lemma {:induction false} InsertFrontOfClass(t: Task, s: seq<Task>)
    requires SortedByRank(s)
    ensures WithPriority(Insert(t, s), t.priority) == [t] + WithPriority(s, t.priority)
  {
    if s == [] || Rank(t.priority) <= Rank(s[0].priority) {
      assert ([t] + s)[1..] == s;
    } else {
      assert SortedByRank(s[1..]);
      InsertFrontOfClass(t, s[1..]);
      assert ([s[0]] + Insert(t, s[1..]))[1..] == Insert(t, s[1..]);
      assert s[0].priority != t.priority;
    }
  }

  /** Sorting keeps creation order within each priority: the queue is FIFO
    * per priority. */
  lemma {:induction false} SortKeepsCreationOrder(s: seq<Task>, p: Priority)
    ensures WithPriority(SortByPriority(s), p) == WithPriority(s, p)
  {
    if s != [] {
      SortKeepsCreationOrder(s[1..], p);
      var sorted := SortByPriority(s[1..]);
      if s[0].priority == p {
        InsertFrontOfClass(s[0], sorted);
      } else {
        InsertKeepsOtherClasses(s[0], sorted, p);
      }
    }
  }

  lemma NoneOfClass(s: seq<Task>, p: Priority)
    requires forall x :: x in s ==> x.priority != p
    ensures WithPriority(s, p) == []
  {
  }

  lemma WithPriorityCons(x: Task, rest: seq<Task>, p: Priority)
    ensures WithPriority([x] + rest, p) == if x.priority == p then [x] + WithPriority(rest, p) else WithPriority(rest, p)
  {
    assert ([x] + rest)[1..] == rest;
  }

  lemma {:induction false} SortedIsGrouped(s: seq<Task>)
    requires SortedByRank(s)
    ensures s == Grouped(s)
  {
    if s != [] {
      var x, rest := s[0], s[1..];
      assert SortedByRank(rest);
      SortedIsGrouped(rest);
      RestRankedAtLeast(s);
      assert s == [x] + rest;
      WithPriorityCons(x, rest, High);
      WithPriorityCons(x, rest, Medium);
      WithPriorityCons(x, rest, Low);
      var h, m, l := WithPriority(rest, High), WithPriority(rest, Medium), WithPriority(rest, Low);
      if x.priority == High {
        Regroup(x, h, m, l);
      } else if x.priority == Medium {
        NoneOfClass(rest, High);
        Regroup(x, [], m, l);
      } else {
        NoneOfClass(rest, High);
        NoneOfClass(rest, Medium);
        Regroup(x, [], [], l);
      }
    }
  }

  /** Moving x, the first element of a sorted sequence, to the front of its class. */
  lemma Regroup(x: Task, h: seq<Task>, m: seq<Task>, l: seq<Task>)
    ensures x.priority == High ==> ([x] + h) + m + l == [x] + (h + m + l)
    ensures x.priority == Medium && h == [] ==> h + ([x] + m) + l == [x] + (h + m + l)
    ensures x.priority == Low && h == [] && m == [] ==> h + m + ([x] + l) == [x] + (h + m + l)
  {
  }

  /** The sorted queue is every high task in creation order, then every
    * medium one, then every low one. */
  lemma SortIsGroupedByPriority(s: seq<Task>)
    ensures SortByPriority(s) == Grouped(s)
  {
    var sorted := SortByPriority(s);
    SortedIsGrouped(sorted);
    SortKeepsCreationOrder(s, High);
    SortKeepsCreationOrder(s, Medium);
    SortKeepsCreationOrder(s, Low);
  }

  /** A task that precedes every task of `tail` may head any ordered
    * selection `rest` drawn from `tail`. */
  lemma ConsInOrder(t: Task, rest: seq<Task>, tail: seq<Task>, order: seq<TaskId>)
    requires InOrder(rest, order)
    requires forall x :: x in rest ==> x in tail
    requires forall m :: 0 <= m < |tail| ==> Before(order, t.id, tail[m].id)
    ensures InOrder([t] + rest, order)
  {
    var w := [t] + rest;
    forall i, j | 0 <= i < j < |w| ensures Before(order, w[i].id, w[j].id) {
      assert w[j] == rest[j - 1];
      if i == 0 {
        assert rest[j - 1] in tail;
        var m :| 0 <= m < |tail| && tail[m] == rest[j - 1];
      } else {
        assert w[i] == rest[i - 1];
      }
    }
  }

  /** Keeping one priority class keeps the order of what is kept. */
  lemma {:induction false} WithPriorityInOrder(s: seq<Task>, p: Priority, order: seq<TaskId>)
    requires InOrder(s, order)
    ensures InOrder(WithPriority(s, p), order)
    decreases |s|
  {
    if s != [] {
      var tail := s[1..];
      assert InOrder(tail, order) by {
        forall i, j | 0 <= i < j < |tail| ensures Before(order, tail[i].id, tail[j].id) {
          assert tail[i] == s[i + 1] && tail[j] == s[j + 1];
        }
      }
      WithPriorityInOrder(tail, p, order);
      if s[0].priority == p {
        forall m | 0 <= m < |tail| ensures Before(order, s[0].id, tail[m].id) {
          assert tail[m] == s[m + 1];
        }
        ConsInOrder(s[0], WithPriority(tail, p), tail, order);
      }
    }
  }

  // ---------------------------------------------------------------------
  // The assignment pass.

  function Queue(r: Registry): seq<Task>
    requires KeyedById(r.tasks)
  {
    SortByPriority(PendingTasks(r.tasks, r.taskOrder))
  }

  function IdleList(r: Registry): seq<AgentId> {
    IdleAgents(r.agents, r.agentOrder)
  }

  function Assigned(t: Task, a: AgentId): Task {
    t.(status := InProgress, assignedTo := Some(a))
  }

  function Min(a: nat, b: nat): nat {
    if a <= b then a else b
  }

  /** One iteration of the loop: task t goes to agent a. */
  function Round(r: Registry, t: Task, a: AgentId): Registry {
    r.(tasks := r.tasks[t.id := Assigned(t, a)], agents := r.agents[a := AgentSlot(Working, Some(t.id))])
  }

  /** The while loop of assignPendingTasks: the i-th task of the queue goes
    * to the i-th idle agent until one of them runs out. */
  function Pair(r: Registry, queue: seq<Task>, idle: seq<AgentId>): (s: Step)
    ensures r.tasks.Keys <= s.registry.tasks.Keys && r.agents.Keys <= s.registry.agents.Keys
    ensures s.registry.taskOrder == r.taskOrder && s.registry.agentOrder == r.agentOrder
    ensures |s.effects| == 3 * Min(|queue|, |idle|)
    decreases |queue|
  {
    if |queue| == 0 || |idle| == 0 then Step(r, [])
    else
      var t := Assigned(queue[0], idle[0]);
      var rest := Pair(Round(r, queue[0], idle[0]), queue[1..], idle[1..]);
      Step(rest.registry, [TaskUpdated(t), AgentUpdated(idle[0], Working, Some(t.id)), Dispatched(idle[0], t)] + rest.effects)
  }

  /** assignPendingTasks: changes no key and no order. */
  function Pass(r: Registry): (s: Step)
    requires WellFormed(r)
    ensures s.registry.taskOrder == r.taskOrder && s.registry.tasks.Keys == r.tasks.Keys
    ensures s.registry.agentOrder == r.agentOrder && s.registry.agents.Keys == r.agents.Keys
  {
    QueueIsQueueOf(r);
    PairOnlyDispatches(r, Queue(r), IdleList(r));
    Pair(r, Queue(r), IdleList(r))
  }

  /** One round of the fold, unrolled: what the loop body of assignPendingTasks does. */
  lemma PairStep(r: Registry, queue: seq<Task>, idle: seq<AgentId>)
    requires |queue| > 0 && |idle| > 0
    ensures var t, rest := Assigned(queue[0], idle[0]), Pair(Round(r, queue[0], idle[0]), queue[1..], idle[1..]);
      Pair(r, queue, idle) == Step(rest.registry, [TaskUpdated(t), AgentUpdated(idle[0], Working, Some(t.id)), Dispatched(idle[0], t)] + rest.effects)
  {
  }

  /** The fold stops as soon as either list is empty. */
  lemma PairDone(r: Registry, queue: seq<Task>, idle: seq<AgentId>)
    requires |queue| == 0 || |idle| == 0
    ensures Pair(r, queue, idle) == Step(r, [])
  {
  }

  lemma PassIsPair(r: Registry)
    requires WellFormed(r)
    ensures Pass(r) == Pair(r, Queue(r), IdleList(r))
  {
  }

  /** A queue of distinct pending tasks as they stand in r. */
  ghost predicate QueueOf(r: Registry, queue: seq<Task>) {
    && Distinct(queue)
    && forall t :: t in queue ==> t.id in r.tasks && r.tasks[t.id] == t && t.status == Pending
  }

  /** A list of distinct idle agents of r. */
  ghost predicate IdleOf(r: Registry, idle: seq<AgentId>) {
    && Distinct(idle)
    && forall a :: a in idle ==> a in r.agents && r.agents[a].status == Idle
  }

  lemma QueueIsQueueOf(r: Registry)
    requires WellFormed(r)
    ensures QueueOf(r, Queue(r)) && IdleOf(r, IdleList(r))
  {
    PendingTasksDistinct(r.tasks, r.taskOrder);
    SortKeepsDistinct(PendingTasks(r.tasks, r.taskOrder));
    IdleAgentsDistinct(r.agents, r.agentOrder);
  }

  /** After one round the rest of the queue and of the idle list still
    * describe the registry. */
  lemma RoundKeepsQueue(r: Registry, queue: seq<Task>, idle: seq<AgentId>)
    requires QueueOf(r, queue) && IdleOf(r, idle) && |queue| > 0 && |idle| > 0
    ensures QueueOf(Round(r, queue[0], idle[0]), queue[1..]) && IdleOf(Round(r, queue[0], idle[0]), idle[1..])
  {
    assert queue[0] in queue;
    forall u | u in queue[1..] ensures u.id != queue[0].id {
      var j :| 1 <= j < |queue| && queue[j] == u;
      assert queue[0] != queue[j];
    }
    forall a | a in idle[1..] ensures a != idle[0] {
      var j :| 1 <= j < |idle| && idle[j] == a;
      assert idle[0] != idle[j];
    }
  }

  lemma RoundWellFormed(r: Registry, t: Task, a: AgentId)
    requires WellFormed(r) && t.id in r.tasks && a in r.agents
    ensures WellFormed(Round(r, t, a))
  {
  }

  lemma RoundCoherent(r: Registry, t: Task, a: AgentId)
    requires Coherent(r) && t.id in r.tasks && r.tasks[t.id] == t && t.status == Pending
    requires a in r.agents && r.agents[a].status == Idle
    ensures Coherent(Round(r, t, a))
  {
    RoundWellFormed(r, t, a);
    RoundTasksAgree(r, t, a);
    RoundAgentsAgree(r, t, a);
  }

  lemma RoundTasksAgree(r: Registry, t: Task, a: AgentId)
    requires Coherent(r) && t.id in r.tasks && r.tasks[t.id] == t && t.status == Pending
    requires a in r.agents && r.agents[a].status == Idle
    ensures TasksAgree(Round(r, t, a))
  {
  }

  lemma RoundAgentsAgree(r: Registry, t: Task, a: AgentId)
    requires Coherent(r) && t.id in r.tasks && r.tasks[t.id] == t && t.status == Pending
    requires a in r.agents && r.agents[a].status == Idle
    ensures AgentsAgree(Round(r, t, a))
  {
  }

  /** after is the pending task before, handed to some agent. */
  ghost predicate Dispatch(before: Task, after: Task) {
    before.status == Pending && after.assignedTo.Some? && after == Assigned(before, after.assignedTo.value)
  }

  /** A pass only moves pending tasks to in progress and idle agents to
    * working; every other entry is left as it was. */
  lemma {:induction false} PairOnlyDispatches(r: Registry, queue: seq<Task>, idle: seq<AgentId>)
    requires QueueOf(r, queue) && IdleOf(r, idle)
    ensures var s := Pair(r, queue, idle).registry;
      && s.tasks.Keys == r.tasks.Keys && s.agents.Keys == r.agents.Keys
      && (forall id :: id in r.tasks ==> s.tasks[id] == r.tasks[id] || Dispatch(r.tasks[id], s.tasks[id]))
      && (forall a :: a in r.agents ==>
            s.agents[a] == r.agents[a] || (r.agents[a].status == Idle && s.agents[a].status == Working))
    decreases |queue|
  {
    if |queue| > 0 && |idle| > 0 {
      RoundKeepsQueue(r, queue, idle);
      PairOnlyDispatches(Round(r, queue[0], idle[0]), queue[1..], idle[1..]);
      assert queue[0] in queue && idle[0] in idle;
    }
  }

  /** The first k = min(|queue|, |idle|) tasks go to the first k agents, in order. */
  lemma {:induction false} PairAssigns(r: Registry, queue: seq<Task>, idle: seq<AgentId>)
    requires QueueOf(r, queue) && IdleOf(r, idle)
    ensures var s := Pair(r, queue, idle).registry;
      forall i :: 0 <= i < Min(|queue|, |idle|) ==>
        && s.tasks[queue[i].id] == Assigned(queue[i], idle[i])
        && s.agents[idle[i]] == AgentSlot(Working, Some(queue[i].id))
    decreases |queue|
  {
    if |queue| > 0 && |idle| > 0 {
      var r1 := Round(r, queue[0], idle[0]);
      RoundKeepsQueue(r, queue, idle);
      PairAssigns(r1, queue[1..], idle[1..]);
      PairOnlyDispatches(r1, queue[1..], idle[1..]);
      var s := Pair(r, queue, idle).registry;
      assert s == Pair(r1, queue[1..], idle[1..]).registry;
      assert queue[0] in queue;
      forall i | 1 <= i < Min(|queue|, |idle|)
        ensures s.tasks[queue[i].id] == Assigned(queue[i], idle[i])
        ensures s.agents[idle[i]] == AgentSlot(Working, Some(queue[i].id))
      {
        assert queue[1..][i - 1] == queue[i] && idle[1..][i - 1] == idle[i];
      }
    }
  }

  /** The first round of a non-empty pass. */
  lemma PairAssignsFirst(r: Registry, queue: seq<Task>, idle: seq<AgentId>)
    requires QueueOf(r, queue) && IdleOf(r, idle) && |queue| > 0 && |idle| > 0
    ensures var s := Pair(r, queue, idle).registry;
      && queue[0].id in s.tasks && idle[0] in s.agents
      && s.tasks[queue[0].id] == Assigned(queue[0], idle[0])
      && s.agents[idle[0]] == AgentSlot(Working, Some(queue[0].id))
  {
    PairAssigns(r, queue, idle);
    assert queue[0] in queue && idle[0] in idle;
  }

  /** Each round emits task:updated, agent:updated, then hands the task to the agent. */
  lemma {:induction false} PairEffects(r: Registry, queue: seq<Task>, idle: seq<AgentId>)
    ensures var e := Pair(r, queue, idle).effects;
      forall i :: 0 <= i < Min(|queue|, |idle|) ==>
        && e[3 * i] == TaskUpdated(Assigned(queue[i], idle[i]))
        && e[3 * i + 1] == AgentUpdated(idle[i], Working, Some(queue[i].id))
        && e[3 * i + 2] == Dispatched(idle[i], Assigned(queue[i], idle[i]))
    decreases |queue|
  {
    if |queue| > 0 && |idle| > 0 {
      var r1 := Round(r, queue[0], idle[0]);
      PairEffects(r1, queue[1..], idle[1..]);
      var e := Pair(r, queue, idle).effects;
      var rest := Pair(r1, queue[1..], idle[1..]).effects;
      var t := Assigned(queue[0], idle[0]);
      var head := [TaskUpdated(t), AgentUpdated(idle[0], Working, Some(t.id)), Dispatched(idle[0], t)];
      assert e == head + rest;
      forall i | 1 <= i < Min(|queue|, |idle|)
        ensures e[3 * i] == TaskUpdated(Assigned(queue[i], idle[i]))
        ensures e[3 * i + 1] == AgentUpdated(idle[i], Working, Some(queue[i].id))
        ensures e[3 * i + 2] == Dispatched(idle[i], Assigned(queue[i], idle[i]))
      {
        assert queue[1..][i - 1] == queue[i] && idle[1..][i - 1] == idle[i];
        ShiftTriple(head, rest, i - 1);
      }
    }
  }

  lemma ShiftTriple(head: seq<Effect>, rest: seq<Effect>, i: nat)
    requires |head| == 3 && 3 * i + 2 < |rest|
    ensures (head + rest)[3 * (i + 1)] == rest[3 * i]
    ensures (head + rest)[3 * (i + 1) + 1] == rest[3 * i + 1]
    ensures (head + rest)[3 * (i + 1) + 2] == rest[3 * i + 2]
  {
  }

  lemma {:induction false} PairWellFormed(r: Registry, queue: seq<Task>, idle: seq<AgentId>)
    requires WellFormed(r) && QueueOf(r, queue) && IdleOf(r, idle)
    ensures WellFormed(Pair(r, queue, idle).registry)
    decreases |queue|
  {
    if |queue| > 0 && |idle| > 0 {
      assert queue[0] in queue && idle[0] in idle;
      RoundWellFormed(r, queue[0], idle[0]);
      RoundKeepsQueue(r, queue, idle);
      PairWellFormed(Round(r, queue[0], idle[0]), queue[1..], idle[1..]);
    }
  }

  lemma {:induction false} PairCoherent(r: Registry, queue: seq<Task>, idle: seq<AgentId>)
    requires QueueOf(r, queue) && IdleOf(r, idle)
    ensures Coherent(r) ==> Coherent(Pair(r, queue, idle).registry)
    decreases |queue|
  {
    if Coherent(r) && |queue| > 0 && |idle| > 0 {
      assert queue[0] in queue && idle[0] in idle;
      RoundCoherent(r, queue[0], idle[0]);
      RoundKeepsQueue(r, queue, idle);
      PairCoherent(Round(r, queue[0], idle[0]), queue[1..], idle[1..]);
    }
  }

  // ---------------------------------------------------------------------
  // What a pass guarantees.

  lemma QueueIsComplete(r: Registry, id: TaskId) returns (j: nat)
    requires WellFormed(r) && id in r.tasks && r.tasks[id].status == Pending
    ensures j < |Queue(r)| && Queue(r)[j] == r.tasks[id]
  {
    assert r.tasks[id] in PendingTasks(r.tasks, r.taskOrder);
    j :| 0 <= j < |Queue(r)| && Queue(r)[j] == r.tasks[id];
  }

  /** The facts about one pass that the lemmas below use. */
  lemma PassFacts(r: Registry)
    requires WellFormed(r)
    ensures var q, idle, s := Queue(r), IdleList(r), Pair(r, Queue(r), IdleList(r)).registry;
      && s.tasks.Keys == r.tasks.Keys && s.agents.Keys == r.agents.Keys
      && (forall i :: 0 <= i < Min(|q|, |idle|) ==>
            && s.tasks[q[i].id] == Assigned(q[i], idle[i])
            && s.agents[idle[i]] == AgentSlot(Working, Some(q[i].id)))
      && (forall id :: id in r.tasks ==> s.tasks[id] == r.tasks[id] || Dispatch(r.tasks[id], s.tasks[id]))
      && (forall a :: a in r.agents ==>
            s.agents[a] == r.agents[a] || (r.agents[a].status == Idle && s.agents[a].status == Working))
  {
    QueueIsQueueOf(r);
    PairOnlyDispatches(r, Queue(r), IdleList(r));
    PairAssigns(r, Queue(r), IdleList(r));
  }

  /** After a pass no task waits while an agent idles. */
  lemma PassSaturates(r: Registry)
    requires WellFormed(r)
    ensures Saturated(Pass(r).registry)
  {
    if |Queue(r)| <= |IdleList(r)| {
      PassEmptiesQueue(r);
    } else {
      PassFillsPool(r);
    }
  }

  lemma PassEmptiesQueue(r: Registry)
    requires WellFormed(r) && |Queue(r)| <= |IdleList(r)|
    ensures forall id :: id in Pass(r).registry.tasks ==> Pass(r).registry.tasks[id].status != Pending
  {
    var q, idle := Queue(r), IdleList(r);
    PassFacts(r);
    var s := Pass(r).registry;
    forall id | id in s.tasks ensures s.tasks[id].status != Pending {
      if r.tasks[id].status == Pending {
        var j := QueueIsComplete(r, id);
        assert s.tasks[q[j].id] == Assigned(q[j], idle[j]);
      }
    }
  }

  lemma PassFillsPool(r: Registry)
    requires WellFormed(r) && |Queue(r)| > |IdleList(r)|
    ensures forall a :: a in Pass(r).registry.agents ==> Pass(r).registry.agents[a].status != Idle
  {
    var q, idle := Queue(r), IdleList(r);
    PassFacts(r);
    var s := Pass(r).registry;
    forall a | a in s.agents ensures s.agents[a].status != Idle {
      if r.agents[a].status == Idle {
        assert a in idle;
        var j :| 0 <= j < |idle| && idle[j] == a;
        assert s.agents[idle[j]] == AgentSlot(Working, Some(q[j].id));
      }
    }
  }

  lemma PassWellFormed(r: Registry)
    requires WellFormed(r)
    ensures WellFormed(Pass(r).registry)
  {
    QueueIsQueueOf(r);
    PairWellFormed(r, Queue(r), IdleList(r));
  }

  lemma PassPreservesCoherence(r: Registry)
    requires Coherent(r)
    ensures Coherent(Pass(r).registry)
  {
    QueueIsQueueOf(r);
    PairCoherent(r, Queue(r), IdleList(r));
  }

  /** No task that a pass leaves pending outranks one it dispatched. */
  lemma PassDispatchesBestFirst(r: Registry)
    requires WellFormed(r)
    ensures var q := Queue(r); var s := Pass(r).registry;
      forall i, id :: 0 <= i < Min(|q|, |IdleList(r)|) && id in s.tasks && s.tasks[id].status == Pending ==>
        Rank(q[i].priority) <= Rank(s.tasks[id].priority)
  {
    var q, s := Queue(r), Pass(r).registry;
    forall i, id | 0 <= i < Min(|q|, |IdleList(r)|) && id in s.tasks && s.tasks[id].status == Pending
      ensures Rank(q[i].priority) <= Rank(s.tasks[id].priority)
    {
      LeftPendingIsQueuedLater(r, id);
    }
  }

  /** A task still pending after a pass sits in the queue past every dispatched one. */
  lemma LeftPendingIsQueuedLater(r: Registry, id: TaskId)
    requires WellFormed(r) && id in Pass(r).registry.tasks && Pass(r).registry.tasks[id].status == Pending
    ensures exists j :: Min(|Queue(r)|, |IdleList(r)|) <= j < |Queue(r)| && Queue(r)[j] == Pass(r).registry.tasks[id]
  {
    var q, idle, s := Queue(r), IdleList(r), Pass(r).registry;
    PassFacts(r);
    assert s.tasks[id] == r.tasks[id];
    var j := QueueIsComplete(r, id);
    assert j >= Min(|q|, |idle|);
  }

  /** Within a priority the queue keeps creation order, so a tie goes to the older task. */
  lemma QueueTiesGoToOldest(r: Registry)
    requires WellFormed(r)
    ensures var q := Queue(r);
      forall i, j :: 0 <= i < j < |q| && q[i].priority == q[j].priority ==> Before(r.taskOrder, q[i].id, q[j].id)
  {
    var ps := PendingTasks(r.tasks, r.taskOrder);
    var q := Queue(r);
    PendingTasksInOrder(r.tasks, r.taskOrder);
    SortIsGroupedByPriority(ps);
    var h, m, l := WithPriority(ps, High), WithPriority(ps, Medium), WithPriority(ps, Low);
    WithPriorityInOrder(ps, High, r.taskOrder);
    WithPriorityInOrder(ps, Medium, r.taskOrder);
    WithPriorityInOrder(ps, Low, r.taskOrder);
    assert q == h + m + l;
    forall i, j | 0 <= i < j < |q| && q[i].priority == q[j].priority
      ensures Before(r.taskOrder, q[i].id, q[j].id)
    {
      BlockPosition(ps, i);
      BlockPosition(ps, j);
    }
  }

  /** Where the k-th task of the grouped queue sits: its class tells its block. */
  lemma BlockPosition(ps: seq<Task>, k: nat)
    requires k < |Grouped(ps)|
    ensures var q, h, m := Grouped(ps), WithPriority(ps, High), WithPriority(ps, Medium);
      && (q[k].priority == High ==> k < |h| && q[k] == h[k])
      && (q[k].priority == Medium ==> |h| <= k < |h| + |m| && q[k] == m[k - |h|])
      && (q[k].priority == Low ==> |h| + |m| <= k && q[k] == WithPriority(ps, Low)[k - |h| - |m|])
  {
    var q, h, m, l := Grouped(ps), WithPriority(ps, High), WithPriority(ps, Medium), WithPriority(ps, Low);
    if k < |h| {
      assert q[k] == h[k] && h[k] in h;
    } else if k < |h| + |m| {
      assert q[k] == m[k - |h|] && m[k - |h|] in m;
    } else {
      assert q[k] == l[k - |h| - |m|] && l[k - |h| - |m|] in l;
    }
  }

  /** The task at the head of the queue has the best rank of every pending task. */
  lemma QueueHeadHasTopPriority(r: Registry)
    requires WellFormed(r) && Queue(r) != []
    ensures forall id :: id in r.tasks && r.tasks[id].status == Pending ==>
      Rank(Queue(r)[0].priority) <= Rank(r.tasks[id].priority)
  {
    forall id | id in r.tasks && r.tasks[id].status == Pending
      ensures Rank(Queue(r)[0].priority) <= Rank(r.tasks[id].priority)
    {
      var j := QueueIsComplete(r, id);
    }
  }

  /** A pass dispatches exactly min(#pending, #idle) tasks, each to its own
    * agent: task:updated, agent:updated, then the hand-off, per round. */
  lemma PassPairsOneToOne(r: Registry)
    requires WellFormed(r)
    ensures var q, idle, e := Queue(r), IdleList(r), Pass(r).effects; var k := Min(|q|, |idle|);
      && |q| == |PendingTasks(r.tasks, r.taskOrder)|
      && |e| == 3 * k
      && (forall i :: 0 <= i < k ==> e[3 * i + 2] == Dispatched(idle[i], Assigned(q[i], idle[i])))
      && (forall i, j :: 0 <= i < j < k ==> q[i].id != q[j].id && idle[i] != idle[j])
  {
    QueueIsQueueOf(r);
    PairEffects(r, Queue(r), IdleList(r));
    var q := Queue(r);
    assert |multiset(q)| == |multiset(PendingTasks(r.tasks, r.taskOrder))|;
    forall i, j | 0 <= i < j < |q| ensures q[i].id != q[j].id {
      assert q[i] in q && q[j] in q;
    }
  }

  // ---------------------------------------------------------------------
  // Creating and settling tasks.

  /** A fresh task; a missing priority defaults to medium. */
  function NewTask(id: TaskId, description: string, priority: Option<Priority>, now: Time): (t: Task)
    ensures t.id == id && t.description == description && t.createdAt == now
    ensures t.status == Pending && t.assignedTo == None && t.result == None
    ensures t.priority == (if priority.Some? then priority.value else Medium)
  {
    Task(id, description, priority.GetOr(Medium), Pending, now, None, None, None, None)
  }

  lemma DistinctAppend<T>(s: seq<T>, x: T)
    requires Distinct(s) && x !in s
    ensures Distinct(s + [x])
  {
  }

  /** The registry right after createTask stores the task, before its pass. */
  function Recorded(r: Registry, t: Task): (r1: Registry)
    requires WellFormed(r) && t.id !in r.tasks && t.assignedTo == None
    ensures WellFormed(r1)
    ensures r1.tasks == r.tasks[t.id := t] && r1.taskOrder == r.taskOrder + [t.id]
    ensures r1.agents == r.agents && r1.agentOrder == r.agentOrder
  {
    DistinctAppend(r.taskOrder, t.id);
    r.(tasks := r.tasks[t.id := t], taskOrder := r.taskOrder + [t.id])
  }

  /** createTask: record the task, broadcast it, then run a pass. */
  function Create(r: Registry, id: TaskId, description: string, priority: Option<Priority>, now: Time): (s: Step)
    requires WellFormed(r) && id !in r.tasks
    ensures s.registry.taskOrder == r.taskOrder + [id] && s.registry.tasks.Keys == r.tasks.Keys + {id}
    ensures |s.effects| > 0 && s.effects[0] == TaskCreated(NewTask(id, description, priority, now))
  {
    var s := Pass(Recorded(r, NewTask(id, description, priority, now)));
    Step(s.registry, [TaskCreated(NewTask(id, description, priority, now))] + s.effects)
  }

  /** createTask keeps the registry well formed. */
  lemma CreateWellFormed(r: Registry, id: TaskId, description: string, priority: Option<Priority>, now: Time)
    requires WellFormed(r) && id !in r.tasks
    ensures WellFormed(Create(r, id, description, priority, now).registry)
  {
    PassWellFormed(Recorded(r, NewTask(id, description, priority, now)));
  }

  /** createTask keeps the registry coherent and leaves no task waiting
    * while an agent idles. */
  lemma CreatePreservesCoherence(r: Registry, id: TaskId, description: string, priority: Option<Priority>, now: Time)
    requires Coherent(r) && id !in r.tasks
    ensures Coherent(Create(r, id, description, priority, now).registry)
    ensures Saturated(Create(r, id, description, priority, now).registry)
  {
    var r1 := Recorded(r, NewTask(id, description, priority, now));
    assert Coherent(r1);
    PassPreservesCoherence(r1);
    PassSaturates(r1);
  }

  /** The created task is kept, as created or as dispatched by the pass
    * that follows. */
  lemma CreateRecordsTask(r: Registry, id: TaskId, description: string, priority: Option<Priority>, now: Time)
    requires WellFormed(r) && id !in r.tasks
    ensures var t, s := NewTask(id, description, priority, now), Create(r, id, description, priority, now);
      s.registry.tasks[id] == t || Dispatch(t, s.registry.tasks[id])
  {
    PassFacts(Recorded(r, NewTask(id, description, priority, now)));
  }

  /** The agent slot a settled task releases, if any. */
  function FreeAgent(r: Registry, agent: Option<AgentId>): (s: Step)
    ensures s.registry.tasks == r.tasks && s.registry.taskOrder == r.taskOrder && s.registry.agentOrder == r.agentOrder
    ensures agent.Some? ==> s.registry.agents == r.agents[agent.value := AgentSlot(Idle, None)]
    ensures agent.None? ==> s == Step(r, [])
  {
    if agent.Some? then
      Step(r.(agents := r.agents[agent.value := AgentSlot(Idle, None)]), [AgentUpdated(agent.value, Idle, None)])
    else Step(r, [])
  }

  /** The common tail of handleTaskCompletion and handleTaskError: store the
    * settled task, free its agent, broadcast, then run a pass. */
  function Finish(r: Registry, t: Task): (s: Step)
    requires WellFormed(r) && t.id in r.tasks && t.assignedTo == r.tasks[t.id].assignedTo
    ensures s.registry.taskOrder == r.taskOrder && s.registry.tasks.Keys == r.tasks.Keys
    ensures s.registry.agentOrder == r.agentOrder && s.registry.agents.Keys == r.agents.Keys
  {
    var s := Pass(Freed(r, t));
    Step(s.registry, FreeAgent(r.(tasks := r.tasks[t.id := t]), t.assignedTo).effects + [TaskUpdated(t)] + s.effects)
  }

  /** What a settlement announces before its pass. */
  function Announced(r: Registry, t: Task): seq<Effect> {
    FreeAgent(r.(tasks := r.tasks[t.id := t]), t.assignedTo).effects + [TaskUpdated(t)]
  }

  lemma FinishUnfolds(r: Registry, t: Task)
    requires WellFormed(r) && t.id in r.tasks && t.assignedTo == r.tasks[t.id].assignedTo
    ensures Finish(r, t).registry == Pass(Freed(r, t)).registry
    ensures Finish(r, t).effects == Announced(r, t) + Pass(Freed(r, t)).effects
  {
  }

  /** The registry a settlement runs its pass on. */
  function Freed(r: Registry, t: Task): (f: Registry)
    requires WellFormed(r) && t.id in r.tasks && t.assignedTo == r.tasks[t.id].assignedTo
    ensures WellFormed(f)
    ensures f.tasks == r.tasks[t.id := t] && f.taskOrder == r.taskOrder && f.agentOrder == r.agentOrder
    ensures t.assignedTo.Some? ==> f.agents == r.agents[t.assignedTo.value := AgentSlot(Idle, None)]
    ensures t.assignedTo.None? ==> f.agents == r.agents
  {
    FreeAgent(r.(tasks := r.tasks[t.id := t]), t.assignedTo).registry
  }

  function Settled(r: Registry, id: TaskId, result: Worker.WorkerResult, now: Time): Task
    requires id in r.tasks
  {
    r.tasks[id].(status := Completed, result := Some(result), completedAt := Some(now))
  }

  function Errored(r: Registry, id: TaskId, message: string, now: Time): Task
    requires id in r.tasks
  {
    r.tasks[id].(status := Failed, error := Some(message), completedAt := Some(now))
  }

  /** handleTaskCompletion; an unknown id changes nothing. */
  function Complete(r: Registry, id: TaskId, result: Worker.WorkerResult, now: Time): (s: Step)
    requires WellFormed(r)
    ensures s.registry.tasks.Keys == r.tasks.Keys && s.registry.agents.Keys == r.agents.Keys
    ensures id !in r.tasks ==> s == Step(r, [])
  {
    if id !in r.tasks then Step(r, []) else Finish(r, Settled(r, id, result, now))
  }

  /** handleTaskError; an unknown id changes nothing. */
  function Fail(r: Registry, id: TaskId, message: string, now: Time): (s: Step)
    requires WellFormed(r)
    ensures s.registry.tasks.Keys == r.tasks.Keys && s.registry.agents.Keys == r.agents.Keys
    ensures id !in r.tasks ==> s == Step(r, [])
  {
    if id !in r.tasks then Step(r, []) else Finish(r, Errored(r, id, message, now))
  }

  /** The two continuations attached to a dispatched worker's promise. */
  function OnSettled(r: Registry, id: TaskId, outcome: WorkerSettlement, now: Time): (s: Step)
    requires WellFormed(r)
    ensures s.registry.tasks.Keys == r.tasks.Keys && s.registry.agents.Keys == r.agents.Keys
  {
    match outcome
    case Fulfilled(result) => Complete(r, id, result, now)
    case Rejected(message) => Fail(r, id, message, now)
  }

  /** Settling a task, either way, keeps the registry well formed. */
  lemma SettleWellFormed(r: Registry, id: TaskId, outcome: WorkerSettlement, now: Time)
    requires WellFormed(r)
    ensures WellFormed(OnSettled(r, id, outcome, now).registry)
  {
    if id in r.tasks {
      match outcome {
        case Fulfilled(result) => PassWellFormed(Freed(r, Settled(r, id, result, now)));
        case Rejected(message) => PassWellFormed(Freed(r, Errored(r, id, message, now)));
      }
    }
  }

  lemma FinishPreservesCoherence(r: Registry, t: Task)
    requires Coherent(r) && t.id in r.tasks && r.tasks[t.id].status == InProgress
    requires t.assignedTo == r.tasks[t.id].assignedTo && t.status in {Completed, Failed}
    ensures Coherent(Finish(r, t).registry) && Saturated(Finish(r, t).registry)
  {
    var freed := Freed(r, t);
    FreedTasksAgree(r, t);
    FreedAgentsAgree(r, t);
    PassPreservesCoherence(freed);
    PassSaturates(freed);
  }

  lemma FreedTasksAgree(r: Registry, t: Task)
    requires Coherent(r) && t.id in r.tasks && r.tasks[t.id].status == InProgress
    requires t.assignedTo == r.tasks[t.id].assignedTo && t.status in {Completed, Failed}
    ensures TasksAgree(Freed(r, t))
  {
    ReleaseTasksAgree(r, t);
  }

  /** Settling an in-progress task and idling its agent keeps the task side
    * in agreement: no other in-progress task was held by that agent. */
  lemma ReleaseTasksAgree(r: Registry, t: Task)
    requires TasksAgree(r) && t.id in r.tasks && r.tasks[t.id].status == InProgress
    requires t.assignedTo == r.tasks[t.id].assignedTo && t.status in {Completed, Failed}
    ensures var a := t.assignedTo.value;
      TasksAgree(r.(tasks := r.tasks[t.id := t], agents := r.agents[a := AgentSlot(Idle, None)]))
  {
    var a := t.assignedTo.value;
    var f := r.(tasks := r.tasks[t.id := t], agents := r.agents[a := AgentSlot(Idle, None)]);
    forall id | id in f.tasks && f.tasks[id].status == InProgress
      ensures f.tasks[id].assignedTo.Some? && f.tasks[id].assignedTo.value in f.agents
      ensures f.agents[f.tasks[id].assignedTo.value] == AgentSlot(Working, Some(id))
    {
      assert id != t.id && f.tasks[id] == r.tasks[id];
      assert r.agents[r.tasks[id].assignedTo.value] == AgentSlot(Working, Some(id));
    }
  }

  lemma FreedAgentsAgree(r: Registry, t: Task)
    requires Coherent(r) && t.id in r.tasks && r.tasks[t.id].status == InProgress
    requires t.assignedTo == r.tasks[t.id].assignedTo && t.status in {Completed, Failed}
    ensures AgentsAgree(Freed(r, t))
  {
    ReleaseAgentsAgree(r, t);
  }

  /** ... and the agent side too: the idled agent holds nothing, and every
    * other holder keeps a task that is still in progress. */
  lemma ReleaseAgentsAgree(r: Registry, t: Task)
    requires TasksAgree(r) && AgentsAgree(r) && t.id in r.tasks && r.tasks[t.id].status == InProgress
    requires t.assignedTo == r.tasks[t.id].assignedTo && t.status in {Completed, Failed}
    ensures var a := t.assignedTo.value;
      AgentsAgree(r.(tasks := r.tasks[t.id := t], agents := r.agents[a := AgentSlot(Idle, None)]))
  {
    var a := t.assignedTo.value;
    assert r.agents[a] == AgentSlot(Working, Some(t.id));
    var f := r.(tasks := r.tasks[t.id := t], agents := r.agents[a := AgentSlot(Idle, None)]);
    forall b | b in f.agents && f.agents[b].currentTask.Some?
      ensures f.agents[b].currentTask.value in f.tasks
      ensures f.tasks[f.agents[b].currentTask.value].status == InProgress
      ensures f.tasks[f.agents[b].currentTask.value].assignedTo == Some(b)
    {
      assert b != a && f.agents[b] == r.agents[b];
      assert r.tasks[r.agents[b].currentTask.value].assignedTo == Some(b);
    }
  }

  /** Settling an in-progress task, either way, keeps the registry coherent
    * and saturated. */
  lemma SettlePreservesCoherence(r: Registry, id: TaskId, outcome: WorkerSettlement, now: Time)
    requires Coherent(r) && Saturated(r) && (id in r.tasks ==> r.tasks[id].status == InProgress)
    ensures Coherent(OnSettled(r, id, outcome, now).registry)
    ensures Saturated(OnSettled(r, id, outcome, now).registry)
  {
    if id in r.tasks {
      match outcome {
        case Fulfilled(result) => FinishPreservesCoherence(r, Settled(r, id, result, now));
        case Rejected(message) => FinishPreservesCoherence(r, Errored(r, id, message, now));
      }
    }
  }

  /** A pass leaves a task that is not pending as it was. */
  lemma PassKeepsSettled(r: Registry, t: Task)
    requires WellFormed(r) && t.id in r.tasks && r.tasks[t.id] == t && t.status != Pending
    ensures Pass(r).registry.tasks[t.id] == t
  {
    QueueIsQueueOf(r);
    PairOnlyDispatches(r, Queue(r), IdleList(r));
  }

  /** A completed task keeps its result through the pass that follows. */
  lemma CompleteRecordsResult(r: Registry, id: TaskId, result: Worker.WorkerResult, now: Time)
    requires WellFormed(r) && id in r.tasks
    ensures var t := Complete(r, id, result, now).registry.tasks[id];
      t.status == Completed && t.result == Some(result) && t.completedAt == Some(now)
  {
    var t := Settled(r, id, result, now);
    var f := Freed(r, t);
    PassKeepsSettled(f, t);
  }

  /** A failed task keeps its error message through the pass that follows. */
  lemma FailRecordsError(r: Registry, id: TaskId, message: string, now: Time)
    requires WellFormed(r) && id in r.tasks
    ensures var t := Fail(r, id, message, now).registry.tasks[id];
      t.status == Failed && t.error == Some(message) && t.completedAt == Some(now)
  {
    var t := Errored(r, id, message, now);
    var f := Freed(r, t);
    PassKeepsSettled(f, t);
  }

  // ---------------------------------------------------------------------
  // A released agent takes the next queued task at once.

  lemma {:induction false} PendingTasksIgnoresSettled(tasks: map<TaskId, Task>, order: seq<TaskId>, id: TaskId, t: Task)
    requires KeyedById(tasks) && id in tasks && tasks[id].status != Pending && t.status != Pending && t.id == id
    ensures PendingTasks(tasks[id := t], order) == PendingTasks(tasks, order)
  {
    if order != [] {
      PendingTasksIgnoresSettled(tasks, order[1..], id, t);
    }
  }

  lemma {:induction false} OnlyIdleAgent(agents: map<AgentId, AgentSlot>, order: seq<AgentId>, a: AgentId)
    requires Distinct(order) && a in order && a in agents && agents[a].status == Idle
    requires forall b :: b in agents && b != a ==> agents[b].status != Idle
    ensures IdleAgents(agents, order) == [a]
  {
    assert Distinct(order[1..]);
    if order[0] != a {
      OnlyIdleAgent(agents, order[1..], a);
    } else {
      assert a !in order[1..];
      NoIdleAgent(agents, order[1..]);
    }
  }

  lemma {:induction false} NoIdleAgent(agents: map<AgentId, AgentSlot>, order: seq<AgentId>)
    requires forall b :: b in order && b in agents ==> agents[b].status != Idle
    ensures IdleAgents(agents, order) == []
  {
    if order != [] {
      NoIdleAgent(agents, order[1..]);
    }
  }

  /** Releasing the agent of an in-progress task changes nothing the queue is built from. */
  lemma ReleaseKeepsQueue(r: Registry, t: Task)
    requires WellFormed(r) && t.id in r.tasks && r.tasks[t.id].status == InProgress
    requires t.status != Pending && t.assignedTo == r.tasks[t.id].assignedTo
    ensures Queue(Freed(r, t)) == Queue(r)
  {
    PendingTasksIgnoresSettled(r.tasks, r.taskOrder, t.id, t);
  }

  /** With work waiting, a saturated registry has no idle agent. */
  lemma WaitingWorkMeansNoIdle(r: Registry)
    requires WellFormed(r) && Saturated(r) && Queue(r) != []
    ensures forall b :: b in r.agents ==> r.agents[b].status != Idle
  {
    assert Queue(r)[0] in PendingTasks(r.tasks, r.taskOrder);
  }

  /** When no agent was idle, the released one is the only idle agent. */
  lemma ReleasedAgentIsOnlyIdle(r: Registry, t: Task)
    requires WellFormed(r) && t.id in r.tasks && t.assignedTo == r.tasks[t.id].assignedTo && t.assignedTo.Some?
    requires forall b :: b in r.agents ==> r.agents[b].status != Idle
    ensures IdleList(Freed(r, t)) == [t.assignedTo.value]
  {
    var f := Freed(r, t);
    OnlyIdleAgent(f.agents, f.agentOrder, t.assignedTo.value);
  }

  /** The pass after a release hands the released agent the head of the queue. */
  lemma ReleasedAgentTakesHead(r: Registry, t: Task)
    requires WellFormed(r) && t.id in r.tasks && r.tasks[t.id].status == InProgress
    requires t.status != Pending && t.assignedTo == r.tasks[t.id].assignedTo && t.assignedTo.Some?
    requires Queue(r) != [] && forall b :: b in r.agents ==> r.agents[b].status != Idle
    ensures var a, s := t.assignedTo.value, Finish(r, t).registry;
      && Queue(r)[0].id in s.tasks && a in s.agents
      && s.agents[a] == AgentSlot(Working, Some(Queue(r)[0].id))
      && s.tasks[Queue(r)[0].id] == Assigned(Queue(r)[0], a)
  {
    var f := Freed(r, t);
    ReleaseKeepsQueue(r, t);
    ReleasedAgentIsOnlyIdle(r, t);
    QueueIsQueueOf(f);
    PairAssignsFirst(f, Queue(f), IdleList(f));
  }

  /** With nothing queued, the released agent stays idle. */
  lemma ReleasedAgentRests(r: Registry, t: Task)
    requires WellFormed(r) && t.id in r.tasks && r.tasks[t.id].status == InProgress
    requires t.status != Pending && t.assignedTo == r.tasks[t.id].assignedTo && t.assignedTo.Some?
    requires Queue(r) == []
    ensures var a, s := t.assignedTo.value, Finish(r, t).registry;
      a in s.agents && s.agents[a] == AgentSlot(Idle, None)
  {
    ReleaseKeepsQueue(r, t);
  }

  /** Completing a task of a saturated registry releases its agent, which
    * takes the head of the queue if any task is waiting. */
  lemma CompletionCascades(r: Registry, id: TaskId, result: Worker.WorkerResult, now: Time)
    requires Coherent(r) && Saturated(r)
    requires id in r.tasks && r.tasks[id].status == InProgress
    ensures var a := r.tasks[id].assignedTo.value; var s := Complete(r, id, result, now).registry;
      && a in s.agents
      && s.tasks[id].status == Completed && s.tasks[id].result == Some(result)
      && (Queue(r) == [] ==> s.agents[a] == AgentSlot(Idle, None))
      && (Queue(r) != [] ==>
            && Queue(r)[0].id in s.tasks
            && s.agents[a] == AgentSlot(Working, Some(Queue(r)[0].id))
            && s.tasks[Queue(r)[0].id] == Assigned(Queue(r)[0], a))
  {
    var t := Settled(r, id, result, now);
    CompleteRecordsResult(r, id, result, now);
    if Queue(r) != [] {
      WaitingWorkMeansNoIdle(r);
      ReleasedAgentTakesHead(r, t);
    } else {
      ReleasedAgentRests(r, t);
    }
  }

  // ---------------------------------------------------------------------
  // How many tasks run at once.

  function InProgressIds(r: Registry): set<TaskId> {
    set id | id in r.tasks && r.tasks[id].status == InProgress
  }

  lemma {:induction false} InjectionBound<X, Y>(xs: set<X>, ys: set<Y>, f: X -> Y)
    requires forall x :: x in xs ==> f(x) in ys
    requires forall x, y :: x in xs && y in xs && f(x) == f(y) ==> x == y
    ensures |xs| <= |ys|
    decreases xs
  {
    if xs != {} {
      var x :| x in xs;
      InjectionBound(xs - {x}, ys - {f(x)}, f);
    }
  }

  /** A coherent registry never runs more tasks than it has agents. */
  lemma InProgressAtMostAgents(r: Registry)
    requires Coherent(r)
    ensures |InProgressIds(r)| <= |r.agents.Keys|
  {
    var holder := (id: TaskId) =>
      if id in r.tasks && r.tasks[id].assignedTo.Some? then r.tasks[id].assignedTo.value else "";
    InjectionBound(InProgressIds(r), r.agents.Keys, holder);
  }

  /** A fresh manager never runs more than three tasks at once. */
  lemma AtMostThreeRunning(r: Registry)
    requires Coherent(r) && r.agents.Keys == Initial().agents.Keys
    ensures |InProgressIds(r)| <= 3
  {
    OrderCoversKeys(Initial().agentOrder, Initial().agents.Keys);
    InProgressAtMostAgents(r);
  }

  // ---------------------------------------------------------------------
  // Reading the registry.

  /** The tasks stored under the ids of order, in that order. */
  function Lookup(tasks: map<TaskId, Task>, order: seq<TaskId>): (ts: seq<Task>)
    requires forall id :: id in order ==> id in tasks
    ensures |ts| == |order|
    ensures forall i :: 0 <= i < |ts| ==> ts[i] == tasks[order[i]]
    ensures forall id :: id in order ==> tasks[id] in ts
    ensures forall t :: t in ts ==> exists id :: id in order && tasks[id] == t
  {
    if order == [] then [] else [tasks[order[0]]] + Lookup(tasks, order[1..])
  }

  /** getTasks: every task once, in creation order. */
  function GetTasks(r: Registry): (ts: seq<Task>)
    requires WellFormed(r)
    ensures |ts| == |r.tasks.Keys| && |ts| == |r.taskOrder|
    ensures forall i :: 0 <= i < |ts| ==> ts[i].id == r.taskOrder[i]
    ensures forall id :: id in r.tasks ==> r.tasks[id] in ts
    ensures forall t :: t in ts ==> t.id in r.tasks && r.tasks[t.id] == t
  {
    OrderCoversKeys(r.taskOrder, r.tasks.Keys);
    Lookup(r.tasks, r.taskOrder)
  }

  lemma {:induction false} OrderCoversKeys<K>(order: seq<K>, keys: set<K>)
    requires Distinct(order) && forall k :: k in keys <==> k in order
    ensures |keys| == |order|
  {
    if order != [] {
      assert Distinct(order[1..]);
      assert order[0] !in order[1..];
      OrderCoversKeys(order[1..], keys - {order[0]});
    }
  }

  datatype AgentView = AgentView(id: AgentId, status: AgentStatus, currentTask: Option<Task>)

  /** One agent as getAgentStatus reports it: its current task is looked up
    * in the task map at the time of the call. */
  function View(r: Registry, a: AgentId): AgentView
    requires a in r.agents
  {
    var slot := r.agents[a];
    AgentView(a, slot.status,
      if slot.currentTask.Some? && slot.currentTask.value in r.tasks then Some(r.tasks[slot.currentTask.value]) else None)
  }

  function GetAgentStatus(r: Registry): (vs: seq<AgentView>)
    requires WellFormed(r)
    ensures |vs| == |r.agentOrder|
    ensures forall i :: 0 <= i < |vs| ==> vs[i].id == r.agentOrder[i] && vs[i].status == r.agents[r.agentOrder[i]].status
  {
    seq(|r.agentOrder|, i requires 0 <= i < |r.agentOrder| => View(r, r.agentOrder[i]))
  }

  /** In a coherent registry each reported agent is working exactly when it
    * reports a task, and that task is live, in progress and assigned to it. */
  lemma AgentStatusIsLive(r: Registry)
    requires Coherent(r)
    ensures forall v :: v in GetAgentStatus(r) ==>
      && (v.currentTask.Some? <==> v.status == Working)
      && (v.currentTask.Some? ==>
            v.currentTask.value.status == InProgress && v.currentTask.value.assignedTo == Some(v.id) &&
            v.currentTask.value.id in r.tasks && r.tasks[v.currentTask.value.id] == v.currentTask.value)
  {
    forall v | v in GetAgentStatus(r)
      ensures v.currentTask.Some? <==> v.status == Working
    {
      var i :| 0 <= i < |r.agentOrder| && GetAgentStatus(r)[i] == v;
      assert v == View(r, r.agentOrder[i]);
    }
  }

  /** getAgent: the pooled agent's handle, which the model identifies by its id. */
  function GetAgent(r: Registry, id: AgentId): (h: Option<AgentId>)
    ensures h.Some? <==> id in r.agents
    ensures h.Some? ==> h.value == id
  {
    if id in r.agents then Some(id) else None
  }

  // ---------------------------------------------------------------------
  // The pool.

  function AgentName(n: nat): AgentId {
    "agent-" + NatToString(n)
  }

  lemma AgentNameInjective(m: nat, n: nat)
    requires AgentName(m) == AgentName(n)
    ensures m == n
  {
    assert NatToString(m) == AgentName(m)[6..];
    assert NatToString(n) == AgentName(n)[6..];
    NatToStringInjective(m, n);
  }

  /** The ids initializeAgents gives: agent-1 … agent-count, all different. */
  function AgentNames(count: nat): (names: seq<AgentId>)
    ensures |names| == count && Distinct(names)
    ensures forall i :: 0 <= i < count ==> names[i] == AgentName(i + 1)
  {
    if count == 0 then []
    else
      var prev := AgentNames(count - 1);
      assert AgentName(count) !in prev by {
        if AgentName(count) in prev {
          var i :| 0 <= i < count - 1 && prev[i] == AgentName(count);
          AgentNameInjective(i + 1, count);
        }
      }
      prev + [AgentName(count)]
  }

  /** The pool after construction: every named agent idle and holding nothing. */
  function Pool(names: seq<AgentId>): (agents: map<AgentId, AgentSlot>)
    ensures forall a :: a in agents <==> a in names
    ensures forall a :: a in agents ==> agents[a] == AgentSlot(Idle, None)
  {
    map a | a in names :: AgentSlot(Idle, None)
  }

  /** A fresh manager: three idle agents and no task. */
  function Initial(): (r: Registry)
    ensures Coherent(r) && r.tasks == map[]
    ensures r.agentOrder == [AgentName(1), AgentName(2), AgentName(3)]
  {
    Registry(map[], [], Pool(AgentNames(3)), AgentNames(3))
  }

  /** One iteration of initializeAgents: Map.set of an idle slot, which keeps
    * an existing key at its place in the iteration order. */
  function AddAgent(r: Registry, a: AgentId): Registry {
    r.(agents := r.agents[a := AgentSlot(Idle, None)],
       agentOrder := if a in r.agents then r.agentOrder else r.agentOrder + [a])
  }

  function AddAgents(r: Registry, names: seq<AgentId>): Registry
    decreases |names|
  {
    if names == [] then r
    else AddAgent(AddAgents(r, names[..|names| - 1]), names[|names| - 1])
  }

  function Empty(): Registry {
    Registry(map[], [], map[], [])
  }

  /** Adding distinct names to an empty manager gives the pool of those names. */
  lemma {:induction false} AddAgentsToEmpty(names: seq<AgentId>)
    requires Distinct(names)
    ensures AddAgents(Empty(), names) == Registry(map[], [], Pool(names), names)
    decreases |names|
  {
    if names != [] {
      var init, x := names[..|names| - 1], names[|names| - 1];
      assert Distinct(init);
      AddAgentsToEmpty(init);
      assert x !in init;
      assert init + [x] == names;
      assert Pool(init)[x := AgentSlot(Idle, None)] == Pool(names);
    }
  }

  /** One Map.set of an idle slot keeps a registry well formed. */
  lemma AddAgentWellFormed(r: Registry, a: AgentId)
    requires WellFormed(r)
    ensures WellFormed(AddAgent(r, a))
  {
    if a !in r.agents {
      DistinctAppend(r.agentOrder, a);
    }
  }

  /** Adding agents keeps a registry well formed and leaves its tasks alone. */
  lemma {:induction false} AddAgentsWellFormed(r: Registry, names: seq<AgentId>)
    requires WellFormed(r)
    ensures var r1 := AddAgents(r, names);
      WellFormed(r1) && r1.tasks == r.tasks && r1.taskOrder == r.taskOrder
    decreases |names|
  {
    if names != [] {
      var init := names[..|names| - 1];
      AddAgentsWellFormed(r, init);
      AddAgentWellFormed(AddAgents(r, init), names[|names| - 1]);
    }
  }

  /** After adding agents the pool holds the old agents and every new name,
    * each new name idle: an agent that held a task is reset, which is why
    * only fresh names keep a registry coherent. */
  lemma {:induction false} AddAgentsSlots(r: Registry, names: seq<AgentId>)
    ensures var r1 := AddAgents(r, names);
      && (forall a :: a in r1.agents <==> a in r.agents || a in names)
      && (forall a :: a in names ==> r1.agents[a] == AgentSlot(Idle, None))
    decreases |names|
  {
    if names != [] {
      var init := names[..|names| - 1];
      AddAgentsSlots(r, init);
      var x := names[|names| - 1];
      forall a | a in names ensures a == x || a in init {
        var i :| 0 <= i < |names| && names[i] == a;
        if i < |names| - 1 {
          assert init[i] == a;
        }
      }
    }
  }

  /** The constructor's three calls make exactly the initial pool. */
  lemma ConstructorBuildsInitial()
    ensures AddAgents(Empty(), AgentNames(3)) == Initial()
  {
    AddAgentsToEmpty(AgentNames(3));
  }

  // ---------------------------------------------------------------------
  // Scenarios.

  /** On a fresh manager, the queue after creating one task is that task
    * and agent-1 heads the idle list. */
  lemma FirstTaskQueue(t: Task)
    requires t.status == Pending && t.assignedTo == None && t.id !in Initial().tasks
    ensures var r1 := Recorded(Initial(), t);
      Queue(r1) == [t] && IdleList(r1) != [] && IdleList(r1)[0] == AgentName(1)
  {
    var r1 := Recorded(Initial(), t);
    assert r1.taskOrder == [t.id];
    assert PendingTasks(r1.tasks, r1.taskOrder) == [t];
    assert AgentName(1) in r1.agentOrder && r1.agentOrder[0] == AgentName(1);
    assert AgentName(1) in IdleList(r1);
  }

  /** A first task created on a fresh manager goes to agent-1 at once. */
  lemma FirstTaskGoesToFirstAgent(id: TaskId, description: string, priority: Option<Priority>, now: Time)
    ensures var t, s := NewTask(id, description, priority, now), Create(Initial(), id, description, priority, now).registry;
      && s.tasks[id] == Assigned(t, AgentName(1))
      && s.agents[AgentName(1)] == AgentSlot(Working, Some(id))
  {
    var t := NewTask(id, description, priority, now);
    var r1 := Recorded(Initial(), t);
    FirstTaskQueue(t);
    QueueIsQueueOf(r1);
    PairAssignsFirst(r1, Queue(r1), IdleList(r1));
  }

  /** ... and getAgentStatus then reports agent-1 working on it. */
  lemma FirstTaskIsReported(id: TaskId, description: string, priority: Option<Priority>, now: Time)
    ensures var t, s := NewTask(id, description, priority, now), Create(Initial(), id, description, priority, now).registry;
      WellFormed(s) && GetAgentStatus(s)[0] == AgentView(AgentName(1), Working, Some(Assigned(t, AgentName(1))))
  {
    CreateWellFormed(Initial(), id, description, priority, now);
    FirstTaskGoesToFirstAgent(id, description, priority, now);
  }

  /** The claude step exiting with a non-zero code leaves the task completed,
    * not failed, with a failed result that carries the process's stderr. */
  lemma ClaudeExitFailureIsRecordedAsCompleted(r: Registry, id: TaskId, code: Option<nat>, output: string, stderr: string, now: Time)
    requires WellFormed(r) && id in r.tasks && code != Some(0)
    ensures var result := Worker.PipelineResult(id, Worker.Done, ProcessOutcome.CloseOutcome(code, output, stderr), Worker.Done);
            var t := Complete(r, id, result, now).registry.tasks[id];
      && t.status == Completed
      && t.result.Some? && t.result.value.Failure?
      && Contains(t.result.value.error, stderr)
  {
    var result := Worker.PipelineResult(id, Worker.Done, ProcessOutcome.CloseOutcome(code, output, stderr), Worker.Done);
    CompleteRecordsResult(r, id, result, now);
    SuffixIsContained(stderr, result.error);
  }
}
