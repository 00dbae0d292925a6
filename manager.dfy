/**
 * `AgentManager` (backend copy) as a class whose fields are the two JS Maps, each split
 * into its contents and its insertion order, plus the trace of what it broadcast on
 * the socket and which agent it handed each task to. Every method is proved against
 * the function of module Scheduling that describes the same operation. The public
 * methods also keep the registry well formed, and state the coherence and saturation
 * they keep (proved in Scheduling); the helpers `AssignInTurn` and `Release` state only
 * their equality with `Pair` and `Finish`.
 */
module Manager {
  import opened Wrappers
  import opened Scheduling
  import Worker

  class AgentManager {
    var tasks: map<TaskId, Task>
    var taskOrder: seq<TaskId>
    var agents: map<AgentId, AgentSlot>
    var agentOrder: seq<AgentId>
    /** Broadcasts and hand-offs, oldest first. */
    var effects: seq<Effect>

    /** The two Maps as a value. */
    function Snapshot(): Registry
      reads this
    {
      Registry(tasks, taskOrder, agents, agentOrder)
    }

    ghost predicate Valid()
      reads this
    {
      WellFormed(Snapshot())
    }

    /** Tasks and agents agree, and no task waits while an agent idles. */
    ghost predicate Consistent()
      reads this
    {
      Coherent(Snapshot()) && Saturated(Snapshot())
    }

    /** A fresh manager: agent-1, agent-2 and agent-3, idle, and no task. */
    constructor ()
      ensures Snapshot() == Initial() && effects == []
      ensures Valid() && Consistent()
    {
      tasks := map[];
      taskOrder := [];
      agents := map[];
      agentOrder := [];
      effects := [];
      new;
      InitializeAgents(3);
      ConstructorBuildsInitial();
    }

    /**
     * Sets `agent-1` … `agent-count` idle. Map.set keeps a key that is already present
     * at its place in the iteration order, so only a new id is appended to the order.
     */
    method InitializeAgents(count: nat)
      modifies this
      ensures Snapshot() == AddAgents(old(Snapshot()), AgentNames(count))
      ensures effects == old(effects)
    {
      var i := 0;
      while i < count
        invariant 0 <= i <= count
        invariant Snapshot() == AddAgents(old(Snapshot()), AgentNames(i))
        invariant effects == old(effects)
      {
        var agentId := AgentName(i + 1);
        assert AgentNames(i + 1)[..i] == AgentNames(i);
        if agentId !in agents {
          agentOrder := agentOrder + [agentId];
        }
        agents := agents[agentId := AgentSlot(Idle, None)];
        i := i + 1;
      }
    }

    /**
     * Stores a new pending task under `freshId` (the uuid the caller drew), broadcasts
     * it, runs an assignment pass and returns the id.
     */
    method CreateTask(description: string, priority: Option<Priority>, freshId: TaskId, now: Time)
      returns (taskId: TaskId)
      requires Valid() && freshId !in tasks
      modifies this
      ensures taskId == freshId && taskId in tasks
      ensures Snapshot() == Create(old(Snapshot()), freshId, description, priority, now).registry
      ensures effects == old(effects) + Create(old(Snapshot()), freshId, description, priority, now).effects
      ensures Valid()
      ensures old(Consistent()) ==> Consistent()
    {
      ghost var r := Snapshot();
      var task := NewTask(freshId, description, priority, now);
      tasks := tasks[freshId := task];
      taskOrder := taskOrder + [freshId];
      effects := effects + [TaskCreated(task)];
      ghost var recorded := Snapshot();
      assert recorded == Recorded(r, task);
      AssignPendingTasks();
      taskId := freshId;
      Associative(old(effects), [TaskCreated(task)], Pass(recorded).effects);
      CreateWellFormed(r, freshId, description, priority, now);
      if old(Consistent()) {
        CreatePreservesCoherence(r, freshId, description, priority, now);
      }
    }

    /**
     * The pending tasks, best priority first and oldest first within a priority, go
     * one by one to the idle agents in pool order until either list runs out; each
     * hand-off is broadcast for the task, then for the agent, and then the worker is
     * started.
     */
    method AssignPendingTasks()
      requires Valid()
      modifies this
      ensures Snapshot() == Pass(old(Snapshot())).registry
      ensures effects == old(effects) + Pass(old(Snapshot())).effects
      ensures Valid()
      ensures old(Coherent(Snapshot())) ==> Consistent()
    {
      ghost var r0 := Snapshot();
      var pendingTasks := SortByPriority(PendingTasks(tasks, taskOrder));
      var availableAgents := IdleAgents(agents, agentOrder);
      AssignInTurn(pendingTasks, availableAgents);
      PassIsPair(r0);
      PassWellFormed(r0);
      if Coherent(r0) {
        PassPreservesCoherence(r0);
        PassSaturates(r0);
      }
    }

    /**
     * The while loop of `assignPendingTasks`: the head of the queue goes to the head
     * of the idle list, both are broadcast and the worker is started, until either
     * list runs out.
     */
    method AssignInTurn(pendingTasks: seq<Task>, availableAgents: seq<AgentId>)
      modifies this
      ensures Snapshot() == Pair(old(Snapshot()), pendingTasks, availableAgents).registry
      ensures effects == old(effects) + Pair(old(Snapshot()), pendingTasks, availableAgents).effects
    {
      var queue, idle := pendingTasks, availableAgents;
      while |queue| > 0 && |idle| > 0
        invariant Pair(Snapshot(), queue, idle).registry == Pair(old(Snapshot()), pendingTasks, availableAgents).registry
        invariant effects + Pair(Snapshot(), queue, idle).effects
               == old(effects) + Pair(old(Snapshot()), pendingTasks, availableAgents).effects
        decreases |queue|
      {
        ghost var before := Snapshot();
        ghost var beforeEffects := effects;
        PairStep(before, queue, idle);
        var task := queue[0];
        queue := queue[1..];
        var agentId := idle[0];
        idle := idle[1..];
        var updated := task.(status := InProgress, assignedTo := Some(agentId));
        tasks := tasks[task.id := updated];
        agents := agents[agentId := AgentSlot(Working, Some(task.id))];
        var round := [TaskUpdated(updated), AgentUpdated(agentId, Working, Some(task.id)), Dispatched(agentId, updated)];
        effects := effects + round;
        assert Snapshot() == Round(before, task, agentId);
        assert effects + Pair(Snapshot(), queue, idle).effects
            == beforeEffects + (round + Pair(Snapshot(), queue, idle).effects);
      }
      PairDone(Snapshot(), queue, idle);
    }

    /**
     * A worker's result: the task is completed with it, its agent goes idle, both are
     * broadcast, and another pass runs. An unknown id changes nothing.
     */
    method HandleTaskCompletion(taskId: TaskId, result: Worker.WorkerResult, now: Time)
      requires Valid()
      modifies this
      ensures Snapshot() == Complete(old(Snapshot()), taskId, result, now).registry
      ensures effects == old(effects) + Complete(old(Snapshot()), taskId, result, now).effects
      ensures Valid()
      ensures old(Consistent()) && (taskId in old(tasks) ==> old(tasks)[taskId].status == InProgress) ==> Consistent()
    {
      if taskId !in tasks {
        return;
      }
      var task := tasks[taskId].(status := Completed, result := Some(result), completedAt := Some(now));
      Release(task);
      SettleWellFormed(old(Snapshot()), taskId, Fulfilled(result), now);
      if old(Consistent()) && old(tasks)[taskId].status == InProgress {
        SettlePreservesCoherence(old(Snapshot()), taskId, Fulfilled(result), now);
      }
    }

    /**
     * A worker's rejection: the task fails with the error's message, its agent goes
     * idle, both are broadcast, and another pass runs. An unknown id changes nothing.
     */
    method HandleTaskError(taskId: TaskId, message: string, now: Time)
      requires Valid()
      modifies this
      ensures Snapshot() == Fail(old(Snapshot()), taskId, message, now).registry
      ensures effects == old(effects) + Fail(old(Snapshot()), taskId, message, now).effects
      ensures Valid()
      ensures old(Consistent()) && (taskId in old(tasks) ==> old(tasks)[taskId].status == InProgress) ==> Consistent()
    {
      if taskId !in tasks {
        return;
      }
      var task := tasks[taskId].(status := Failed, error := Some(message), completedAt := Some(now));
      Release(task);
      SettleWellFormed(old(Snapshot()), taskId, Rejected(message), now);
      if old(Consistent()) && old(tasks)[taskId].status == InProgress {
        SettlePreservesCoherence(old(Snapshot()), taskId, Rejected(message), now);
      }
    }

    /** The common tail of the two handlers: store the settled task, idle its agent,
      * broadcast, and run a pass. */
    method Release(task: Task)
      requires Valid() && task.id in tasks && task.assignedTo == tasks[task.id].assignedTo
      modifies this
      ensures Snapshot() == Finish(old(Snapshot()), task).registry
      ensures effects == old(effects) + Finish(old(Snapshot()), task).effects
    {
      ghost var r := Snapshot();
      tasks := tasks[task.id := task];
      var agentId := task.assignedTo;
      if agentId.Some? {
        agents := agents[agentId.value := AgentSlot(Idle, None)];
        effects := effects + [AgentUpdated(agentId.value, Idle, None)];
      }
      effects := effects + [TaskUpdated(task)];
      ghost var freed, announced := Snapshot(), effects;
      assert freed == Freed(r, task);
      assert announced == old(effects) + Announced(r, task);
      AssignPendingTasks();
      FinishUnfolds(r, task);
      Associative(old(effects), Announced(r, task), Pass(freed).effects);
    }

    /** The continuations a hand-off attaches to the worker's promise. */
    method Settle(taskId: TaskId, outcome: WorkerSettlement, now: Time)
      requires Valid()
      modifies this
      ensures Snapshot() == OnSettled(old(Snapshot()), taskId, outcome, now).registry
      ensures effects == old(effects) + OnSettled(old(Snapshot()), taskId, outcome, now).effects
      ensures Valid()
      ensures old(Consistent()) && (taskId in old(tasks) ==> old(tasks)[taskId].status == InProgress) ==> Consistent()
    {
      match outcome
      case Fulfilled(result) => HandleTaskCompletion(taskId, result, now);
      case Rejected(message) => HandleTaskError(taskId, message, now);
    }

    /** Every stored task once, in creation order. */
    method GetTasks() returns (ts: seq<Task>)
      requires Valid()
      ensures ts == Scheduling.GetTasks(Snapshot())
      ensures |ts| == |tasks.Keys| && |ts| == |taskOrder|
      ensures forall i :: 0 <= i < |ts| ==> ts[i].id == taskOrder[i]
      ensures forall id :: id in tasks ==> tasks[id] in ts
      ensures forall t :: t in ts ==> t.id in tasks && tasks[t.id] == t
    {
      ts := Scheduling.GetTasks(Snapshot());
    }

    /** Each agent in pool order with its status and its current task looked up. */
    method GetAgentStatus() returns (vs: seq<AgentView>)
      requires Valid()
      ensures vs == Scheduling.GetAgentStatus(Snapshot())
      ensures |vs| == |agentOrder|
      ensures forall i :: 0 <= i < |vs| ==> vs[i].id == agentOrder[i] && vs[i].status == agents[agentOrder[i]].status
    {
      vs := Scheduling.GetAgentStatus(Snapshot());
    }

    /** The pooled agent under `agentId`, or none. */
    method GetAgent(agentId: AgentId) returns (h: Option<AgentId>)
      ensures h == Scheduling.GetAgent(Snapshot(), agentId)
      ensures h.Some? <==> agentId in agents
    {
      if agentId in agents {
        h := Some(agentId);
      } else {
        h := None;
      }
    }
  }

  lemma Associative<T>(a: seq<T>, b: seq<T>, c: seq<T>)
    ensures (a + b) + c == a + (b + c)
  {
  }
}
