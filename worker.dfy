/**
 * `SubAgent` (backend copy): runs one task as branch, then Claude, then commit, and turns
 * every failure into a failed result instead of a rejection.
 *
 * The version-control calls and the Claude run are abstract collaborators whose outcomes
 * are parameters; the method returns the calls it made, in order, and the `agent:progress`
 * records it emitted. `clock(i)` is the timestamp of the i-th record.
 */
module Worker {
  import opened Strings
  import opened ProcessOutcome

  type Time = nat

  datatype Level = Info | Warn | Error

  /** One `agent:progress` record. */
  datatype Progress = Progress(agentId: string, taskId: string, message: string, level: Level, timestamp: Time)

  /** How an awaited version-control call ended. */
  datatype StepOutcome = Done | Threw(message: string)

  datatype Call = CreateBranch(name: string) | RunClaude(description: string) | CommitChanges(message: string)

  /** `{success: true, branchName, message}` or `{success: false, error}`. */
  datatype WorkerResult = Success(branchName: string, message: string) | Failure(error: string)

  /** `task-` and the first eight characters of the task id (all of it when shorter). */
  function BranchName(taskId: string): (b: string)
    ensures IsPrefix("task-", b)
    ensures |b| == 5 + (if |taskId| < 8 then |taskId| else 8)
    ensures IsPrefix(b[5..], taskId)
  {
    "task-" + (if |taskId| <= 8 then taskId else taskId[..8])
  }

  function CommitMessage(description: string): string {
    "Implement task: " + description
  }

  function SuccessMessage(branchName: string): string {
    "Task completed successfully on branch " + branchName
  }

  // The `agent:progress` messages of a run.

  function StartMessage(agentId: string, description: string): string {
    "Agent " + agentId + " starting task: " + description
  }

  function BranchCreatedMessage(branchName: string): string {
    "Created branch: " + branchName
  }

  function CommittedMessage(branchName: string): string {
    "Committed changes to branch: " + branchName
  }

  function TaskErrorMessage(error: string): string {
    "Task error: " + error
  }

  /** The calls of a run that fails nowhere, in the order they are made. */
  function FullPlan(taskId: string, description: string): seq<Call> {
    [CreateBranch(BranchName(taskId)), RunClaude(description), CommitChanges(CommitMessage(description))]
  }

  /** The result of a run: success only when all three steps succeed; otherwise the first failure's message. */
  function PipelineResult(taskId: string, branch: StepOutcome, claude: Settlement, commit: StepOutcome): (r: WorkerResult)
    ensures r.Success? <==> branch.Done? && claude.Resolved? && commit.Done?
    ensures r.Success? ==> r.branchName == BranchName(taskId) && r.message == SuccessMessage(BranchName(taskId))
    ensures branch.Threw? ==> r == Failure(branch.message)
    ensures branch.Done? && claude.Rejected? ==> r == Failure(claude.message)
    ensures branch.Done? && claude.Resolved? && commit.Threw? ==> r == Failure(commit.message)
  {
    if branch.Threw? then Failure(branch.message)
    else if claude.Rejected? then Failure(claude.message)
    else if commit.Threw? then Failure(commit.message)
    else Success(BranchName(taskId), SuccessMessage(BranchName(taskId)))
  }

  /** `updateProgress`: the record it emits; the level is `info` unless given. */
  function UpdateProgress(agentId: string, taskId: string, message: string, timestamp: Time, level: Level := Info): (p: Progress)
    ensures p.agentId == agentId && p.taskId == taskId && p.message == message
    ensures p.level == level && p.timestamp == timestamp
  {
    Progress(agentId, taskId, message, level, timestamp)
  }

  /** The two records `processWithClaude` emits from its `start`-th timestamp on. */
  function ClaudeRecords(agentId: string, description: string, claude: Settlement, clock: nat -> Time, start: nat): seq<Progress> {
    [ UpdateProgress(agentId, "claude", "Sending task to Claude: " + description, clock(start)),
      match claude
      case Resolved(_) => UpdateProgress(agentId, "claude", "Received response from Claude", clock(start + 1))
      case Rejected(message) => UpdateProgress(agentId, "claude", "Error from Claude: " + message, clock(start + 1), Error) ]
  }

  /**
   * `processWithClaude`: announces the run, awaits it, reports the answer, and on a
   * rejection reports it at error level and passes the same error on.
   */
  method ProcessWithClaude(agentId: string, description: string, claude: Settlement, clock: nat -> Time, start: nat)
    returns (outcome: Settlement, emitted: seq<Progress>)
    ensures outcome == claude
    ensures emitted == ClaudeRecords(agentId, description, claude, clock, start)
  {
    emitted := [UpdateProgress(agentId, "claude", "Sending task to Claude: " + description, clock(start))];
    match claude
    case Resolved(output) =>
      emitted := emitted + [UpdateProgress(agentId, "claude", "Received response from Claude", clock(start + 1))];
      outcome := claude;
    case Rejected(message) =>
      emitted := emitted + [UpdateProgress(agentId, "claude", "Error from Claude: " + message, clock(start + 1), Error)];
      outcome := Rejected(message);
  }

  /** How many collaborator calls a run makes: a failing step stops the ones after it. */
  function CallCount(branch: StepOutcome, claude: Settlement): nat {
    if branch.Threw? then 1 else if claude.Rejected? then 2 else 3
  }

  /** The `agent:progress` records of a run, the i-th stamped `clock(i)`. */
  function Trace(agentId: string, taskId: string, description: string,
                 branch: StepOutcome, claude: Settlement, commit: StepOutcome, clock: nat -> Time): seq<Progress>
  {
    var start := [UpdateProgress(agentId, taskId, StartMessage(agentId, description), clock(0))];
    var b := BranchName(taskId);
    var r := PipelineResult(taskId, branch, claude, commit);
    var body :=
      if branch.Threw? then start
      else start + [UpdateProgress(agentId, taskId, BranchCreatedMessage(b), clock(1))]
                 + ClaudeRecords(agentId, description, claude, clock, 2);
    if r.Success? then body + [UpdateProgress(agentId, taskId, CommittedMessage(b), clock(4))]
    else body + [UpdateProgress(agentId, taskId, TaskErrorMessage(r.error), clock(|body|), Error)]
  }

  /**
   * `executeTask`: never rejects. The steps run in a fixed order and a failing step
   * stops the ones after it.
   */
  method ExecuteTask(agentId: string, taskId: string, description: string,
                     branch: StepOutcome, claude: Settlement, commit: StepOutcome, clock: nat -> Time)
    returns (result: WorkerResult, calls: seq<Call>, emitted: seq<Progress>)
    ensures result == PipelineResult(taskId, branch, claude, commit)
    ensures calls == FullPlan(taskId, description)[..CallCount(branch, claude)]
    ensures emitted == Trace(agentId, taskId, description, branch, claude, commit, clock)
  {
    emitted := [UpdateProgress(agentId, taskId, StartMessage(agentId, description), clock(0))];
    var branchName := BranchName(taskId);
    calls := [CreateBranch(branchName)];
    var error: string;
    if branch.Threw? {
      error := branch.message;
    } else {
      emitted := emitted + [UpdateProgress(agentId, taskId, BranchCreatedMessage(branchName), clock(1))];
      calls := calls + [RunClaude(description)];
      var outcome, claudeRecords := ProcessWithClaude(agentId, description, claude, clock, 2);
      emitted := emitted + claudeRecords;
      if outcome.Rejected? {
        error := outcome.message;
      } else {
        calls := calls + [CommitChanges(CommitMessage(description))];
        if commit.Threw? {
          error := commit.message;
        } else {
          emitted := emitted + [UpdateProgress(agentId, taskId, CommittedMessage(branchName), clock(4))];
          result := Success(branchName, SuccessMessage(branchName));
          return;
        }
      }
    }
    emitted := emitted + [UpdateProgress(agentId, taskId, TaskErrorMessage(error), clock(|emitted|), Error)];
    result := Failure(error);
  }

  /** A run calls the collaborators in plan order; it goes past the branch only when
    * that succeeded, and reaches the commit only when Claude resolved too. */
  lemma CallsFollowPlan(branch: StepOutcome, claude: Settlement)
    ensures 1 <= CallCount(branch, claude) <= 3
    ensures CallCount(branch, claude) >= 2 <==> branch.Done?
    ensures CallCount(branch, claude) == 3 <==> branch.Done? && claude.Resolved?
  {
  }

  /** Every record comes from the worker's own agent and the i-th carries `clock(i)`;
    * the first announces the task. */
  lemma TraceStamps(agentId: string, taskId: string, description: string,
                    branch: StepOutcome, claude: Settlement, commit: StepOutcome, clock: nat -> Time)
    ensures var e := Trace(agentId, taskId, description, branch, claude, commit, clock);
      && |e| == (if branch.Threw? then 2 else 5)
      && e[0] == Progress(agentId, taskId, StartMessage(agentId, description), Info, clock(0))
      && forall i :: 0 <= i < |e| ==> e[i].agentId == agentId && e[i].timestamp == clock(i)
  {
  }

  /** A failed run ends with the error-level "Task error" report of the result's error;
    * a successful one ends with the commit report and has no record above info. */
  lemma TraceEndsWithVerdict(agentId: string, taskId: string, description: string,
                             branch: StepOutcome, claude: Settlement, commit: StepOutcome, clock: nat -> Time)
    ensures var e, r := Trace(agentId, taskId, description, branch, claude, commit, clock), PipelineResult(taskId, branch, claude, commit);
      && |e| > 0
      && (r.Failure? ==> e[|e| - 1] == Progress(agentId, taskId, TaskErrorMessage(r.error), Error, clock(|e| - 1)))
      && (r.Success? ==>
            && e[|e| - 1] == Progress(agentId, taskId, CommittedMessage(r.branchName), Info, clock(|e| - 1))
            && forall i :: 0 <= i < |e| ==> e[i].level == Info)
  {
  }
}
