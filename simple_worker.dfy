/**
 * `SubAgent` (gaia-manager copy): the same pipeline and results as the backend copy, but
 * its progress records carry no level, and its catch only writes to the console: no
 * `Task error` record closes a failed run.
 */
module SimpleWorker {
  import opened ProcessOutcome
  import opened Worker

  /** One `agent:progress` record of this copy: no level field. */
  datatype Record = Record(agentId: string, taskId: string, message: string, timestamp: Time)

  /** The two records `processWithClaude` emits from its `start`-th timestamp on. */
  function ClaudeRecords(agentId: string, description: string, claude: Settlement, clock: nat -> Time, start: nat): seq<Record> {
    [ Record(agentId, "claude", "Sending task to Claude: " + description, clock(start)),
      match claude
      case Resolved(_) => Record(agentId, "claude", "Received response from Claude", clock(start + 1))
      case Rejected(message) => Record(agentId, "claude", "Error from Claude: " + message, clock(start + 1)) ]
  }

  method ProcessWithClaude(agentId: string, description: string, claude: Settlement, clock: nat -> Time, start: nat)
    returns (outcome: Settlement, emitted: seq<Record>)
    ensures outcome == claude
    ensures emitted == ClaudeRecords(agentId, description, claude, clock, start)
  {
    emitted := [Record(agentId, "claude", "Sending task to Claude: " + description, clock(start))];
    match claude
    case Resolved(output) =>
      emitted := emitted + [Record(agentId, "claude", "Received response from Claude", clock(start + 1))];
      outcome := claude;
    case Rejected(message) =>
      emitted := emitted + [Record(agentId, "claude", "Error from Claude: " + message, clock(start + 1))];
      outcome := Rejected(message);
  }

  /** The `agent:progress` records of a run, the i-th stamped `clock(i)`: a failure adds none. */
  function Trace(agentId: string, taskId: string, description: string,
                 branch: StepOutcome, claude: Settlement, commit: StepOutcome, clock: nat -> Time): seq<Record>
  {
    var start := [Record(agentId, taskId, StartMessage(agentId, description), clock(0))];
    var b := BranchName(taskId);
    if branch.Threw? then start
    else
      var body := start + [Record(agentId, taskId, BranchCreatedMessage(b), clock(1))]
                        + ClaudeRecords(agentId, description, claude, clock, 2);
      if claude.Rejected? || commit.Threw? then body
      else body + [Record(agentId, taskId, CommittedMessage(b), clock(4))]
  }

  /**
   * `executeTask`: never rejects; steps in a fixed order, a failing step stops the ones
   * after it, and the only record about a failure is Claude's own "Error from Claude".
   */
  method ExecuteTask(agentId: string, taskId: string, description: string,
                     branch: StepOutcome, claude: Settlement, commit: StepOutcome, clock: nat -> Time)
    returns (result: WorkerResult, calls: seq<Call>, emitted: seq<Record>)
    ensures result == PipelineResult(taskId, branch, claude, commit)
    ensures calls == FullPlan(taskId, description)[..CallCount(branch, claude)]
    ensures emitted == Trace(agentId, taskId, description, branch, claude, commit, clock)
  {
    emitted := [Record(agentId, taskId, StartMessage(agentId, description), clock(0))];
    var branchName := BranchName(taskId);
    calls := [CreateBranch(branchName)];
    if branch.Threw? {
      result := Failure(branch.message);
      return;
    }
    emitted := emitted + [Record(agentId, taskId, BranchCreatedMessage(branchName), clock(1))];
    calls := calls + [RunClaude(description)];
    var outcome, claudeRecords := ProcessWithClaude(agentId, description, claude, clock, 2);
    emitted := emitted + claudeRecords;
    if outcome.Rejected? {
      result := Failure(outcome.message);
      return;
    }
    calls := calls + [CommitChanges(CommitMessage(description))];
    if commit.Threw? {
      result := Failure(commit.message);
      return;
    }
    emitted := emitted + [Record(agentId, taskId, CommittedMessage(branchName), clock(4))];
    result := Success(branchName, SuccessMessage(branchName));
  }

  /** Every record comes from the worker's own agent and the i-th carries `clock(i)`; a
    * run that fails at the branch leaves only the start record, one that fails later
    * leaves four, and only a successful one ends with the commit report. */
  lemma TraceShape(agentId: string, taskId: string, description: string,
                   branch: StepOutcome, claude: Settlement, commit: StepOutcome, clock: nat -> Time)
    ensures var e, r := Trace(agentId, taskId, description, branch, claude, commit, clock), PipelineResult(taskId, branch, claude, commit);
      && |e| == (if branch.Threw? then 1 else if r.Failure? then 4 else 5)
      && e[0] == Record(agentId, taskId, StartMessage(agentId, description), clock(0))
      && (forall i :: 0 <= i < |e| ==> e[i].agentId == agentId && e[i].timestamp == clock(i))
      && (r.Success? <==> |e| == 5 && e[4] == Record(agentId, taskId, CommittedMessage(r.branchName), clock(4)))
  {
  }
}
