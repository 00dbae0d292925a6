/**
 * `ClaudeCodeTool` (gaia-manager copy): the older tool. The child is a local of
 * `executeTask`, so nothing outside one run can write to it; every write is immediate
 * (no timers, no periodic rescan); one `yes` answers a confirmation prompt; and in direct
 * mode stdin is ended right after the description is written.
 */
module SimpleSupervisor {
  import opened Wrappers
  import opened Strings
  import opened ProcessOutcome
  import Supervisor

  /** The alternatives of this copy's case-insensitive confirmation regular expression. */
  const ConfirmationPattern: seq<string> := ["[Y/n]", "(Y/n)", "yes/no", "confirm", "continue?"]

  predicate IsConfirmationPrompt(chunk: string) {
    MatchesAnyIgnoringCase(chunk, ConfirmationPattern)
  }

  /** The stdin payloads one stdout chunk provokes, in order. */
  function ChunkWrites(useDirectCLI: bool, chunk: string, description: string): (ws: seq<string>)
    ensures Supervisor.IsBootstrap(useDirectCLI, chunk) ==> |ws| > 0 && ws[0] == description + "\n"
    ensures IsConfirmationPrompt(chunk) ==> |ws| > 0 && ws[|ws| - 1] == "yes\n"
    ensures |ws| == (if Supervisor.IsBootstrap(useDirectCLI, chunk) then 1 else 0)
                     + (if IsConfirmationPrompt(chunk) then 1 else 0)
  {
    (if Supervisor.IsBootstrap(useDirectCLI, chunk) then [description + "\n"] else [])
    + (if IsConfirmationPrompt(chunk) then ["yes\n"] else [])
  }

  /** Every prompt this copy answers, the backend copy answers too. */
  lemma NewerToolAnswersOlderPrompts(chunk: string)
    requires IsConfirmationPrompt(chunk)
    ensures Supervisor.IsConfirmationPrompt(chunk)
  {
    var k :| 0 <= k < |ConfirmationPattern| && Contains(Lower(chunk), Lower(ConfirmationPattern[k]));
    assert ConfirmationPattern == Supervisor.ConfirmationPattern[..5];
    assert ConfirmationPattern[k] == Supervisor.ConfirmationPattern[k];
  }

  class ClaudeCodeTool {
    const claudeCodePath: string
    const useDirectCLI: bool

    /** Direct mode exactly when the wrapper script does not exist. */
    constructor (claudeCodePath: string, scriptExists: bool)
      ensures this.claudeCodePath == claudeCodePath
      ensures useDirectCLI == !scriptExists
    {
      this.claudeCodePath := claudeCodePath;
      useDirectCLI := !scriptExists;
    }

    /** Spawns the child; in direct mode writes the description and then ends stdin. */
    method ExecuteTask(description: string) returns (run: TaskRun)
      ensures fresh(run) && run.Valid()
      ensures run.useDirectCLI == useDirectCLI && run.description == description
      ensures run.command == Supervisor.Command(useDirectCLI, claudeCodePath)
      ensures run.stdin == (if useDirectCLI then [description + "\n"] else [])
      ensures run.outputData == "" && run.errorData == "" && run.settlement == None
    {
      run := new TaskRun(useDirectCLI, description, Supervisor.Command(useDirectCLI, claudeCodePath));
      if useDirectCLI {
        run.WriteDescriptionAndEnd();
      }
    }
  }

  /**
   * One call of `executeTask`: its closure's buffers, the local child's stdin (the
   * payloads written and how many were written before `stdin.end()`), and the promise.
   */
  class TaskRun {
    const useDirectCLI: bool
    const description: string
    const command: Supervisor.SpawnCommand
    var stdin: seq<string>
    var stdinEndedAfter: Option<nat>
    var outputData: string
    var errorData: string
    var settlement: Option<Settlement>

    /** In direct mode stdin was ended right after the description; in wrapped mode it is never ended. */
    ghost predicate Valid()
      reads this
    {
      if useDirectCLI then |stdin| >= 1 && stdin[0] == description + "\n" && stdinEndedAfter == Some(1)
      else stdinEndedAfter == None
    }

    constructor (useDirectCLI: bool, description: string, command: Supervisor.SpawnCommand)
      ensures this.useDirectCLI == useDirectCLI && this.description == description && this.command == command
      ensures stdin == [] && stdinEndedAfter == None
      ensures outputData == "" && errorData == "" && settlement == None
      ensures !useDirectCLI ==> Valid()
    {
      this.useDirectCLI := useDirectCLI;
      this.description := description;
      this.command := command;
      stdin := [];
      stdinEndedAfter := None;
      outputData := "";
      errorData := "";
      settlement := None;
    }

    method WriteDescriptionAndEnd()
      requires useDirectCLI && stdin == [] && stdinEndedAfter == None
      modifies this
      ensures Valid() && stdin == [description + "\n"]
      ensures outputData == old(outputData) && errorData == old(errorData) && settlement == old(settlement)
    {
      stdin := stdin + [description + "\n"];
      stdinEndedAfter := Some(|stdin|);
    }

    /**
     * A stdout chunk: appended to the output and answered as ChunkWrites says. In direct
     * mode every answer is written after stdin was ended.
     */
    method OnStdout(chunk: string)
      requires Valid()
      modifies this
      ensures Valid()
      ensures outputData == old(outputData) + chunk
      ensures stdin == old(stdin) + ChunkWrites(useDirectCLI, chunk, description)
      ensures stdinEndedAfter == old(stdinEndedAfter)
      ensures useDirectCLI ==> stdinEndedAfter.value <= |old(stdin)|
      ensures errorData == old(errorData) && settlement == old(settlement)
    {
      outputData := outputData + chunk;
      if !useDirectCLI && Contains(chunk, Supervisor.BootstrapPrompt) {
        stdin := stdin + [description + "\n"];
      }
      if IsConfirmationPrompt(chunk) {
        stdin := stdin + ["yes\n"];
      }
    }

    method OnStderr(chunk: string)
      modifies this
      ensures errorData == old(errorData) + chunk
      ensures outputData == old(outputData) && stdin == old(stdin)
      ensures stdinEndedAfter == old(stdinEndedAfter) && settlement == old(settlement)
    {
      errorData := errorData + chunk;
    }

    /** 'close': settles the promise from the exit code. */
    method OnClose(code: Option<nat>)
      modifies this
      ensures settlement == Supervisor.SettleOnce(old(settlement), CloseOutcome(code, outputData, errorData))
      ensures outputData == old(outputData) && errorData == old(errorData)
      ensures stdin == old(stdin) && stdinEndedAfter == old(stdinEndedAfter)
    {
      settlement := Supervisor.SettleOnce(settlement, CloseOutcome(code, outputData, errorData));
    }

    /** 'error': the child could not be started. */
    method OnError(message: string)
      modifies this
      ensures settlement == Supervisor.SettleOnce(old(settlement), SpawnFailure(message))
      ensures outputData == old(outputData) && errorData == old(errorData)
      ensures stdin == old(stdin) && stdinEndedAfter == old(stdinEndedAfter)
    {
      settlement := Supervisor.SettleOnce(settlement, SpawnFailure(message));
    }
  }
}
