/**
 * `ClaudeCodeTool` (backend copy): spawns the Claude command-line program for one task,
 * feeds it the task description and answers its yes/no and permission prompts blind.
 *
 * The child process is abstract: the environment sets its `killed` and `stdinWritable`
 * flags, and every `stdin.write` the tool issues is appended to a trace as a
 * `StdinWrite(delayMs, payload)`, where `delayMs` is the `setTimeout` offset from the
 * event whose handler issued it (0 for a write made at once). The 2000 ms interval is
 * the explicit event `TaskRun.OnTick`.
 */
module Supervisor {
  import opened Wrappers
  import opened Strings
  import opened ProcessOutcome

  datatype StdinWrite = StdinWrite(delayMs: nat, payload: string)

  datatype SpawnCommand = SpawnCommand(command: string, args: seq<string>)

  /** The wrapper script prints this when it is ready to read the task. */
  const BootstrapPrompt := "Enter your programming task or question:"

  /** The alternatives of the case-insensitive confirmation regular expression. */
  const ConfirmationPattern: seq<string> :=
    ["[Y/n]", "(Y/n)", "yes/no", "confirm", "continue?", "Do you want to", "Would you like",
     "❯ Yes", "needs your permission"]

  /** Phrases (case-sensitive) that mark a chunk as a permission dialog. */
  const PermissionDialogPhrases: seq<string> := ["]9; Claude needs your permission", "Do you want to create"]

  /** Phrases (case-sensitive) the periodic rescan looks for in the whole output. */
  const PendingDialogPhrases: seq<string> := ["needs your permission", "Do you want to create", "❯ Yes"]

  const DownArrowEnter := "\U{1B}[B\n"
  const RetryDelayMs := 100

  /** Enter at once, then `y` Enter at 300 ms, then down-arrow Enter at 600 ms. */
  function DialogResponse(): seq<StdinWrite> {
    [StdinWrite(0, "\n"), StdinWrite(300, "y\n"), StdinWrite(600, DownArrowEnter)]
  }

  /** `yes` Enter at once, then Enter at 300 ms. */
  function PromptResponse(): seq<StdinWrite> {
    [StdinWrite(0, "yes\n"), StdinWrite(300, "\n")]
  }

  /** Payloads the tool sends on its own initiative, never the task description. */
  predicate IsAnswerPayload(p: string) {
    p == "\n" || p == "y\n" || p == DownArrowEnter || p == "yes\n"
  }

  /** Direct mode when the wrapper script is missing: `claude ask`; otherwise `node <script>`. */
  function Command(useDirectCLI: bool, scriptPath: string): (c: SpawnCommand)
    ensures c.command == "claude" <==> useDirectCLI
    ensures useDirectCLI ==> c.args == ["ask"]
    ensures !useDirectCLI ==> c == SpawnCommand("node", [scriptPath])
  {
    if useDirectCLI then SpawnCommand("claude", ["ask"]) else SpawnCommand("node", [scriptPath])
  }

  predicate IsPermissionDialog(chunk: string) {
    ContainsAny(chunk, PermissionDialogPhrases)
  }

  predicate IsConfirmationPrompt(chunk: string) {
    MatchesAnyIgnoringCase(chunk, ConfirmationPattern)
  }

  predicate HasPendingDialog(outputData: string) {
    ContainsAny(outputData, PendingDialogPhrases)
  }

  predicate IsBootstrap(useDirectCLI: bool, chunk: string) {
    !useDirectCLI && Contains(chunk, BootstrapPrompt)
  }

  /** The stdin writes one stdout chunk provokes: the bootstrap line, then the answer. */
  function ChunkWrites(useDirectCLI: bool, chunk: string, description: string): seq<StdinWrite> {
    BootstrapWrites(useDirectCLI, chunk, description) + AnswerWrites(chunk)
  }

  /**
   * The wrapper's prompt gets the task description first, on every match. A permission
   * dialog is answered with exactly the three dialog writes: the handler returns before
   * the generic check, so no `yes` follows. Any other confirmation prompt gets `yes` and
   * Enter, and a chunk that is neither gets at most the description. Direct mode never
   * sends the description from here.
   */
  lemma ChunkAnswers(useDirectCLI: bool, chunk: string, description: string)
    ensures var ws, lead := ChunkWrites(useDirectCLI, chunk, description),
                            if IsBootstrap(useDirectCLI, chunk) then [StdinWrite(0, description + "\n")] else [];
      && (useDirectCLI ==> lead == [])
      && (IsPermissionDialog(chunk) ==>
            ws == lead + [StdinWrite(0, "\n"), StdinWrite(300, "y\n"), StdinWrite(600, "\U{1B}[B\n")])
      && (!IsPermissionDialog(chunk) && IsConfirmationPrompt(chunk) ==>
            ws == lead + [StdinWrite(0, "yes\n"), StdinWrite(300, "\n")])
      && (!IsPermissionDialog(chunk) && !IsConfirmationPrompt(chunk) ==> ws == lead)
  {
  }

  /**
   * A permission dialog never gets the generic `yes` answer, although it matches the
   * pattern too: a `yes` line can only be the task description itself.
   */
  lemma DialogGetsNoYes(useDirectCLI: bool, chunk: string, description: string)
    requires IsPermissionDialog(chunk)
    ensures IsConfirmationPrompt(chunk)
    ensures forall w :: w in ChunkWrites(useDirectCLI, chunk, description) && w.payload == "yes\n" ==>
      w == StdinWrite(0, description + "\n")
    ensures forall w :: w in ChunkWrites(useDirectCLI, chunk, description) && w != StdinWrite(0, description + "\n") ==>
      IsAnswerPayload(w.payload) && w.payload != "yes\n"
  {
    DialogAlsoMatchesPrompt(chunk);
  }

  function BootstrapWrites(useDirectCLI: bool, chunk: string, description: string): seq<StdinWrite> {
    if IsBootstrap(useDirectCLI, chunk) then [StdinWrite(0, description + "\n")] else []
  }

  function AnswerWrites(chunk: string): seq<StdinWrite> {
    if IsPermissionDialog(chunk) then DialogResponse()
    else if IsConfirmationPrompt(chunk) then PromptResponse()
    else []
  }

  /** The stdin writes one tick of the 2000 ms interval provokes. */
  function TickWrites(outputData: string): (ws: seq<StdinWrite>)
    ensures ws == [] || ws == DialogResponse()
    ensures ws != [] <==> HasPendingDialog(outputData)
  {
    if HasPendingDialog(outputData) then DialogResponse() else []
  }

  /** What `sendInput` writes once its guards pass: the line, and one retry 100 ms later if refused. */
  function InputWrites(input: string, accepted: bool): (ws: seq<StdinWrite>)
    ensures 1 <= |ws| <= 2 && ws[0] == StdinWrite(0, input + "\n")
    ensures |ws| == 2 <==> !accepted
    ensures forall w :: w in ws ==> w.payload == input + "\n"
    ensures |ws| == 2 ==> ws[1].delayMs == RetryDelayMs
  {
    [StdinWrite(0, input + "\n")] + (if accepted then [] else [StdinWrite(RetryDelayMs, input + "\n")])
  }

  /** The promise settles once: a later 'close' or 'error' does not change the outcome. */
  function SettleOnce(current: Option<Settlement>, s: Settlement): (r: Option<Settlement>)
    ensures r.Some?
    ensures current.Some? ==> r == current
    ensures current.None? ==> r == Some(s)
  {
    if current.None? then Some(s) else current
  }

  /**
   * Every permission dialog also matches the generic confirmation pattern, so it is
   * the `return` after the dialog answer that keeps `yes` from being sent as well.
   */
  lemma DialogAlsoMatchesPrompt(chunk: string)
    requires IsPermissionDialog(chunk)
    ensures IsConfirmationPrompt(chunk)
  {
    var k :| 0 <= k < |PermissionDialogPhrases| && Contains(chunk, PermissionDialogPhrases[k]);
    var j := DialogPhraseHoldsPattern(k);
    ContainsTransitive(chunk, PermissionDialogPhrases[k], ConfirmationPattern[j]);
    PatternMatchIsPrompt(chunk, j);
  }

  /** Each permission-dialog phrase contains one of the confirmation alternatives. */
  lemma DialogPhraseHoldsPattern(k: nat) returns (j: nat)
    requires k < |PermissionDialogPhrases|
    ensures j < |ConfirmationPattern| && Contains(PermissionDialogPhrases[k], ConfirmationPattern[j])
  {
    if k == 0 {
      j := 8;
      assert PermissionDialogPhrases[0] == "]9; Claude " + ConfirmationPattern[8];
      SuffixIsContained(ConfirmationPattern[8], PermissionDialogPhrases[0]);
    } else {
      j := 5;
      assert PermissionDialogPhrases[1] == ConfirmationPattern[5] + " create";
      PrefixIsContained(ConfirmationPattern[5], PermissionDialogPhrases[1]);
    }
  }

  /** A case-sensitive hit of an alternative is a confirmation prompt. */
  lemma PatternMatchIsPrompt(chunk: string, j: nat)
    requires j < |ConfirmationPattern| && Contains(chunk, ConfirmationPattern[j])
    ensures IsConfirmationPrompt(chunk)
  {
    LowerKeepsContains(chunk, ConfirmationPattern[j]);
  }

  /** The "Do you want to create [Y/n]" chunk gets exactly the three-write dialog answer, in either mode. */
  lemma CreateDialogScenario(useDirectCLI: bool, chunk: string, description: string)
    requires chunk == "Do you want to create [Y/n]"
    ensures ChunkWrites(useDirectCLI, chunk, description) == DialogResponse()
  {
    ShorterDoesNotContain(chunk, BootstrapPrompt);
    assert BootstrapWrites(useDirectCLI, chunk, description) == [];
    assert chunk[..21] == PermissionDialogPhrases[1];
    assert Contains(chunk, PermissionDialogPhrases[1]);
    assert IsPermissionDialog(chunk);
    assert AnswerWrites(chunk) == DialogResponse();
  }

  /** The output buffer only grows, so once a rescan fires it fires on every later tick. */
  lemma RescanKeepsFiring(outputData: string, more: string)
    requires HasPendingDialog(outputData)
    ensures TickWrites(outputData + more) == DialogResponse()
  {
    var k :| 0 <= k < |PendingDialogPhrases| && Contains(outputData, PendingDialogPhrases[k]);
    ContainsAppend(outputData, more, PendingDialogPhrases[k]);
  }

  /**
   * Whatever came before, output that grows by the two halves of a pending phrase is
   * answered by the next tick, wherever the phrase was cut between characters.
   */
  lemma RescanCatchesAnySplit(outputData: string, first: string, second: string)
    requires first + second in PendingDialogPhrases
    ensures TickWrites(outputData + first + second) == DialogResponse()
  {
    var k :| 0 <= k < |PendingDialogPhrases| && PendingDialogPhrases[k] == first + second;
    var whole := outputData + first + second;
    assert whole[|outputData|..|outputData| + |first + second|] == first + second;
    ContainsAt(whole, first + second, |outputData|);
  }

  /**
   * An instance where the split matters: neither half is a permission dialog to the
   * per-chunk check, but the next tick finds the whole phrase in the output.
   */
  lemma RescanCatchesSplitPhrase()
    ensures !IsPermissionDialog("needs your") && !IsPermissionDialog(" permission")
    ensures TickWrites("needs your" + " permission") == DialogResponse()
  {
    forall k | 0 <= k < |PermissionDialogPhrases|
      ensures !Contains("needs your", PermissionDialogPhrases[k])
      ensures !Contains(" permission", PermissionDialogPhrases[k])
    {
      ShorterDoesNotContain("needs your", PermissionDialogPhrases[k]);
      ShorterDoesNotContain(" permission", PermissionDialogPhrases[k]);
    }
    var whole := "needs your" + " permission";
    assert whole[..|PendingDialogPhrases[0]|] == PendingDialogPhrases[0];
    assert Contains(whole, PendingDialogPhrases[0]);
  }

  /** The spawned child as the tool sees it. */
  class ChildProcess {
    var killed: bool
    var stdinWritable: bool
    var stdin: seq<StdinWrite>

    constructor ()
      ensures !killed && stdinWritable && stdin == []
    {
      killed := false;
      stdinWritable := true;
      stdin := [];
    }
  }

  class ClaudeCodeTool {
    const claudeCodePath: string
    const useDirectCLI: bool
    var claudeProcess: ChildProcess?

    /** The mode is fixed here, once: direct exactly when the wrapper script does not exist. */
    constructor (claudeCodePath: string, scriptExists: bool)
      ensures this.claudeCodePath == claudeCodePath
      ensures useDirectCLI == !scriptExists
      ensures claudeProcess == null
    {
      this.claudeCodePath := claudeCodePath;
      useDirectCLI := !scriptExists;
      claudeProcess := null;
    }

    /**
     * Sends one line to the running child. Refuses, writing nothing, when there is no
     * child, it was killed, or its stdin is no longer writable; otherwise reports success
     * even when the write was refused (`accepted` is what `stdin.write` returned).
     */
    method SendInput(input: string, accepted: bool) returns (sent: bool)
      modifies claudeProcess
      ensures claudeProcess == old(claudeProcess)
      ensures sent <==> old(claudeProcess) != null && !old(claudeProcess.killed) && old(claudeProcess.stdinWritable)
      ensures claudeProcess != null ==>
                && claudeProcess.killed == old(claudeProcess.killed)
                && claudeProcess.stdinWritable == old(claudeProcess.stdinWritable)
                && claudeProcess.stdin == old(claudeProcess.stdin) + (if sent then InputWrites(input, accepted) else [])
    {
      if claudeProcess == null {
        return false;
      }
      if claudeProcess.killed {
        return false;
      }
      if !claudeProcess.stdinWritable {
        return false;
      }
      claudeProcess.stdin := claudeProcess.stdin + [StdinWrite(0, input + "\n")];
      if !accepted {
        claudeProcess.stdin := claudeProcess.stdin + [StdinWrite(RetryDelayMs, input + "\n")];
      }
      return true;
    }

    /**
     * Spawns `child` for one task and installs the handlers. In direct mode the
     * description is written at once and stdin is left open; in wrapped mode nothing is
     * written until the script prints its prompt.
     */
    method ExecuteTask(description: string, child: ChildProcess) returns (run: TaskRun)
      requires child.stdin == []
      modifies this, child
      ensures fresh(run)
      ensures run.tool == this && run.child == child && run.description == description
      ensures run.command == Command(useDirectCLI, claudeCodePath)
      ensures claudeProcess == child
      ensures child.stdin == (if useDirectCLI then [StdinWrite(0, description + "\n")] else [])
      ensures child.killed == old(child.killed) && child.stdinWritable == old(child.stdinWritable)
      ensures run.outputData == "" && run.errorData == ""
      ensures run.intervalActive && run.settlement == None
    {
      claudeProcess := child;
      run := new TaskRun(this, child, description, Command(useDirectCLI, claudeCodePath));
      if useDirectCLI {
        child.stdin := child.stdin + [StdinWrite(0, description + "\n")];
      }
    }
  }

  /**
   * What one call of `executeTask` keeps in its closure: the two buffers, the interval
   * and the promise. The handlers write to the child the tool spawned for this call,
   * which is the tool's `claudeProcess` until the 'close' handler clears it.
   */
  class TaskRun {
    const tool: ClaudeCodeTool
    const child: ChildProcess
    const description: string
    const command: SpawnCommand
    var outputData: string
    var errorData: string
    var intervalActive: bool
    var settlement: Option<Settlement>

    constructor (tool: ClaudeCodeTool, child: ChildProcess, description: string, command: SpawnCommand)
      ensures this.tool == tool && this.child == child && this.description == description && this.command == command
      ensures outputData == "" && errorData == "" && intervalActive && settlement == None
    {
      this.tool := tool;
      this.child := child;
      this.description := description;
      this.command := command;
      outputData := "";
      errorData := "";
      intervalActive := true;
      settlement := None;
    }

    /** A stdout chunk: appended to the output, then answered as ChunkWrites says. */
    method OnStdout(chunk: string)
      modifies this, child
      ensures outputData == old(outputData) + chunk
      ensures child.stdin == old(child.stdin) + ChunkWrites(tool.useDirectCLI, chunk, description)
      ensures errorData == old(errorData) && intervalActive == old(intervalActive) && settlement == old(settlement)
      ensures child.killed == old(child.killed) && child.stdinWritable == old(child.stdinWritable)
    {
      outputData := outputData + chunk;
      if !tool.useDirectCLI && Contains(chunk, BootstrapPrompt) {
        child.stdin := child.stdin + [StdinWrite(0, description + "\n")];
      }
      if IsPermissionDialog(chunk) {
        child.stdin := child.stdin + DialogResponse();
      } else if IsConfirmationPrompt(chunk) {
        child.stdin := child.stdin + PromptResponse();
      }
    }

    /** A stderr chunk: only accumulated. */
    method OnStderr(chunk: string)
      modifies this
      ensures errorData == old(errorData) + chunk
      ensures outputData == old(outputData) && intervalActive == old(intervalActive) && settlement == old(settlement)
    {
      errorData := errorData + chunk;
    }

    /** One tick of the interval: rescans the whole output while the interval is active. */
    method OnTick()
      modifies child
      ensures child.stdin == old(child.stdin) + (if intervalActive then TickWrites(outputData) else [])
      ensures child.killed == old(child.killed) && child.stdinWritable == old(child.stdinWritable)
    {
      if intervalActive && HasPendingDialog(outputData) {
        child.stdin := child.stdin + DialogResponse();
      }
    }

    /** 'close': stops the interval, forgets the child, and settles the promise. */
    method OnClose(code: Option<nat>)
      modifies this, tool
      ensures !intervalActive && tool.claudeProcess == null
      ensures settlement == SettleOnce(old(settlement), CloseOutcome(code, outputData, errorData))
      ensures outputData == old(outputData) && errorData == old(errorData)
    {
      intervalActive := false;
      tool.claudeProcess := null;
      settlement := SettleOnce(settlement, ProcessOutcome.CloseOutcome(code, outputData, errorData));
    }

    /** 'error': settles the promise; the interval keeps running and the tool keeps the child. */
    method OnError(message: string)
      modifies this
      ensures settlement == SettleOnce(old(settlement), SpawnFailure(message))
      ensures intervalActive == old(intervalActive)
      ensures outputData == old(outputData) && errorData == old(errorData)
    {
      settlement := SettleOnce(settlement, SpawnFailure(message));
    }
  }
}
