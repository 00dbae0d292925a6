/**
 * How the promise returned by `ClaudeCodeTool.executeTask` settles: the 'close' and
 * 'error' handlers of the spawned child. Both copies of the tool decide it the same way.
 */
module ProcessOutcome {
  import opened Wrappers
  import opened Strings

  datatype Settlement = Resolved(output: string) | Rejected(message: string)

  const ExitPrefix := "Claude process exited with code "
  const SpawnPrefix := "Failed to start Claude process: "

  /** `${code}` for the code of a 'close' event; Node passes null when a signal ended the child. */
  function CodeText(code: Option<nat>): string {
    match code
    case Some(c) => NatToString(c)
    case None => "null"
  }

  /** 'close': exit code 0 resolves with all of stdout, anything else rejects with the code and all of stderr. */
  function CloseOutcome(code: Option<nat>, outputData: string, errorData: string): (s: Settlement)
    ensures s.Resolved? <==> code == Some(0)
    ensures s.Resolved? ==> s.output == outputData
    ensures s.Rejected? ==> IsPrefix(ExitPrefix, s.message) && IsSuffix(errorData, s.message)
  {
    if code == Some(0) then Resolved(outputData)
    else Rejected(ExitPrefix + CodeText(code) + ": " + errorData)
  }

  /** 'error' (the child could not be started). */
  function SpawnFailure(message: string): (s: Settlement)
    ensures s.Rejected? && IsPrefix(SpawnPrefix, s.message) && IsSuffix(message, s.message)
    ensures |s.message| == |SpawnPrefix| + |message|
  {
    Rejected(SpawnPrefix + message)
  }

  /** Reads the error text back out of a rejection message built by SpawnFailure. */
  function ParseSpawnMessage(m: string): Option<string> {
    if IsPrefix(SpawnPrefix, m) then Some(m[|SpawnPrefix|..]) else None
  }

  /** The number of decimal digits `s` starts with. */
  function LeadingDigits(s: string): (n: nat)
    ensures n <= |s| && AllDigits(s[..n])
    ensures n < |s| ==> !IsDigit(s[n])
    decreases |s|
  {
    if s == [] || !IsDigit(s[0]) then 0 else 1 + LeadingDigits(s[1..])
  }

  /** Reads the exit code and the stderr text back out of a rejection message built by CloseOutcome. */
  function ParseExitMessage(m: string): Option<(Option<nat>, string)> {
    if !IsPrefix(ExitPrefix, m) then None
    else
      var rest := m[|ExitPrefix|..];
      if IsPrefix("null: ", rest) then Some((None, rest[6..]))
      else
        var n := LeadingDigits(rest);
        if n == 0 || !IsPrefix(": ", rest[n..]) then None
        else Some((Some(DigitsValue(rest[..n])), rest[n + 2..]))
  }

  lemma {:induction false} LeadingDigitsOf(digits: string, tail: string)
    requires AllDigits(digits)
    requires tail == [] || !IsDigit(tail[0])
    ensures LeadingDigits(digits + tail) == |digits|
    decreases |digits|
  {
    if digits != [] {
      assert (digits + tail)[1..] == digits[1..] + tail;
      LeadingDigitsOf(digits[1..], tail);
    }
  }

  lemma ParseNullExit(errorData: string)
    ensures ParseExitMessage(ExitPrefix + "null" + ": " + errorData) == Some((None, errorData))
  {
    var m := ExitPrefix + "null" + ": " + errorData;
    assert m[..|ExitPrefix|] == ExitPrefix;
    var rest := m[|ExitPrefix|..];
    assert rest == "null: " + errorData;
    assert rest[..6] == "null: ";
    assert rest[6..] == errorData;
  }

  lemma ParseNumericExit(c: nat, errorData: string)
    ensures ParseExitMessage(ExitPrefix + NatToString(c) + ": " + errorData) == Some((Some(c), errorData))
  {
    var text := NatToString(c);
    var m := ExitPrefix + text + ": " + errorData;
    assert m[..|ExitPrefix|] == ExitPrefix;
    var rest := m[|ExitPrefix|..];
    assert rest == text + (": " + errorData);
    assert rest[0] == text[0] && IsDigit(text[0]);
    assert !IsPrefix("null: ", rest);
    LeadingDigitsOf(text, ": " + errorData);
    assert rest[..|text|] == text;
    assert rest[|text|..] == ": " + errorData;
    assert rest[|text| + 2..] == errorData;
    NatToStringRoundTrip(c);
  }

  /** A non-zero exit loses nothing: the rejection carries the exit code and the whole of stderr. */
  lemma ExitMessageRoundTrip(code: Option<nat>, outputData: string, errorData: string)
    requires code != Some(0)
    ensures ParseExitMessage(CloseOutcome(code, outputData, errorData).message) == Some((code, errorData))
  {
    match code
    case None => ParseNullExit(errorData);
    case Some(c) => ParseNumericExit(c, errorData);
  }

  /**
   * A spawn failure loses nothing, and the two kinds of rejection cannot be mistaken
   * for each other: a spawn failure does not read as an exit, nor an exit as a spawn failure.
   */
  lemma SpawnMessageRoundTrip(message: string, code: Option<nat>, outputData: string, errorData: string)
    requires code != Some(0)
    ensures ParseSpawnMessage(SpawnFailure(message).message) == Some(message)
    ensures ParseExitMessage(SpawnFailure(message).message) == None
    ensures ParseSpawnMessage(CloseOutcome(code, outputData, errorData).message) == None
  {
    var m := SpawnFailure(message).message;
    assert m[..|SpawnPrefix|] == SpawnPrefix;
    assert m[0] == 'F' && ExitPrefix[0] == 'C';
    var e := CloseOutcome(code, outputData, errorData).message;
    assert e[0] == 'C' && SpawnPrefix[0] == 'F';
  }
}
