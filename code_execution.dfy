/**
 * The code execution tool (tools/code_execution.py): one persistent
 * interpreter session per runtime, code written to its standard input with
 * an end-marker command after it, and the output read back line by line and
 * cleaned up. The subprocess is abstract: what `readline` yields is a
 * sequence of reads, and whether the process has exited is a parameter.
 */
module CodeExecution {
  import opened Wrappers
  import opened Text

  const MaxLen := 50000
  const TruncationNote := "\n\n[Output truncated at 50000 characters]"
  const NoOutput := "[No output]"
  /** The interactive prompt artifacts removed from the output, in this order. */
  const Prompts: seq<string> := [">>> ", "... ", "> ", "$ "]

  /** The runtimes of `RUNTIME_COMMANDS`. */
  predicate KnownRuntime(runtime: string) {
    runtime == "python" || runtime == "shell" || runtime == "node"
  }

  /** The command that prints the end marker after the code. */
  function SentinelCommand(runtime: string, marker: string): string {
    if runtime == "python" then "\nprint('" + marker + "')\n"
    else if runtime == "node" then "\nconsole.log('" + marker + "')\n"
    else "\necho '" + marker + "'\n"
  }

  /** One `readline` under `wait_for`: a line (empty at end of stream), or the timeout. */
  datatype Read = Line(text: string) | Timeout

  /** The read that ends the loop: end of stream, a line holding the marker, or the timeout. */
  predicate Stops(r: Read, marker: string) {
    r.Timeout? || r.text == "" || Contains(r.text, marker)
  }

  /**
   * The lines the reading loop keeps, and whether it ended by timing out. The
   * kept lines are the reads before the first stopping read, none of them
   * empty or holding the marker; running out of reads counts as end of
   * stream.
   */
  function Collected(stream: seq<Read>, marker: string): (c: (seq<string>, bool))
    ensures |c.0| <= |stream|
    ensures forall i :: 0 <= i < |c.0| ==> stream[i] == Line(c.0[i]) && !Stops(stream[i], marker)
    ensures |c.0| < |stream| ==> Stops(stream[|c.0|], marker)
    ensures c.1 <==> |c.0| < |stream| && stream[|c.0|].Timeout?
  {
    if stream == [] || Stops(stream[0], marker) then ([], stream != [] && stream[0].Timeout?)
    else
      var rest := Collected(stream[1..], marker);
      ([stream[0].text] + rest.0, rest.1)
  }

  function TimeoutNote(timeout: string): string {
    "\n[Execution timed out after " + timeout + "s]"
  }

  /** `s.replace(p, "")`; replacing the empty string by itself changes nothing. */
  function Remove(s: string, p: string): (r: string)
    ensures |r| <= |s|
  {
    if p == [] then s else ReplaceEmptyShorter(s, p); ReplaceAll(s, p, "")
  }

  /** Each prompt artifact removed in turn. */
  function RemovePrompts(s: string, prompts: seq<string>): (r: string)
    ensures |r| <= |s|
    decreases |prompts|
  {
    if prompts == [] then s else RemovePrompts(Remove(s, prompts[0]), prompts[1..])
  }

  /** The tail of `run`: truncation at 50000 characters, and "[No output]" for nothing. */
  function Finish(output: string): string {
    if |output| > MaxLen then output[..MaxLen] + TruncationNote
    else if output == [] then NoOutput
    else output
  }

  /** The joined lines, with the timeout note when the loop timed out. */
  function RawOutput(stream: seq<Read>, marker: string, timeout: string): string {
    var c := Collected(stream, marker);
    Join(if c.1 then c.0 + [TimeoutNote(timeout)] else c.0, "")
  }

  /** The stripped output with the prompt artifacts removed. */
  function Cleaned(stream: seq<Read>, marker: string, timeout: string): string {
    RemovePrompts(Strip(RawOutput(stream, marker, timeout)), Prompts)
  }

  /** What `run` returns for this stream of reads. */
  function RunOutput(stream: seq<Read>, marker: string, timeout: string): string {
    Finish(Cleaned(stream, marker, timeout))
  }

  lemma {:induction false} ReplaceEmptyShorter(s: string, pat: string)
    requires pat != []
    ensures |ReplaceAll(s, pat, "")| <= |s|
    decreases |s|
  {
    if |s| >= |pat| {
      if s[..|pat|] == pat {
        ReplaceEmptyShorter(s[|pat|..], pat);
      } else {
        ReplaceEmptyShorter(s[1..], pat);
      }
    }
  }

  /**
   * The output is never empty and never longer than the limit plus the
   * truncation note. Cleaning never lengthens the stripped text, a cut
   * output keeps the first 50000 characters of the cleaned text, and an
   * empty one becomes "[No output]".
   */
  lemma RunOutputBounds(stream: seq<Read>, marker: string, timeout: string)
    ensures var r := RunOutput(stream, marker, timeout);
      r != [] && |r| <= MaxLen + |TruncationNote|
    ensures |Cleaned(stream, marker, timeout)| <= |Strip(RawOutput(stream, marker, timeout))|
    ensures var cleaned := Cleaned(stream, marker, timeout);
      (|cleaned| > MaxLen ==> RunOutput(stream, marker, timeout) == cleaned[..MaxLen] + TruncationNote)
      && (cleaned == [] ==> RunOutput(stream, marker, timeout) == NoOutput)
      && (0 < |cleaned| <= MaxLen ==> RunOutput(stream, marker, timeout) == cleaned)
  {
  }

  /** Reading stops at the first line holding the marker: what follows it is never read. */
  lemma MarkerEndsReading(before: seq<string>, markerLine: string, after: seq<Read>, marker: string)
    requires forall i :: 0 <= i < |before| ==> before[i] != "" && !Contains(before[i], marker)
    requires Contains(markerLine, marker)
    ensures Collected(seq(|before|, i requires 0 <= i < |before| => Line(before[i])) + [Line(markerLine)] + after, marker)
      == (before, false)
  {
    var stream := seq(|before|, i requires 0 <= i < |before| => Line(before[i])) + [Line(markerLine)] + after;
    var c := Collected(stream, marker);
    assert Stops(stream[|before|], marker);
    if |c.0| < |before| {
      assert false;
    }
    assert |c.0| == |before|;
    assert forall i :: 0 <= i < |before| ==> stream[i] == Line(before[i]) == Line(c.0[i]);
    assert c.0 == before;
  }

  /** One interpreter session. */
  class PersistentSession {
    const runtime: string
    /** A started process that has not been seen to exit. */
    var hasProcess: bool
    var starts: nat
    /** Everything written to the process's standard input, one entry per run. */
    var inputs: seq<string>

    /** Only a known runtime ever gets a process. */
    predicate Valid()
      reads this
    {
      hasProcess ==> KnownRuntime(runtime)
    }

    constructor(runtime: string)
      ensures Valid() && this.runtime == runtime && !hasProcess && starts == 0 && inputs == []
    {
      this.runtime := runtime;
      hasProcess := false;
      starts := 0;
      inputs := [];
    }

    /**
     * `run(code)`: the process is (re)started if there is none or it has
     * exited, then the code and the marker command are written and the
     * output is read back. Starting an unknown runtime raises.
     */
    method Run(code: string, marker: string, exited: bool, stream: seq<Read>, timeout: string) returns (r: Result<string>)
      requires Valid()
      modifies this
      ensures Valid()
      ensures !(old(hasProcess) && !exited) && !KnownRuntime(runtime) ==>
        r == Failure("Unknown runtime: " + runtime) && inputs == old(inputs) && starts == old(starts)
        && hasProcess == old(hasProcess)
      ensures old(hasProcess) && !exited ==>
        starts == old(starts) && hasProcess && inputs == old(inputs) + [code + SentinelCommand(runtime, marker)]
        && r == Success(RunOutput(stream, marker, timeout))
      ensures !(old(hasProcess) && !exited) && KnownRuntime(runtime) ==>
        starts == old(starts) + 1 && hasProcess && inputs == old(inputs) + [code + SentinelCommand(runtime, marker)]
        && r == Success(RunOutput(stream, marker, timeout))
    {
      if !hasProcess || exited {
        if !KnownRuntime(runtime) {
          return Failure("Unknown runtime: " + runtime);
        }
        hasProcess := true;
        starts := starts + 1;
      }
      inputs := inputs + [code + SentinelCommand(runtime, marker)];
      var output := ReadBack(stream, marker, timeout);
      r := Success(output);
    }
  }

  /** The output half of `run`: read, join, strip, remove the prompts, truncate. */
  method ReadBack(stream: seq<Read>, marker: string, timeout: string) returns (output: string)
    ensures output == RunOutput(stream, marker, timeout)
  {
    var lines, timedOut := ReadOutput(stream, marker);
    if timedOut {
      lines := lines + [TimeoutNote(timeout)];
    }
    output := RemoveAllPrompts(Strip(Join(lines, "")));
    if |output| > MaxLen {
      output := output[..MaxLen] + TruncationNote;
    } else if output == [] {
      output := NoOutput;
    }
  }

  /** The loop over the prompt artifacts. */
  method RemoveAllPrompts(text: string) returns (output: string)
    ensures output == RemovePrompts(text, Prompts)
  {
    output := text;
    var i := 0;
    while i < |Prompts|
      invariant 0 <= i <= |Prompts|
      invariant RemovePrompts(output, Prompts[i..]) == RemovePrompts(text, Prompts)
    {
      assert Prompts[i..][1..] == Prompts[i + 1..];
      output := Remove(output, Prompts[i]);
      i := i + 1;
    }
  }

  /** The reading loop of `run`. */
  method ReadOutput(stream: seq<Read>, marker: string) returns (lines: seq<string>, timedOut: bool)
    ensures (lines, timedOut) == Collected(stream, marker)
  {
    lines := [];
    timedOut := false;
    var i := 0;
    var done := false;
    assert stream[0..] == stream;
    while i < |stream| && !done
      invariant 0 <= i <= |stream|
      invariant !done ==> !timedOut && Collected(stream, marker).0 == lines + Collected(stream[i..], marker).0
      invariant !done ==> Collected(stream, marker).1 == Collected(stream[i..], marker).1
      invariant done ==> (lines, timedOut) == Collected(stream, marker)
    {
      var read := stream[i];
      CollectedAt(stream, marker, i);
      if read.Timeout? {
        timedOut := true;
        done := true;
        assert lines + [] == lines;
      } else if read.text == "" || Contains(read.text, marker) {
        done := true;
        assert lines + [] == lines;
      } else {
        AppendAssoc(lines, [read.text], Collected(stream[i + 1..], marker).0);
        lines := lines + [read.text];
      }
      i := i + 1;
    }
    if !done {
      assert stream[i..] == [];
      assert lines + [] == lines;
    }
  }

  /** The reading loop's step: a stopping read ends it, any other read is kept. */
  lemma CollectedAt(stream: seq<Read>, marker: string, i: nat)
    requires i < |stream|
    ensures Stops(stream[i], marker) ==> Collected(stream[i..], marker) == ([], stream[i].Timeout?)
    ensures !Stops(stream[i], marker) ==>
      Collected(stream[i..], marker) == ([stream[i].text] + Collected(stream[i + 1..], marker).0, Collected(stream[i + 1..], marker).1)
  {
    assert stream[i..][0] == stream[i];
    assert stream[i..][1..] == stream[i + 1..];
  }

  /** The runtime sessions kept in the agent context's "sessions" entry, by runtime. */
  class SessionTable {
    var sessions: map<string, PersistentSession>

    predicate Valid()
      reads this, sessions.Values
    {
      forall rt :: rt in sessions ==> sessions[rt].runtime == rt && sessions[rt].Valid()
    }

    constructor()
      ensures Valid() && sessions == map[]
    {
      sessions := map[];
    }

    /** The runtime's session, created and stored when there is none yet. */
    method SessionFor(rt: string) returns (s: PersistentSession)
      requires Valid()
      modifies this
      ensures Valid() && rt in sessions && s == sessions[rt] && s.runtime == rt
      ensures rt in old(sessions) ==> sessions == old(sessions)
      ensures rt !in old(sessions) ==> fresh(s) && sessions == old(sessions)[rt := s]
      ensures rt !in old(sessions) ==> !s.hasProcess && s.starts == 0 && s.inputs == []
    {
      if rt !in sessions {
        s := new PersistentSession(rt);
        sessions := sessions[rt := s];
      } else {
        s := sessions[rt];
      }
    }

    /**
     * `execute(runtime=…, code=…)`: blank code and unknown runtimes are
     * rejected before any session exists; otherwise the runtime's session is
     * reused, or created once, and runs the code.
     */
    method Execute(runtime: Option<string>, code: string, marker: string, exited: bool, stream: seq<Read>, timeout: string)
      returns (message: string)
      requires Valid()
      modifies this, sessions.Values
      ensures Valid()
      ensures var rt := if runtime.Some? then runtime.value else "python";
        IsBlank(code) || !KnownRuntime(rt) ==> sessions == old(sessions)
      ensures IsBlank(code) ==> message == "[Error: No code provided]"
      ensures var rt := if runtime.Some? then runtime.value else "python";
        !IsBlank(code) && !KnownRuntime(rt) ==>
          message == "[Error: Unknown runtime '" + rt + "'. Use: python, shell, or node]"
      ensures var rt := if runtime.Some? then runtime.value else "python";
        !IsBlank(code) && KnownRuntime(rt) ==>
          message == RunOutput(stream, marker, timeout) && rt in sessions
          && (rt in old(sessions) ==> sessions == old(sessions))
          && (rt !in old(sessions) ==> fresh(sessions[rt]) && sessions == old(sessions)[rt := sessions[rt]])
      ensures var rt := if runtime.Some? then runtime.value else "python";
        !IsBlank(code) && KnownRuntime(rt) ==>
          var s := sessions[rt];
          s.hasProcess && s.inputs == (if rt in old(sessions) then old(s.inputs) else []) + [code + SentinelCommand(rt, marker)]
          && s.starts == (if rt in old(sessions) then old(s.starts) else 0)
                         + (if rt in old(sessions) && old(s.hasProcess) && !exited then 0 else 1)
      ensures var rt := if runtime.Some? then runtime.value else "python";
        forall k :: k in old(sessions) && (k != rt || IsBlank(code) || !KnownRuntime(rt)) ==> unchanged(old(sessions)[k])
    {
      var rt := if runtime.Some? then runtime.value else "python";
      StripProperties(code);
      if Strip(code) == [] {
        return "[Error: No code provided]";
      }
      if !KnownRuntime(rt) {
        return "[Error: Unknown runtime '" + rt + "'. Use: python, shell, or node]";
      }
      message := RunIn(rt, code, marker, exited, stream, timeout);
    }

    /** The runtime's session, reused or created, runs the code. */
    method RunIn(rt: string, code: string, marker: string, exited: bool, stream: seq<Read>, timeout: string)
      returns (message: string)
      requires Valid() && KnownRuntime(rt)
      modifies this, sessions.Values
      ensures Valid()
      ensures message == RunOutput(stream, marker, timeout) && rt in sessions
      ensures rt in old(sessions) ==> sessions == old(sessions)
      ensures rt !in old(sessions) ==> fresh(sessions[rt]) && sessions == old(sessions)[rt := sessions[rt]]
      ensures var s := sessions[rt];
        s.hasProcess && s.inputs == (if rt in old(sessions) then old(s.inputs) else []) + [code + SentinelCommand(rt, marker)]
        && s.starts == (if rt in old(sessions) then old(s.starts) else 0)
                       + (if rt in old(sessions) && old(s.hasProcess) && !exited then 0 else 1)
      ensures forall k :: k in old(sessions) && k != rt ==> unchanged(old(sessions)[k])
    {
      var session := SessionFor(rt);
      assert forall k :: k in sessions && k != rt ==> sessions[k] != session;
      var r := session.Run(code, marker, exited, stream, timeout);
      message := match r
        case Success(out) => out
        case Failure(e) => "[Execution error: " + e + "]";
    }
  }
}
