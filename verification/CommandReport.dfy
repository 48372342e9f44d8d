/** The report on one verification command: what its tool result says about success, and
    what its output is taken to mean. */
module CommandReport {
  import opened Text
  import opened CodingGraph

  /** The structured part of a tool result. */
  datatype Payload = Payload(blocked: bool, timedOut: bool, exitCode: Option<int>, stdout: string, stderr: string)

  datatype ToolResult = ToolResult(payload: Option<Payload>, output: string, error: string, success: bool)

  const TAIL_CHARS := 4000

  const PERMISSION_MARKERS := ["denied permission", "permission denied"]

  const ENVIRONMENT_PATTERNS := [
    "is not recognized", "no such file or directory", "command not found", "cannot find the file",
    "cannot find the path", "is not an executable", "no module named pytest", "no module named pip"
  ]

  predicate Contains(text: string, part: string) {
    exists i :: 0 <= i <= |text| && part <= text[i..]
  }

  predicate Mentions(text: string, parts: seq<string>) {
    exists i :: 0 <= i < |parts| && Contains(text, parts[i])
  }

  function TailOf(text: string): string {
    var t := Strip(text);
    if |t| > TAIL_CHARS then t[|t| - TAIL_CHARS..] else t
  }

  function Classified(low: string, blocked: bool, timedOut: bool): Cause {
    if blocked || Mentions(low, PERMISSION_MARKERS) then PermissionDenied
    else if timedOut then Timeout
    else if Mentions(low, ENVIRONMENT_PATTERNS) then Environment
    else Implementation
  }

  predicate IsBlocked(r: ToolResult) {
    r.payload.Some? && r.payload.value.blocked
  }

  /** Without a payload the output itself has to say so. */
  predicate IsTimedOut(r: ToolResult, lower: string -> string) {
    if r.payload.Some? then r.payload.value.timedOut else Contains(lower(r.output), "timed out")
  }

  function Combined(r: ToolResult): string {
    var stdout := if r.payload.Some? then TailOf(r.payload.value.stdout) else TailOf(r.output);
    var stderr := if r.payload.Some? then TailOf(r.payload.value.stderr) else "";
    stdout + "\n" + stderr + "\n" + r.output + "\n" + r.error
  }

  function ReportOf(r: ToolResult, lower: string -> string): Report {
    var cause := Classified(lower(Combined(r)), IsBlocked(r), IsTimedOut(r, lower));
    Report(if IsBlocked(r) || IsTimedOut(r, lower) then false
           else if r.payload.Some? && r.payload.value.exitCode.Some? then r.payload.value.exitCode.value == 0
           else r.success && cause == Implementation,
           cause)
  }

  method ReportFromToolResult(r: ToolResult, lower: string -> string) returns (report: Report)
    ensures report == ReportOf(r, lower)
  {
    hide Contains, Mentions, TailOf;
    var blocked, timedOut, exitCode := false, false, None;
    var stdout, stderr := "", "";
    if r.payload.Some? {
      blocked := r.payload.value.blocked;
      timedOut := r.payload.value.timedOut;
      exitCode := r.payload.value.exitCode;
      stdout := TailOf(r.payload.value.stdout);
      stderr := TailOf(r.payload.value.stderr);
    } else {
      stdout := TailOf(r.output);
      timedOut := Contains(lower(r.output), "timed out");
    }
    var combined := stdout + "\n" + stderr + "\n" + r.output + "\n" + r.error;
    var cause := Classified(lower(combined), blocked, timedOut);
    var passed := false;
    if blocked || timedOut {
      passed := false;
    } else if exitCode.Some? {
      passed := exitCode.value == 0;
    } else {
      passed := r.success && cause == Implementation;
    }
    report := Report(passed, cause);
  }

  // ---- what a report says ----

  ghost predicate Occurs(text: string, part: string) {
    exists a: string, b: string :: text == a + part + b
  }

  lemma ContainsOccurs(text: string, part: string)
    ensures Contains(text, part) <==> Occurs(text, part)
  {
    if Contains(text, part) {
      var i :| 0 <= i <= |text| && part <= text[i..];
      OccursAt(text, part, i);
    }
    if Occurs(text, part) {
      var a: string, b: string :| text == a + part + b;
      FoundAt(a, part, b);
    }
  }

  lemma OccursAt(text: string, part: string, i: nat)
    requires i <= |text| && part <= text[i..]
    ensures Occurs(text, part)
  {
    assert text[i..] == part + text[i..][|part|..];
    assert text == text[..i] + part + text[i..][|part|..];
  }

  lemma FoundAt(a: string, part: string, b: string)
    ensures Contains(a + part + b, part)
  {
    assert (a + part + b)[|a|..] == part + b;
  }

  ghost predicate SaysDenied(text: string) {
    Occurs(text, "denied permission") || Occurs(text, "permission denied")
  }

  ghost predicate SaysAbsent(text: string) {
    || Occurs(text, "is not recognized") || Occurs(text, "no such file or directory")
    || Occurs(text, "command not found") || Occurs(text, "cannot find the file")
    || Occurs(text, "cannot find the path") || Occurs(text, "is not an executable")
    || Occurs(text, "no module named pytest") || Occurs(text, "no module named pip")
  }

  lemma MarkersSay(text: string)
    ensures Mentions(text, PERMISSION_MARKERS) <==> SaysDenied(text)
    ensures Mentions(text, ENVIRONMENT_PATTERNS) <==> SaysAbsent(text)
  {
    hide Contains, Occurs;
    forall part: string ensures Contains(text, part) <==> Occurs(text, part) {
      ContainsOccurs(text, part);
    }
    assert PERMISSION_MARKERS[0] == "denied permission" && PERMISSION_MARKERS[1] == "permission denied";
    var e := ENVIRONMENT_PATTERNS;
    assert e[0] == "is not recognized" && e[1] == "no such file or directory" && e[2] == "command not found"
        && e[3] == "cannot find the file" && e[4] == "cannot find the path" && e[5] == "is not an executable"
        && e[6] == "no module named pytest" && e[7] == "no module named pip" && |e| == 8;
  }

  /** Of a long text the end is kept, at most 4000 characters of what is left after trimming. */
  lemma TailIsEnd(text: string)
    ensures var t, all := TailOf(text), Strip(text); |t| == Min(4000, |all|) && t == all[|all| - |t|..]
  {
    hide Strip;
  }

  /** The text that is searched: the ends of both streams, or of the whole output without a
      structured result, and then output and error, line by line. */
  lemma CombinedIs(r: ToolResult)
    ensures var out := if r.payload.Some? then TailOf(r.payload.value.stdout) else TailOf(r.output);
            var err := if r.payload.Some? then TailOf(r.payload.value.stderr) else "";
            Combined(r) == Join([out, err, r.output, r.error])
  {
    hide TailOf;
    var out := if r.payload.Some? then TailOf(r.payload.value.stdout) else TailOf(r.output);
    var err := if r.payload.Some? then TailOf(r.payload.value.stderr) else "";
    var parts := [out, err, r.output, r.error];
    assert parts[1..] == [err, r.output, r.error] && parts[1..][1..] == [r.output, r.error];
    assert [r.output, r.error][1..] == [r.error];
    assert Join([r.error]) == r.error;
    assert Join([r.output, r.error]) == r.output + "\n" + r.error;
    assert Join([err, r.output, r.error]) == err + "\n" + Join([r.output, r.error]);
    assert Join(parts) == out + "\n" + Join([err, r.output, r.error]);
  }

  /** The cause, from the gravest: permission when the call was blocked or the words occur,
      then the time limit, then a missing command, file or module. A report passes when it
      was neither blocked nor late and the exit code is 0, or without one when the tool says
      so and no such cause was found. */
  lemma ReportMeans(r: ToolResult, lower: string -> string)
    ensures var report, text := ReportOf(r, lower), lower(Combined(r));
            var blocked := r.payload.Some? && r.payload.value.blocked;
            var late := if r.payload.Some? then r.payload.value.timedOut else Occurs(lower(r.output), "timed out");
            var denied := blocked || SaysDenied(text);
            && (report.cause == PermissionDenied <==> denied)
            && (report.cause == Timeout <==> !denied && late)
            && (report.cause == Environment <==> !denied && !late && SaysAbsent(text))
            && (report.passed <==>
                  && !blocked && !late
                  && if r.payload.Some? && r.payload.value.exitCode.Some? then r.payload.value.exitCode.value == 0
                     else r.success && report.cause == Implementation)
  {
    hide Contains, Occurs, Mentions, SaysDenied, SaysAbsent, Combined;
    MarkersSay(lower(Combined(r)));
    ContainsOccurs(lower(r.output), "timed out");
  }

  /** A pass is never fabricated: nothing was blocked or timed out, and the exit code, where
      there is one, is 0. */
  lemma PassIsHonest(r: ToolResult, lower: string -> string)
    requires ReportOf(r, lower).passed
    ensures !IsBlocked(r) && !IsTimedOut(r, lower)
    ensures if r.payload.Some? && r.payload.value.exitCode.Some? then r.payload.value.exitCode.value == 0 else r.success
  {
  }

  /** A command that passed with exit code 0 still spoils its pass exactly when its output
      mentions a permission or environment problem: alone, it sends the run to an end with
      that reason, not to success. */
  lemma PassingReportBlocks(r: ToolResult, lower: string -> string)
    requires ReportOf(r, lower).passed
    ensures !Clean([ReportOf(r, lower)])
            <==> Mentions(lower(Combined(r)), PERMISSION_MARKERS) || Mentions(lower(Combined(r)), ENVIRONMENT_PATTERNS)
  {
    hide Mentions, Contains, Combined;
    var report := ReportOf(r, lower);
    BlockingIsWorst([report]);
    assert [report][0] == report;
    assert Clean([report]) <==> report.cause == Implementation;
  }

  /** A command that exits with 0 and prints the words: it passed, and blocks all the same. */
  lemma DeniedWordsBlock()
    ensures var r := ToolResult(Some(Payload(false, false, Some(0), "permission denied", "")), "", "", true);
            var report := ReportOf(r, (text: string) => text);
            && report.passed && report.cause == PermissionDenied && !Clean([report])
  {
    hide Combined, Mentions;
    var r := ToolResult(Some(Payload(false, false, Some(0), "permission denied", "")), "", "", true);
    DeniedWordsSaid(r);
    PassingReportBlocks(r, (text: string) => text);
  }

  lemma DeniedWordsSaid(r: ToolResult)
    requires r.payload.Some? && r.payload.value.stdout == "permission denied"
    ensures Mentions(Combined(r), PERMISSION_MARKERS)
  {
    hide Strip, TailOf;
    var said := "permission denied";
    assert TailOf(r.payload.value.stdout) == said by { ShortTail(said); }
    var text := Combined(r);
    assert text[..|said|] == said;
    assert said <= text[0..];
    assert PERMISSION_MARKERS[1] == said && Contains(text, PERMISSION_MARKERS[1]);
  }

  lemma ShortTail(said: string)
    requires said == "permission denied"
    ensures TailOf(said) == said
  {
    assert said[0] == 'p' && said[|said| - 1] == 'd';
    assert Strip(said) == said;
  }

  /** And then it needs the exit code: a result without one is not passed at all. */
  lemma BlockedPassHasExitCode(r: ToolResult, lower: string -> string)
    requires ReportOf(r, lower).passed && !Clean([ReportOf(r, lower)])
    ensures r.payload.Some? && r.payload.value.exitCode == Some(0)
  {
    PassingReportBlocks(r, lower);
  }
}
