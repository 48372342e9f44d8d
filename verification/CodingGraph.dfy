/** The coding workflow as a state machine. */
module CodingGraph {
  import opened Text

  // Understand, plan, implement, verify, analyze, with a bounded number of implementation
  // attempts. The agent loop, the verifier and the stop signal are oracles indexed by the
  // number of calls made so far, so that a lemma about every oracle is one about every run.

  datatype Cause = Implementation | Environment | PermissionDenied | Timeout

  datatype Report = Report(passed: bool, cause: Cause)

  datatype Reason = Unset | Stopped | MaxSteps | Completed | Empty | PermissionRefused | VerificationTimeout
                  | EnvironmentError | VerificationFailed | Other(text: string)

  datatype Note = NoNote | Retry | Done

  datatype SkipReason = NotSkipped | NoVerifier | NoEdits

  datatype Status = NoStatus | Skipped | Unavailable | Verified | Failed

  /** What one run of the agent loop came to. */
  datatype Attempt = Attempt(edited: bool, final: string, reason: Reason)

  /** A call to a collaborator, or a verification pass that was skipped. */
  datatype Call = Probe(fired: bool) | Loop | Skip | Check(reports: seq<Report>)

  /** The collaborators; each is asked at a moment, the number of calls made before. A
      verifier that raises is one that returns no report. */
  datatype Outside = Outside(hasVerifier: bool, stop: nat -> bool, loop: nat -> Attempt,
                             verify: nat -> seq<Report>, feedback: seq<Report> -> string)

  datatype State = State(attempt: nat, answer: string, edited: bool, stopReason: Reason, completion: Reason, note: Note,
                         skipped: SkipReason, passed: bool, status: Status, cause: Option<Cause>,
                         reports: seq<Report>, repair: string, calls: seq<Call>)

  datatype Node = Understand | Plan | Implement | Verify | Analyze | End

  const MAX_REPORTS := 6
  const MAX_FEEDBACK_CHARS := 2500

  // ---- the verdict on a pass ----

  predicate Seen(reports: seq<Report>, cause: Cause) {
    exists i :: 0 <= i < |reports| && reports[i].cause == cause
  }

  function Blocking(reports: seq<Report>): Cause {
    if Seen(reports, PermissionDenied) then PermissionDenied
    else if Seen(reports, Timeout) then Timeout
    else if Seen(reports, Environment) then Environment
    else Implementation
  }

  function Severity(cause: Cause): nat {
    match cause
    case Implementation => 0
    case Environment => 1
    case Timeout => 2
    case PermissionDenied => 3
  }

  /** What blocks a pass is the most severe cause any of its reports gives. */
  lemma BlockingIsWorst(reports: seq<Report>)
    ensures forall i :: 0 <= i < |reports| ==> Severity(reports[i].cause) <= Severity(Blocking(reports))
    ensures Blocking(reports) == Implementation
            || exists i :: 0 <= i < |reports| && reports[i].cause == Blocking(reports)
  {
    forall i | 0 <= i < |reports| ensures Severity(reports[i].cause) <= Severity(Blocking(reports)) {
      assert Seen(reports, reports[i].cause);
    }
  }

  predicate AllPassed(reports: seq<Report>) {
    forall i :: 0 <= i < |reports| ==> reports[i].passed
  }

  predicate Clean(reports: seq<Report>) {
    reports == [] || (Blocking(reports) == Implementation && AllPassed(reports))
  }

  function Retained(reports: seq<Report>): seq<Report> {
    if |reports| > MAX_REPORTS then reports[..MAX_REPORTS] else reports
  }

  // ---- the nodes ----

  function Ask(s: State, w: Outside): State {
    s.(calls := s.calls + [Probe(w.stop(|s.calls|))])
  }

  function Gated(s: State, w: Outside): State {
    var t := Ask(s, w);
    if w.stop(|s.calls|) then t.(completion := Stopped) else t
  }

  function Halted(s: State): State {
    s.(completion := Stopped, stopReason := Stopped)
  }

  function Implemented(s: State, w: Outside): State {
    var t := Ask(s, w);
    if w.stop(|s.calls|) then Halted(t)
    else
      var a := w.loop(|t.calls|);
      t.(answer := a.final, edited := a.edited, attempt := t.attempt + 1, calls := t.calls + [Loop],
         stopReason := if a.reason != Unset then a.reason else if a.final != "" then Completed else Empty)
  }

  function RetryGate(s: State): State {
    if s.stopReason == Stopped then s.(note := Done, completion := Stopped)
    else if Strip(s.answer) == "" || s.stopReason == MaxSteps then s.(note := Retry)
    else s.(note := Done)
  }

  function Verdict(s: State, reports: seq<Report>): State {
    var kept := Retained(reports);
    if reports == [] then
      s.(reports := [], passed := false, status := Unavailable, cause := None, note := Done)
    else
      s.(reports := kept, status := if AllPassed(kept) then Verified else Failed, passed := Clean(kept),
         cause := if Clean(kept) then None else Some(Blocking(kept)))
  }

  function Checked(s: State, w: Outside): State {
    var t := Ask(s, w);
    if w.stop(|s.calls|) then Halted(t)
    else if !w.hasVerifier || !t.edited then
      RetryGate(t.(reports := [], status := Skipped, calls := t.calls + [Skip],
                   skipped := if !w.hasVerifier then NoVerifier else NoEdits))
    else
      var reports := w.verify(|t.calls|);
      Verdict(t.(calls := t.calls + [Check(reports)]), reports)
  }

  function Appended(prior: string, feedback: string): string {
    if prior == "" then feedback
    else
      var both := prior + "\n\n" + feedback;
      if |both| > MAX_FEEDBACK_CHARS then both[..MAX_FEEDBACK_CHARS] else both
  }

  function Refusal(cause: Cause): Reason {
    match cause
    case PermissionDenied => PermissionRefused
    case Timeout => VerificationTimeout
    case Environment => EnvironmentError
    case Implementation => VerificationFailed
  }

  function Analyzed(s: State, w: Outside, max: nat): State {
    var t := Ask(s, w);
    if w.stop(|s.calls|) then Halted(t)
    else if Clean(t.reports) then t.(note := Done)
    else
      var cause := Blocking(t.reports);
      if cause != Implementation then
        t.(note := Done, completion := Refusal(cause), stopReason := Refusal(cause))
      else
        var u := t.(note := Retry, repair := Appended(t.repair, w.feedback(t.reports)));
        if u.attempt < max then u else u.(completion := VerificationFailed, stopReason := VerificationFailed)
  }

  // ---- routing and the run ----

  function AfterVerify(s: State, max: nat): Node {
    if s.completion == Stopped then End
    else if s.skipped != NotSkipped then
      if s.note == Retry && s.attempt < max then Implement else End
    else if s.reports == [] || Clean(s.reports) then End
    else Analyze
  }

  function AfterAnalyze(s: State, max: nat): Node {
    if s.completion != Stopped && s.note == Retry && s.attempt < max then Implement else End
  }

  function Step(node: Node, s: State, w: Outside, max: nat): (Node, State) {
    match node
    case Understand => (Plan, Gated(s, w))
    case Plan => (Implement, Gated(s, w))
    case Implement => (Verify, Implemented(s, w))
    case Verify => var t := Checked(s, w); (AfterVerify(t, max), t)
    case Analyze => var t := Analyzed(s, w, max); (AfterAnalyze(t, max), t)
    case End => (End, s)
  }

  /** How many times the agent loop can still be run. */
  function Potential(node: Node, s: State, max: nat): nat {
    var left := if s.attempt < max then max - s.attempt else 0;
    match node
    case Understand | Plan | Implement => if left == 0 then 1 else left
    case Verify | Analyze => if s.completion == Stopped then 0 else left
    case End => 0
  }

  function Rank(node: Node): nat {
    match node
    case Understand => 5
    case Plan => 4
    case Verify => 3
    case Analyze => 2
    case Implement => 1
    case End => 0
  }

  lemma StepDecreases(node: Node, s: State, w: Outside, max: nat)
    requires node != End
    ensures var (n, t) := Step(node, s, w, max);
            || Potential(n, t, max) < Potential(node, s, max)
            || (Potential(n, t, max) == Potential(node, s, max) && Rank(n) < Rank(node))
  {
    hide Clean, Blocking, AllPassed, Retained, Appended, Strip;
  }

  function RunFrom(node: Node, s: State, w: Outside, max: nat): State
    decreases Potential(node, s, max), Rank(node)
  {
    if node == End then s
    else
      StepDecreases(node, s, w, max);
      var (n, t) := Step(node, s, w, max);
      RunFrom(n, t, w, max)
  }

  function Finished(s: State): State {
    if s.completion != Unset then s
    else
      s.(completion := if s.stopReason != Unset then s.stopReason
                       else if Strip(s.answer) != "" then Completed else Empty)
  }

  function RunGraph(s: State, w: Outside, max: nat): State {
    var t := Ask(s, w);
    if w.stop(|s.calls|) then
        t.(completion := Stopped, stopReason := if s.stopReason == Unset then Stopped else s.stopReason)
    else Finished(RunFrom(Understand, t, w, max))
  }

  /** The state a run starts from: only the attempt count, the answer, the event list and
      the repair context may come from the caller. */
  predicate FirstState(s: State) {
    && s.calls == [] && s.completion == Unset && s.stopReason == Unset && s.note == NoNote
    && s.skipped == NotSkipped && !s.passed && s.reports == []
  }

  // ---- the attempt budget ----

  function Loops(calls: seq<Call>): nat {
    if calls == [] then 0 else Loops(calls[..|calls| - 1]) + (if calls[|calls| - 1].Loop? then 1 else 0)
  }

  lemma LoopsGrow(calls: seq<Call>, c: Call)
    ensures Loops(calls + [c]) == Loops(calls) + (if c.Loop? then 1 else 0)
  {
    assert (calls + [c])[..|calls|] == calls;
  }

  lemma StepSpends(node: Node, s: State, w: Outside, max: nat)
    ensures var (n, t) := Step(node, s, w, max);
            Loops(t.calls) + Potential(n, t, max) <= Loops(s.calls) + Potential(node, s, max)
  {
    hide Clean, Blocking, AllPassed, Retained, Appended, Strip, Loops;
    LoopsGrow(s.calls, Probe(w.stop(|s.calls|)));
    var calls := Ask(s, w).calls;
    LoopsGrow(calls, Loop);
    LoopsGrow(calls, Skip);
    LoopsGrow(calls, Check(w.verify(|calls|)));
  }

  lemma {:induction false} PotentialBounds(node: Node, s: State, w: Outside, max: nat)
    ensures Loops(RunFrom(node, s, w, max).calls) <= Loops(s.calls) + Potential(node, s, max)
    decreases Potential(node, s, max), Rank(node)
  {
    hide Step, Loops;
    if node != End {
      StepDecreases(node, s, w, max);
      StepSpends(node, s, w, max);
      var (n, t) := Step(node, s, w, max);
      PotentialBounds(n, t, w, max);
    }
  }

  /** A run starts the agent loop at most max times, or once when the caller's own attempt
      count already uses the budget up. */
  lemma AttemptsBounded(s: State, w: Outside, max: nat)
    requires s.calls == []
    ensures Loops(RunGraph(s, w, max).calls) <= if max > s.attempt then max - s.attempt else 1
  {
    hide RunFrom;
    var t := Ask(s, w);
    LoopsGrow(s.calls, t.calls[0]);
    PotentialBounds(Understand, t, w, max);
  }

  // ---- the stop signal ----

  /** Every probe is the signal's answer at its moment, and every agent loop and every
      verification comes right after a probe that did not fire. */
  predicate Guarded(calls: seq<Call>, w: Outside) {
    forall j :: 0 <= j < |calls| ==> GuardedAt(calls, j, w)
  }

  predicate GuardedAt(calls: seq<Call>, j: nat, w: Outside)
    requires j < |calls|
  {
    && (calls[j].Probe? ==> calls[j].fired == w.stop(j))
    && (calls[j].Loop? || calls[j].Check? ==> j > 0 && calls[j - 1] == Probe(false))
  }

  lemma GuardedGrow(calls: seq<Call>, c: Call, w: Outside)
    requires Guarded(calls, w)
    requires c.Probe? ==> c.fired == w.stop(|calls|)
    requires c.Loop? || c.Check? ==> calls != [] && calls[|calls| - 1] == Probe(false)
    ensures Guarded(calls + [c], w)
  {
    forall j | 0 <= j < |calls + [c]| ensures GuardedAt(calls + [c], j, w) {
      assert j < |calls| ==> GuardedAt(calls, j, w);
    }
  }

  lemma StepGuarded(node: Node, s: State, w: Outside, max: nat)
    requires Guarded(s.calls, w)
    ensures Guarded(Step(node, s, w, max).1.calls, w)
  {
    hide Clean, Blocking, AllPassed, Retained, Appended, Strip, Guarded;
    GuardedGrow(s.calls, Probe(w.stop(|s.calls|)), w);
    var calls := Ask(s, w).calls;
    if !w.stop(|s.calls|) {
      GuardedGrow(calls, Loop, w);
      GuardedGrow(calls, Skip, w);
      GuardedGrow(calls, Check(w.verify(|calls|)), w);
    }
  }

  lemma {:induction false} RunGuarded(node: Node, s: State, w: Outside, max: nat)
    requires Guarded(s.calls, w)
    ensures Guarded(RunFrom(node, s, w, max).calls, w)
    decreases Potential(node, s, max), Rank(node)
  {
    hide Step;
    if node != End {
      StepDecreases(node, s, w, max);
      StepGuarded(node, s, w, max);
      var (n, t) := Step(node, s, w, max);
      RunGuarded(n, t, w, max);
    }
  }

  /** Once a stop signal that stays up has answered a probe, no agent loop and no
      verification is started. */
  lemma NothingAfterStop(s: State, w: Outside, max: nat, i: nat, j: nat)
    requires s.calls == [] && forall a, b :: 0 <= a <= b && w.stop(a) ==> w.stop(b)
    requires i < j < |RunGraph(s, w, max).calls| && RunGraph(s, w, max).calls[i] == Probe(true)
    ensures !RunGraph(s, w, max).calls[j].Loop? && !RunGraph(s, w, max).calls[j].Check?
  {
    hide RunFrom;
    RunGuarded(Understand, Ask(s, w), w, max);
    var calls := RunGraph(s, w, max).calls;
    assert Guarded(calls, w);
    assert GuardedAt(calls, i, w) && GuardedAt(calls, j, w) && GuardedAt(calls, j - 1, w);
  }

  // ---- the verdict a run reports ----

  /** The reports of the last verification that was not skipped. */
  function LastCheck(calls: seq<Call>): Option<seq<Report>> {
    if calls == [] then None
    else
      var last := calls[|calls| - 1];
      if last.Check? then Some(last.reports) else LastCheck(calls[..|calls| - 1])
  }

  predicate Succeeded(calls: seq<Call>) {
    var last := LastCheck(calls);
    last.Some? && last.value != [] && Clean(Retained(last.value))
  }

  lemma LastCheckGrow(calls: seq<Call>, c: Call)
    ensures LastCheck(calls + [c]) == if c.Check? then Some(c.reports) else LastCheck(calls)
  {
    assert (calls + [c])[..|calls|] == calls;
  }

  lemma StepVerdict(node: Node, s: State, w: Outside, max: nat)
    requires s.passed == Succeeded(s.calls)
    ensures var t := Step(node, s, w, max).1; t.passed == Succeeded(t.calls)
  {
    hide Clean, Blocking, AllPassed, Retained, Appended, Strip, LastCheck;
    LastCheckGrow(s.calls, Probe(w.stop(|s.calls|)));
    var t := Ask(s, w);
    LastCheckGrow(t.calls, Loop);
    LastCheckGrow(t.calls, Skip);
    LastCheckGrow(t.calls, Check(w.verify(|t.calls|)));
  }

  lemma {:induction false} RunVerdict(node: Node, s: State, w: Outside, max: nat)
    requires s.passed == Succeeded(s.calls)
    ensures var t := RunFrom(node, s, w, max); t.passed == Succeeded(t.calls)
    decreases Potential(node, s, max), Rank(node)
  {
    hide Step, Succeeded;
    if node != End {
      StepDecreases(node, s, w, max);
      StepVerdict(node, s, w, max);
      var (n, t) := Step(node, s, w, max);
      RunVerdict(n, t, w, max);
    }
  }

  /** A run reports a passed verification exactly when its last verification returned at
      least one report and all the retained ones passed with no blocking cause. */
  lemma PassedIsEarned(s: State, w: Outside, max: nat)
    requires FirstState(s)
    ensures var r := RunGraph(s, w, max); r.passed <==> Succeeded(r.calls)
  {
    hide RunFrom, Clean;
    LastCheckGrow(s.calls, Probe(w.stop(|s.calls|)));
    RunVerdict(Understand, Ask(s, w), w, max);
  }

  /** Only the first six reports count: whatever a later one says, the verdict is the same. */
  lemma LaterReportsIgnored(s: State, reports: seq<Report>, more: seq<Report>)
    requires |reports| == MAX_REPORTS
    ensures Verdict(s, reports + more) == Verdict(s, reports)
  {
    assert Retained(reports + more) == reports;
  }

  predicate Fails(report: Report) {
    !report.passed || report.cause != Implementation
  }

  predicate Worse(report: Report, cause: Cause) {
    Severity(report.cause) > Severity(cause)
  }

  /** The verdict of six differs from the verdict of all exactly when the six pass and a
      later one fails; the blocking cause, exactly when a later one is more severe. */
  lemma SixReportsJudge(reports: seq<Report>)
    ensures Clean(Retained(reports)) != Clean(reports)
       <==> Clean(Retained(reports)) && exists i :: MAX_REPORTS <= i < |reports| && Fails(reports[i])
    ensures Blocking(Retained(reports)) != Blocking(reports)
       <==> exists i :: MAX_REPORTS <= i < |reports| && Worse(reports[i], Blocking(Retained(reports)))
  {
    hide Blocking;
    var kept := Retained(reports);
    assert forall i :: 0 <= i < |kept| ==> kept[i] == reports[i];
    BlockingIsWorst(reports);
    BlockingIsWorst(kept);
    CleanMeans(reports);
    CleanMeans(kept);
    if Blocking(reports) != Implementation {
      var i :| 0 <= i < |reports| && reports[i].cause == Blocking(reports);
      assert i < |kept| ==> kept[i].cause == Blocking(reports);
    }
    if Blocking(kept) != Implementation {
      var i :| 0 <= i < |kept| && kept[i].cause == Blocking(kept);
      assert reports[i].cause == Blocking(kept);
    }
  }

  lemma CleanMeans(reports: seq<Report>)
    ensures Clean(reports) <==> forall i :: 0 <= i < |reports| ==> !Fails(reports[i])
  {
    BlockingIsWorst(reports);
    if Clean(reports) {
      forall i | 0 <= i < |reports| ensures !Fails(reports[i]) {
        assert Severity(reports[i].cause) <= Severity(Implementation);
      }
    }
  }

  // ---- a passed verification and what comes after it ----

  /** An agent loop ran after the last verification that was not skipped. */
  predicate LoopedSince(calls: seq<Call>) {
    calls != [] &&
    var last := calls[|calls| - 1];
    last.Loop? || (!last.Check? && LoopedSince(calls[..|calls| - 1]))
  }

  lemma LoopedGrow(calls: seq<Call>, c: Call)
    ensures LoopedSince(calls + [c]) <==> c.Loop? || (!c.Check? && LoopedSince(calls))
  {
    assert (calls + [c])[..|calls|] == calls;
  }

  /** While no pass was skipped, a passed verification is the end of the run. */
  predicate LastWord(node: Node, s: State) {
    && (s.skipped == NotSkipped <==> Unskipped(s.calls))
    && (s.passed && Unskipped(s.calls) ==> node == End && !LoopedSince(s.calls))
  }

  lemma StepLastWord(node: Node, s: State, w: Outside, max: nat)
    requires LastWord(node, s) && node != End
    ensures var (n, t) := Step(node, s, w, max); LastWord(n, t)
  {
    hide Blocking, AllPassed, Appended, Strip, Unskipped, Retained, LoopedSince;
    var probe := Probe(w.stop(|s.calls|));
    UnskippedGrow(s.calls, probe);
    LoopedGrow(s.calls, probe);
    var calls := Ask(s, w).calls;
    if node == Implement {
      UnskippedGrow(calls, Loop);
    } else if node == Verify {
      UnskippedGrow(calls, Skip);
      UnskippedGrow(calls, Check(w.verify(|calls|)));
      LoopedGrow(calls, Check(w.verify(|calls|)));
    }
  }

  lemma UnskippedGrow(calls: seq<Call>, c: Call)
    ensures Unskipped(calls + [c]) <==> Unskipped(calls) && !c.Skip?
  {
    var all := calls + [c];
    assert all[|calls|] == c && forall i :: 0 <= i < |calls| ==> all[i] == calls[i];
  }

  lemma {:induction false} RunLastWord(node: Node, s: State, w: Outside, max: nat)
    requires LastWord(node, s)
    ensures LastWord(End, RunFrom(node, s, w, max))
    decreases Potential(node, s, max), Rank(node)
  {
    hide Step, LoopedSince, Unskipped;
    if node != End {
      StepDecreases(node, s, w, max);
      StepLastWord(node, s, w, max);
      var (n, t) := Step(node, s, w, max);
      RunLastWord(n, t, w, max);
    }
  }

  /** In a run without skipped passes a passed verification is about the last edits: no
      agent loop ran after it. */
  lemma PassedIsLast(s: State, w: Outside, max: nat)
    requires FirstState(s)
    ensures var r := RunGraph(s, w, max); r.passed && Unskipped(r.calls) ==> !LoopedSince(r.calls)
  {
    hide RunFrom, Strip, LoopedSince, Unskipped;
    EmptyTrace();
    UnskippedGrow(s.calls, Probe(w.stop(|s.calls|)));
    RunLastWord(Understand, Ask(s, w), w, max);
  }

  // ---- how a run ends ----

  predicate Fired(calls: seq<Call>) {
    exists j :: 0 <= j < |calls| && calls[j] == Probe(true)
  }

  /** An agent loop of the run reported that it was stopped. */
  predicate LoopStopped(calls: seq<Call>, w: Outside) {
    exists j :: 0 <= j < |calls| && calls[j].Loop? && w.loop(j).reason == Stopped
  }

  lemma EndsGrow(calls: seq<Call>, c: Call, w: Outside)
    ensures Fired(calls + [c]) <==> Fired(calls) || c == Probe(true)
    ensures LoopStopped(calls + [c], w) <==> LoopStopped(calls, w) || (c.Loop? && w.loop(|calls|).reason == Stopped)
  {
    var all := calls + [c];
    assert all[|calls|] == c && forall i :: 0 <= i < |calls| ==> all[i] == calls[i];
  }

  predicate StopInv(node: Node, s: State, w: Outside) {
    && (Fired(s.calls) ==> s.completion == Stopped)
    && (s.completion == Stopped || s.stopReason == Stopped ==> Fired(s.calls) || LoopStopped(s.calls, w))
    && (node != End ==> s.completion == Unset || s.completion == Stopped)
    && (node == Analyze ==> s.completion != Stopped)
  }

  lemma StepStops(node: Node, s: State, w: Outside, max: nat)
    requires StopInv(node, s, w) && node != End
    ensures var (n, t) := Step(node, s, w, max); StopInv(n, t, w)
  {
    hide Clean, Blocking, AllPassed, Retained, Appended, Strip, Fired, LoopStopped;
    EndsGrow(s.calls, Probe(w.stop(|s.calls|)), w);
    var calls := Ask(s, w).calls;
    if node == Implement {
      EndsGrow(calls, Loop, w);
    } else if node == Verify {
      EndsGrow(calls, Skip, w);
      EndsGrow(calls, Check(w.verify(|calls|)), w);
    }
  }

  lemma {:induction false} RunStops(node: Node, s: State, w: Outside, max: nat)
    requires StopInv(node, s, w)
    ensures StopInv(End, RunFrom(node, s, w, max), w)
    decreases Potential(node, s, max), Rank(node)
  {
    hide Step, StopInv;
    if node != End {
      StepDecreases(node, s, w, max);
      StepStops(node, s, w, max);
      var (n, t) := Step(node, s, w, max);
      RunStops(n, t, w, max);
    }
  }

  /** A stop signal that has fired already: no node runs. */
  lemma StopsAtOnce(s: State, w: Outside, max: nat)
    requires w.stop(|s.calls|)
    ensures RunGraph(s, w, max)
         == s.(completion := Stopped, calls := s.calls + [Probe(true)],
               stopReason := if s.stopReason == Unset then Stopped else s.stopReason)
  {
  }

  /** Every run ends with a reason: stopped whenever a probe fired, and otherwise only when
      the agent loop said so itself. */
  lemma RunEnds(s: State, w: Outside, max: nat)
    requires FirstState(s)
    ensures var r := RunGraph(s, w, max);
            && r.completion != Unset
            && (Fired(r.calls) ==> r.completion == Stopped)
            && (r.completion == Stopped ==> Fired(r.calls) || LoopStopped(r.calls, w))
  {
    hide RunFrom, Strip, Fired, LoopStopped;
    EndsGrow(s.calls, Probe(w.stop(|s.calls|)), w);
    NothingEnds(w);
    if !w.stop(|s.calls|) {
      RunStops(Understand, Ask(s, w), w, max);
    }
  }

  lemma NothingEnds(w: Outside)
    ensures !Fired([]) && !LoopStopped([], w)
  {
  }

  // ---- failures no repair can fix ----

  predicate Unskipped(calls: seq<Call>) {
    forall i :: 0 <= i < |calls| ==> !calls[i].Skip?
  }

  predicate BlockedAt(calls: seq<Call>, i: nat)
    requires i < |calls|
  {
    calls[i].Check? && Blocking(Retained(calls[i].reports)) != Implementation && Unskipped(calls[..i])
  }

  predicate Blocked(calls: seq<Call>) {
    exists i :: 0 <= i < |calls| && BlockedAt(calls, i)
  }

  lemma BlockedGrow(calls: seq<Call>, c: Call)
    ensures Blocked(calls + [c])
            <==> Blocked(calls) || (c.Check? && Blocking(Retained(c.reports)) != Implementation && Unskipped(calls))
    ensures Unskipped(calls + [c]) <==> Unskipped(calls) && !c.Skip?
  {
    hide Blocking, Retained;
    var all := calls + [c];
    assert forall i :: 0 <= i <= |calls| ==> all[..i] == calls[..i];
    assert calls[..|calls|] == calls;
    forall i | 0 <= i < |calls| ensures BlockedAt(all, i) <==> BlockedAt(calls, i) {
    }
    if c.Check? && Blocking(Retained(c.reports)) != Implementation && Unskipped(calls) {
      assert BlockedAt(all, |calls|);
    }
    if Unskipped(all) {
      forall i | 0 <= i < |calls| ensures !calls[i].Skip? {
        assert all[i] == calls[i];
      }
      assert all[|calls|] == c;
    }
  }

  /** No agent loop runs after a verification whose failure no repair can fix. */
  predicate NoRepair(calls: seq<Call>) {
    forall j :: 0 <= j < |calls| && calls[j].Loop? ==> !Blocked(calls[..j])
  }

  lemma NoRepairGrow(calls: seq<Call>, c: Call)
    ensures NoRepair(calls + [c]) <==> NoRepair(calls) && (c.Loop? ==> !Blocked(calls))
  {
    hide Blocked;
    var all := calls + [c];
    assert forall j :: 0 <= j <= |calls| ==> all[..j] == calls[..j];
    assert calls[..|calls|] == calls && all[|calls|] == c;
    if NoRepair(all) {
      forall j | 0 <= j < |calls| && calls[j].Loop? ensures !Blocked(calls[..j]) {
        assert all[j].Loop?;
      }
    }
  }

  predicate RepairInv(node: Node, s: State) {
    && (s.skipped == NotSkipped <==> Unskipped(s.calls))
    && NoRepair(s.calls)
    && (Blocked(s.calls) ==> node == End || (node == Analyze && Blocking(s.reports) != Implementation))
  }

  lemma StepRepair(node: Node, s: State, w: Outside, max: nat)
    requires RepairInv(node, s) && node != End
    ensures var (n, t) := Step(node, s, w, max); RepairInv(n, t)
  {
    hide Blocking, AllPassed, Appended, Strip, Blocked, Unskipped, NoRepair, Retained;
    BlockedGrow(s.calls, Probe(w.stop(|s.calls|)));
    NoRepairGrow(s.calls, Probe(w.stop(|s.calls|)));
    var calls := Ask(s, w).calls;
    if node == Implement {
      BlockedGrow(calls, Loop);
      NoRepairGrow(calls, Loop);
    } else if node == Verify {
      BlockedGrow(calls, Skip);
      NoRepairGrow(calls, Skip);
      BlockedGrow(calls, Check(w.verify(|calls|)));
      NoRepairGrow(calls, Check(w.verify(|calls|)));
      NothingBlocks(w.verify(|calls|));
    }
  }

  lemma NothingBlocks(reports: seq<Report>)
    ensures reports == [] ==> Blocking(Retained(reports)) == Implementation
    ensures reports != [] ==> Retained(reports) != []
  {
  }

  lemma {:induction false} RunRepair(node: Node, s: State, w: Outside, max: nat)
    requires RepairInv(node, s)
    ensures NoRepair(RunFrom(node, s, w, max).calls)
    decreases Potential(node, s, max), Rank(node)
  {
    hide Step, NoRepair, Blocked, Unskipped;
    if node != End {
      StepDecreases(node, s, w, max);
      StepRepair(node, s, w, max);
      var (n, t) := Step(node, s, w, max);
      RunRepair(n, t, w, max);
    }
  }

  /** Unless a verification was skipped earlier in the run, the agent loop never runs again
      after a verification refused, timed out or stopped by its environment. */
  lemma BlockedIsNotRepaired(s: State, w: Outside, max: nat)
    requires FirstState(s)
    ensures NoRepair(RunGraph(s, w, max).calls)
  {
    hide RunFrom, Blocked, Unskipped, NoRepair;
    BlockedGrow(s.calls, Probe(w.stop(|s.calls|)));
    NoRepairGrow(s.calls, Probe(w.stop(|s.calls|)));
    EmptyTrace();
    RunRepair(Understand, Ask(s, w), w, max);
  }

  lemma EmptyTrace()
    ensures Unskipped([]) && !Blocked([]) && NoRepair([])
  {
  }

  /** The node reached from a verification and, if that is analyze, from the analysis. */
  function NextAfter(s: State, w: Outside, max: nat): Node {
    var (n, t) := Step(Verify, s, w, max);
    if n == Analyze then Step(n, t, w, max).0 else n
  }

  /** Exactly when it is repaired after all: the flag and the note that an earlier skipped
      pass left behind are never cleared, and they decide the route. */
  lemma BlockedIsRepairedIff(s: State, w: Outside, max: nat)
    requires s.completion == Unset && s.edited && w.hasVerifier && !w.stop(|s.calls|)
    requires Blocking(Retained(w.verify(|s.calls| + 1))) != Implementation
    ensures NextAfter(s, w, max) == Implement <==> s.skipped != NotSkipped && s.note == Retry && s.attempt < max
  {
    hide Blocking, AllPassed, Retained, Appended, Strip;
    NothingBlocks(w.verify(|s.calls| + 1));
  }

  /** And exactly when a verification that passed is followed by another attempt. */
  lemma PassedIsRepeatedIff(s: State, w: Outside, max: nat)
    requires s.completion == Unset && s.edited && w.hasVerifier && !w.stop(|s.calls|)
    requires var reports := w.verify(|s.calls| + 1); reports != [] && Clean(Retained(reports))
    ensures NextAfter(s, w, max) == Implement <==> s.skipped != NotSkipped && s.note == Retry && s.attempt < max
  {
    hide Blocking, AllPassed, Retained, Appended, Strip;
    NothingBlocks(w.verify(|s.calls| + 1));
  }

  // ---- the completion reason ----

  /** In a run where no verification was skipped, a run whose last verification failed says
      so: it ends stopped or with that failure's own reason. */
  predicate SaysSo(s: State, max: nat) {
    var last := LastCheck(s.calls);
    Unskipped(s.calls) && last.Some? && last.value != [] && !Clean(Retained(last.value)) ==>
      || s.completion == Stopped
      || (s.completion == Refusal(Blocking(Retained(last.value)))
          && (s.completion == VerificationFailed ==> s.attempt >= max))
  }

  predicate ReasonInv(node: Node, s: State, max: nat) {
    && (s.skipped == NotSkipped <==> Unskipped(s.calls))
    && (node == Analyze && Unskipped(s.calls) ==>
          var last := LastCheck(s.calls);
          last.Some? && last.value != [] && s.reports == Retained(last.value) && !Clean(s.reports))
    && (node == End ==> SaysSo(s, max))
    && (node != End ==> s.completion == Unset || s.completion == Stopped)
  }

  lemma StepReason(node: Node, s: State, w: Outside, max: nat)
    requires ReasonInv(node, s, max) && node != End
    ensures var (n, t) := Step(node, s, w, max); ReasonInv(n, t, max)
  {
    hide Clean, Blocking, AllPassed, Appended, Strip, Unskipped, Retained, LastCheck;
    var probe := Probe(w.stop(|s.calls|));
    BlockedGrow(s.calls, probe);
    LastCheckGrow(s.calls, probe);
    var calls := Ask(s, w).calls;
    if node == Implement {
      BlockedGrow(calls, Loop);
      LastCheckGrow(calls, Loop);
    } else if node == Verify {
      BlockedGrow(calls, Skip);
      var check := Check(w.verify(|calls|));
      BlockedGrow(calls, check);
      LastCheckGrow(calls, check);
      NothingBlocks(w.verify(|calls|));
    }
  }

  lemma {:induction false} RunReason(node: Node, s: State, w: Outside, max: nat)
    requires ReasonInv(node, s, max)
    ensures SaysSo(RunFrom(node, s, w, max), max)
    decreases Potential(node, s, max), Rank(node)
  {
    hide Step, SaysSo, Unskipped, LastCheck, Clean;
    if node != End {
      StepDecreases(node, s, w, max);
      StepReason(node, s, w, max);
      var (n, t) := Step(node, s, w, max);
      RunReason(n, t, w, max);
    }
  }

  lemma FailureIsReported(s: State, w: Outside, max: nat)
    requires FirstState(s)
    ensures SaysSo(RunGraph(s, w, max), max)
  {
    hide RunFrom, Clean, Blocking, Retained, Strip;
    BlockedGrow(s.calls, Probe(w.stop(|s.calls|)));
    LastCheckGrow(s.calls, Probe(w.stop(|s.calls|)));
    RunReason(Understand, Ask(s, w), w, max);
  }

  // ---- the answer ----

  /** The moment of the last agent loop. */
  function LastLoop(calls: seq<Call>): (k: Option<nat>)
    ensures k.Some? ==> k.value < |calls| && calls[k.value].Loop?
    ensures k.Some? ==> forall j :: k.value < j < |calls| ==> !calls[j].Loop?
    ensures k.None? ==> forall j :: 0 <= j < |calls| ==> !calls[j].Loop?
  {
    if calls == [] then None
    else if calls[|calls| - 1].Loop? then Some(|calls| - 1)
    else LastLoop(calls[..|calls| - 1])
  }

  lemma LastLoopGrow(calls: seq<Call>, c: Call)
    ensures LastLoop(calls + [c]) == if c.Loop? then Some(|calls|) else LastLoop(calls)
  {
    assert (calls + [c])[..|calls|] == calls;
  }

  /** Answer and edits are the last loop's, or still the caller's; each loop is one attempt. */
  predicate Answers(s: State, start: State, w: Outside) {
    var k := LastLoop(s.calls);
    && s.attempt == start.attempt + Loops(s.calls)
    && (k.Some? ==> s.answer == w.loop(k.value).final && s.edited == w.loop(k.value).edited)
    && (k.None? ==> s.answer == start.answer && s.edited == start.edited)
  }

  lemma ProbeAnswers(s: State, start: State, w: Outside)
    requires Answers(s, start, w)
    ensures Answers(Ask(s, w), start, w)
  {
    hide LastLoop, Loops;
    LastLoopGrow(s.calls, Probe(w.stop(|s.calls|)));
    LoopsGrow(s.calls, Probe(w.stop(|s.calls|)));
  }

  lemma ImplementAnswers(s: State, start: State, w: Outside)
    requires Answers(s, start, w)
    ensures Answers(Implemented(s, w), start, w)
  {
    hide LastLoop, Loops;
    ProbeAnswers(s, start, w);
    var calls := Ask(s, w).calls;
    LastLoopGrow(calls, Loop);
    LoopsGrow(calls, Loop);
  }

  lemma VerifyAnswers(s: State, start: State, w: Outside)
    requires Answers(s, start, w)
    ensures Answers(Checked(s, w), start, w)
  {
    hide LastLoop, Loops, Clean, Blocking, AllPassed, Retained, Strip;
    ProbeAnswers(s, start, w);
    var calls := Ask(s, w).calls;
    LastLoopGrow(calls, Skip);
    LoopsGrow(calls, Skip);
    LastLoopGrow(calls, Check(w.verify(|calls|)));
    LoopsGrow(calls, Check(w.verify(|calls|)));
  }

  lemma StepAnswers(node: Node, s: State, start: State, w: Outside, max: nat)
    requires Answers(s, start, w)
    ensures Answers(Step(node, s, w, max).1, start, w)
  {
    hide LastLoop, Loops, Clean, Blocking, Appended, Implemented, Checked;
    ProbeAnswers(s, start, w);
    if node == Implement {
      ImplementAnswers(s, start, w);
    } else if node == Verify {
      VerifyAnswers(s, start, w);
    }
  }

  lemma {:induction false} RunAnswers(node: Node, s: State, start: State, w: Outside, max: nat)
    requires Answers(s, start, w)
    ensures Answers(RunFrom(node, s, w, max), start, w)
    decreases Potential(node, s, max), Rank(node)
  {
    hide Step, Answers;
    if node != End {
      StepDecreases(node, s, w, max);
      StepAnswers(node, s, start, w, max);
      var (n, t) := Step(node, s, w, max);
      RunAnswers(n, t, start, w, max);
    }
  }

  /** A run gives the answer of its last agent loop, and the caller's when none ran. */
  lemma AnswerReported(s: State, w: Outside, max: nat)
    requires s.calls == []
    ensures var r := RunGraph(s, w, max); Answers(r, s, w)
  {
    hide RunFrom, Strip, LastLoop, Loops;
    var probe := Probe(w.stop(|s.calls|));
    NoLoops();
    LastLoopGrow(s.calls, probe);
    LoopsGrow(s.calls, probe);
    RunAnswers(Understand, Ask(s, w), s, w, max);
  }

  lemma NoLoops()
    ensures LastLoop([]) == None && Loops([]) == 0
  {
  }

  /** The last verification that was not skipped returned reports and does not stand. */
  predicate LastFailed(calls: seq<Call>) {
    var last := LastCheck(calls);
    last.Some? && last.value != [] && !Clean(Retained(last.value))
  }

  /** The loop's own reason, or what its text amounts to. */
  predicate OwnReason(reason: Reason, a: Attempt) {
    && (a.reason != Unset ==> reason == a.reason)
    && (a.reason == Unset ==> reason == if a.final == "" then Empty else Completed)
  }

  predicate OwnInv(node: Node, s: State, w: Outside) {
    var k := LastLoop(s.calls);
    && (s.completion == Unset && k.Some? ==> OwnReason(s.stopReason, w.loop(k.value)))
    && (node in {Verify, Analyze, End} && !Fired(s.calls) ==> k.Some?)
    && (node == Analyze ==> LastFailed(s.calls) && s.reports == Retained(LastCheck(s.calls).value))
    && (!Fired(s.calls) && s.completion != Unset ==>
          node == End && k.Some? && (LastFailed(s.calls) || OwnReason(s.completion, w.loop(k.value))))
  }

  lemma ImplementOwn(s: State, w: Outside)
    requires OwnInv(Implement, s, w)
    ensures OwnInv(Verify, Implemented(s, w), w)
  {
    hide Clean, Retained, LastLoop, LastCheck, Fired;
    var probe := Probe(w.stop(|s.calls|));
    LastLoopGrow(s.calls, probe);
    EndsGrow(s.calls, probe, w);
    var calls := Ask(s, w).calls;
    LastLoopGrow(calls, Loop);
    EndsGrow(calls, Loop, w);
  }

  lemma VerifyOwn(s: State, w: Outside, max: nat)
    requires OwnInv(Verify, s, w)
    ensures var t := Checked(s, w); OwnInv(AfterVerify(t, max), t, w)
  {
    hide Clean, Blocking, AllPassed, Retained, Strip, LastLoop, LastCheck, Fired;
    var probe := Probe(w.stop(|s.calls|));
    LastLoopGrow(s.calls, probe);
    LastCheckGrow(s.calls, probe);
    EndsGrow(s.calls, probe, w);
    var calls := Ask(s, w).calls;
    var check := Check(w.verify(|calls|));
    LastLoopGrow(calls, Skip);
    LastCheckGrow(calls, Skip);
    EndsGrow(calls, Skip, w);
    LastLoopGrow(calls, check);
    LastCheckGrow(calls, check);
    EndsGrow(calls, check, w);
  }

  lemma StepOwn(node: Node, s: State, w: Outside, max: nat)
    requires OwnInv(node, s, w) && node != End
    ensures var (n, t) := Step(node, s, w, max); OwnInv(n, t, w)
  {
    hide Clean, Blocking, Retained, Appended, LastLoop, LastCheck, Fired, Implemented, Checked, AfterVerify;
    var probe := Probe(w.stop(|s.calls|));
    LastLoopGrow(s.calls, probe);
    LastCheckGrow(s.calls, probe);
    EndsGrow(s.calls, probe, w);
    if node == Implement {
      ImplementOwn(s, w);
    } else if node == Verify {
      VerifyOwn(s, w, max);
    }
  }

  lemma {:induction false} RunOwn(node: Node, s: State, w: Outside, max: nat)
    requires OwnInv(node, s, w)
    ensures OwnInv(End, RunFrom(node, s, w, max), w)
    decreases Potential(node, s, max), Rank(node)
  {
    hide Step, OwnInv;
    if node != End {
      StepDecreases(node, s, w, max);
      StepOwn(node, s, w, max);
      var (n, t) := Step(node, s, w, max);
      RunOwn(n, t, w, max);
    }
  }

  /** Over every run: without a fired probe and without a failed last verification the run
      ends with the reason of its last agent loop, or as completed or empty by that loop's text. */
  lemma OwnReasonReported(s: State, w: Outside, max: nat)
    requires FirstState(s)
    ensures var r := RunGraph(s, w, max);
            !Fired(r.calls) && !LastFailed(r.calls) ==>
              var k := LastLoop(r.calls); k.Some? && OwnReason(r.completion, w.loop(k.value))
  {
    hide RunFrom, Strip, LastLoop, LastCheck, Fired, LastFailed;
    var probe := Probe(w.stop(|s.calls|));
    NoLoops();
    NothingEnds(w);
    LastLoopGrow(s.calls, probe);
    EndsGrow(s.calls, probe, w);
    if !w.stop(|s.calls|) {
      RunOwn(Understand, Ask(s, w), w, max);
    }
  }

  // ---- the verification a run reports ----

  /** The last verification pass, skipped or not. */
  function LastPass(calls: seq<Call>): Option<Call> {
    if calls == [] then None
    else
      var last := calls[|calls| - 1];
      if last.Check? || last.Skip? then Some(last) else LastPass(calls[..|calls| - 1])
  }

  lemma LastPassGrow(calls: seq<Call>, c: Call)
    ensures LastPass(calls + [c]) == if c.Check? || c.Skip? then Some(c) else LastPass(calls)
  {
    assert (calls + [c])[..|calls|] == calls;
  }

  /** One of the first n reports gives the cause, and none of them a more severe one. */
  predicate WorstOf(reports: seq<Report>, n: nat, cause: Cause)
    requires n <= |reports|
  {
    && (exists i :: 0 <= i < n && reports[i].cause == cause)
    && (forall i :: 0 <= i < n ==> Severity(reports[i].cause) <= Severity(cause))
  }

  /** What is reported of a check: nothing verified without a report; otherwise its first six
      reports, verified when all of them passed, and the worst cause among them unless all
      of them passed and none gives a cause but the implementation. */
  predicate Judged(s: State, reports: seq<Report>) {
    var n := Min(6, |reports|);
    if n == 0 then s.status == Unavailable && s.cause == None && s.reports == [] && !s.passed
    else
      && s.reports == reports[..n]
      && s.status == (if forall i :: 0 <= i < n ==> reports[i].passed then Verified else Failed)
      && (s.passed <==> forall i :: 0 <= i < n ==> reports[i].passed && reports[i].cause == Implementation)
      && (s.cause == None <==> s.passed)
      && (s.cause.Some? ==> WorstOf(reports, n, s.cause.value))
  }

  /** A skipped pass only says so and keeps the earlier verdict. */
  predicate PassReported(s: State, start: State) {
    match LastPass(s.calls)
    case None => s.status == start.status && s.cause == start.cause
    case Some(Check(reports)) => Judged(s, reports)
    case _ => s.status == Skipped && s.reports == []
  }

  lemma VerdictJudges(s: State, reports: seq<Report>)
    ensures Judged(Verdict(s, reports), reports)
  {
    hide Severity;
    if reports != [] {
      var kept := Retained(reports);
      var n := Min(6, |reports|);
      assert kept == reports[..n];
      BlockingIsWorst(kept);
      assert forall i :: 0 <= i < n ==> kept[i] == reports[i];
      if Blocking(kept) == Implementation {
        assert forall i :: 0 <= i < n ==> kept[i].cause == Implementation by { OnlyImplementation(kept); }
        assert kept[0].cause == Implementation;
      }
    }
  }

  lemma OnlyImplementation(reports: seq<Report>)
    requires Blocking(reports) == Implementation
    ensures forall i :: 0 <= i < |reports| ==> reports[i].cause == Implementation
  {
    BlockingIsWorst(reports);
  }

  lemma CheckedPass(s: State, start: State, w: Outside)
    requires PassReported(s, start)
    ensures PassReported(Checked(s, w), start)
  {
    hide LastPass, Verdict, Judged, Strip;
    var fired := w.stop(|s.calls|);
    LastPassGrow(s.calls, Probe(fired));
    var t := Ask(s, w);
    KeptPass(s, if fired then Halted(t) else t, start);
    LastPassGrow(t.calls, Skip);
    var reports := w.verify(|t.calls|);
    LastPassGrow(t.calls, Check(reports));
    var checked := t.(calls := t.calls + [Check(reports)]);
    VerdictJudges(checked, reports);
    VerdictKeeps(checked, reports);
  }

  lemma KeptPass(s: State, t: State, start: State)
    requires PassReported(s, start) && LastPass(t.calls) == LastPass(s.calls)
    requires t.status == s.status && t.cause == s.cause && t.reports == s.reports && t.passed == s.passed
    ensures PassReported(t, start)
  {
    hide LastPass;
  }

  lemma StepPass(node: Node, s: State, start: State, w: Outside, max: nat)
    requires PassReported(s, start)
    ensures PassReported(Step(node, s, w, max).1, start)
  {
    hide Clean, Blocking, Appended, LastPass, Checked, PassReported;
    if node == Verify {
      CheckedPass(s, start, w);
    } else {
      LastPassGrow(s.calls, Probe(w.stop(|s.calls|)));
      LastPassGrow(Ask(s, w).calls, Loop);
      KeptPass(s, Step(node, s, w, max).1, start);
    }
  }

  lemma VerdictKeeps(s: State, reports: seq<Report>)
    ensures Verdict(s, reports).calls == s.calls
  {
  }

  lemma {:induction false} RunPass(node: Node, s: State, start: State, w: Outside, max: nat)
    requires PassReported(s, start)
    ensures PassReported(RunFrom(node, s, w, max), start)
    decreases Potential(node, s, max), Rank(node)
  {
    hide Step, PassReported;
    if node != End {
      StepDecreases(node, s, w, max);
      StepPass(node, s, start, w, max);
      var (n, t) := Step(node, s, w, max);
      RunPass(n, t, start, w, max);
    }
  }

  /** Over every run: what is reported of verification is what its last pass found. */
  lemma VerificationReported(s: State, w: Outside, max: nat)
    requires s.calls == []
    ensures PassReported(RunGraph(s, w, max), s)
  {
    hide RunFrom, Strip, LastPass, Judged;
    assert LastPass([]) == None by { NoPass(); }
    LastPassGrow(s.calls, Probe(w.stop(|s.calls|)));
    RunPass(Understand, Ask(s, w), s, w, max);
    KeptPass(RunFrom(Understand, Ask(s, w), w, max), Finished(RunFrom(Understand, Ask(s, w), w, max)), s);
  }

  lemma NoPass()
    ensures LastPass([]) == None
  {
  }

  // ---- a probe that fires, a pass that is skipped ----

  /** A probe that fires in a node ends its work there and then. */
  lemma FiredProbeStops(node: Node, s: State, w: Outside, max: nat)
    requires node != End && w.stop(|s.calls|)
    ensures var t := Step(node, s, w, max).1;
            t == s.(completion := Stopped, calls := s.calls + [Probe(true)],
                    stopReason := if node in {Implement, Verify, Analyze} then Stopped else s.stopReason)
  {
    hide Clean, Blocking, Strip;
  }

  /** After a skipped pass there is another attempt if and only if the last one gave no text or
      ran out of steps, was not stopped, and budget is left. */
  lemma SkippedIsRetriedIff(s: State, w: Outside, max: nat)
    requires !w.stop(|s.calls|) && (!w.hasVerifier || !s.edited)
    ensures var (n, t) := Step(Verify, s, w, max);
            && t.skipped == (if w.hasVerifier then NoEdits else NoVerifier)
            && t.completion == (if s.stopReason == Stopped then Stopped else s.completion)
            && n in {Implement, End}
            && t.note == (if s.stopReason != Stopped && (Strip(s.answer) == "" || s.stopReason == MaxSteps)
                          then Retry else Done)
            && (n == Implement <==> t.completion != Stopped && s.attempt < max
                                    && (Strip(s.answer) == "" || s.stopReason == MaxSteps))
            && t.(note := s.note, skipped := s.skipped, completion := s.completion, status := s.status,
                  reports := s.reports, calls := s.calls) == s
  {
    hide Strip;
  }

  /** A verification that returns no report ends the run, whatever an earlier pass noted. */
  lemma NothingVerifiedEnds(s: State, w: Outside, max: nat)
    requires !w.stop(|s.calls|) && w.hasVerifier && s.edited && w.verify(|s.calls| + 1) == []
    ensures var (n, t) := Step(Verify, s, w, max);
            && n == End && t.note == Done && Judged(t, [])
            && t.calls == s.calls + [Probe(false)] + [Check([])] && t.completion == s.completion
  {
  }

  // ---- the repair context ----

  /** An implementation failure is handed to the next attempt: its feedback stands behind what
      was there before, cut off at the limit. */
  lemma FailureIsHandedOn(s: State, w: Outside, max: nat)
    requires !w.stop(|s.calls|) && !Clean(s.reports)
    requires forall i :: 0 <= i < |s.reports| ==> s.reports[i].cause == Implementation
    ensures var (n, t) := Step(Analyze, s, w, max);
            var all := if s.repair == "" then w.feedback(s.reports) else s.repair + "\n\n" + w.feedback(s.reports);
            && t.repair == (if s.repair != "" && |all| > MAX_FEEDBACK_CHARS then all[..MAX_FEEDBACK_CHARS] else all)
            && (s.attempt < max && s.completion != Stopped ==> n == Implement)
            && (s.attempt >= max ==>
                  n == End && t.completion == VerificationFailed && t.stopReason == VerificationFailed)
  {
    BlockingIsWorst(s.reports);
  }

  /** A failure that no repair can fix ends the run, and its reason is the worst of the causes. */
  lemma RefusalEnds(s: State, w: Outside, max: nat, cause: Cause)
    requires !w.stop(|s.calls|) && cause != Implementation && WorstOf(s.reports, |s.reports|, cause)
    ensures var (n, t) := Step(Analyze, s, w, max);
            && n == End && t.note == Done && t.completion == t.stopReason && t.repair == s.repair
            && t.completion == match cause
                               case PermissionDenied => PermissionRefused
                               case Timeout => VerificationTimeout
                               case _ => EnvironmentError
  {
    BlockingIsWorst(s.reports);
  }

  /** The next attempt is shown the whole of a later failure exactly when it still fits
      behind the earlier ones; a full context shows nothing of it. */
  lemma LaterFeedback(prior: string, feedback: string)
    requires prior != ""
    ensures Appended(prior, feedback) == prior + "\n\n" + feedback <==> |prior| + 2 + |feedback| <= MAX_FEEDBACK_CHARS
    ensures |prior| + 2 >= MAX_FEEDBACK_CHARS ==>
            forall other: string :: Appended(prior, feedback) == Appended(prior, other)
  {
  }

  // ---- the class ----

  class CodingGraph {
    const maxAttempts: nat
    const outside: Outside
    /** The workflow state the nodes update, and the collaborator calls made so far. */
    var state: State

    constructor (maxAttempts: nat, outside: Outside, state: State)
      requires maxAttempts >= 1
      ensures this.maxAttempts == maxAttempts && this.outside == outside && this.state == state
    {
      this.maxAttempts, this.outside, this.state := maxAttempts, outside, state;
    }

    method ShouldStop() returns (fired: bool)
      modifies this`state
      ensures fired == outside.stop(|old(state).calls|) && state == Ask(old(state), outside)
    {
      fired := outside.stop(|state.calls|);
      state := state.(calls := state.calls + [Probe(fired)]);
    }

    method NodeUnderstand()
      modifies this`state
      ensures state == Gated(old(state), outside)
    {
      var fired := ShouldStop();
      if fired {
        state := state.(completion := Stopped);
      }
    }

    method NodePlan()
      modifies this`state
      ensures state == Gated(old(state), outside)
    {
      var fired := ShouldStop();
      if fired {
        state := state.(completion := Stopped);
      }
    }

    method NodeImplement()
      modifies this`state
      ensures state == Implemented(old(state), outside)
    {
      var fired := ShouldStop();
      if fired {
        state := state.(completion := Stopped);
        state := state.(stopReason := Stopped);
        return;
      }
      var a := outside.loop(|state.calls|);
      state := state.(calls := state.calls + [Loop]);
      state := state.(edited := a.edited);
      state := state.(answer := a.final);
      if a.reason != Unset {
        state := state.(stopReason := a.reason);
      } else {
        state := state.(stopReason := if a.final != "" then Completed else Empty);
      }
      state := state.(attempt := state.attempt + 1);
    }

    method LegacyRetryGate()
      modifies this`state
      ensures state == RetryGate(old(state))
    {
      if state.stopReason == Stopped {
        state := state.(note := Done);
        state := state.(completion := Stopped);
      } else if Strip(state.answer) == "" || state.stopReason == MaxSteps {
        state := state.(note := Retry);
      } else {
        state := state.(note := Done);
      }
    }

    method NodeVerify()
      modifies this`state
      ensures state == Checked(old(state), outside)
    {
      hide Blocking, AllPassed, Seen, Strip;
      var fired := ShouldStop();
      if fired {
        state := state.(completion := Stopped);
        state := state.(stopReason := Stopped);
        return;
      }
      var skip := NotSkipped;
      if !outside.hasVerifier {
        skip := NoVerifier;
      } else if !state.edited {
        skip := NoEdits;
      }
      if skip != NotSkipped {
        state := state.(reports := [], calls := state.calls + [Skip]);
        state := state.(skipped := skip);
        state := state.(status := Skipped);
        LegacyRetryGate();
        return;
      }
      var reports := outside.verify(|state.calls|);
      state := state.(calls := state.calls + [Check(reports)]);
      if reports == [] {
        state := state.(reports := [], passed := false);
        state := state.(status := Unavailable, cause := None);
        state := state.(note := Done);
        return;
      }
      state := state.(reports := Retained(reports));
      state := state.(status := if AllPassed(state.reports) then Verified else Failed);
      var passed, blocking := Clean(state.reports), Blocking(state.reports);
      state := state.(passed := passed);
      state := state.(cause := if passed then None else Some(blocking));
    }

    method NodeAnalyze()
      modifies this`state
      ensures state == Analyzed(old(state), outside, maxAttempts)
    {
      hide Blocking, AllPassed, Seen, Appended, Clean;
      var fired := ShouldStop();
      if fired {
        state := state.(completion := Stopped);
        state := state.(stopReason := Stopped);
        return;
      }
      if Clean(state.reports) {
        state := state.(note := Done);
        return;
      }
      var cause := Blocking(state.reports);
      if cause != Implementation {
        state := state.(note := Done);
        state := state.(completion := Refusal(cause));
        state := state.(stopReason := Refusal(cause));
        return;
      }
      state := state.(repair := Appended(state.repair, outside.feedback(state.reports)));
      state := state.(note := Retry);
      if state.attempt >= maxAttempts {
        state := state.(completion := VerificationFailed);
        state := state.(stopReason := VerificationFailed);
      }
    }

    /** The compiled graph: run a node, let the router pick the next one. */
    method Invoke()
      modifies this`state
      ensures state == RunFrom(Understand, old(state), outside, maxAttempts)
    {
      hide Step, Potential, Gated, Implemented, Checked, Analyzed, AfterVerify, AfterAnalyze;
      var node := Understand;
      while node != End
        invariant RunFrom(node, state, outside, maxAttempts) == RunFrom(Understand, old(state), outside, maxAttempts)
        decreases Potential(node, state, maxAttempts), Rank(node)
      {
        ghost var s, here := state, node;
        StepDecreases(node, s, outside, maxAttempts);
        StepCases(node, s, outside, maxAttempts);
        match node
        case Understand => NodeUnderstand(); node := Plan;
        case Plan => NodePlan(); node := Implement;
        case Implement => NodeImplement(); node := Verify;
        case Verify => NodeVerify(); node := AfterVerify(state, maxAttempts);
        case Analyze => NodeAnalyze(); node := AfterAnalyze(state, maxAttempts);
        assert (node, state) == Step(here, s, outside, maxAttempts);
      }
    }

    method Run()
      modifies this`state
      ensures state == RunGraph(old(state), outside, maxAttempts)
    {
      hide RunFrom, Strip;
      var fired := ShouldStop();
      if fired {
        state := state.(completion := Stopped);
        if state.stopReason == Unset {
          state := state.(stopReason := Stopped);
        }
        return;
      }
      Invoke();
      if state.completion == Unset {
        if state.stopReason != Unset {
          state := state.(completion := state.stopReason);
        } else {
          state := state.(completion := if Strip(state.answer) != "" then Completed else Empty);
        }
      }
    }
  }

  lemma StepCases(node: Node, s: State, w: Outside, max: nat)
    ensures node == Understand ==> Step(node, s, w, max) == (Plan, Gated(s, w))
    ensures node == Plan ==> Step(node, s, w, max) == (Implement, Gated(s, w))
    ensures node == Implement ==> Step(node, s, w, max) == (Verify, Implemented(s, w))
    ensures node == Verify ==> Step(node, s, w, max) == (AfterVerify(Checked(s, w), max), Checked(s, w))
    ensures node == Analyze ==> Step(node, s, w, max) == (AfterAnalyze(Analyzed(s, w, max), max), Analyzed(s, w, max))
  {
  }

  // ---- a run that repairs what it may not ----

  function OneRefusal(): Outside {
    Outside(true, (t: nat) => false, (t: nat) => Attempt(t >= 8, "x", MaxSteps),
            (t: nat) => [Report(false, PermissionDenied)], (reports: seq<Report>) => "")
  }

  /** A first attempt that edits nothing and runs out of steps leaves the flag and the note;
      the second is refused permission, and the agent loop runs a third time. */
  lemma RefusalIsRepaired(s: State)
    requires FirstState(s) && s.attempt == 0
    ensures var calls := RunGraph(s, OneRefusal(), 3).calls;
            |calls| > 12 && calls[10] == Check([Report(false, PermissionDenied)]) && calls[12] == Loop
  {
    hide RunFrom, Strip, Appended;
    var w := OneRefusal();
    var s0 := Ask(s, w);
    var s4 := FirstAttempt(s0, w);
    var s5 := Advance(Implement, s4, w, 3);
    var s6 := Advance(Verify, s5, w, 3);
    var s7 := Advance(Implement, s6, w, 3);
    assert s7.calls[10] == Check([Report(false, PermissionDenied)]) && s7.calls[12] == Loop;
    CallsKept(Verify, s7, w, 3);
  }

  /** A loop that edits nothing and runs out of steps, and the skipped pass after it. */
  lemma FirstAttempt(s: State, w: Outside) returns (t: State)
    requires |s.calls| == 1 && s.completion == Unset && s.attempt == 0
    requires w.hasVerifier && w.loop(4) == Attempt(false, "x", MaxSteps) && forall m :: 0 <= m < 7 ==> !w.stop(m)
    ensures RunFrom(Understand, s, w, 3) == RunFrom(Implement, t, w, 3)
    ensures |t.calls| == 7 && t.completion == Unset && t.attempt == 1 && t.skipped == NoEdits && t.note == Retry
  {
    hide RunFrom, Strip, Appended, Clean, Blocking, AllPassed, Retained;
    var s1 := Advance(Understand, s, w, 3);
    var s2 := Advance(Plan, s1, w, 3);
    var s3 := Advance(Implement, s2, w, 3);
    t := Advance(Verify, s3, w, 3);
  }

  function StopAfterPass(): Outside {
    Outside(true, (t: nat) => t >= 13, (t: nat) => Attempt(t >= 8, "x", MaxSteps),
            (t: nat) => [Report(true, Implementation)], (reports: seq<Report>) => "")
  }

  /** After a skipped first pass a verification that passed sends the run back to the agent
      loop all the same; stopped before the next one, it reports a pass over edits that no
      verification has seen. */
  lemma StalePassReported(s: State)
    requires FirstState(s) && s.attempt == 0
    ensures var r := RunGraph(s, StopAfterPass(), 3);
            && r.passed && r.edited && r.completion == Stopped && LoopedSince(r.calls)
            && |r.calls| == 14 && r.calls[10] == Check([Report(true, Implementation)]) && r.calls[12] == Loop
  {
    hide RunFrom, Strip, Appended, LoopedSince, Clean, Retained, Blocking, AllPassed;
    var w := StopAfterPass();
    var s0 := Ask(s, w);
    var s4 := FirstAttempt(s0, w);
    var s6 := PassedAttempt(s4, w);
    var s7 := Advance(Implement, s6, w, 3);
    var s8 := Advance(Verify, s7, w, 3);
    Ended(s8, w, 3);
    LoopedTail(s8.calls);
  }

  /** A loop that edits, and the verification that passes it but leaves flag and note. */
  lemma PassedAttempt(s: State, w: Outside) returns (t: State)
    requires w == StopAfterPass() && |s.calls| == 7 && s.completion == Unset && s.attempt == 1
    requires s.skipped == NoEdits && s.note == Retry
    ensures RunFrom(Implement, s, w, 3) == RunFrom(Implement, t, w, 3)
    ensures |t.calls| == 11 && t.calls[10] == Check([Report(true, Implementation)])
    ensures t.completion == Unset && t.attempt == 2 && t.passed
  {
    hide RunFrom, Strip, Appended;
    var s5 := Advance(Implement, s, w, 3);
    t := Advance(Verify, s5, w, 3);
  }

  lemma LoopedTail(calls: seq<Call>)
    requires |calls| >= 2 && calls[|calls| - 2].Loop? && calls[|calls| - 1].Probe?
    ensures LoopedSince(calls)
  {
    assert calls[..|calls| - 1][|calls| - 2].Loop?;
  }

  lemma Ended(s: State, w: Outside, max: nat)
    ensures RunFrom(End, s, w, max) == s
  {
  }

  lemma Advance(node: Node, s: State, w: Outside, max: nat) returns (t: State)
    requires node != End
    ensures t == Step(node, s, w, max).1 && RunFrom(node, s, w, max) == RunFrom(Step(node, s, w, max).0, t, w, max)
  {
    t := Step(node, s, w, max).1;
    StepDecreases(node, s, w, max);
  }

  /** A run only ever adds to the record of calls. */
  lemma {:induction false} CallsKept(node: Node, s: State, w: Outside, max: nat)
    ensures s.calls <= RunFrom(node, s, w, max).calls
    decreases Potential(node, s, max), Rank(node)
  {
    hide Step;
    if node != End {
      StepDecreases(node, s, w, max);
      var (n, t) := Step(node, s, w, max);
      StepKept(node, s, w, max);
      CallsKept(n, t, w, max);
    }
  }

  lemma StepKept(node: Node, s: State, w: Outside, max: nat)
    ensures s.calls <= Step(node, s, w, max).1.calls
  {
    hide Clean, Blocking, AllPassed, Retained, Appended, Strip;
  }
}
