/** The research workflow as a state machine. */
module ResearchGraph {
  import opened Text

  // Decompose the question, search within a budget, evaluate, synthesize, validate. As in
  // CodingGraph, every collaborator is an oracle indexed by the number of calls made so far.

  datatype Quality = Sufficient | Partial | Nothing

  datatype Completion = Unset | Stopped | Completed | Empty

  datatype Validation = NotValidated | Accepted | Insufficient | NoAnswer

  datatype Found = Found(text: string, quality: Quality)

  datatype Call = Probe(fired: bool) | Gate(query: string, allowed: bool) | Block | Search(query: string)
                | Record(query: string) | Say(answer: Option<string>)

  /** split: the strings of the sub_questions list (none when the output is malformed), or
      None when the model raised. synthesize: None when the stop signal fires while the
      answer is streamed. */
  datatype Outside = Outside(hasModel: bool, hasSearch: bool, hasCoordinator: bool, decomposable: bool,
                             lower: string -> string, stop: nat -> bool, split: nat -> Option<seq<string>>,
                             gate: nat -> bool, search: nat -> Found, gaps: nat -> seq<string>,
                             refine: nat -> string, synthesize: nat -> Option<string>, irrelevant: nat -> bool)

  datatype State = State(userInput: string, subs: seq<string>, query: string, attempts: nat, quality: Quality,
                         grounding: string, gaps: seq<string>, blocked: bool, completion: Completion,
                         validation: Validation, answer: string, coverageIncomplete: bool,
                         unresearched: seq<string>, calls: seq<Call>)

  datatype Node = Understand | Plan | Decompose | Searching | Evaluate | Synthesize | Validate | End

  const MAX_SUB_QUESTIONS := 3
  const MAX_SUB_QUESTION_CHARS := 200
  const DECOMPOSE_TRIES := 2

  // ---- parsing a decomposition ----

  function Trim(item: string): string {
    var t := Strip(item);
    if |t| > MAX_SUB_QUESTION_CHARS then t[..MAX_SUB_QUESTION_CHARS] else t
  }

  predicate Repeats(out: seq<string>, text: string, lower: string -> string) {
    exists i :: 0 <= i < |out| && lower(out[i]) == lower(text)
  }

  function Parsed(items: seq<string>, out: seq<string>, lower: string -> string): seq<string>
    decreases |items|
  {
    if items == [] || |out| >= MAX_SUB_QUESTIONS then out
    else
      var text := Trim(items[0]);
      Parsed(items[1..], if text == "" || Repeats(out, text, lower) then out else out + [text], lower)
  }

  predicate Questions(out: seq<string>, lower: string -> string) {
    && |out| <= MAX_SUB_QUESTIONS
    && (forall i :: 0 <= i < |out| ==> 0 < |out[i]| <= MAX_SUB_QUESTION_CHARS)
    && (forall i, j :: 0 <= i < j < |out| ==> lower(out[i]) != lower(out[j]))
  }

  /** At most three sub-questions, none blank or overlong, no two alike up to case. */
  lemma {:induction false} ParsedQuestions(items: seq<string>, out: seq<string>, lower: string -> string)
    requires Questions(out, lower)
    ensures Questions(Parsed(items, out, lower), lower)
    decreases |items|
  {
    hide Strip;
    if items != [] && |out| < MAX_SUB_QUESTIONS {
      var text := Trim(items[0]);
      ParsedQuestions(items[1..], if text == "" || Repeats(out, text, lower) then out else out + [text], lower);
    }
  }

  predicate Cut(item: string, text: string) {
    text <= Strip(item) && |text| == if |Strip(item)| <= 200 then |Strip(item)| else 200
  }

  lemma TrimCuts(item: string, text: string)
    ensures Cut(item, text) <==> text == Trim(item)
  {
    hide Strip;
  }

  /** One of the questions picked up to index i reads like the text, up to case. */
  predicate Alike(out: seq<string>, lower: string -> string, p: seq<nat>, i: nat, text: string)
    requires |p| == |out|
  {
    exists j :: 0 <= j < |p| && p[j] <= i && lower(out[j]) == lower(text)
  }

  /** The questions are the strings at the increasing indices p, without the blanks around
      them and cut to 200 characters. One of the first n strings is left out only when that
      is empty, when it reads like an earlier one, or when three stand before it. */
  ghost predicate Picks(items: seq<string>, n: nat, out: seq<string>, lower: string -> string, p: seq<nat>) {
    && |p| == |out| <= 3 && n <= |items|
    && (forall j, k :: 0 <= j < k < |p| ==> p[j] < p[k])
    && (forall j :: 0 <= j < |p| ==> p[j] < n && Cut(items[p[j]], out[j]) && out[j] != "")
    && (forall i, text :: 0 <= i < n && Cut(items[i], text) && text != "" && (|p| == 3 ==> i <= p[2]) ==>
          Alike(out, lower, p, i, text))
  }

  lemma {:induction false} ParsedPicks(items: seq<string>, n: nat, out: seq<string>, lower: string -> string,
                                       p: seq<nat>) returns (q: seq<nat>)
    requires Picks(items, n, out, lower, p)
    ensures Picks(items, |items|, Parsed(items[n..], out, lower), lower, q)
    decreases |items| - n
  {
    hide Trim, Picks;
    PickCount(items, n, out, lower, p);
    if n == |items| {
      assert items[n..] == [];
      q := p;
    } else if |p| == 3 {
      q := p;
      EnoughPicked(items, n, out, lower, p);
    } else {
      var text := Trim(items[n]);
      assert items[n..][0] == items[n] && items[n..][1..] == items[n + 1..];
      PickStep(items, n, out, lower, p);
      if text == "" || Repeats(out, text, lower) {
        q := ParsedPicks(items, n + 1, out, lower, p);
      } else {
        q := ParsedPicks(items, n + 1, out + [text], lower, p + [n]);
      }
    }
  }

  lemma PickCount(items: seq<string>, n: nat, out: seq<string>, lower: string -> string, p: seq<nat>)
    requires Picks(items, n, out, lower, p)
    ensures |p| == |out| <= 3 && n <= |items|
  {
  }

  lemma EnoughPicked(items: seq<string>, n: nat, out: seq<string>, lower: string -> string, p: seq<nat>)
    requires Picks(items, n, out, lower, p) && |p| == 3
    ensures Picks(items, |items|, out, lower, p)
  {
    hide Cut, Alike;
  }

  lemma PickStep(items: seq<string>, n: nat, out: seq<string>, lower: string -> string, p: seq<nat>)
    requires Picks(items, n, out, lower, p) && n < |items| && |p| < 3
    ensures var text := Trim(items[n]);
            if text == "" || Repeats(out, text, lower) then Picks(items, n + 1, out, lower, p)
            else Picks(items, n + 1, out + [text], lower, p + [n])
  {
    hide Trim, Cut, Alike;
    var text := Trim(items[n]);
    TrimCuts(items[n], text);
    forall other | Cut(items[n], other) ensures other == text {
      TrimCuts(items[n], other);
    }
    if text != "" {
      if Repeats(out, text, lower) {
        AlikeNow(items, n, out, lower, p, text);
      } else {
        forall i, other | 0 <= i <= n && Cut(items[i], other) && other != "" 
          ensures Alike(out + [text], lower, p + [n], i, other)
        {
          AlikeGrows(out, lower, p, n, text, i, other);
        }
      }
    }
  }

  lemma AlikeNow(items: seq<string>, n: nat, out: seq<string>, lower: string -> string, p: seq<nat>, text: string)
    requires Picks(items, n, out, lower, p) && Repeats(out, text, lower)
    ensures Alike(out, lower, p, n, text)
  {
    hide Cut;
    var j :| 0 <= j < |out| && lower(out[j]) == lower(text);
    assert p[j] < n;
  }

  lemma AlikeGrows(out: seq<string>, lower: string -> string, p: seq<nat>, n: nat, text: string, i: nat, other: string)
    requires |p| == |out| && i <= n
    requires if i == n then other == text else Alike(out, lower, p, i, other)
    ensures Alike(out + [text], lower, p + [n], i, other)
  {
    var more, q := out + [text], p + [n];
    if i == n {
      assert q[|p|] == n && more[|p|] == text;
    } else {
      var j :| 0 <= j < |p| && p[j] <= i && lower(out[j]) == lower(other);
      assert q[j] == p[j] && more[j] == out[j];
    }
  }

  method ParseDecomposition(items: seq<string>, lower: string -> string) returns (out: seq<string>)
    ensures out == Parsed(items, [], lower) && Questions(out, lower)
  {
    hide Trim, Questions;
    out := [];
    assert items[0..] == items;
    for i := 0 to |items|
      invariant Parsed(items[i..], out, lower) == Parsed(items, [], lower)
      invariant |out| < MAX_SUB_QUESTIONS
    {
      assert items[i..][0] == items[i] && items[i..][1..] == items[i + 1..];
      var text := Trim(items[i]);
      if text == "" || Repeats(out, text, lower) {
        continue;
      }
      out := out + [text];
      if |out| >= MAX_SUB_QUESTIONS {
        break;
      }
    }
    assert Questions([], lower) by { NoQuestions(lower); }
    ParsedQuestions(items, [], lower);
  }

  lemma NoQuestions(lower: string -> string)
    ensures Questions([], lower)
  {
  }

  // ---- the nodes ----

  function Ask(s: State, w: Outside): State {
    s.(calls := s.calls + [Probe(w.stop(|s.calls|))])
  }

  function Halted(s: State): State {
    s.(completion := Stopped)
  }

  function Gated(s: State, w: Outside): State {
    var t := Ask(s, w);
    if w.stop(|s.calls|) then Halted(t) else t
  }

  /** The state after the model calls, and whether the stop signal ended them. */
  function Tried(s: State, w: Outside, left: nat): (State, bool)
    decreases left
  {
    if left == 0 then (s, false)
    else
      var t := Ask(s, w);
      if w.stop(|s.calls|) then (Halted(t), true)
      else
        var raw := w.split(|t.calls|);
        if raw.None? then (t, false)
        else
          var subs := Parsed(raw.value, [], w.lower);
          if subs != [] then (t.(subs := subs), false) else Tried(t, w, left - 1)
  }

  function Decomposed(s: State, w: Outside): State {
    var t := Ask(s, w);
    if w.stop(|s.calls|) then Halted(t)
    else if t.subs != [] || !w.decomposable || !w.hasModel then t
    else
      var (u, stopped) := Tried(t, w, DECOMPOSE_TRIES);
      if stopped then u
      else u.(query := if u.subs == [] then u.userInput else u.subs[0])
  }

  function Blocked(s: State): State {
    s.(blocked := true, calls := s.calls + [Block])
  }

  function Executed(s: State, w: Outside, query: string): State {
    var found := w.search(|s.calls|);
    s.(blocked := false, query := query, attempts := s.attempts + 1, quality := found.quality,
       grounding := if found.text != "" then found.text else s.grounding,
       calls := s.calls + [Search(query)] + (if w.hasCoordinator then [Record(query)] else []))
  }

  function Searched(s: State, w: Outside): State {
    var t := Ask(s, w);
    var query := if t.query != "" then t.query else t.userInput;
    if w.stop(|s.calls|) then Halted(t)
    else if t.attempts == 0 && t.quality == Sufficient && t.grounding != "" then Blocked(t)
    else if !w.hasSearch || query == "" then Blocked(t)
    else if !w.hasCoordinator then Executed(t, w, query)
    else
      var allowed := w.gate(|t.calls|);
      var u := t.(calls := t.calls + [Gate(query, allowed)]);
      if allowed then Executed(u, w, query) else Blocked(u)
  }

  function Covered(s: State, max: nat): State {
    if max <= s.attempts < |s.subs| && !s.coverageIncomplete then
      s.(coverageIncomplete := true, unresearched := s.subs[s.attempts..])
    else s
  }

  function Evaluated(s: State, w: Outside, max: nat): State {
    var t := Ask(s, w);
    if w.stop(|s.calls|) then Halted(t)
    else
      var u := Covered(t.(gaps := w.gaps(|t.calls|)), max);
      if u.attempts < |u.subs| then u.(query := u.subs[u.attempts])
      else if u.gaps != [] && u.attempts >= 1 && w.refine(|t.calls|) != "" then u.(query := w.refine(|t.calls|))
      else u
  }

  function Synthesized(s: State, w: Outside): State {
    var t := Ask(s, w);
    if w.stop(|s.calls|) then Halted(t)
    else if !w.hasModel then t.(answer := "", validation := NoAnswer)
    else
      var answer := w.synthesize(|t.calls|);
      var u := t.(calls := t.calls + [Say(answer)]);
      if answer.None? then Halted(u) else u.(answer := answer.value)
  }

  function Validated(s: State, w: Outside): State {
    var t := Ask(s, w);
    if w.stop(|s.calls|) then Halted(t)
    else t.(validation := if Strip(t.answer) == "" then NoAnswer
                          else if w.irrelevant(|t.calls|) then Insufficient else Accepted)
  }

  // ---- routing and the run ----

  function AfterEvaluate(s: State, max: nat): Node {
    if s.completion == Stopped then End
    else if s.attempts < |s.subs| && !s.blocked && s.attempts < max then Searching
    else if s.quality == Sufficient && s.gaps == [] then Synthesize
    else if s.blocked then Synthesize
    else if s.attempts < max then Searching
    else Synthesize
  }

  function AfterValidate(s: State, max: nat): Node {
    if s.completion == Stopped || s.blocked then End
    else if s.validation == Insufficient && s.attempts < max then Searching
    else End
  }

  function Step(node: Node, s: State, w: Outside, max: nat): (Node, State) {
    match node
    case Understand => (Plan, Gated(s, w))
    case Plan => (Decompose, Gated(s, w))
    case Decompose => (Searching, Decomposed(s, w))
    case Searching => (Evaluate, Searched(s, w))
    case Evaluate => var t := Evaluated(s, w, max); (AfterEvaluate(t, max), t)
    case Synthesize => (Validate, Synthesized(s, w))
    case Validate => var t := Validated(s, w); (AfterValidate(t, max), t)
    case End => (End, s)
  }

  /** How many times the search node can still be entered. */
  function Potential(node: Node, s: State, max: nat): nat {
    var left := if s.attempts < max then max - s.attempts else 0;
    match node
    case Understand | Plan | Decompose | Searching => if left == 0 then 1 else left
    case Evaluate | Synthesize | Validate => if s.completion == Stopped || s.blocked then 0 else left
    case End => 0
  }

  function Rank(node: Node): nat {
    match node
    case Understand => 7
    case Plan => 6
    case Decompose => 5
    case Evaluate => 4
    case Synthesize => 3
    case Validate => 2
    case Searching => 1
    case End => 0
  }

  lemma {:induction false} TriedKeeps(s: State, w: Outside, left: nat)
    ensures var (t, stopped) := Tried(s, w, left);
            && (stopped ==> t.completion == Stopped)
            && t.(subs := s.subs, completion := s.completion, calls := s.calls) == s
            && (s.completion == Stopped ==> t.completion == Stopped)
            && |t.calls| >= |s.calls| && t.calls[..|s.calls|] == s.calls
            && (forall j :: |s.calls| <= j < |t.calls| ==> t.calls[j].Probe?)
            && (t.subs == s.subs || (Questions(t.subs, w.lower) && t.subs != [] && !stopped))
    decreases left
  {
    hide Questions, Parsed;
    if left > 0 {
      var t := Ask(s, w);
      TriedKeeps(t, w, left - 1);
      NoQuestions(w.lower);
      if w.split(|t.calls|).Some? {
        ParsedQuestions(w.split(|t.calls|).value, [], w.lower);
      }
    }
  }

  /** What decomposing changes: the sub-questions, the query, the stop mark; and it only
      asks for the stop signal. */
  lemma DecomposedKeeps(s: State, w: Outside)
    ensures var t := Decomposed(s, w);
            && t.(subs := s.subs, query := s.query, completion := s.completion, calls := s.calls) == s
            && (s.completion == Stopped ==> t.completion == Stopped)
            && |t.calls| >= |s.calls| && t.calls[..|s.calls|] == s.calls
            && (forall j :: |s.calls| <= j < |t.calls| ==> t.calls[j].Probe?)
            && (t.subs == s.subs || (Questions(t.subs, w.lower) && t.subs != [] && t.query == t.subs[0]))
  {
    hide Tried, Questions;
    TriedKeeps(Ask(s, w), w, DECOMPOSE_TRIES);
  }

  lemma StepDecreases(node: Node, s: State, w: Outside, max: nat)
    requires node != End
    ensures var (n, t) := Step(node, s, w, max);
            || Potential(n, t, max) < Potential(node, s, max)
            || (Potential(n, t, max) == Potential(node, s, max) && Rank(n) < Rank(node))
  {
    hide Decomposed, Strip;
    DecomposedKeeps(s, w);
  }

  function RunFrom(node: Node, s: State, w: Outside, max: nat): State
    decreases Potential(node, s, max), Rank(node)
  {
    if node == End then s
    else
      StepDecreases(node, s, w, max);
      var (n, t) := Step(node, s, w, max);
      RunFrom(n, t, w, max)
  }

  function RunGraph(s: State, w: Outside, max: nat): State {
    var t := Ask(s, w);
    if w.stop(|s.calls|) then Halted(t)
    else
      var r := RunFrom(Understand, t, w, max);
      if r.completion != Unset then r else r.(completion := if Strip(r.answer) != "" then Completed else Empty)
  }

  predicate FirstState(s: State) {
    && s.calls == [] && s.completion == Unset && s.attempts == 0 && !s.coverageIncomplete && s.unresearched == []
  }

  // ---- the searches of a run ----

  /** The queries searched, in order. */
  function Queries(calls: seq<Call>): seq<string> {
    if calls == [] then []
    else
      var last := calls[|calls| - 1];
      Queries(calls[..|calls| - 1]) + (if last.Search? then [last.query] else [])
  }

  lemma QueriesGrow(calls: seq<Call>, c: Call)
    ensures Queries(calls + [c]) == Queries(calls) + (if c.Search? then [c.query] else [])
  {
    assert (calls + [c])[..|calls|] == calls;
  }

  lemma {:induction false} QueriesKept(calls: seq<Call>, more: seq<Call>)
    requires |calls| <= |more| && more[..|calls|] == calls && forall j :: |calls| <= j < |more| ==> more[j].Probe?
    ensures Queries(more) == Queries(calls)
    decreases |more|
  {
    if |more| > |calls| {
      var shorter := more[..|more| - 1];
      assert shorter[..|calls|] == calls;
      QueriesKept(calls, shorter);
      assert more[|more| - 1].Probe?;
    } else {
      assert more == calls;
    }
  }

  /** The searches so far are the first sub-questions, and where a search may follow the
      query is the next one. */
  ghost predicate CoverInv(node: Node, s: State, max: nat) {
    && |Queries(s.calls)| == s.attempts
    && (node in {Understand, Plan, Decompose} ==> s.subs == [] && s.attempts == 0)
    && (forall k :: 0 <= k < |s.subs| ==> s.subs[k] != "")
    && (forall k :: 0 <= k < |s.subs| && k < s.attempts ==> Queries(s.calls)[k] == s.subs[k])
    && ((node == Searching || (node in {Synthesize, Validate} && s.completion != Stopped)) && s.attempts < |s.subs| ==>
          s.query == s.subs[s.attempts])
  }

  lemma SearchedQueries(s: State, w: Outside)
    ensures var t := Searched(s, w);
            var query := if s.query != "" then s.query else s.userInput;
            && (t.attempts == s.attempts ==> Queries(t.calls) == Queries(s.calls))
            && (t.attempts != s.attempts ==>
                t.attempts == s.attempts + 1 && Queries(t.calls) == Queries(s.calls) + [query])
            && t.subs == s.subs && (t.completion == s.completion || t.completion == Stopped)
            && t.coverageIncomplete == s.coverageIncomplete && t.unresearched == s.unresearched
  {
    hide Queries;
    var query := if s.query != "" then s.query else s.userInput;
    var t := Ask(s, w);
    QueriesGrow(s.calls, Probe(w.stop(|s.calls|)));
    QueriesGrow(t.calls, Block);
    var g := t.calls + [Gate(query, w.gate(|t.calls|))];
    QueriesGrow(t.calls, Gate(query, w.gate(|t.calls|)));
    QueriesGrow(g, Block);
    var start := if w.hasCoordinator then g else t.calls;
    QueriesGrow(start, Search(query));
    QueriesGrow(start + [Search(query)], Record(query));
    assert start + [Search(query)] + [] == start + [Search(query)];
  }

  lemma StepCover(node: Node, s: State, w: Outside, max: nat)
    requires CoverInv(node, s, max) && node != End
    ensures var (n, t) := Step(node, s, w, max); CoverInv(n, t, max)
  {
    hide CoverInv, Gated, Decomposed, Searched, Evaluated, Synthesized, Validated;
    StepCases(node, s, w, max);
    match node
    case Decompose => CoverDecompose(s, w, max);
    case Searching => CoverSearching(s, w, max);
    case Synthesize => CoverSynthesize(s, w, max);
    case _ => CoverRest(node, s, w, max);
  }

  lemma CoverDecompose(s: State, w: Outside, max: nat)
    requires CoverInv(Decompose, s, max)
    ensures CoverInv(Searching, Decomposed(s, w), max)
  {
    hide Decomposed, Queries, Questions;
    DecomposedKeeps(s, w);
    var t := Decomposed(s, w);
    QueriesKept(s.calls, t.calls);
    if t.subs != s.subs {
      QuestionsNotBlank(t.subs, w.lower);
    }
  }

  lemma CoverSearching(s: State, w: Outside, max: nat)
    requires CoverInv(Searching, s, max)
    ensures CoverInv(Evaluate, Searched(s, w), max)
  {
    hide Searched, Queries;
    SearchedQueries(s, w);
  }

  lemma CoverRest(node: Node, s: State, w: Outside, max: nat)
    requires CoverInv(node, s, max) && node in {Understand, Plan, Evaluate, Validate}
    ensures var (n, t) := Step(node, s, w, max); CoverInv(n, t, max)
  {
    hide Strip, Queries;
    QueriesGrow(s.calls, Probe(w.stop(|s.calls|)));
  }

  lemma CoverSynthesize(s: State, w: Outside, max: nat)
    requires CoverInv(Synthesize, s, max)
    ensures CoverInv(Validate, Synthesized(s, w), max)
  {
    hide Queries;
    QueriesGrow(s.calls, Probe(w.stop(|s.calls|)));
    var calls := Ask(s, w).calls;
    QueriesGrow(calls, Say(w.synthesize(|calls|)));
  }

  lemma QuestionsNotBlank(subs: seq<string>, lower: string -> string)
    requires Questions(subs, lower)
    ensures forall k :: 0 <= k < |subs| ==> subs[k] != ""
  {
  }

  lemma {:induction false} RunCover(node: Node, s: State, w: Outside, max: nat)
    requires CoverInv(node, s, max)
    ensures CoverInv(End, RunFrom(node, s, w, max), max)
    decreases Potential(node, s, max), Rank(node)
  {
    hide Step, CoverInv;
    if node != End {
      StepDecreases(node, s, w, max);
      StepCover(node, s, w, max);
      var (n, t) := Step(node, s, w, max);
      RunCover(n, t, w, max);
    }
  }

  /** The k-th search of a run the graph decomposed is for the k-th sub-question, as long
      as there are any, and the attempt count is the number of searches. */
  lemma SearchesFollowPlan(s: State, w: Outside, max: nat)
    requires FirstState(s) && s.subs == []
    ensures var r := RunGraph(s, w, max);
            && |Queries(r.calls)| == r.attempts
            && forall k :: 0 <= k < |r.subs| && k < r.attempts ==> Queries(r.calls)[k] == r.subs[k]
  {
    hide RunFrom, Strip;
    QueriesGrow(s.calls, Probe(w.stop(|s.calls|)));
    RunCover(Understand, Ask(s, w), w, max);
  }

  // ---- the budget ----

  lemma {:induction false} RunAttempts(node: Node, s: State, w: Outside, max: nat)
    ensures RunFrom(node, s, w, max).attempts <= s.attempts + Potential(node, s, max)
    decreases Potential(node, s, max), Rank(node)
  {
    hide Step;
    if node != End {
      StepDecreases(node, s, w, max);
      StepSpends(node, s, w, max);
      var (n, t) := Step(node, s, w, max);
      RunAttempts(n, t, w, max);
    }
  }

  lemma StepSpends(node: Node, s: State, w: Outside, max: nat)
    ensures var (n, t) := Step(node, s, w, max);
            t.attempts + Potential(n, t, max) <= s.attempts + Potential(node, s, max)
  {
    hide Decomposed, Searched, Strip, Queries;
    DecomposedKeeps(s, w);
    SearchedQueries(s, w);
    SearchedBlocks(s, w);
  }

  lemma SearchedBlocks(s: State, w: Outside)
    ensures var t := Searched(s, w); t.attempts == s.attempts ==> t.blocked || t.completion == Stopped
  {
  }

  lemma StepCounts(node: Node, s: State, w: Outside, max: nat)
    ensures var t := Step(node, s, w, max).1; |Queries(t.calls)| + s.attempts == |Queries(s.calls)| + t.attempts
  {
    hide Decomposed, Searched, Strip, Queries;
    QueriesGrow(s.calls, Probe(w.stop(|s.calls|)));
    if node == Decompose {
      DecomposedKeeps(s, w);
      QueriesKept(s.calls, Decomposed(s, w).calls);
    } else if node == Searching {
      SearchedQueries(s, w);
    } else if node == Synthesize {
      var calls := Ask(s, w).calls;
      QueriesGrow(calls, Say(w.synthesize(|calls|)));
    }
  }

  lemma {:induction false} RunCounts(node: Node, s: State, w: Outside, max: nat)
    ensures var t := RunFrom(node, s, w, max); |Queries(t.calls)| + s.attempts == |Queries(s.calls)| + t.attempts
    decreases Potential(node, s, max), Rank(node)
  {
    hide Step, Queries;
    if node != End {
      StepDecreases(node, s, w, max);
      StepCounts(node, s, w, max);
      var (n, t) := Step(node, s, w, max);
      RunCounts(n, t, w, max);
    }
  }

  /** A run searches at most as often as its budget has room, or once when it has none,
      whatever state it is given. */
  lemma SearchesBounded(s: State, w: Outside, max: nat)
    ensures |Queries(RunGraph(s, w, max).calls)|
         <= |Queries(s.calls)| + if s.attempts < max then max - s.attempts else 1
  {
    hide RunFrom, Strip, Queries;
    QueriesGrow(s.calls, Probe(w.stop(|s.calls|)));
    RunCounts(Understand, Ask(s, w), w, max);
    RunAttempts(Understand, Ask(s, w), w, max);
  }

  // ---- how a run ends ----

  predicate Fired(calls: seq<Call>) {
    exists j :: 0 <= j < |calls| && calls[j] == Probe(true)
  }

  /** The model was asked for the answer and the stream was broken off. */
  predicate Aborted(calls: seq<Call>) {
    exists j :: 0 <= j < |calls| && calls[j] == Say(None)
  }

  predicate Halts(c: Call) {
    c == Probe(true) || c == Say(None)
  }

  predicate Halting(calls: seq<Call>) {
    exists j :: 0 <= j < |calls| && Halts(calls[j])
  }

  lemma HaltingMeans(calls: seq<Call>)
    ensures Halting(calls) <==> Fired(calls) || Aborted(calls)
  {
    if j :| 0 <= j < |calls| && calls[j] == Probe(true) {
      assert Halts(calls[j]);
    }
    if j :| 0 <= j < |calls| && calls[j] == Say(None) {
      assert Halts(calls[j]);
    }
  }

  lemma HaltingGrow(calls: seq<Call>, c: Call)
    ensures Halting(calls + [c]) <==> Halting(calls) || Halts(c)
  {
    var all := calls + [c];
    assert all[|calls|] == c && forall j :: 0 <= j < |calls| ==> all[j] == calls[j];
  }

  lemma {:induction false} TriedHalts(s: State, w: Outside, left: nat)
    ensures var (t, stopped) := Tried(s, w, left);
            && (Halting(t.calls) <==> Halting(s.calls) || stopped)
            && t.completion == if stopped then Stopped else s.completion
    decreases left
  {
    hide Parsed, Halting;
    if left > 0 {
      HaltingGrow(s.calls, Probe(w.stop(|s.calls|)));
      if !w.stop(|s.calls|) {
        TriedHalts(Ask(s, w), w, left - 1);
      }
    }
  }

  lemma SearchedHalts(s: State, w: Outside)
    ensures var t := Searched(s, w);
            && (Halting(t.calls) <==> Halting(s.calls) || w.stop(|s.calls|))
            && t.completion == if w.stop(|s.calls|) then Stopped else s.completion
  {
    hide Halting;
    HaltingGrow(s.calls, Probe(w.stop(|s.calls|)));
    var t := Ask(s, w);
    var query := if t.query != "" then t.query else t.userInput;
    var gate := Gate(query, w.gate(|t.calls|));
    HaltingGrow(t.calls, Block);
    HaltingGrow(t.calls, gate);
    HaltingGrow(t.calls + [gate], Block);
    ExecutedHalts(t, w, query);
    ExecutedHalts(t.(calls := t.calls + [gate]), w, query);
  }

  lemma ExecutedHalts(s: State, w: Outside, query: string)
    ensures var t := Executed(s, w, query); (Halting(t.calls) <==> Halting(s.calls)) && t.completion == s.completion
  {
    hide Halting;
    HaltingGrow(s.calls, Search(query));
    HaltingGrow(s.calls + [Search(query)], Record(query));
    assert s.calls + [Search(query)] + [] == s.calls + [Search(query)];
  }

  /** The stop mark is set exactly by a probe that fired or an answer that broke off. */
  predicate StopInv(s: State) {
    (s.completion == Unset || s.completion == Stopped) && (s.completion == Stopped <==> Halting(s.calls))
  }

  lemma DecomposedHalts(s: State, w: Outside)
    requires StopInv(s)
    ensures StopInv(Decomposed(s, w))
  {
    hide Tried, Halting;
    HaltingGrow(s.calls, Probe(w.stop(|s.calls|)));
    TriedHalts(Ask(s, w), w, DECOMPOSE_TRIES);
  }

  lemma StepStops(node: Node, s: State, w: Outside, max: nat)
    requires StopInv(s) && node != End
    ensures StopInv(Step(node, s, w, max).1)
  {
    hide Decomposed, Searched, Strip, Halting;
    HaltingGrow(s.calls, Probe(w.stop(|s.calls|)));
    if node == Decompose {
      DecomposedHalts(s, w);
    } else if node == Searching {
      SearchedHalts(s, w);
    } else if node == Synthesize {
      var calls := Ask(s, w).calls;
      HaltingGrow(calls, Say(w.synthesize(|calls|)));
    }
  }

  lemma {:induction false} RunStops(node: Node, s: State, w: Outside, max: nat)
    requires StopInv(s)
    ensures StopInv(RunFrom(node, s, w, max))
    decreases Potential(node, s, max), Rank(node)
  {
    hide Step, StopInv;
    if node != End {
      StepDecreases(node, s, w, max);
      StepStops(node, s, w, max);
      var (n, t) := Step(node, s, w, max);
      RunStops(n, t, w, max);
    }
  }

  /** A stop signal that has fired already: no node runs. */
  lemma StopsAtOnce(s: State, w: Outside, max: nat)
    requires w.stop(|s.calls|)
    ensures RunGraph(s, w, max) == s.(completion := Stopped, calls := s.calls + [Probe(true)])
  {
  }

  /** Every run ends with a reason, and it is stopped if and only if one of its probes fired
      or the answer it asked for broke off. */
  lemma RunEnds(s: State, w: Outside, max: nat)
    requires FirstState(s)
    ensures var r := RunGraph(s, w, max);
            && r.completion in {Stopped, Completed, Empty}
            && (r.completion == Stopped <==> Fired(r.calls) || Aborted(r.calls))
  {
    hide RunFrom, Strip, Fired, Aborted;
    HaltingGrow(s.calls, Probe(w.stop(|s.calls|)));
    if !w.stop(|s.calls|) {
      RunStops(Understand, Ask(s, w), w, max);
    }
    HaltingMeans(RunGraph(s, w, max).calls);
  }

  // ---- the answer of a run ----

  predicate NoneAfter(calls: seq<Call>, k: nat) {
    forall j :: k < j < |calls| ==> !calls[j].Search? && !calls[j].Say?
  }

  /** The run asked the model at moment k, the answer is what it said there, and no search
      and no other answer came after it. */
  predicate SaidAt(s: State, w: Outside, k: nat) {
    && k < |s.calls| && s.calls[k] == Say(Some(s.answer)) && w.synthesize(k) == Some(s.answer)
    && NoneAfter(s.calls, k)
  }

  /** The answer is the last thing the model said, after the last search. */
  predicate Fresh(s: State, w: Outside) {
    if w.hasModel then exists k :: 0 <= k < |s.calls| && SaidAt(s, w, k) else s.answer == ""
  }

  predicate AnswerInv(node: Node, s: State, w: Outside, max: nat) {
    && (node == Validate && s.completion != Stopped ==> Fresh(s, w))
    && (node == End && s.completion != Stopped ==>
          && Fresh(s, w) && s.validation != NotValidated
          && (s.validation == NoAnswer <==> Strip(s.answer) == "")
          && (s.validation == Insufficient ==> s.blocked || max <= s.attempts))
  }

  lemma FreshNow(t: State, w: Outside, answer: string)
    requires w.hasModel && w.synthesize(|t.calls|) == Some(answer)
    ensures Fresh(t.(answer := answer, calls := t.calls + [Say(Some(answer))]), w)
  {
    assert SaidAt(t.(answer := answer, calls := t.calls + [Say(Some(answer))]), w, |t.calls|);
  }

  lemma FreshKept(s: State, t: State, w: Outside)
    requires Fresh(s, w) && t.answer == s.answer
    requires |t.calls| == |s.calls| + 1 && t.calls[..|s.calls|] == s.calls && t.calls[|s.calls|].Probe?
    ensures Fresh(t, w)
  {
    if w.hasModel {
      var k :| 0 <= k < |s.calls| && SaidAt(s, w, k);
      forall j | k < j < |t.calls| ensures !t.calls[j].Search? && !t.calls[j].Say? {
        assert j < |s.calls| ==> t.calls[j] == s.calls[j];
      }
      assert t.calls[k] == s.calls[k];
      assert SaidAt(t, w, k);
    }
  }

  lemma StepAnswers(node: Node, s: State, w: Outside, max: nat)
    requires AnswerInv(node, s, w, max) && node != End
    ensures var (n, t) := Step(node, s, w, max); AnswerInv(n, t, w, max)
  {
    hide Decomposed, Searched, Strip, Fresh;
    var (n, t) := Step(node, s, w, max);
    if node == Synthesize && t.completion != Stopped && w.hasModel {
      FreshNow(Ask(s, w), w, t.answer);
    }
    if node == Synthesize && !w.hasModel {
      assert t.completion != Stopped ==> Fresh(t, w) by { NothingSaid(t, w); }
    }
    if node == Validate && t.completion != Stopped {
      FreshKept(s, t, w);
    }
  }

  lemma NothingSaid(t: State, w: Outside)
    requires !w.hasModel
    ensures Fresh(t, w) <==> t.answer == ""
  {
  }

  lemma {:induction false} RunAnswers(node: Node, s: State, w: Outside, max: nat)
    requires AnswerInv(node, s, w, max)
    ensures AnswerInv(End, RunFrom(node, s, w, max), w, max)
    decreases Potential(node, s, max), Rank(node)
  {
    hide Step, AnswerInv;
    if node != End {
      StepDecreases(node, s, w, max);
      StepAnswers(node, s, w, max);
      var (n, t) := Step(node, s, w, max);
      RunAnswers(n, t, w, max);
    }
  }

  /** A run that is not stopped: its answer is what the model said when it was last asked,
      after the last search, or empty without a model; it is marked as no answer exactly when
      it is blank, and the run counts as completed exactly when it is not; an answer that
      does not meet the question is let through only with the searches blocked or used up. */
  lemma AnswerReported(s: State, w: Outside, max: nat)
    requires FirstState(s)
    ensures var r := RunGraph(s, w, max);
            r.completion != Stopped ==>
              && Fresh(r, w)
              && r.completion == (if Strip(r.answer) == "" then Empty else Completed)
              && (r.validation == NoAnswer <==> Strip(r.answer) == "")
              && (r.completion == Completed <==> r.validation in {Accepted, Insufficient})
              && (r.validation == Insufficient ==> r.blocked || max <= r.attempts)
  {
    hide RunFrom, Strip, Halting, Fresh;
    HaltingGrow(s.calls, Probe(w.stop(|s.calls|)));
    assert !Halting(s.calls) by { HaltingNone(); }
    if !w.stop(|s.calls|) {
      RunStops(Understand, Ask(s, w), w, max);
      RunAnswers(Understand, Ask(s, w), w, max);
      var t := RunFrom(Understand, Ask(s, w), w, max);
      if t.completion != Stopped {
        FreshAlike(t, RunGraph(s, w, max), w);
      }
    }
  }

  lemma HaltingNone()
    ensures !Halting([])
  {
  }

  lemma FreshAlike(s: State, t: State, w: Outside)
    requires Fresh(s, w) && t.answer == s.answer && t.calls == s.calls
    ensures Fresh(t, w)
  {
    if w.hasModel {
      var k :| 0 <= k < |s.calls| && SaidAt(s, w, k);
      assert SaidAt(t, w, k);
    }
  }

  // ---- every search is gated and recorded; none follows a block ----

  /** What stands around the call at j: a search between its gate and its record, a record
      only after its search. */
  predicate MeteredAt(calls: seq<Call>, j: nat)
    requires j < |calls|
  {
    && (calls[j].Search? ==>
        0 < j < |calls| - 1 && calls[j - 1] == Gate(calls[j].query, true) && calls[j + 1] == Record(calls[j].query))
    && (calls[j].Record? ==> 0 < j && calls[j - 1] == Search(calls[j].query))
  }

  predicate NoBlock(calls: seq<Call>) {
    forall j :: 0 <= j < |calls| ==> !calls[j].Block?
  }

  predicate Metered(calls: seq<Call>) {
    && (forall j :: 0 <= j < |calls| ==> MeteredAt(calls, j))
    && (forall i, j :: 0 <= i < j < |calls| && calls[i].Block? ==> !calls[j].Search?)
  }

  lemma MeteredQuiet(calls: seq<Call>, more: seq<Call>)
    requires Metered(calls) && |calls| <= |more| && more[..|calls|] == calls
    requires forall j :: |calls| <= j < |more| ==> more[j].Probe? || more[j].Gate? || more[j].Block? || more[j].Say?
    ensures Metered(more)
    ensures NoBlock(calls) && (forall j :: |calls| <= j < |more| ==> !more[j].Block?) ==> NoBlock(more)
  {
    assert forall j :: 0 <= j < |calls| ==> more[j] == calls[j];
    forall j | 0 <= j < |more| ensures MeteredAt(more, j) {
      if j < |calls| {
        assert MeteredAt(calls, j);
      }
    }
  }

  lemma MeteredSearch(calls: seq<Call>, query: string)
    requires Metered(calls) && NoBlock(calls)
    ensures Metered(calls + [Gate(query, true)] + [Search(query)] + [Record(query)])
    ensures NoBlock(calls + [Gate(query, true)] + [Search(query)] + [Record(query)])
  {
    var more := calls + [Gate(query, true)] + [Search(query)] + [Record(query)];
    assert forall j :: 0 <= j < |calls| ==> more[j] == calls[j];
    forall j | 0 <= j < |more| ensures MeteredAt(more, j) {
      if j < |calls| {
        assert MeteredAt(calls, j);
      }
    }
  }

  predicate MeterInv(node: Node, s: State) {
    && Metered(s.calls)
    && (!NoBlock(s.calls) ==> s.blocked && node in {Evaluate, Synthesize, Validate, End})
  }

  lemma SearchedMeter(s: State, w: Outside)
    requires w.hasCoordinator && Metered(s.calls) && NoBlock(s.calls)
    ensures var t := Searched(s, w); Metered(t.calls) && (!NoBlock(t.calls) ==> t.blocked)
  {
    hide Metered, NoBlock;
    var query := if s.query != "" then s.query else s.userInput;
    var t := Ask(s, w);
    MeteredQuiet(s.calls, t.calls);
    MeteredQuiet(t.calls, t.calls + [Block]);
    var gate := Gate(query, w.gate(|t.calls|));
    MeteredQuiet(t.calls, t.calls + [gate] + [Block]);
    MeteredSearch(t.calls, query);
    var gated := t.calls + [gate];
    assert forall q: string :: gated + [Search(q)] + [Record(q)] == gated + ([Search(q)] + [Record(q)]);
  }

  lemma StepMeter(node: Node, s: State, w: Outside, max: nat)
    requires w.hasCoordinator && MeterInv(node, s) && node != End
    ensures var (n, t) := Step(node, s, w, max); MeterInv(n, t)
  {
    hide Decomposed, Searched, Strip, Metered, NoBlock;
    MeteredQuiet(s.calls, s.calls + [Probe(w.stop(|s.calls|))]);
    if node == Decompose {
      DecomposedKeeps(s, w);
      MeteredQuiet(s.calls, Decomposed(s, w).calls);
    } else if node == Searching {
      SearchedMeter(s, w);
    } else if node == Synthesize {
      var calls := Ask(s, w).calls;
      MeteredQuiet(calls, calls + [Say(w.synthesize(|calls|))]);
    }
  }

  lemma {:induction false} RunMeter(node: Node, s: State, w: Outside, max: nat)
    requires w.hasCoordinator && MeterInv(node, s)
    ensures Metered(RunFrom(node, s, w, max).calls)
    decreases Potential(node, s, max), Rank(node)
  {
    hide Step, Metered, NoBlock;
    if node != End {
      StepDecreases(node, s, w, max);
      StepMeter(node, s, w, max);
      var (n, t) := Step(node, s, w, max);
      RunMeter(n, t, w, max);
    }
  }

  /** Every search a run executes passed the coordinator's gate and is recorded with it,
      once and at once; nothing is recorded that was not searched; and once a search has
      been blocked none is executed any more. */
  lemma SearchesMetered(s: State, w: Outside, max: nat)
    requires FirstState(s) && w.hasCoordinator
    ensures Metered(RunGraph(s, w, max).calls)
  {
    hide RunFrom, Strip, Metered, NoBlock;
    NothingMetered();
    MeteredQuiet(s.calls, Ask(s, w).calls);
    RunMeter(Understand, Ask(s, w), w, max);
  }

  lemma NothingMetered()
    ensures Metered([]) && NoBlock([])
  {
  }

  // ---- the sub-questions left unresearched ----

  predicate Overrun(s: State, max: nat) {
    max <= s.attempts < |s.subs|
  }

  predicate CoverageInv(node: Node, s: State, max: nat) {
    && (s.coverageIncomplete ==>
          Overrun(s, max) && s.unresearched == s.subs[s.attempts..]
              && node !in {Understand, Plan, Decompose, Searching})
    && (!s.coverageIncomplete ==> s.unresearched == [])
    && (node in {Synthesize, Validate, End} && s.completion != Stopped ==>
          && (Overrun(s, max) ==> s.coverageIncomplete)
          && (s.attempts < |s.subs| ==> s.blocked || max <= s.attempts))
  }

  lemma StepCoverage(node: Node, s: State, w: Outside, max: nat)
    requires CoverageInv(node, s, max) && node != End
    ensures var (n, t) := Step(node, s, w, max); CoverageInv(n, t, max)
  {
    hide Decomposed, Searched, Strip, Queries;
    DecomposedKeeps(s, w);
    SearchedQueries(s, w);
  }

  lemma {:induction false} RunCoverage(node: Node, s: State, w: Outside, max: nat)
    requires CoverageInv(node, s, max)
    ensures CoverageInv(End, RunFrom(node, s, w, max), max)
    decreases Potential(node, s, max), Rank(node)
  {
    hide Step, CoverageInv;
    if node != End {
      StepDecreases(node, s, w, max);
      StepCoverage(node, s, w, max);
      var (n, t) := Step(node, s, w, max);
      RunCoverage(n, t, w, max);
    }
  }

  /** A run that is not stopped reports the sub-questions it did not search exactly when
      its own budget ran out before them. */
  lemma UnresearchedReported(s: State, w: Outside, max: nat)
    requires FirstState(s)
    ensures var r := RunGraph(s, w, max);
            r.completion != Stopped ==>
              && (r.coverageIncomplete <==> max <= r.attempts < |r.subs|)
              && r.unresearched == (if r.coverageIncomplete then r.subs[r.attempts..] else [])
  {
    hide RunFrom, Strip;
    RunCoverage(Understand, Ask(s, w), w, max);
  }

  // ---- what a blocked search leaves behind ----

  /** Why a search is blocked: no back end, nothing to ask, a closed gate, or evidence the
      run was given and reuses before its first search. */
  predicate Cause(start: State, w: Outside, calls: seq<Call>, j: nat)
    requires j < |calls|
  {
    || !w.hasSearch || start.userInput == ""
    || (j > 0 && calls[j - 1].Gate? && !calls[j - 1].allowed)
    || (start.quality == Sufficient && start.grounding != "" && Queries(calls[..j]) == [])
  }

  /** A block has its cause, and no search came after it. */
  predicate BlockFact(start: State, w: Outside, calls: seq<Call>, j: nat)
    requires j < |calls|
  {
    calls[j].Block? ==> Queries(calls[..j]) == Queries(calls) && Cause(start, w, calls, j)
  }

  predicate BlockFacts(start: State, w: Outside, calls: seq<Call>) {
    forall j :: 0 <= j < |calls| ==> BlockFact(start, w, calls, j)
  }

  lemma FactsGrow(start: State, w: Outside, calls: seq<Call>, c: Call)
    requires BlockFacts(start, w, calls) && !c.Search?
    requires c.Block? ==> Cause(start, w, calls + [c], |calls|)
    ensures BlockFacts(start, w, calls + [c])
    ensures NoBlock(calls + [c]) <==> NoBlock(calls) && !c.Block?
    ensures Queries(calls + [c]) == Queries(calls)
  {
    hide Queries;
    var all := calls + [c];
    QueriesGrow(calls, c);
    assert all[..|calls|] == calls && all[|calls|] == c;
    assert forall j :: 0 <= j < |calls| ==> all[j] == calls[j] && all[..j] == calls[..j];
    forall j | 0 <= j < |all| ensures BlockFact(start, w, all, j) {
      if j < |calls| {
        assert BlockFact(start, w, calls, j);
      }
    }
  }

  lemma NoFacts(start: State, w: Outside, calls: seq<Call>)
    requires NoBlock(calls)
    ensures BlockFacts(start, w, calls)
  {
    hide Queries;
  }

  predicate BlockInv(node: Node, t: State, start: State, w: Outside) {
    && BlockFacts(start, w, t.calls) && |Queries(t.calls)| == t.attempts && t.userInput == start.userInput
    && (!NoBlock(t.calls) ==> node in {Evaluate, Synthesize, Validate, End})
    && (node in {Evaluate, Synthesize, Validate, End} && t.completion != Stopped ==>
          (t.blocked <==> !NoBlock(t.calls)))
    && (t.attempts == 0 ==> t.quality == start.quality && t.grounding == start.grounding)
  }

  lemma SearchedBlockInv(t: State, start: State, w: Outside)
    requires BlockInv(Searching, t, start, w)
    ensures BlockInv(Evaluate, Searched(t, w), start, w)
  {
    hide Queries, NoBlock, BlockFacts;
    var query := if t.query != "" then t.query else t.userInput;
    var asked := Ask(t, w).calls;
    var gate := Gate(query, w.gate(|asked|));
    FactsGrow(start, w, t.calls, Probe(w.stop(|t.calls|)));
    FactsGrow(start, w, asked, gate);
    assert (asked + [Block])[..|asked|] == asked;
    if !w.stop(|t.calls|) {
      if (t.attempts == 0 && t.quality == Sufficient && t.grounding != "") || !w.hasSearch || query == "" {
        assert Queries(asked) == [] || t.attempts != 0;
        FactsGrow(start, w, asked, Block);
      } else if w.hasCoordinator && !gate.allowed {
        FactsGrow(start, w, asked + [gate], Block);
      } else {
        ExecutedNoBlock(Ask(t, w), start, w, query);
        ExecutedNoBlock(Ask(t, w).(calls := asked + [gate]), start, w, query);
      }
    }
  }

  lemma ExecutedNoBlock(t: State, start: State, w: Outside, query: string)
    requires NoBlock(t.calls)
    ensures var u := Executed(t, w, query);
            NoBlock(u.calls) && BlockFacts(start, w, u.calls) && |Queries(u.calls)| == |Queries(t.calls)| + 1
  {
    hide Queries;
    QueriesGrow(t.calls, Search(query));
    QueriesGrow(t.calls + [Search(query)], Record(query));
    assert t.calls + [Search(query)] + [] == t.calls + [Search(query)];
    assert t.calls + [Search(query)] + [Record(query)] == t.calls + ([Search(query)] + [Record(query)]);
    NoFacts(start, w, Executed(t, w, query).calls);
  }

  lemma StepBlocks(node: Node, t: State, start: State, w: Outside, max: nat)
    requires BlockInv(node, t, start, w) && node != End
    ensures var (n, u) := Step(node, t, w, max); BlockInv(n, u, start, w)
  {
    hide Decomposed, Searched, Strip, Queries, NoBlock, BlockFacts;
    FactsGrow(start, w, t.calls, Probe(w.stop(|t.calls|)));
    if node == Decompose {
      DecomposedBlocks(t, start, w);
    } else if node == Searching {
      SearchedBlockInv(t, start, w);
    } else if node == Synthesize {
      var calls := Ask(t, w).calls;
      FactsGrow(start, w, calls, Say(w.synthesize(|calls|)));
    }
  }

  lemma DecomposedBlocks(t: State, start: State, w: Outside)
    requires BlockInv(Decompose, t, start, w)
    ensures BlockInv(Searching, Decomposed(t, w), start, w)
  {
    hide Decomposed, Queries;
    DecomposedKeeps(t, w);
    var u := Decomposed(t, w);
    QueriesKept(t.calls, u.calls);
    assert forall j :: 0 <= j < |t.calls| ==> u.calls[j] == t.calls[j];
    assert NoBlock(u.calls);
    NoFacts(start, w, u.calls);
  }

  lemma {:induction false} RunBlocks(node: Node, t: State, start: State, w: Outside, max: nat)
    requires BlockInv(node, t, start, w)
    ensures BlockInv(End, RunFrom(node, t, w, max), start, w)
    decreases Potential(node, t, max), Rank(node)
  {
    hide Step, BlockInv;
    if node != End {
      StepDecreases(node, t, w, max);
      StepBlocks(node, t, start, w, max);
      var (n, u) := Step(node, t, w, max);
      RunBlocks(n, u, start, w, max);
    }
  }

  /** A search was blocked while budget and sub-questions were left. */
  predicate BlockedEarly(calls: seq<Call>, j: nat, questions: nat, max: nat)
    requires j < |calls|
  {
    calls[j].Block? && |Queries(calls[..j])| < max && |Queries(calls[..j])| < questions
  }

  /** A run that is not stopped leaves sub-questions unsearched without a word if and only if
      a search was blocked while budget and sub-questions were left; and a search is only
      blocked by the gate, a missing back end, an empty question or reused evidence. */
  lemma BlockedCoverageIsSilent(s: State, w: Outside, max: nat)
    requires FirstState(s)
    ensures var r := RunGraph(s, w, max);
            r.completion != Stopped ==>
              && (|Queries(r.calls)| < |r.subs| && r.unresearched == []
                  <==> exists j :: 0 <= j < |r.calls| && BlockedEarly(r.calls, j, |r.subs|, max))
              && forall j :: 0 <= j < |r.calls| && r.calls[j].Block? ==> Cause(s, w, r.calls, j)
  {
    hide RunFrom, Strip, Queries, NoBlock, BlockFacts;
    var t := Ask(s, w);
    assert BlockFacts(s, w, []) && NoBlock([]) && Queries([]) == [] by { NothingBlocked(s, w); }
    FactsGrow(s, w, s.calls, Probe(w.stop(|s.calls|)));
    if !w.stop(|s.calls|) {
      RunBlocks(Understand, t, s, w, max);
      RunCoverage(Understand, t, w, max);
      var r := RunFrom(Understand, t, w, max);
      if r.completion != Stopped {
        EarlyBlock(r, s, w, max);
      }
    }
  }

  lemma NothingBlocked(start: State, w: Outside)
    ensures BlockFacts(start, w, []) && NoBlock([]) && Queries([]) == []
  {
  }

  lemma EarlyBlock(r: State, start: State, w: Outside, max: nat)
    requires BlockInv(End, r, start, w) && CoverageInv(End, r, max) && r.completion != Stopped
    ensures |Queries(r.calls)| < |r.subs| && r.unresearched == []
       <==> exists j :: 0 <= j < |r.calls| && BlockedEarly(r.calls, j, |r.subs|, max)
    ensures forall j :: 0 <= j < |r.calls| && r.calls[j].Block? ==> Cause(start, w, r.calls, j)
  {
    hide Queries, Cause;
    forall j | 0 <= j < |r.calls| && r.calls[j].Block?
      ensures Cause(start, w, r.calls, j) && Queries(r.calls[..j]) == Queries(r.calls)
    {
      assert BlockFact(start, w, r.calls, j);
    }
    if r.attempts < |r.subs| && r.unresearched == [] {
      assert r.attempts < max && r.blocked;
      var j :| 0 <= j < |r.calls| && r.calls[j].Block?;
      assert BlockedEarly(r.calls, j, |r.subs|, max);
    }
  }

  // ---- the plan of a run ----

  /** What one answer of the model gives: the questions picked from its strings, no two alike. */
  ghost predicate Plans(answer: Option<seq<string>>, lower: string -> string, subs: seq<string>) {
    if answer.None? then subs == []
    else Questions(subs, lower) && exists p :: Picks(answer.value, |answer.value|, subs, lower, p)
  }

  lemma ParsedPlans(items: seq<string>, lower: string -> string)
    ensures Plans(Some(items), lower, Parsed(items, [], lower))
  {
    hide Picks, Questions, Parsed;
    NoQuestions(lower);
    ParsedQuestions(items, [], lower);
    assert Picks(items, 0, [], lower, []) by { NothingPicked(items, lower); }
    assert items[0..] == items;
    var p := ParsedPicks(items, 0, [], lower, []);
  }

  lemma NothingPicked(items: seq<string>, lower: string -> string)
    ensures Picks(items, 0, [], lower, [])
  {
  }

  /** A question that is to be decomposed: the model is asked, and once more when it gave no
      sub-question; the first one is searched for next, or the user's question without any. */
  lemma DecompositionTaken(s: State, w: Outside)
    requires s.subs == [] && w.hasModel && w.decomposable
    requires !w.stop(|s.calls|) && !w.stop(|s.calls| + 1) && !w.stop(|s.calls| + 2)
    ensures var t, first, again := Decomposed(s, w), w.split(|s.calls| + 2), w.split(|s.calls| + 3);
            && t.query == (if t.subs == [] then s.userInput else t.subs[0])
            && (Plans(first, w.lower, t.subs)
                || (first.Some? && Plans(first, w.lower, []) && Plans(again, w.lower, t.subs)))
            && (t.subs == [] ==> first.None? || Plans(again, w.lower, []))
            && t.completion == s.completion
  {
    hide Plans, Parsed;
    var t := Ask(s, w);
    var first, again := w.split(|s.calls| + 2), w.split(|s.calls| + 3);
    if first.Some? {
      ParsedPlans(first.value, w.lower);
      if again.Some? {
        ParsedPlans(again.value, w.lower);
      }
    }
    assert Plans(None, w.lower, []) by { NoPlan(w.lower); }
    TriedTwice(t, w);
  }

  lemma TriedTwice(s: State, w: Outside)
    requires !w.stop(|s.calls|) && !w.stop(|s.calls| + 1)
    ensures var first, again := w.split(|s.calls| + 1), w.split(|s.calls| + 2);
            var subs := if first.None? then s.subs
                else if Parsed(first.value, [], w.lower) != [] then Parsed(first.value, [], w.lower)
                else if again.None? then s.subs
                else if Parsed(again.value, [], w.lower) != [] then Parsed(again.value, [], w.lower)
                else s.subs;
            var (t, stopped) := Tried(s, w, 2);
            !stopped && t.subs == subs && t.completion == s.completion && t.userInput == s.userInput
  {
    hide Parsed;
    var t := Ask(s, w);
    var u := Ask(t, w);
    assert Tried(u, w, 0) == (u, false);
  }

  lemma NoPlan(lower: string -> string)
    ensures Plans(None, lower, [])
  {
  }

  /** The sub-questions are those of one answer of the model, or there are none. */
  ghost predicate Planned(subs: seq<string>, w: Outside) {
    subs == [] || exists k: nat :: Plans(w.split(k), w.lower, subs)
  }

  lemma {:induction false} TriedPlanned(s: State, w: Outside, left: nat)
    requires Planned(s.subs, w)
    ensures Planned(Tried(s, w, left).0.subs, w)
    decreases left
  {
    hide Parsed, Plans;
    if left > 0 {
      var t := Ask(s, w);
      var raw := w.split(|t.calls|);
      if raw.Some? {
        ParsedPlans(raw.value, w.lower);
        assert Plans(w.split(|t.calls|), w.lower, Parsed(raw.value, [], w.lower));
      }
      TriedPlanned(t, w, left - 1);
    }
  }

  lemma StepPlanned(node: Node, s: State, w: Outside, max: nat)
    requires Planned(s.subs, w)
    ensures Planned(Step(node, s, w, max).1.subs, w)
    ensures node != Decompose || s.subs != [] ==> Step(node, s, w, max).1.subs == s.subs
  {
    hide Tried, Planned, Strip;
    TriedPlanned(Ask(s, w), w, DECOMPOSE_TRIES);
  }

  lemma {:induction false} RunPlanned(node: Node, s: State, w: Outside, max: nat)
    requires Planned(s.subs, w)
    ensures var r := RunFrom(node, s, w, max); Planned(r.subs, w) && (s.subs != [] ==> r.subs == s.subs)
    decreases Potential(node, s, max), Rank(node)
  {
    hide Step, Planned;
    if node != End {
      StepDecreases(node, s, w, max);
      StepPlanned(node, s, w, max);
      var (n, t) := Step(node, s, w, max);
      RunPlanned(n, t, w, max);
    }
  }

  /** Over a whole run: sub-questions come from one answer of the model, and once there they
      stay as they are. */
  lemma PlanStays(s: State, w: Outside, max: nat)
    requires s.subs == []
    ensures Planned(RunGraph(s, w, max).subs, w)
  {
    hide RunFrom, Planned, Strip;
    assert Planned([], w) by { NothingPlanned(w); }
    RunPlanned(Understand, Ask(s, w), w, max);
  }

  lemma NothingPlanned(w: Outside)
    ensures Planned([], w)
  {
  }

  // ---- why a run searches again, and why it ends searching ----

  /** The moment of the last search. */
  function LastSearch(calls: seq<Call>): (r: Option<nat>)
    ensures r.Some? ==> r.value < |calls| && calls[r.value].Search?
  {
    if calls == [] then None
    else if calls[|calls| - 1].Search? then Some(|calls| - 1)
    else LastSearch(calls[..|calls| - 1])
  }

  /** What the last search with a text found, or else the evidence the run was given. */
  function Evidence(given: string, w: Outside, calls: seq<Call>): string {
    if calls == [] then given
    else
      var last := |calls| - 1;
      if calls[last].Search? && w.search(last).text != "" then w.search(last).text
      else Evidence(given, w, calls[..last])
  }

  function LastQuality(given: Quality, w: Outside, calls: seq<Call>): Quality {
    match LastSearch(calls)
    case None => given
    case Some(i) => w.search(i).quality
  }

  /** The moment at which the search at i is evaluated: after its record and one probe. */
  function Judged(w: Outside, i: nat): nat {
    if w.hasCoordinator then i + 3 else i + 2
  }

  /** After the search at i, the n-th, something is left to find out: a sub-question, a
      better result, a gap. */
  predicate Lacking(w: Outside, subs: seq<string>, i: nat, n: nat) {
    n < |subs| || w.search(i).quality != Sufficient || w.gaps(Judged(w, i)) != []
  }

  /** What is searched for then: the next sub-question; without one the refined query, as
      long as there are gaps and it is not empty; otherwise the same again. */
  function NextQuery(w: Outside, input: string, subs: seq<string>, previous: string, i: nat, n: nat): string {
    var k := Judged(w, i);
    var next := if n < |subs| then subs[n] else if w.gaps(k) != [] && w.refine(k) != "" then w.refine(k) else previous;
    if next != "" then next else input
  }

  /** An answer was given just before moment v, and it was judged there not to meet the question. */
  predicate Missed(w: Outside, calls: seq<Call>, v: int) {
    && 2 <= v <= |calls| && calls[v - 2].Say? && calls[v - 2].answer.Some?
    && Strip(calls[v - 2].answer.value) != "" && w.irrelevant(v)
  }

  /** A search after another one has room in the budget, a reason, and the query it should have. */
  predicate Follows(w: Outside, input: string, subs: seq<string>, max: nat, calls: seq<Call>, j: nat)
    requires j < |calls|
  {
    calls[j].Search? && LastSearch(calls[..j]).Some? ==>
      var i, n := LastSearch(calls[..j]).value, |Queries(calls[..j])|;
      && n < max
      && calls[j].query == NextQuery(w, input, subs, calls[i].query, i, n)
      && (Lacking(w, subs, i, n) || Missed(w, calls[..j], j - (if w.hasCoordinator then 2 else 1)))
  }

  predicate AllFollow(w: Outside, input: string, subs: seq<string>, max: nat, calls: seq<Call>) {
    forall j :: 0 <= j < |calls| ==> Follows(w, input, subs, max, calls, j)
  }

  /** The calls so far and what the state holds of them. */
  predicate Logged(t: State, start: State, w: Outside, max: nat) {
    && |Queries(t.calls)| == t.attempts && t.userInput == start.userInput
    && AllFollow(w, t.userInput, t.subs, max, t.calls)
    && t.quality == LastQuality(start.quality, w, t.calls) && t.grounding == Evidence(start.grounding, w, t.calls)
  }

  /** The last search is evaluated: its gaps and the next query are in the state. */
  predicate Settled(t: State, w: Outside) {
    && LastSearch(t.calls).Some?
    && var i := LastSearch(t.calls).value;
    && t.gaps == w.gaps(Judged(w, i))
    && (if t.query != "" then t.query else t.userInput)
       == NextQuery(w, t.userInput, t.subs, t.calls[i].query, i, t.attempts)
  }

  predicate MoreNeeded(t: State, w: Outside)
    requires LastSearch(t.calls).Some?
  {
    Lacking(w, t.subs, LastSearch(t.calls).value, t.attempts)
  }

  predicate Searchable(t: State, w: Outside, max: nat) {
    LastSearch(t.calls).Some? ==>
      && Settled(t, w) && t.attempts < max && (MoreNeeded(t, w) || Missed(w, t.calls, |t.calls|))
  }

  predicate JustSearched(t: State, w: Outside) {
    t.completion != Stopped && !t.blocked ==>
      && LastSearch(t.calls).Some?
      && |t.calls| + 1 == Judged(w, LastSearch(t.calls).value) && t.query == t.calls[LastSearch(t.calls).value].query
  }

  predicate Enough(t: State, w: Outside, max: nat) {
    t.completion != Stopped && !t.blocked ==> Settled(t, w) && (max <= t.attempts || !MoreNeeded(t, w))
  }

  predicate JustAnswered(t: State, w: Outside) {
    t.completion != Stopped ==>
      if w.hasModel then t.calls != [] && t.calls[|t.calls| - 1] == Say(Some(t.answer)) else t.answer == ""
  }

  /** The grade of the answer, judged at the end of the calls. */
  predicate Graded(t: State, w: Outside) {
    t.validation == if Strip(t.answer) == "" then NoAnswer
                    else if w.irrelevant(|t.calls|) then Insufficient
                    else Accepted
  }

  predicate AtNode(node: Node, t: State, w: Outside, max: nat) {
    match node
    case Understand | Plan | Decompose => LastSearch(t.calls) == None
    case Searching => Searchable(t, w, max)
    case Evaluate => JustSearched(t, w)
    case Synthesize => Enough(t, w, max)
    case Validate => Enough(t, w, max) && JustAnswered(t, w)
    case End =>
      && Enough(t, w, max)
      && (t.completion != Stopped ==>
            Graded(t, w) && (t.blocked || max <= t.attempts || t.validation != Insufficient))
  }

  lemma LogGrows(given: Quality, text: string, w: Outside, input: string, subs: seq<string>, max: nat,
                 calls: seq<Call>, c: Call)
    requires !c.Search?
    ensures var all := calls + [c];
            && LastSearch(all) == LastSearch(calls) && Queries(all) == Queries(calls)
            && LastQuality(given, w, all) == LastQuality(given, w, calls)
            && Evidence(text, w, all) == Evidence(text, w, calls)
            && (AllFollow(w, input, subs, max, calls) ==> AllFollow(w, input, subs, max, all))
  {
    hide Queries, Follows;
    var all := calls + [c];
    QueriesGrow(calls, c);
    assert all[..|calls|] == calls;
    if AllFollow(w, input, subs, max, calls) {
      forall j | 0 <= j < |all| ensures Follows(w, input, subs, max, all, j) {
        FollowsKept(w, input, subs, max, calls, c, j);
      }
    }
  }

  lemma FollowsKept(w: Outside, input: string, subs: seq<string>, max: nat, calls: seq<Call>, c: Call, j: nat)
    requires j <= |calls| && (j == |calls| ==> !c.Search?)
    requires j < |calls| ==> Follows(w, input, subs, max, calls, j)
    ensures Follows(w, input, subs, max, calls + [c], j)
  {
    hide Queries, Lacking, NextQuery, Missed;
    assert (calls + [c])[..j] == calls[..j];
  }

  lemma LoggedGrows(s: State, t: State, start: State, w: Outside, max: nat, c: Call)
    requires Logged(s, start, w, max) && !c.Search? && t.calls == s.calls + [c]
    requires t.(completion := s.completion, blocked := s.blocked, query := s.query, gaps := s.gaps, answer := s.answer,
                validation := s.validation, coverageIncomplete := s.coverageIncomplete,
                unresearched := s.unresearched, calls := s.calls) == s
    ensures Logged(t, start, w, max) && LastSearch(t.calls) == LastSearch(s.calls)
  {
    hide AllFollow, Queries, LastSearch, LastQuality, Evidence;
    LogGrows(start.quality, start.grounding, w, s.userInput, s.subs, max, s.calls, c);
  }

  lemma SearchGrows(given: Quality, text: string, w: Outside, input: string, subs: seq<string>, max: nat,
                    calls: seq<Call>, query: string)
    requires AllFollow(w, input, subs, max, calls)
    requires Follows(w, input, subs, max, calls + [Search(query)], |calls|)
    ensures var all, found := calls + [Search(query)], w.search(|calls|);
            && LastSearch(all) == Some(|calls|) && Queries(all) == Queries(calls) + [query]
            && LastQuality(given, w, all) == found.quality
            && Evidence(text, w, all) == (if found.text != "" then found.text else Evidence(text, w, calls))
            && AllFollow(w, input, subs, max, all)
  {
    hide Queries, Follows;
    var all := calls + [Search(query)];
    QueriesGrow(calls, Search(query));
    assert all[..|calls|] == calls;
    forall j | 0 <= j < |all| ensures Follows(w, input, subs, max, all, j) {
      if j < |calls| {
        FollowsKept(w, input, subs, max, calls, Search(query), j);
      }
    }
  }

  /** What the search node may search for next. */
  predicate MayFollow(s: State, w: Outside, max: nat, query: string) {
    LastSearch(s.calls).Some? ==>
      var i := LastSearch(s.calls).value;
      && s.attempts < max && query == NextQuery(w, s.userInput, s.subs, s.calls[i].query, i, s.attempts)
      && (MoreNeeded(s, w) || Missed(w, s.calls, |s.calls| - (if w.hasCoordinator then 2 else 1)))
  }

  lemma MayFollowMeans(s: State, w: Outside, max: nat, query: string)
    requires MayFollow(s, w, max, query) && |Queries(s.calls)| == s.attempts
    ensures Follows(w, s.userInput, s.subs, max, s.calls + [Search(query)], |s.calls|)
  {
    hide Queries, NextQuery, Lacking, Missed, LastSearch;
    var all := s.calls + [Search(query)];
    assert all[..|s.calls|] == s.calls && all[|s.calls|] == Search(query);
  }

  lemma ExecutedLogged(s: State, start: State, w: Outside, max: nat, query: string)
    requires Logged(s, start, w, max) && MayFollow(s, w, max, query)
    ensures var t := Executed(s, w, query); Logged(t, start, w, max) && JustSearched(t, w)
  {
    hide Queries, AllFollow, LastSearch, Evidence, LastQuality, MayFollow, Follows;
    MayFollowMeans(s, w, max, query);
    SearchGrows(start.quality, start.grounding, w, s.userInput, s.subs, max, s.calls, query);
    var all := s.calls + [Search(query)];
    LogGrows(start.quality, start.grounding, w, s.userInput, s.subs, max, all, Record(query));
    assert all + [] == all;
  }

  /** What is settled at the search node still is when the search is made. */
  lemma MayFollowNow(s: State, u: State, w: Outside, max: nat)
    requires Searchable(s, w, max) && LastSearch(u.calls) == LastSearch(s.calls)
    requires |u.calls| == |s.calls| + (if w.hasCoordinator then 2 else 1) && u.calls[..|s.calls|] == s.calls
    requires u.(calls := s.calls) == s
    ensures MayFollow(u, w, max, if u.query != "" then u.query else u.userInput)
  {
    hide LastSearch, Lacking, NextQuery;
  }

  lemma SearchingLogged(s: State, start: State, w: Outside, max: nat)
    requires Logged(s, start, w, max) && Searchable(s, w, max)
    ensures var t := Searched(s, w); Logged(t, start, w, max) && JustSearched(t, w)
  {
    hide Queries, Logged, LastSearch, Searchable, MayFollow;
    var fired, t := w.stop(|s.calls|), Ask(s, w);
    var query := if t.query != "" then t.query else t.userInput;
    LoggedGrows(s, t, start, w, max, Probe(fired));
    if fired {
      LoggedGrows(s, Halted(t), start, w, max, Probe(fired));
    } else if (t.attempts == 0 && t.quality == Sufficient && t.grounding != "") || !w.hasSearch || query == "" {
      LoggedGrows(t, Blocked(t), start, w, max, Block);
    } else if !w.hasCoordinator {
      MayFollowNow(s, t, w, max);
      ExecutedLogged(t, start, w, max, query);
    } else {
      var gate := Gate(query, w.gate(|t.calls|));
      var u := t.(calls := t.calls + [gate]);
      LoggedGrows(t, u, start, w, max, gate);
      LoggedGrows(u, Blocked(u), start, w, max, Block);
      if gate.allowed {
        MayFollowNow(s, u, w, max);
        ExecutedLogged(u, start, w, max, query);
      }
    }
  }

  lemma {:induction false} LastSearchKept(calls: seq<Call>, more: seq<Call>, given: string, w: Outside)
    requires |calls| <= |more| && more[..|calls|] == calls && forall j :: |calls| <= j < |more| ==> more[j].Probe?
    ensures LastSearch(more) == LastSearch(calls) && Evidence(given, w, more) == Evidence(given, w, calls)
    decreases |more|
  {
    if |more| > |calls| {
      var shorter := more[..|more| - 1];
      assert shorter[..|calls|] == calls;
      LastSearchKept(calls, shorter, given, w);
      assert more[|more| - 1].Probe?;
    } else {
      assert more == calls;
    }
  }

  lemma {:induction false} NothingSearched(calls: seq<Call>)
    requires LastSearch(calls) == None
    ensures forall j :: 0 <= j < |calls| ==> !calls[j].Search?
    decreases |calls|
  {
    if calls != [] {
      NothingSearched(calls[..|calls| - 1]);
    }
  }

  lemma DecomposeLogged(s: State, start: State, w: Outside, max: nat)
    requires Logged(s, start, w, max) && LastSearch(s.calls) == None
    ensures var t := Decomposed(s, w); Logged(t, start, w, max) && Searchable(t, w, max)
  {
    hide Decomposed, Queries, Evidence, LastSearch, Questions;
    var t := Decomposed(s, w);
    DecomposedKeeps(s, w);
    QueriesKept(s.calls, t.calls);
    LastSearchKept(s.calls, t.calls, start.grounding, w);
    NothingSearched(t.calls);
  }

  lemma {:induction false} SearchedOnce(calls: seq<Call>)
    requires LastSearch(calls).Some?
    ensures Queries(calls) != []
    decreases |calls|
  {
    if calls != [] && !calls[|calls| - 1].Search? {
      SearchedOnce(calls[..|calls| - 1]);
    }
  }

  lemma EvaluateLogged(s: State, start: State, w: Outside, max: nat)
    requires Logged(s, start, w, max) && JustSearched(s, w)
    ensures var t := Evaluated(s, w, max);
            && Logged(t, start, w, max) && AtNode(AfterEvaluate(t, max), t, w, max)
  {
    hide Queries, Evidence, LastSearch, AllFollow, Missed, Strip;
    var t := Evaluated(s, w, max);
    LoggedGrows(s, t, start, w, max, Probe(w.stop(|s.calls|)));
    if LastSearch(s.calls).Some? {
      SearchedOnce(s.calls);
    }
  }

  lemma SynthesizeLogged(s: State, start: State, w: Outside, max: nat)
    requires Logged(s, start, w, max) && Enough(s, w, max)
    ensures var t := Synthesized(s, w); Logged(t, start, w, max) && Enough(t, w, max) && JustAnswered(t, w)
  {
    hide Logged, LastSearch, NextQuery, Lacking;
    var t := Ask(s, w);
    LoggedGrows(s, t, start, w, max, Probe(w.stop(|s.calls|)));
    LoggedGrows(s, Synthesized(s, w).(calls := t.calls), start, w, max, Probe(w.stop(|s.calls|)));
    LoggedGrows(t, Synthesized(s, w).(calls := t.calls + [Say(w.synthesize(|t.calls|))]), start, w, max,
                Say(w.synthesize(|t.calls|)));
  }

  lemma ValidateLogged(s: State, start: State, w: Outside, max: nat)
    requires Logged(s, start, w, max) && Enough(s, w, max) && JustAnswered(s, w)
    ensures var t := Validated(s, w);
            && Logged(t, start, w, max) && AtNode(AfterValidate(t, max), t, w, max)
  {
    hide Logged, LastSearch, Settled, MoreNeeded, Strip;
    var t := Validated(s, w);
    LoggedGrows(s, t, start, w, max, Probe(w.stop(|s.calls|)));
    StillEnough(s, t, w, max);
    if t.completion != Stopped {
      AnswerGraded(s, w);
    }
  }

  lemma StillEnough(s: State, t: State, w: Outside, max: nat)
    requires Enough(s, w, max) && |t.calls| == |s.calls| + 1 && t.calls[..|s.calls|] == s.calls
    requires LastSearch(t.calls) == LastSearch(s.calls) && (s.completion == Stopped ==> t.completion == Stopped)
    requires t.(completion := s.completion, answer := s.answer, validation := s.validation, calls := s.calls) == s
    ensures Enough(t, w, max)
  {
    hide LastSearch, NextQuery, Lacking;
  }

  /** An answer judged to miss the question is the last thing that was said. */
  lemma AnswerGraded(s: State, w: Outside)
    requires JustAnswered(s, w) && !w.stop(|s.calls|) && s.completion != Stopped
    ensures var t := Validated(s, w);
            Graded(t, w) && (t.validation == Insufficient ==> Missed(w, t.calls, |t.calls|))
  {
    assert Strip("") == "";
  }

  lemma StepLogged(node: Node, s: State, start: State, w: Outside, max: nat)
    requires Logged(s, start, w, max) && AtNode(node, s, w, max) && node != End
    ensures var (n, t) := Step(node, s, w, max); Logged(t, start, w, max) && AtNode(n, t, w, max)
  {
    hide Logged, Gated, Decomposed, Searched, Evaluated, Synthesized, Validated, LastSearch;
    StepCases(node, s, w, max);
    match node
    case Understand | Plan => PassThroughLogged(s, start, w, max);
    case Decompose => DecomposeLogged(s, start, w, max);
    case Searching => SearchingLogged(s, start, w, max);
    case Evaluate => EvaluateLogged(s, start, w, max);
    case Synthesize => SynthesizeLogged(s, start, w, max);
    case Validate => ValidateLogged(s, start, w, max);
  }

  lemma PassThroughLogged(s: State, start: State, w: Outside, max: nat)
    requires Logged(s, start, w, max) && LastSearch(s.calls) == None
    ensures var t := Gated(s, w); Logged(t, start, w, max) && LastSearch(t.calls) == None
  {
    hide Logged, LastSearch;
    LoggedGrows(s, Gated(s, w), start, w, max, Probe(w.stop(|s.calls|)));
  }

  lemma {:induction false} RunLogged(node: Node, s: State, start: State, w: Outside, max: nat)
    requires Logged(s, start, w, max) && AtNode(node, s, w, max)
    ensures var r := RunFrom(node, s, w, max); Logged(r, start, w, max) && AtNode(End, r, w, max)
    decreases Potential(node, s, max), Rank(node)
  {
    hide Step, Logged, AtNode;
    if node != End {
      StepDecreases(node, s, w, max);
      StepLogged(node, s, start, w, max);
      var (n, t) := Step(node, s, w, max);
      RunLogged(n, t, start, w, max);
    }
  }

  /** Every search after the first is within the budget, has a reason (a sub-question left,
      insufficient evidence, gaps, or an answer that missed the question), and asks for the
      next sub-question or, without one, for what the gaps suggest. The quality and the
      evidence reported are those of the searches made. */
  lemma SearchesHaveReason(s: State, w: Outside, max: nat)
    requires FirstState(s)
    ensures var r := RunGraph(s, w, max);
            && AllFollow(w, s.userInput, r.subs, max, r.calls)
            && r.quality == LastQuality(s.quality, w, r.calls)
            && r.grounding == Evidence(s.grounding, w, r.calls)
  {
    hide RunFrom, Strip, Queries, AllFollow, LastQuality, Evidence;
    StartLogged(s, w, max);
    if !w.stop(|s.calls|) {
      RunLogged(Understand, Ask(s, w), s, w, max);
    }
  }

  lemma StartLogged(s: State, w: Outside, max: nat)
    requires FirstState(s)
    ensures Logged(Ask(s, w), s, w, max) && AtNode(Understand, Ask(s, w), w, max)
  {
    hide Follows;
    assert Ask(s, w).calls == [Probe(w.stop(|s.calls|))];
    NothingBlocked(s, w);
    assert Logged(s, s, w, max) && LastSearch([]) == None;
    LoggedGrows(s, Ask(s, w), s, w, max, Probe(w.stop(|s.calls|)));
  }

  /** A run that is neither stopped nor blocked and has budget left ends only when nothing is
      lacking: the last search brought sufficient evidence without gaps, every sub-question
      is searched, and the answer was not judged to miss the question. */
  lemma EndsWhenEnough(s: State, w: Outside, max: nat)
    requires FirstState(s)
    ensures var r := RunGraph(s, w, max);
            && (r.completion != Stopped ==> Graded(r, w))
            && (r.completion != Stopped && !r.blocked && r.attempts < max ==>
                  && LastSearch(r.calls).Some? && !Lacking(w, r.subs, LastSearch(r.calls).value, r.attempts)
                  && r.validation in {Accepted, NoAnswer})
  {
    hide RunFrom, Strip, Queries, Logged, Lacking, LastSearch;
    StartLogged(s, w, max);
    if !w.stop(|s.calls|) {
      RunLogged(Understand, Ask(s, w), s, w, max);
    }
  }

  // ---- a run that is silent about what it left ----

  function GateCloses(): Outside {
    Outside(true, true, true, true, (x: string) => x, (t: nat) => false, (t: nat) => None, (t: nat) => t < 10,
            (t: nat) => Found("", Nothing), (t: nat) => [], (t: nat) => "", (t: nat) => Some("x"), (t: nat) => false)
  }

  lemma Advance(node: Node, s: State, w: Outside, max: nat) returns (t: State)
    requires node != End
    ensures t == Step(node, s, w, max).1 && RunFrom(node, s, w, max) == RunFrom(Step(node, s, w, max).0, t, w, max)
  {
    t := Step(node, s, w, max).1;
    StepDecreases(node, s, w, max);
  }

  /** Two sub-questions, a budget of three, and a gate that lets one search through and not
      the next: the run ends normally, has searched for the first one only, and reports
      nothing as unresearched. */
  lemma SecondQuestionIsDropped(s: State)
    requires FirstState(s) && s.subs == ["a", "b"] && s.query == "a" && s.grounding == ""
    ensures var r := RunGraph(s, GateCloses(), 3);
            r.completion != Stopped && Queries(r.calls) == ["a"] && r.unresearched == [] && !r.coverageIncomplete
  {
    hide RunFrom, Strip, Queries;
    var w := GateCloses();
    var s3 := FirstQuestion(s);
    var s6 := Advance(Searching, s3, w, 3);
    assert s6.calls == s3.calls + [Probe(false)] + [Gate("b", false)] + [Block];
    var s7 := Advance(Evaluate, s6, w, 3);
    var s8 := Advance(Synthesize, s7, w, 3);
    var s9 := Advance(Validate, s8, w, 3);
    assert s7.calls == s6.calls + [Probe(false)];
    assert s8.calls == s7.calls + [Probe(false)] + [Say(Some("x"))];
    assert s9.calls == s8.calls + [Probe(false)];
    DroppedQueries(s3.calls);
    QueriesGrow(s6.calls, Probe(false));
    QueriesGrow(s7.calls, Probe(false));
    QueriesGrow(s7.calls + [Probe(false)], Say(Some("x")));
    QueriesGrow(s8.calls, Probe(false));
    Ended(s9, w, 3);
  }

  lemma FirstQuestion(s: State) returns (t: State)
    requires FirstState(s) && s.subs == ["a", "b"] && s.query == "a" && s.grounding == ""
    ensures RunFrom(Understand, Ask(s, GateCloses()), GateCloses(), 3) == RunFrom(Searching, t, GateCloses(), 3)
    ensures |t.calls| == 9 && t.completion == Unset && t.attempts == 1 && t.subs == s.subs && t.query == "b"
    ensures Queries(t.calls) == ["a"] && !t.coverageIncomplete && t.unresearched == []
  {
    hide RunFrom, Strip, Queries;
    var w := GateCloses();
    var s0 := Ask(s, w);
    var s1 := Advance(Understand, s0, w, 3);
    var s2 := Advance(Plan, s1, w, 3);
    var s3 := Advance(Decompose, s2, w, 3);
    var s4 := Advance(Searching, s3, w, 3);
    t := Advance(Evaluate, s4, w, 3);
    QueriesGrow(s.calls, Probe(false));
    QueriesGrow(s0.calls, Probe(false));
    QueriesGrow(s1.calls, Probe(false));
    QueriesGrow(s2.calls, Probe(false));
    SearchedQueries(s3, w);
    QueriesGrow(s4.calls, Probe(false));
    assert Queries(s.calls) == [] by { NothingBlocked(s, w); }
  }

  lemma DroppedQueries(calls: seq<Call>)
    ensures Queries(calls + [Probe(false)] + [Gate("b", false)] + [Block]) == Queries(calls)
  {
    hide Queries;
    QueriesGrow(calls, Probe(false));
    QueriesGrow(calls + [Probe(false)], Gate("b", false));
    QueriesGrow(calls + [Probe(false)] + [Gate("b", false)], Block);
  }

  lemma Ended(s: State, w: Outside, max: nat)
    ensures RunFrom(End, s, w, max) == s
  {
  }

  // ---- the class ----

  class ResearchGraph {
    const maxSearchAttempts: nat
    const outside: Outside
    /** The workflow state the nodes update, and the calls made so far. */
    var state: State

    constructor (maxSearchAttempts: nat, outside: Outside, state: State)
      requires maxSearchAttempts >= 1
      ensures this.maxSearchAttempts == maxSearchAttempts && this.outside == outside && this.state == state
    {
      this.maxSearchAttempts, this.outside, this.state := maxSearchAttempts, outside, state;
    }

    method ShouldStop() returns (fired: bool)
      modifies this`state
      ensures fired == outside.stop(|old(state).calls|) && state == Ask(old(state), outside)
    {
      fired := outside.stop(|state.calls|);
      state := state.(calls := state.calls + [Probe(fired)]);
    }

    /** The understand and plan nodes. */
    method NodePassThrough()
      modifies this`state
      ensures state == Gated(old(state), outside)
    {
      var fired := ShouldStop();
      if fired {
        state := state.(completion := Stopped);
      }
    }

    method NodeDecompose()
      modifies this`state
      ensures state == Decomposed(old(state), outside)
    {
      hide Parsed, Questions;
      var fired := ShouldStop();
      if fired {
        state := state.(completion := Stopped);
        return;
      }
      if state.subs != [] || !outside.decomposable || !outside.hasModel {
        return;
      }
      ghost var start := state;
      var attempt := 0;
      while attempt < DECOMPOSE_TRIES
        invariant attempt <= DECOMPOSE_TRIES && state.subs == []
        invariant Tried(state, outside, DECOMPOSE_TRIES - attempt) == Tried(start, outside, DECOMPOSE_TRIES)
      {
        fired := ShouldStop();
        if fired {
          state := state.(completion := Stopped);
          return;
        }
        var raw := outside.split(|state.calls|);
        if raw.None? {
          break;
        }
        var subs := ParseDecomposition(raw.value, outside.lower);
        if subs != [] {
          state := state.(subs := subs);
          break;
        }
        attempt := attempt + 1;
      }
      if state.subs == [] {
        state := state.(query := state.userInput);
      } else {
        state := state.(query := state.subs[0]);
      }
    }

    method NodeSearch()
      modifies this`state
      ensures state == Searched(old(state), outside)
    {
      hide Executed;
      var fired := ShouldStop();
      if fired {
        state := state.(completion := Stopped);
        return;
      }
      var query := if state.query != "" then state.query else state.userInput;
      var reuse := state.attempts == 0 && state.quality == Sufficient && state.grounding != "";
      if reuse || !outside.hasSearch || query == "" {
        state := state.(blocked := true, calls := state.calls + [Block]);
        return;
      }
      if outside.hasCoordinator {
        var allowed := outside.gate(|state.calls|);
        state := state.(calls := state.calls + [Gate(query, allowed)]);
        if !allowed {
          state := state.(blocked := true, calls := state.calls + [Block]);
          return;
        }
      }
      Execute(query);
    }

    /** The part of the search node behind the gate. */
    method Execute(query: string)
      modifies this`state
      ensures state == Executed(old(state), outside, query)
    {
      state := state.(blocked := false);
      var found := outside.search(|state.calls|);
      state := state.(calls := state.calls + [Search(query)]);
      if found.text != "" {
        state := state.(grounding := found.text);
      }
      state := state.(quality := found.quality);
      state := state.(query := query);
      state := state.(attempts := state.attempts + 1);
      if outside.hasCoordinator {
        state := state.(calls := state.calls + [Record(query)]);
        assert old(state).calls + [Search(query)] + [Record(query)] == state.calls;
      } else {
        assert old(state).calls + [Search(query)] + [] == state.calls;
      }
    }

    method NodeEvaluate()
      modifies this`state
      ensures state == Evaluated(old(state), outside, maxSearchAttempts)
    {
      var fired := ShouldStop();
      if fired {
        state := state.(completion := Stopped);
        return;
      }
      state := state.(gaps := outside.gaps(|state.calls|));
      if state.subs != [] {
        var searched := if |state.subs| < state.attempts then |state.subs| else state.attempts;
        var unresearched := state.subs[searched..];
        if unresearched != [] && state.attempts >= maxSearchAttempts && !state.coverageIncomplete {
          state := state.(coverageIncomplete := true);
          state := state.(unresearched := unresearched);
        }
      }
      if state.attempts < |state.subs| {
        state := state.(query := state.subs[state.attempts]);
        return;
      }
      if state.gaps != [] && state.attempts >= 1 {
        var refined := outside.refine(|state.calls|);
        if refined != "" && refined != state.query {
          state := state.(query := refined);
        }
      }
    }

    method NodeSynthesize()
      modifies this`state
      ensures state == Synthesized(old(state), outside)
    {
      var fired := ShouldStop();
      if fired {
        state := state.(completion := Stopped);
        return;
      }
      if !outside.hasModel {
        state := state.(answer := "");
        state := state.(validation := NoAnswer);
        return;
      }
      var answer := outside.synthesize(|state.calls|);
      state := state.(calls := state.calls + [Say(answer)]);
      if answer.None? {
        state := state.(completion := Stopped);
        return;
      }
      state := state.(answer := answer.value);
    }

    method NodeValidate()
      modifies this`state
      ensures state == Validated(old(state), outside)
    {
      hide Strip;
      var fired := ShouldStop();
      if fired {
        state := state.(completion := Stopped);
        return;
      }
      if Strip(state.answer) == "" {
        state := state.(validation := NoAnswer);
        return;
      }
      state := state.(validation := if outside.irrelevant(|state.calls|) then Insufficient else Accepted);
    }

    method Invoke()
      modifies this`state
      ensures state == RunFrom(Understand, old(state), outside, maxSearchAttempts)
    {
      hide Step, Potential, Gated, Decomposed, Searched, Evaluated, Synthesized, Validated, AfterEvaluate,
           AfterValidate;
      var node := Understand;
      while node != End
        invariant RunFrom(node, state, outside, maxSearchAttempts)
                  == RunFrom(Understand, old(state), outside, maxSearchAttempts)
        decreases Potential(node, state, maxSearchAttempts), Rank(node)
      {
        ghost var s, here := state, node;
        StepDecreases(node, s, outside, maxSearchAttempts);
        StepCases(node, s, outside, maxSearchAttempts);
        match node
        case Understand => NodePassThrough(); node := Plan;
        case Plan => NodePassThrough(); node := Decompose;
        case Decompose => NodeDecompose(); node := Searching;
        case Searching => NodeSearch(); node := Evaluate;
        case Evaluate => NodeEvaluate(); node := AfterEvaluate(state, maxSearchAttempts);
        case Synthesize => NodeSynthesize(); node := Validate;
        case Validate => NodeValidate(); node := AfterValidate(state, maxSearchAttempts);
        assert (node, state) == Step(here, s, outside, maxSearchAttempts);
      }
    }

    method Run()
      modifies this`state
      ensures state == RunGraph(old(state), outside, maxSearchAttempts)
    {
      hide RunFrom, Strip;
      var fired := ShouldStop();
      if fired {
        state := state.(completion := Stopped);
        return;
      }
      Invoke();
      if state.completion == Unset {
        state := state.(completion := if Strip(state.answer) != "" then Completed else Empty);
      }
    }
  }

  lemma StepCases(node: Node, s: State, w: Outside, max: nat)
    ensures node == Understand ==> Step(node, s, w, max) == (Plan, Gated(s, w))
    ensures node == Plan ==> Step(node, s, w, max) == (Decompose, Gated(s, w))
    ensures node == Decompose ==> Step(node, s, w, max) == (Searching, Decomposed(s, w))
    ensures node == Searching ==> Step(node, s, w, max) == (Evaluate, Searched(s, w))
    ensures node == Evaluate ==>
            Step(node, s, w, max) == (AfterEvaluate(Evaluated(s, w, max), max), Evaluated(s, w, max))
    ensures node == Synthesize ==> Step(node, s, w, max) == (Validate, Synthesized(s, w))
    ensures node == Validate ==> Step(node, s, w, max) == (AfterValidate(Validated(s, w), max), Validated(s, w))
  {
  }
}
