/** Knowledge extraction behind a watermark. */
module Extraction {
  import opened Text

  // Turns are read in batches, their knowledge, provenance edges and Markdown mirrors are
  // written, and only then is the batch acknowledged. Any call may fail, before or after it
  // took effect.

  datatype Record = Scenario(conv: nat) | Knowledge(id: string) | DerivedFrom(id: string, conv: nat)
                  | ObservedIn(id: string, conv: nat) | Mirror(id: string) | Indexed(id: string)

  /** A durable write of some records at once, or a call whose effects are not tracked here. */
  datatype Write = Put(records: set<Record>) | Visit

  datatype Outcome = Done | FailedBefore | FailedAfter

  datatype Conv = Conv(turns: seq<string>, next: nat)

  /** An acknowledged extraction: the turns from..to of a conversation, extracted at a
      moment, and the ids of what was found in them. */
  datatype Ack = Ack(conv: nat, from: nat, to: nat, tick: nat, ids: seq<string>)

  /** acks is the history of the acknowledgements that took effect. */
  datatype State = State(convs: seq<Conv>, records: set<Record>, acks: seq<Ack>, ticks: nat)

  /** What the calls made at each moment come to; extract gives the ids of the items found
      in a batch, or None when it raises. listing is the query for pending conversations. */
  datatype Outside = Outside(every: nat, hasEdges: bool, hasMarkdown: bool, outcome: nat -> Outcome,
                             extract: (nat, seq<string>) -> Option<seq<string>>, listing: (nat, seq<Conv>) -> seq<nat>)

  // ---- one extraction ----

  function Batch(c: Conv, every: nat): seq<string>
    requires c.next <= |c.turns|
  {
    c.turns[c.next..c.next + Min(every, |c.turns| - c.next)]
  }

  function StoreSteps(ids: seq<string>): seq<Write> {
    seq(|ids|, i requires 0 <= i < |ids| => Put({Knowledge(ids[i])}))
  }

  /** Both provenance edges of every item. */
  function EdgesOf(c: nat, ids: seq<string>): set<Record> {
    (set i | 0 <= i < |ids| :: DerivedFrom(ids[i], c)) + (set i | 0 <= i < |ids| :: ObservedIn(ids[i], c))
  }

  /** All edges go to the store in one transaction. */
  function EdgeSteps(c: nat, ids: seq<string>): seq<Write> {
    if ids == [] then [] else [Put(EdgesOf(c, ids))]
  }

  function MirrorSteps(ids: seq<string>): seq<Write> {
    if ids == [] then [] else [Put({Mirror(ids[0])}), Put({Indexed(ids[0])})] + MirrorSteps(ids[1..])
  }

  /** Everything that is written between the extraction and the acknowledgement; the two
      visits link the episode and reconcile the vault. */
  function Steps(c: nat, ids: seq<string>, w: Outside): seq<Write> {
    [Put({Scenario(c)})] + StoreSteps(ids) + (if w.hasEdges then EdgeSteps(c, ids) else [])
    + (if w.hasMarkdown then MirrorSteps(ids) + [Visit, Visit] else [])
  }

  function Written(s: State, w: Outside, step: Write): (State, bool) {
    var o := w.outcome(s.ticks);
    var t := s.(ticks := s.ticks + 1);
    (if step.Put? && o != FailedBefore then t.(records := t.records + step.records) else t, o == Done)
  }

  function WriteAll(s: State, w: Outside, steps: seq<Write>): (State, bool)
    decreases |steps|
  {
    if steps == [] then (s, true)
    else
      var (t, ok) := Written(s, w, steps[0]);
      if ok then WriteAll(t, w, steps[1..]) else (t, false)
  }

  function Acknowledged(s: State, w: Outside, ack: Ack): (State, bool)
    requires ack.conv < |s.convs|
  {
    var o := w.outcome(s.ticks);
    var conv := s.convs[ack.conv];
    var raised := conv.(next := if conv.next < ack.to then ack.to else conv.next);
    var t := s.(ticks := s.ticks + 1);
    (if o == FailedBefore then t else t.(convs := s.convs[ack.conv := raised], acks := s.acks + [ack]), o == Done)
  }

  predicate Fits(convs: seq<Conv>) {
    forall c :: 0 <= c < |convs| ==> convs[c].next <= |convs[c].turns|
  }

  function Extracted(s: State, w: Outside, c: nat, partial: bool): (State, bool)
    requires Fits(s.convs)
  {
    if c >= |s.convs| then (s, true)
    else
      var batch := Batch(s.convs[c], w.every);
      if batch == [] || (!partial && |batch| < w.every) then (s, true)
      else
        var found := w.extract(s.ticks, batch);
        var t := s.(ticks := s.ticks + 1);
        if found.None? then (t, false)
        else
          var (u, ok) := WriteAll(t, w, Steps(c, found.value, w));
          WriteAllKeeps(t, w, Steps(c, found.value, w));
          var from := s.convs[c].next;
          if ok then Acknowledged(u, w, Ack(c, from, from + |batch|, s.ticks, found.value)) else (u, false)
  }

  // ---- what the writes leave ----

  function PutsOf(steps: seq<Write>): set<Record> {
    if steps == [] then {} else (if steps[0].Put? then steps[0].records else {}) + PutsOf(steps[1..])
  }

  /** A failed attempt leaves some of its records, a completed one all of them, and nothing
      else changes: a retry starts from a state it would have passed through anyway. */
  lemma {:induction false} WriteAllKeeps(s: State, w: Outside, steps: seq<Write>)
    ensures var (t, ok) := WriteAll(s, w, steps);
            && t.convs == s.convs && t.acks == s.acks && s.ticks <= t.ticks
            && s.records <= t.records <= s.records + PutsOf(steps)
            && (ok ==> t.records == s.records + PutsOf(steps))
    decreases |steps|
  {
    if steps != [] {
      var (t, ok) := Written(s, w, steps[0]);
      WriteAllKeeps(t, w, steps[1..]);
    }
  }

  lemma {:induction false} WriteAllConcat(s: State, w: Outside, a: seq<Write>, b: seq<Write>)
    ensures var (t, ok) := WriteAll(s, w, a); WriteAll(s, w, a + b) == if ok then WriteAll(t, w, b) else (t, false)
    decreases |a|
  {
    if a == [] {
      assert a + b == b;
    } else {
      assert (a + b)[0] == a[0] && (a + b)[1..] == a[1..] + b;
      WriteAllConcat(Written(s, w, a[0]).0, w, a[1..], b);
    }
  }

  // ---- the invariant: the watermark lags behind every durable write ----

  /** The scenario of the conversation, and for every item its knowledge and, where they are
      kept, both provenance edges, its mirror and the mirror's index rows. */
  predicate AllWritten(records: set<Record>, w: Outside, c: nat, ids: seq<string>) {
    && Scenario(c) in records
    && forall i :: 0 <= i < |ids| ==>
         && Knowledge(ids[i]) in records
         && (w.hasEdges ==> DerivedFrom(ids[i], c) in records && ObservedIn(ids[i], c) in records)
         && (w.hasMarkdown ==> Mirror(ids[i]) in records && Indexed(ids[i]) in records)
  }

  /** A record that one extraction of a conversation accounts for. */
  predicate AccountedFor(r: Record, w: Outside, c: nat, ids: seq<string>) {
    match r
    case Scenario(d) => d == c
    case Knowledge(id) => id in ids
    case DerivedFrom(id, d) => w.hasEdges && id in ids && d == c
    case ObservedIn(id, d) => w.hasEdges && id in ids && d == c
    case Mirror(id) => w.hasMarkdown && id in ids
    case Indexed(id) => w.hasMarkdown && id in ids
  }

  lemma {:induction false} StorePuts(ids: seq<string>, n: nat)
    requires n <= |ids|
    ensures forall r :: r in PutsOf(StoreSteps(ids)[..n]) <==> r.Knowledge? && r.id in ids[..n]
    decreases n
  {
    if n == 0 {
      assert StoreSteps(ids)[..0] == [] && ids[..0] == [];
    } else {
      var steps := StoreSteps(ids)[..n];
      StorePuts(ids, n - 1);
      assert steps == StoreSteps(ids)[..n - 1] + [Put({Knowledge(ids[n - 1])})];
      PutsConcat(StoreSteps(ids)[..n - 1], [Put({Knowledge(ids[n - 1])})]);
      assert ids[..n] == ids[..n - 1] + [ids[n - 1]];
    }
  }

  lemma {:induction false} PutsConcat(a: seq<Write>, b: seq<Write>)
    ensures PutsOf(a + b) == PutsOf(a) + PutsOf(b)
  {
    if a == [] {
      assert a + b == b;
    } else {
      assert (a + b)[0] == a[0] && (a + b)[1..] == a[1..] + b;
      PutsConcat(a[1..], b);
    }
  }

  lemma {:induction false} MirrorPuts(ids: seq<string>)
    ensures forall r :: r in PutsOf(MirrorSteps(ids)) <==> (r.Mirror? || r.Indexed?) && r.id in ids
  {
    if ids != [] {
      MirrorPuts(ids[1..]);
      var first := [Put({Mirror(ids[0])}), Put({Indexed(ids[0])})];
      PutsConcat(first, MirrorSteps(ids[1..]));
      PutsTwo({Mirror(ids[0])}, {Indexed(ids[0])});
      assert ids == [ids[0]] + ids[1..];
    }
  }

  lemma PutsTwo(a: set<Record>, b: set<Record>)
    ensures PutsOf([Put(a), Put(b)]) == a + b
  {
    var two := [Put(a), Put(b)];
    assert two[1..] == [Put(b)] && [Put(b)][1..] == [];
    assert PutsOf([Put(b)]) == b;
  }

  lemma EdgePuts(c: nat, ids: seq<string>)
    ensures forall r :: r in PutsOf(EdgeSteps(c, ids)) <==>
              (r.DerivedFrom? || r.ObservedIn?) && r.id in ids && r.conv == c
  {
    if ids != [] {
      assert EdgeSteps(c, ids)[1..] == [];
      assert PutsOf(EdgeSteps(c, ids)) == EdgesOf(c, ids) + PutsOf([]);
    }
  }

  /** What the pipeline writes is what the extraction accounts for. */
  lemma StepsCover(c: nat, ids: seq<string>, w: Outside)
    ensures AllWritten(PutsOf(Steps(c, ids, w)), w, c, ids)
    ensures forall r :: r in PutsOf(Steps(c, ids, w)) ==> AccountedFor(r, w, c, ids)
  {
    hide StoreSteps, EdgeSteps, MirrorSteps, EdgesOf, PutsOf;
    NoPuts();
    var one: seq<Write> := [Put({Scenario(c)})];
    var two := StoreSteps(ids);
    var three := if w.hasEdges then EdgeSteps(c, ids) else [];
    var visits: seq<Write> := [Visit, Visit];
    var four := if w.hasMarkdown then MirrorSteps(ids) + visits else [];
    PutsConcat(one + two + three, four);
    PutsConcat(one + two, three);
    PutsConcat(one, two);
    PutsConcat(MirrorSteps(ids), visits);
    FirstPuts(c);
    VisitPuts(2);
    assert visits[..2] == visits;
    StoreLength(ids);
    assert two[..|ids|] == two;
    StorePuts(ids, |ids|);
    assert ids[..|ids|] == ids;
    EdgePuts(c, ids);
    MirrorPuts(ids);
  }

  lemma StoreLength(ids: seq<string>)
    ensures |StoreSteps(ids)| == |ids|
  {
  }

  // ---- the order of the writes ----

  /** Whatever is written of a batch: knowledge only with the scenario, edges only when all
      the knowledge is there, mirrors only when all the edges are, and the index rows of a
      mirror only behind the mirror. */
  predicate InOrder(records: set<Record>, fresh_: set<Record>, w: Outside, c: nat, ids: seq<string>) {
    forall r :: r in fresh_ ==>
      && Scenario(c) in records
      && (!r.Scenario? && !r.Knowledge? ==> forall i :: 0 <= i < |ids| ==> Knowledge(ids[i]) in records)
      && ((r.Mirror? || r.Indexed?) && w.hasEdges ==>
            forall i :: 0 <= i < |ids| ==> DerivedFrom(ids[i], c) in records && ObservedIn(ids[i], c) in records)
      && (r.Indexed? ==> Mirror(r.id) in records)
  }

  lemma {:induction false} WrotePrefix(s: State, w: Outside, steps: seq<Write>) returns (k: nat)
    ensures k <= |steps| && WriteAll(s, w, steps).0.records == s.records + PutsOf(steps[..k])
    decreases |steps|
  {
    if steps == [] {
      k := 0;
    } else {
      var (t, ok) := Written(s, w, steps[0]);
      if ok {
        k := WrotePrefix(t, w, steps[1..]);
        k := k + 1;
        assert steps[..k] == [steps[0]] + steps[1..][..k - 1];
        PutsConcat([steps[0]], steps[1..][..k - 1]);
      } else if t.records == s.records {
        k := 0;
        assert steps[..0] == [];
      } else {
        k := 1;
        assert steps[..1] == [steps[0]];
      }
    }
  }

  lemma PrefixPuts(a: seq<Write>, b: seq<Write>, k: nat)
    requires k <= |a| + |b|
    ensures PutsOf((a + b)[..k]) == if k <= |a| then PutsOf(a[..k]) else PutsOf(a) + PutsOf(b[..k - |a|])
    ensures k <= |a| ==> PutsOf(a[..k]) <= PutsOf(a)
    ensures k > |a| ==> PutsOf(b[..k - |a|]) <= PutsOf(b)
  {
    if k <= |a| {
      assert (a + b)[..k] == a[..k];
      assert a == a[..k] + a[k..];
      PutsConcat(a[..k], a[k..]);
    } else {
      var n := k - |a|;
      assert (a + b)[..k] == a + b[..n];
      PutsConcat(a, b[..n]);
      assert b == b[..n] + b[n..];
      PutsConcat(b[..n], b[n..]);
    }
  }

  lemma {:induction false} MirrorsInOrder(ids: seq<string>, k: nat)
    requires k <= |MirrorSteps(ids)|
    ensures forall r :: r in PutsOf(MirrorSteps(ids)[..k]) && r.Indexed? ==>
              Mirror(r.id) in PutsOf(MirrorSteps(ids)[..k])
  {
    if ids != [] && k > 0 {
      var first := [Put({Mirror(ids[0])}), Put({Indexed(ids[0])})];
      assert MirrorSteps(ids) == first + MirrorSteps(ids[1..]);
      PrefixPuts(first, MirrorSteps(ids[1..]), k);
      assert first[..1] == [first[0]] && first[..2] == first;
      assert first[1..] == [first[1]] && first[1..][1..] == [];
      assert PutsOf([first[1]]) == {Indexed(ids[0])};
      assert PutsOf([first[0]]) == {Mirror(ids[0])};
      if k > 2 {
        MirrorsInOrder(ids[1..], k - 2);
      }
    } else {
      assert MirrorSteps(ids)[..k] == [];
    }
  }

  /** At whatever write a batch breaks off. */
  lemma WritesInOrder(s: State, w: Outside, c: nat, ids: seq<string>)
    ensures var t := WriteAll(s, w, Steps(c, ids, w)).0; InOrder(t.records, t.records - s.records, w, c, ids)
  {
    hide StoreSteps, EdgeSteps, MirrorSteps, EdgesOf, PutsOf;
    var steps := Steps(c, ids, w);
    var k := WrotePrefix(s, w, steps);
    PartInOrder(c, ids, w, k);
    var part := PutsOf(steps[..k]);
    assert InOrder(part, part, w, c, ids);
  }

  lemma PartInOrder(c: nat, ids: seq<string>, w: Outside, k: nat)
    requires k <= |Steps(c, ids, w)|
    ensures var part := PutsOf(Steps(c, ids, w)[..k]); InOrder(part, part, w, c, ids)
  {
    hide StoreSteps, EdgeSteps, MirrorSteps, EdgesOf, PutsOf;
    var one: seq<Write> := [Put({Scenario(c)})];
    var two := StoreSteps(ids);
    var three := if w.hasEdges then EdgeSteps(c, ids) else [];
    var four := if w.hasMarkdown then MirrorSteps(ids) + [Visit, Visit] else [];
    assert Steps(c, ids, w) == ((one + two) + three) + four;
    FirstPuts(c);
    StoreLength(ids);
    assert two[..|ids|] == two && ids[..|ids|] == ids;
    StorePuts(ids, |ids|);
    EdgePuts(c, ids);
    PutsConcat(one, two);
    PutsConcat(one + two, three);
    PrefixPuts((one + two) + three, four, k);
    if k <= |one + two + three| {
      PrefixPuts(one + two, three, k);
      if k <= |one + two| {
        PrefixPuts(one, two, k);
      } else {
        PrefixOfEdges(c, ids, w, k - |one + two|);
      }
    } else {
      PrefixOfMirrors(ids, w, k - |one + two + three|);
    }
  }

  lemma FirstPuts(c: nat)
    ensures PutsOf([Put({Scenario(c)})]) == {Scenario(c)} && PutsOf([Put({Scenario(c)})][..0]) == {}
    ensures [Put({Scenario(c)})][..1] == [Put({Scenario(c)})]
  {
    assert [Put({Scenario(c)})][1..] == [];
  }

  lemma PrefixOfEdges(c: nat, ids: seq<string>, w: Outside, n: nat)
    requires n <= |if w.hasEdges then EdgeSteps(c, ids) else []|
    ensures var three := if w.hasEdges then EdgeSteps(c, ids) else [];
            forall r :: r in PutsOf(three[..n]) ==> r.DerivedFrom? || r.ObservedIn?
  {
    hide EdgeSteps, PutsOf;
    var three := if w.hasEdges then EdgeSteps(c, ids) else [];
    PrefixPuts(three, [], n);
    EdgePuts(c, ids);
    assert PutsOf([]) == {} by { NoPuts(); }
  }

  lemma NoPuts()
    ensures PutsOf([]) == {}
  {
  }

  lemma PrefixOfMirrors(ids: seq<string>, w: Outside, n: nat)
    requires n <= |if w.hasMarkdown then MirrorSteps(ids) + [Visit, Visit] else []|
    ensures var four := if w.hasMarkdown then MirrorSteps(ids) + [Visit, Visit] else [];
            forall r :: r in PutsOf(four[..n]) ==>
              (r.Mirror? || r.Indexed?) && (r.Indexed? ==> Mirror(r.id) in PutsOf(four[..n]))
  {
    hide MirrorSteps, PutsOf;
    MirrorPuts(ids);
    if w.hasMarkdown {
      PrefixPuts(MirrorSteps(ids), [Visit, Visit], n);
      VisitPuts(if n > |MirrorSteps(ids)| then n - |MirrorSteps(ids)| else 0);
      MirrorsInOrder(ids, if n <= |MirrorSteps(ids)| then n else |MirrorSteps(ids)|);
      assert MirrorSteps(ids)[..|MirrorSteps(ids)|] == MirrorSteps(ids);
    } else {
      NoPuts();
    }
  }

  lemma VisitPuts(n: nat)
    requires n <= 2
    ensures PutsOf([Visit, Visit][..n]) == {}
  {
    assert [Visit, Visit][..1] == [Visit] && [Visit, Visit][..2] == [Visit, Visit];
    assert PutsOf([Visit]) == {};
    PutsConcat([Visit], [Visit]);
    assert [Visit] + [Visit] == [Visit, Visit];
  }

  // ---- the invariant over a run ----

  /** The acknowledged extraction happened, on exactly these turns, and everything it found
      is written. */
  predicate Logged(s: State, w: Outside, e: Ack) {
    && e.conv < |s.convs| && e.from < e.to <= |s.convs[e.conv].turns| && e.tick < s.ticks
    && w.extract(e.tick, s.convs[e.conv].turns[e.from..e.to]) == Some(e.ids)
    && AllWritten(s.records, w, e.conv, e.ids)
  }

  /** Where the last acknowledgement of a conversation ends. */
  function Through(acks: seq<Ack>, c: nat): nat {
    if acks == [] then 0
    else
      var last := acks[|acks| - 1];
      if last.conv == c then last.to else Through(acks[..|acks| - 1], c)
  }

  /** Each acknowledgement takes up where the one before it on its conversation ended. */
  predicate Chained(acks: seq<Ack>) {
    acks == [] ||
    var init, last := acks[..|acks| - 1], acks[|acks| - 1];
    last.from == Through(init, last.conv) && Chained(init)
  }

  /** The watermark of every conversation is the end of a gapless chain of logged extractions. */
  ghost predicate Lags(s: State, w: Outside) {
    && Fits(s.convs) && Chained(s.acks)
    && (forall i :: 0 <= i < |s.acks| ==> Logged(s, w, s.acks[i]))
    && (forall c :: 0 <= c < |s.convs| ==> s.convs[c].next == Through(s.acks, c))
  }

  /** Turn k was extracted in a batch that was acknowledged, and all that batch gave is written. */
  predicate Durable(s: State, w: Outside, c: nat, k: nat) {
    exists i :: 0 <= i < |s.acks| && s.acks[i].conv == c && s.acks[i].from <= k < s.acks[i].to
        && Logged(s, w, s.acks[i])
  }

  lemma {:induction false} ChainCovers(acks: seq<Ack>, c: nat, k: nat) returns (i: nat)
    requires Chained(acks) && k < Through(acks, c)
    ensures i < |acks| && acks[i].conv == c && acks[i].from <= k < acks[i].to
  {
    var n := |acks| - 1;
    if acks[n].conv == c && acks[n].from <= k {
      i := n;
    } else {
      i := ChainCovers(acks[..n], c, k);
    }
  }

  /** So every acknowledged turn is durable. */
  lemma LagsDurable(s: State, w: Outside, c: nat, k: nat)
    requires Lags(s, w) && c < |s.convs| && k < s.convs[c].next
    ensures Durable(s, w, c, k)
  {
    hide Logged;
    var i := ChainCovers(s.acks, c, k);
  }

  lemma {:induction false} ThroughOther(acks: seq<Ack>, c: nat)
    requires forall i :: 0 <= i < |acks| ==> acks[i].conv != c
    ensures Through(acks, c) == 0
  {
    if acks != [] {
      ThroughOther(acks[..|acks| - 1], c);
    }
  }

  /** Later states keep what an earlier one had: turns are only appended, records only added. */
  predicate Extends(s: State, t: State) {
    && s.records <= t.records && |s.convs| <= |t.convs| && s.acks <= t.acks && s.ticks <= t.ticks
    && forall c :: 0 <= c < |s.convs| ==> s.convs[c].turns <= t.convs[c].turns && s.convs[c].next <= t.convs[c].next
  }

  lemma LoggedKept(s: State, t: State, w: Outside, e: Ack)
    requires Extends(s, t) && Logged(s, w, e)
    ensures Logged(t, w, e)
  {
    assert t.convs[e.conv].turns[e.from..e.to] == s.convs[e.conv].turns[e.from..e.to];
  }

  /** Writes, turns and failures that acknowledge nothing keep the watermark behind. */
  lemma LagsKept(s: State, t: State, w: Outside)
    requires Lags(s, w) && Extends(s, t) && t.acks == s.acks
    requires forall c :: 0 <= c < |t.convs| ==> t.convs[c].next == if c < |s.convs| then s.convs[c].next else 0
    ensures Lags(t, w)
  {
    hide Logged;
    forall i | 0 <= i < |t.acks| ensures Logged(t, w, t.acks[i]) {
      LoggedKept(s, t, w, s.acks[i]);
    }
    forall c | |s.convs| <= c < |t.convs| ensures Through(t.acks, c) == 0 {
      forall i | 0 <= i < |t.acks| ensures t.acks[i].conv != c {
        assert Logged(s, w, s.acks[i]);
        LoggedBound(s, w, s.acks[i]);
      }
      ThroughOther(t.acks, c);
    }
  }

  lemma LoggedBound(s: State, w: Outside, e: Ack)
    requires Logged(s, w, e)
    ensures e.conv < |s.convs|
  {
  }

  /** An acknowledgement that takes effect. */
  lemma LagsAcknowledged(s: State, u: State, t: State, w: Outside, ack: Ack)
    requires Lags(s, w) && ack.conv < |s.convs| && Logged(u, w, ack) && ack.from == s.convs[ack.conv].next
    requires Extends(s, u) && u.acks == s.acks && u.convs == s.convs
    requires t == u.(ticks := u.ticks + 1, acks := u.acks + [ack],
                     convs := u.convs[ack.conv := u.convs[ack.conv].(next := ack.to)])
    ensures Lags(t, w) && Extends(s, t)
  {
    hide Logged;
    assert t.acks[..|s.acks|] == s.acks;
    assert ack.to <= |u.convs[ack.conv].turns| && ack.from < ack.to by { LoggedEnds(u, w, ack); }
    forall i | 0 <= i < |t.acks| ensures Logged(t, w, t.acks[i]) {
      if i < |s.acks| {
        LoggedKept(s, t, w, s.acks[i]);
      } else {
        LoggedKept(u, t, w, ack);
      }
    }
    forall c | 0 <= c < |t.convs| ensures t.convs[c].next == Through(t.acks, c) {
      assert s.convs[c].next == Through(s.acks, c);
    }
  }

  lemma LoggedEnds(s: State, w: Outside, e: Ack)
    requires Logged(s, w, e)
    ensures e.from < e.to <= |s.convs[e.conv].turns|
  {
  }

  lemma ExtractedLags(s: State, w: Outside, c: nat, partial: bool)
    requires Lags(s, w)
    ensures var t := Extracted(s, w, c, partial).0; Lags(t, w) && Extends(s, t) && |t.convs| == |s.convs|
  {
    hide Steps, PutsOf, WriteAll, Batch, Lags;
    LagsFits(s, w);
    var t := Extracted(s, w, c, partial).0;
    if c >= |s.convs| {
      assert t == s;
    } else {
      var batch := Batch(s.convs[c], w.every);
      BatchSlice(s.convs[c], w.every);
      var found := w.extract(s.ticks, batch);
      var start := s.(ticks := s.ticks + 1);
      if batch == [] || (!partial && |batch| < w.every) {
        assert t == s;
      } else if found.None? {
        LagsKept(s, t, w);
      } else {
        WriteAllKeeps(start, w, Steps(c, found.value, w));
        var (u, ok) := WriteAll(start, w, Steps(c, found.value, w));
        var from := s.convs[c].next;
        var ack := Ack(c, from, from + |batch|, s.ticks, found.value);
        if !ok || w.outcome(u.ticks) == FailedBefore {
          LagsKept(s, t, w);
        } else {
          StepsCover(c, found.value, w);
          assert Logged(u, w, ack);
          LagsAcknowledged(s, u, t, w, ack);
        }
      }
    }
  }

  lemma LagsFits(s: State, w: Outside)
    requires Lags(s, w)
    ensures Fits(s.convs)
  {
  }

  lemma BatchSlice(c: Conv, every: nat)
    requires c.next <= |c.turns|
    ensures var b := Batch(c, every); c.next + |b| <= |c.turns| && b == c.turns[c.next..c.next + |b|]
    ensures Batch(c, every) == [] <==> every == 0 || c.next == |c.turns|
  {
  }

  /** An extraction is reported as failed unless it had nothing to do or was acknowledged
      without an error; a first write that does not get through leaves the store as it was. */
  lemma FailuresReported(s: State, w: Outside, c: nat, partial: bool)
    requires Fits(s.convs)
    ensures var (t, ok) := Extracted(s, w, c, partial);
            && (ok <==> t == s || (|t.acks| == |s.acks| + 1 && 0 < t.ticks && w.outcome(t.ticks - 1) == Done))
            && (w.outcome(s.ticks + 1) == FailedBefore ==> t.(ticks := s.ticks) == s)
  {
    hide PutsOf, Batch, StoreSteps, EdgeSteps, MirrorSteps;
    if c < |s.convs| {
      BatchSlice(s.convs[c], w.every);
      var found := w.extract(s.ticks, Batch(s.convs[c], w.every));
      if found.Some? {
        var start := s.(ticks := s.ticks + 1);
        WriteAllKeeps(start, w, Steps(c, found.value, w));
        assert Steps(c, found.value, w)[0] == Put({Scenario(c)});
      }
    }
  }

  // ---- observing and maintaining ----

  /** A turn appended to a conversation, the next unused number starting a new one. */
  function Appended(convs: seq<Conv>, c: nat, turn: string): seq<Conv> {
    if c < |convs| then convs[c := convs[c].(turns := convs[c].turns + [turn])] else convs + [Conv([turn], 0)]
  }

  /** observe(): store the turn, then try an extraction once a whole batch is there. */
  function Observed(s: State, w: Outside, c: nat, turn: string): State
    requires Fits(s.convs)
  {
    var o := w.outcome(s.ticks);
    var t := s.(ticks := s.ticks + 1);
    var u := t.(convs := Appended(t.convs, c, turn));
    if o == FailedBefore then t else if o == FailedAfter then u
    else Extracted(u, w, if c < |s.convs| then c else |s.convs|, false).0
  }

  function ExtractEach(s: State, w: Outside, list: seq<nat>): (t: State)
    requires Fits(s.convs)
    ensures Fits(t.convs)
    decreases |list|
  {
    if list == [] then s
    else
      ExtractedFits(s, w, list[0], true);
      ExtractEach(Extracted(s, w, list[0], true).0, w, list[1..])
  }

  lemma ExtractedFits(s: State, w: Outside, c: nat, partial: bool)
    requires Fits(s.convs)
    ensures Fits(Extracted(s, w, c, partial).0.convs)
  {
    hide Steps, WriteAll, PutsOf, Batch;
    if c < |s.convs| {
      BatchSlice(s.convs[c], w.every);
      var found := w.extract(s.ticks, Batch(s.convs[c], w.every));
      if found.Some? {
        WriteAllKeeps(s.(ticks := s.ticks + 1), w, Steps(c, found.value, w));
      }
    }
  }

  /** maintain(): reconcile the vault, then one batch, whole or not, of each listed conversation. */
  function Maintained(s: State, w: Outside): (t: State)
    requires Fits(s.convs)
    ensures Fits(t.convs)
  {
    var (t, ok) := Written(s, w, Visit);
    if ok then ExtractEach(t, w, w.listing(t.ticks, t.convs)) else t
  }

  datatype Op = Observe(conv: nat, turn: string) | Maintain

  function Apply(s: State, w: Outside, op: Op): (t: State)
    requires Fits(s.convs)
    ensures Fits(t.convs)
  {
    match op
    case Observe(c, turn) => ObservedFits(s, w, c, turn); Observed(s, w, c, turn)
    case Maintain => Maintained(s, w)
  }

  lemma ObservedFits(s: State, w: Outside, c: nat, turn: string)
    requires Fits(s.convs)
    ensures Fits(Observed(s, w, c, turn).convs)
  {
    hide Extracted;
    var u := s.(ticks := s.ticks + 1, convs := Appended(s.convs, c, turn));
    ExtractedFits(u, w, if c < |s.convs| then c else |s.convs|, false);
  }

  function RunAll(s: State, w: Outside, ops: seq<Op>): State
    requires Fits(s.convs)
    decreases |ops|
  {
    if ops == [] then s else RunAll(Apply(s, w, ops[0]), w, ops[1..])
  }

  lemma {:induction false} EachLags(s: State, w: Outside, list: seq<nat>)
    requires Lags(s, w)
    ensures var t := ExtractEach(s, w, list); Lags(t, w) && Extends(s, t)
    decreases |list|
  {
    hide Extracted, Logged, Chained;
    if list != [] {
      ExtractedLags(s, w, list[0], true);
      EachLags(Extracted(s, w, list[0], true).0, w, list[1..]);
    }
  }

  lemma ApplyLags(s: State, w: Outside, op: Op)
    requires Lags(s, w)
    ensures var t := Apply(s, w, op); Lags(t, w) && Extends(s, t)
  {
    hide Extracted, Logged, Chained;
    match op
    case Observe(c, turn) =>
      var u := s.(ticks := s.ticks + 1, convs := Appended(s.convs, c, turn));
      LagsKept(s, u, w);
      ExtractedLags(u, w, if c < |s.convs| then c else |s.convs|, false);
      LagsKept(s, s.(ticks := s.ticks + 1), w);
    case Maintain =>
      var t := Written(s, w, Visit).0;
      LagsKept(s, t, w);
      EachLags(t, w, w.listing(t.ticks, t.convs));
  }

  /** Over every run, whatever fails and whenever: an acknowledged turn lies in a batch that
      was extracted, in the run, from exactly those turns, and whose scenario, knowledge,
      provenance edges and mirrors are all written; no stored turn is dropped and no acknowledgement
      taken back. */
  lemma {:induction false} WatermarkLags(s: State, w: Outside, ops: seq<Op>)
    requires Lags(s, w)
    ensures var t := RunAll(s, w, ops);
            && Lags(t, w) && Extends(s, t)
            && forall c, k :: 0 <= c < |t.convs| && 0 <= k < t.convs[c].next ==> Durable(t, w, c, k)
    decreases |ops|
  {
    hide Apply, Durable, Lags, Fits;
    LagsFits(s, w);
    if ops == [] {
      forall c, k | 0 <= c < |s.convs| && 0 <= k < s.convs[c].next ensures Durable(s, w, c, k) {
        LagsDurable(s, w, c, k);
      }
    } else {
      ApplyLags(s, w, ops[0]);
      WatermarkLags(Apply(s, w, ops[0]), w, ops[1..]);
    }
  }

  // ---- nothing is invented ----

  /** The record comes from an extraction made at some moment of the run from stored turns. */
  predicate SourcedBy(t: State, w: Outside, r: Record, c: nat, a: nat, b: nat, m: nat) {
    && c < |t.convs| && a < b <= |t.convs[c].turns| && m < t.ticks
    && var found := w.extract(m, t.convs[c].turns[a..b]);
       found.Some? && AccountedFor(r, w, c, found.value)
  }

  ghost predicate Sourced(t: State, w: Outside, base: set<Record>) {
    forall r :: r in t.records ==> r in base || exists c: nat, a: nat, b: nat, m: nat :: SourcedBy(t, w, r, c, a, b, m)
  }

  lemma SourcedKept(s: State, t: State, w: Outside, base: set<Record>)
    requires Extends(s, t) && Sourced(s, w, base) && t.records == s.records
    ensures Sourced(t, w, base)
  {
    hide AccountedFor;
    forall r | r in t.records && r !in base
      ensures exists c: nat, a: nat, b: nat, m: nat :: SourcedBy(t, w, r, c, a, b, m)
    {
      var c: nat, a: nat, b: nat, m: nat :| SourcedBy(s, w, r, c, a, b, m);
      assert t.convs[c].turns[a..b] == s.convs[c].turns[a..b];
      assert SourcedBy(t, w, r, c, a, b, m);
    }
  }

  lemma ExtractedSourced(s: State, w: Outside, c: nat, partial: bool, base: set<Record>)
    requires Lags(s, w) && Sourced(s, w, base)
    ensures Sourced(Extracted(s, w, c, partial).0, w, base)
  {
    hide Steps, PutsOf, WriteAll, Batch, Lags, AccountedFor, Sourced;
    LagsFits(s, w);
    ExtractedLags(s, w, c, partial);
    var t := Extracted(s, w, c, partial).0;
    if t.records == s.records {
      SourcedKept(s, t, w, base);
    } else {
      var batch := Batch(s.convs[c], w.every);
      BatchSlice(s.convs[c], w.every);
      var found := w.extract(s.ticks, batch);
      WriteAllKeeps(s.(ticks := s.ticks + 1), w, Steps(c, found.value, w));
      StepsCover(c, found.value, w);
      var from := s.convs[c].next;
      SourcedKept(s, t.(records := s.records), w, base);
      forall r | r in t.records && r !in s.records ensures SourcedBy(t, w, r, c, from, from + |batch|, s.ticks) {
        assert AccountedFor(r, w, c, found.value);
      }
      SourcedMore(t, w, base, s.records, c, from, from + |batch|, s.ticks);
    }
  }

  lemma SourcedMore(t: State, w: Outside, base: set<Record>, before: set<Record>, c: nat, a: nat, b: nat, m: nat)
    requires Sourced(t.(records := before), w, base)
    requires forall r :: r in t.records && r !in before ==> SourcedBy(t, w, r, c, a, b, m)
    ensures Sourced(t, w, base)
  {
    hide AccountedFor;
    forall r | r in t.records && r !in base
      ensures exists c: nat, a: nat, b: nat, m: nat :: SourcedBy(t, w, r, c, a, b, m)
    {
      if r in before {
        var c1: nat, a1: nat, b1: nat, m1: nat :| SourcedBy(t.(records := before), w, r, c1, a1, b1, m1);
        assert SourcedBy(t, w, r, c1, a1, b1, m1);
      }
    }
  }

  lemma {:induction false} EachSourced(s: State, w: Outside, list: seq<nat>, base: set<Record>)
    requires Lags(s, w) && Sourced(s, w, base)
    ensures Sourced(ExtractEach(s, w, list), w, base)
    decreases |list|
  {
    hide Extracted, Lags, Sourced, Fits;
    LagsFits(s, w);
    if list != [] {
      ExtractedLags(s, w, list[0], true);
      ExtractedSourced(s, w, list[0], true, base);
      EachSourced(Extracted(s, w, list[0], true).0, w, list[1..], base);
    }
  }

  lemma ApplySourced(s: State, w: Outside, op: Op, base: set<Record>)
    requires Lags(s, w) && Sourced(s, w, base)
    ensures Sourced(Apply(s, w, op), w, base)
  {
    hide Extracted, Sourced, Logged, Chained;
    match op
    case Observe(c, turn) =>
      var t := s.(ticks := s.ticks + 1);
      SourcedKept(s, t, w, base);
      var u := t.(convs := Appended(s.convs, c, turn));
      SourcedKept(s, u, w, base);
      LagsKept(s, u, w);
      ExtractedSourced(u, w, if c < |s.convs| then c else |s.convs|, false, base);
    case Maintain =>
      var t := Written(s, w, Visit).0;
      SourcedKept(s, t, w, base);
      LagsKept(s, t, w);
      EachSourced(t, w, w.listing(t.ticks, t.convs), base);
  }

  /** Over every run: a record that was not there at the start was found by an extraction of
      the run, from turns of its own conversation. */
  lemma {:induction false} NothingInvented(s: State, w: Outside, ops: seq<Op>, base: set<Record>)
    requires Lags(s, w) && Sourced(s, w, base)
    ensures Sourced(RunAll(s, w, ops), w, base)
    decreases |ops|
  {
    hide Apply, Lags, Sourced, Fits;
    LagsFits(s, w);
    if ops != [] {
      ApplyLags(s, w, ops[0]);
      ApplySourced(s, w, ops[0], base);
      NothingInvented(Apply(s, w, ops[0]), w, ops[1..], base);
    }
  }

  // ---- what one observed turn does ----

  lemma ExtractedTurns(s: State, w: Outside, c: nat, partial: bool)
    requires Fits(s.convs)
    ensures var t := Extracted(s, w, c, partial).0;
            && |t.convs| == |s.convs|
            && (forall d :: 0 <= d < |s.convs| ==>
                  t.convs[d].turns == s.convs[d].turns && (d != c ==> t.convs[d] == s.convs[d]))
  {
    hide Steps, PutsOf, WriteAll, Batch;
    if c < |s.convs| {
      BatchSlice(s.convs[c], w.every);
      var found := w.extract(s.ticks, Batch(s.convs[c], w.every));
      if found.Some? {
        WriteAllKeeps(s.(ticks := s.ticks + 1), w, Steps(c, found.value, w));
      }
    }
  }

  /** The turn is stored behind the others of its conversation whenever storing it took
      effect, whatever becomes of the extraction; no other conversation changes. */
  lemma ObservedIsStored(s: State, w: Outside, c: nat, turn: string)
    requires Fits(s.convs)
    ensures var t, k := Observed(s, w, c, turn), if c < |s.convs| then c else |s.convs|;
            if w.outcome(s.ticks) == FailedBefore then t.convs == s.convs
            else
              && |t.convs| == (if c < |s.convs| then |s.convs| else |s.convs| + 1)
              && t.convs[k].turns == (if c < |s.convs| then s.convs[c].turns else []) + [turn]
              && forall d :: 0 <= d < |s.convs| && d != k ==> t.convs[d] == s.convs[d]
  {
    hide Extracted;
    var u := s.(ticks := s.ticks + 1, convs := Appended(s.convs, c, turn));
    ExtractedTurns(u, w, if c < |s.convs| then c else |s.convs|, false);
    assert [] + [turn] == [turn];
  }

  /** Without failures the turn that completes a batch has it extracted, and one that does
      not leaves the position where it is. */
  lemma FullBatchIsExtracted(s: State, w: Outside, c: nat, turn: string)
    requires Fits(s.convs) && Healthy(w, s.ticks) && c < |s.convs|
    ensures var t, pending := Observed(s, w, c, turn), |s.convs[c].turns| - s.convs[c].next + 1;
            |t.convs| == |s.convs|
            && t.convs[c].next == if pending >= w.every then s.convs[c].next + w.every else s.convs[c].next
  {
    hide Steps, WriteAll, PutsOf;
    var u := s.(ticks := s.ticks + 1, convs := Appended(s.convs, c, turn));
    var found := w.extract(u.ticks, Batch(u.convs[c], w.every));
    WriteAllKeeps(u.(ticks := u.ticks + 1), w, Steps(c, found.value, w));
    HealthyWrites(u.(ticks := u.ticks + 1), w, Steps(c, found.value, w));
  }

  /** In particular from a start at which nothing is acknowledged yet, whatever is stored. */
  lemma FreshStartLags(s: State, w: Outside, ops: seq<Op>)
    requires s.acks == [] && forall c :: 0 <= c < |s.convs| ==> s.convs[c].next == 0
    ensures Fits(s.convs)
    ensures var t := RunAll(s, w, ops);
            forall c, k :: 0 <= c < |t.convs| && 0 <= k < t.convs[c].next ==> Durable(t, w, c, k)
  {
    hide Durable, RunAll;
    WatermarkLags(s, w, ops);
  }

  // ---- draining ----

  /** Number of stored turns not acknowledged yet. */
  function Pending(convs: seq<Conv>): nat
    requires Fits(convs)
  {
    if convs == [] then 0 else |convs[0].turns| - convs[0].next + Pending(convs[1..])
  }

  lemma {:induction false} PendingOthers(a: seq<Conv>, b: seq<Conv>, c: nat)
    requires Fits(a) && Fits(b) && |a| == |b| && c < |a|
    requires forall d :: 0 <= d < |a| && d != c ==> a[d] == b[d]
    ensures Pending(a) - (|a[c].turns| - a[c].next) == Pending(b) - (|b[c].turns| - b[c].next)
    decreases |a|
  {
    if c == 0 {
      assert a[1..] == b[1..];
    } else {
      PendingOthers(a[1..], b[1..], c - 1);
    }
  }

  lemma {:induction false} SomePending(convs: seq<Conv>) returns (c: nat)
    requires Fits(convs) && Pending(convs) > 0
    ensures c < |convs| && convs[c].next < |convs[c].turns|
  {
    if convs[0].next < |convs[0].turns| {
      c := 0;
    } else {
      c := SomePending(convs[1..]);
      c := c + 1;
    }
  }

  /** From moment t on no call fails. */
  ghost predicate Healthy(w: Outside, t: nat) {
    && w.every >= 1
    && (forall m :: m >= t ==> w.outcome(m) == Done)
    && (forall m: nat, batch: seq<string> :: m >= t ==> w.extract(m, batch).Some?)
  }

  /** The query lists pending conversations only, and at least one while there are any. */
  ghost predicate Lists(w: Outside) {
    forall m: nat, convs: seq<Conv> :: Fits(convs) ==>
      var list := w.listing(m, convs);
      && (forall i :: 0 <= i < |list| ==> list[i] < |convs| && convs[list[i]].next < |convs[list[i]].turns|)
      && (Pending(convs) > 0 ==> list != [])
  }

  lemma {:induction false} HealthyWrites(s: State, w: Outside, steps: seq<Write>)
    requires Healthy(w, s.ticks)
    ensures var (t, ok) := WriteAll(s, w, steps); ok && s.ticks <= t.ticks
    decreases |steps|
  {
    if steps != [] {
      HealthyWrites(Written(s, w, steps[0]).0, w, steps[1..]);
    }
  }

  /** Without failures a batch of a conversation is drained and nothing else moves. */
  lemma HealthyExtraction(s: State, w: Outside, c: nat)
    requires Fits(s.convs) && Healthy(w, s.ticks)
    ensures var t := Extracted(s, w, c, true).0;
            && Fits(t.convs) && s.ticks <= t.ticks && Pending(t.convs) <= Pending(s.convs)
            && (c < |s.convs| && s.convs[c].next < |s.convs[c].turns| ==> Pending(t.convs) < Pending(s.convs))
    ensures var t := Extracted(s, w, c, true).0;
            && |t.convs| == |s.convs|
            && (forall d :: 0 <= d < |s.convs| && d != c ==> t.convs[d] == s.convs[d])
            && (c < |s.convs| ==> t.convs[c] == s.convs[c].(next := s.convs[c].next + |Batch(s.convs[c], w.every)|))
  {
    hide Steps, WriteAll, Batch, Pending;
    ExtractedFits(s, w, c, true);
    if c < |s.convs| {
      BatchSlice(s.convs[c], w.every);
      var batch := Batch(s.convs[c], w.every);
      var t := s.(ticks := s.ticks + 1);
      var found := w.extract(s.ticks, batch);
      WriteAllKeeps(t, w, Steps(c, found.value, w));
      HealthyWrites(t, w, Steps(c, found.value, w));
      PendingOthers(s.convs, Extracted(s, w, c, true).0.convs, c);
    }
  }

  lemma {:induction false} HealthyEach(s: State, w: Outside, list: seq<nat>)
    requires Fits(s.convs) && Healthy(w, s.ticks)
    ensures var t := ExtractEach(s, w, list); s.ticks <= t.ticks && Pending(t.convs) <= Pending(s.convs)
    ensures list != [] && list[0] < |s.convs| && s.convs[list[0]].next < |s.convs[list[0]].turns| ==>
              Pending(ExtractEach(s, w, list).convs) < Pending(s.convs)
    decreases |list|
  {
    hide Extracted, Pending, Fits;
    if list != [] {
      ExtractedFits(s, w, list[0], true);
      HealthyExtraction(s, w, list[0]);
      var t := Extracted(s, w, list[0], true).0;
      HealthyEach(t, w, list[1..]);
    }
  }

  /** Once failures stop, repeated maintenance acknowledges every stored turn: as many
      passes as there are pending turns are enough. */
  lemma {:induction false} MaintenanceDrains(s: State, w: Outside, passes: seq<Op>)
    requires Fits(s.convs) && Healthy(w, s.ticks) && Lists(w)
    requires (forall i :: 0 <= i < |passes| ==> passes[i] == Maintain) && |passes| >= Pending(s.convs)
    ensures var t := RunAll(s, w, passes); Fits(t.convs) && Pending(t.convs) == 0
    decreases |passes|
  {
    hide ExtractEach, Pending, Fits;
    if passes != [] {
      var t := Written(s, w, Visit).0;
      HealthyEach(t, w, w.listing(t.ticks, t.convs));
      MaintenanceDrains(Apply(s, w, passes[0]), w, passes[1..]);
    }
  }

  // ---- the class ----

  class Brain {
    const outside: Outside
    /** The conversation store, the written records, and the number of calls made. */
    var state: State
    var maintaining: bool

    constructor (outside: Outside, state: State)
      ensures this.outside == outside && this.state == state && !maintaining
    {
      this.outside, this.state, maintaining := outside, state, false;
    }

    method WriteOne(step: Write) returns (ok: bool)
      modifies this`state
      ensures (state, ok) == Written(old(state), outside, step)
    {
      var o := outside.outcome(state.ticks);
      if step.Put? && o != FailedBefore {
        state := state.(records := state.records + step.records);
      }
      state := state.(ticks := state.ticks + 1);
      ok := o == Done;
    }

    method StoreExtracted(ids: seq<string>) returns (ok: bool)
      modifies this`state
      ensures (state, ok) == WriteAll(old(state), outside, StoreSteps(ids))
    {
      hide Written;
      ok := true;
      var steps := StoreSteps(ids);
      assert steps[0..] == steps;
      for i := 0 to |ids|
        invariant ok && WriteAll(state, outside, steps[i..]) == WriteAll(old(state), outside, steps)
      {
        assert steps[i..][0] == Put({Knowledge(ids[i])}) && steps[i..][1..] == steps[i + 1..];
        ok := WriteOne(Put({Knowledge(ids[i])}));
        if !ok {
          return;
        }
      }
      assert steps[|ids|..] == [];
    }

    method WriteProvenanceEdges(c: nat, ids: seq<string>) returns (ok: bool)
      modifies this`state
      ensures (state, ok) == WriteAll(old(state), outside, if outside.hasEdges then EdgeSteps(c, ids) else [])
    {
      hide Written;
      if !outside.hasEdges || ids == [] {
        return true;
      }
      var derived, observed: set<Record> := {}, {};
      for i := 0 to |ids|
        invariant derived == set j | 0 <= j < i :: DerivedFrom(ids[j], c)
        invariant observed == set j | 0 <= j < i :: ObservedIn(ids[j], c)
      {
        derived := derived + {DerivedFrom(ids[i], c)};
        observed := observed + {ObservedIn(ids[i], c)};
      }
      WriteOnly(state, outside, Put(EdgesOf(c, ids)));
      ok := WriteOne(Put(derived + observed));
    }

    method SyncMirrors(ids: seq<string>) returns (ok: bool)
      modifies this`state
      ensures (state, ok) == WriteAll(old(state), outside, MirrorSteps(ids))
    {
      hide Written;
      ok := true;
      assert ids[0..] == ids;
      for i := 0 to |ids|
        invariant ok && WriteAll(state, outside, MirrorSteps(ids[i..]))
                  == WriteAll(old(state), outside, MirrorSteps(ids))
      {
        assert ids[i..][0] == ids[i] && ids[i..][1..] == ids[i + 1..];
        var steps := MirrorSteps(ids[i..]);
        assert steps[1..][1..] == MirrorSteps(ids[i + 1..]);
        ok := WriteOne(Put({Mirror(ids[i])}));
        if !ok {
          return;
        }
        ok := WriteOne(Put({Indexed(ids[i])}));
        if !ok {
          return;
        }
      }
      assert ids[|ids|..] == [];
    }

    /** The writes of one batch, up to the acknowledgement. */
    method WriteBatch(c: nat, ids: seq<string>) returns (ok: bool)
      modifies this`state
      ensures (state, ok) == WriteAll(old(state), outside, Steps(c, ids, outside))
    {
      hide StoreSteps, EdgeSteps, MirrorSteps;
      ghost var s := state;
      ghost var one, two := [Put({Scenario(c)})], StoreSteps(ids);
      ghost var three := if outside.hasEdges then EdgeSteps(c, ids) else [];
      ghost var mirrors: seq<Write> := MirrorSteps(ids);
      ghost var four := if outside.hasMarkdown then mirrors + [Visit, Visit] else [];
      assert Steps(c, ids, outside) == one + two + three + four;
      WriteAllConcat(s, outside, one + two + three, four);
      WriteAllConcat(s, outside, one + two, three);
      WriteAllConcat(s, outside, one, two);
      WriteOnly(s, outside, one[0]);
      ok := WriteOne(Put({Scenario(c)}));
      if !ok {
        return;
      }
      ok := StoreExtracted(ids);
      if !ok {
        return;
      }
      ok := WriteProvenanceEdges(c, ids);
      if !ok || !outside.hasMarkdown {
        return;
      }
      WriteAllConcat(state, outside, mirrors, [Visit, Visit]);
      ok := SyncMirrors(ids);
      if !ok {
        return;
      }
      WriteAllConcat(state, outside, [Visit], [Visit]);
      assert [Visit] + [Visit] == [Visit, Visit];
      WriteOnly(state, outside, Visit);
      ok := WriteOne(Visit);
      if !ok {
        return;
      }
      WriteOnly(state, outside, Visit);
      ok := WriteOne(Visit);
    }

    method ExtractPending(c: nat, partial: bool) returns (ok: bool)
      requires Fits(state.convs)
      modifies this`state
      ensures (state, ok) == Extracted(old(state), outside, c, partial)
    {
      hide WriteAll, Steps;
      if c >= |state.convs| {
        return true;
      }
      var batch := Batch(state.convs[c], outside.every);
      var from := state.convs[c].next;
      var next := from + |batch|;
      if batch == [] || (!partial && |batch| < outside.every) {
        return true;
      }
      var tick := state.ticks;
      var found := outside.extract(tick, batch);
      state := state.(ticks := state.ticks + 1);
      if found.None? {
        return false;
      }
      WriteAllKeeps(state, outside, Steps(c, found.value, outside));
      ok := WriteBatch(c, found.value);
      if !ok {
        return;
      }
      var o := outside.outcome(state.ticks);
      if o != FailedBefore {
        var conv := state.convs[c];
        var raised := conv.(next := if conv.next < next then next else conv.next);
        state := state.(convs := state.convs[c := raised]);
        state := state.(acks := state.acks + [Ack(c, from, next, tick, found.value)]);
      }
      state := state.(ticks := state.ticks + 1);
      ok := o == Done;
    }

    method Observe(c: nat, turn: string)
      requires Fits(state.convs)
      modifies this`state
      ensures state == Observed(old(state), outside, c, turn)
    {
      hide Extracted;
      var o := outside.outcome(state.ticks);
      var conv := if c < |state.convs| then c else |state.convs|;
      if o != FailedBefore {
        state := state.(convs := Appended(state.convs, c, turn));
      }
      state := state.(ticks := state.ticks + 1);
      if o != Done {
        return;
      }
      var ok := ExtractPending(conv, false);
    }

    method Maintain()
      requires Fits(state.convs)
      modifies this
      ensures old(maintaining) ==> state == old(state)
      ensures !old(maintaining) ==> state == Maintained(old(state), outside)
      ensures maintaining == old(maintaining)
    {
      hide Extracted;
      if maintaining {
        return;
      }
      maintaining := true;
      var ok := WriteOne(Visit);
      if ok {
        ghost var s := state;
        var list := outside.listing(state.ticks, state.convs);
        assert list[0..] == list;
        for i := 0 to |list|
          invariant Fits(state.convs) && ExtractEach(state, outside, list[i..]) == ExtractEach(s, outside, list)
        {
          assert list[i..][0] == list[i] && list[i..][1..] == list[i + 1..];
          ExtractedFits(state, outside, list[i], true);
          var done := ExtractPending(list[i], true);
        }
        assert list[|list|..] == [];
      }
      maintaining := false;
    }
  }

  lemma WriteOnly(s: State, w: Outside, step: Write)
    ensures WriteAll(s, w, [step]) == Written(s, w, step)
  {
    hide Written;
    var (t, ok) := Written(s, w, step);
    assert [step][1..] == [];
  }
}
