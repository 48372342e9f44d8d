/** The projection of curated notes into relationship edges. The projection keeps a table
    of the edges it created; edges made by anybody else are not its own. */
module MemoryEdges {

  datatype Kind = DerivedFrom | ConflictsWith

  datatype Edge = Edge(source: string, target: string, kind: Kind)

  /** One section record of a note's memory manifest; "" stands for a missing value. */
  datatype Section = Section(conversation: string, conflicts: bool, link: string)

  datatype Note = Note(id: string, sections: seq<Section>)

  /** The ownership table and the relationship store. */
  datatype State = State(owned: set<Edge>, edges: set<Edge>)

  // ---- which edges the notes ask for ----

  predicate Asks(ids: set<string>, source: string, r: Section, e: Edge) {
    || (r.conversation != "" && e == Edge(source, r.conversation, DerivedFrom))
    || (r.conflicts && r.link in ids && r.link != source && e == Edge(source, r.link, ConflictsWith))
  }

  predicate Wanted(notes: seq<Note>, ids: set<string>, e: Edge) {
    exists i, j :: 0 <= i < |notes| && 0 <= j < |notes[i].sections| && Asks(ids, notes[i].id, notes[i].sections[j], e)
  }

  method Desired(notes: seq<Note>) returns (desired: set<Edge>)
    ensures var ids := set i | 0 <= i < |notes| :: notes[i].id;
            forall e :: e in desired <==> Wanted(notes, ids, e)
  {
    var ids := set i | 0 <= i < |notes| :: notes[i].id;
    desired := {};
    for i := 0 to |notes|
      invariant forall e :: e in desired <==> Wanted(notes[..i], ids, e)
    {
      var n := notes[i];
      ghost var before := desired;
      for j := 0 to |n.sections|
        invariant forall e :: e in desired <==>
                    e in before || exists k :: 0 <= k < j && Asks(ids, n.id, n.sections[k], e)
      {
        var r := n.sections[j];
        if r.conversation != "" {
          desired := desired + {Edge(n.id, r.conversation, DerivedFrom)};
        }
        if r.conflicts && r.link in ids && r.link != n.id {
          desired := desired + {Edge(n.id, r.link, ConflictsWith)};
        }
        assert forall e :: (exists k :: 0 <= k < j + 1 && Asks(ids, n.id, n.sections[k], e))
                           <==> (exists k :: 0 <= k < j && Asks(ids, n.id, n.sections[k], e)) || Asks(ids, n.id, r, e);
      }
      forall e ensures Wanted(notes[..i + 1], ids, e)
                       <==> || Wanted(notes[..i], ids, e)
                            || exists k :: 0 <= k < |n.sections| && Asks(ids, n.id, n.sections[k], e) {
        WantedSnoc(notes, i, ids, e);
      }
    }
    assert notes[..|notes|] == notes;
  }

  lemma WantedSnoc(notes: seq<Note>, m: nat, ids: set<string>, e: Edge)
    requires m < |notes|
    ensures Wanted(notes[..m + 1], ids, e)
            <==> Wanted(notes[..m], ids, e)
                 || exists k :: 0 <= k < |notes[m].sections| && Asks(ids, notes[m].id, notes[m].sections[k], e)
  {
    var longer, shorter := notes[..m + 1], notes[..m];
    if Wanted(longer, ids, e) {
      var i, j :| 0 <= i < |longer| && 0 <= j < |longer[i].sections|
          && Asks(ids, longer[i].id, longer[i].sections[j], e);
      if i < m { assert shorter[i] == longer[i]; }
    }
    if Wanted(shorter, ids, e) {
      var i, j :| 0 <= i < |shorter| && 0 <= j < |shorter[i].sections|
          && Asks(ids, shorter[i].id, shorter[i].sections[j], e);
      assert longer[i] == shorter[i];
    }
    if k :| 0 <= k < |notes[m].sections| && Asks(ids, notes[m].id, notes[m].sections[k], e) {
      assert longer[m] == notes[m];
    }
  }

  /** A section of a note came from the conversation the edge leads to, or conflicts with the
      other note it leads to. */
  predicate LeadsTo(notes: seq<Note>, source: string, r: Section, e: Edge) {
    && e.source == source
    && match e.kind
       case DerivedFrom => r.conversation == e.target != ""
       case ConflictsWith =>
         r.conflicts && r.link == e.target != source && exists k :: 0 <= k < |notes| && notes[k].id == e.target
  }

  lemma WantedMeans(notes: seq<Note>, e: Edge)
    ensures Wanted(notes, set i | 0 <= i < |notes| :: notes[i].id, e)
       <==> exists i, j ::
              0 <= i < |notes| && 0 <= j < |notes[i].sections| && LeadsTo(notes, notes[i].id, notes[i].sections[j], e)
  {
    var ids := set i | 0 <= i < |notes| :: notes[i].id;
    assert forall i, j :: 0 <= i < |notes| && 0 <= j < |notes[i].sections| ==>
      (Asks(ids, notes[i].id, notes[i].sections[j], e) <==> LeadsTo(notes, notes[i].id, notes[i].sections[j], e));
  }

  // ---- one pass, complete or cut short ----

  /** What a complete pass leaves. */
  function After(s: State, desired: set<Edge>): State {
    State((s.owned * desired) + (desired - s.edges), (s.edges - (s.owned - desired)) + desired)
  }

  /** How far a pass may have got with one edge: a stale own edge is removed before it is
      disowned, a missing edge is owned before it is added, any other edge is left alone. */
  predicate Progress(s: State, s1: State, desired: set<Edge>, e: Edge) {
    var same := (e in s1.owned <==> e in s.owned) && (e in s1.edges <==> e in s.edges);
    if e in desired then
      if e in s.edges then same
      else same || e in s1.owned
    else if e in s.owned then same || e !in s1.edges
    else same
  }

  /** s1 is a state in which a pass over these desired edges may be cut short. */
  ghost predicate Part(s: State, s1: State, desired: set<Edge>) {
    forall e :: Progress(s, s1, desired, e)
  }

  class Projection {
    var owned: set<Edge>
    var edges: set<Edge>
    /** How many more writes succeed. */
    var credit: nat

    constructor (s: State, n: nat)
      ensures TheState() == s && credit == n
    {
      owned, edges, credit := s.owned, s.edges, n;
    }

    function TheState(): State
      reads this
    {
      State(owned, edges)
    }

    method Spend() returns (ok: bool)
      modifies this`credit
      ensures ok == (old(credit) > 0) && credit == if ok then old(credit) - 1 else 0
    {
      ok := credit > 0;
      if ok {
        credit := credit - 1;
      }
    }

    /** Removes own edges nobody asks for; false when a write failed on the way. */
    method RemoveStale(stale: set<Edge>) returns (ok: bool)
      modifies this
      ensures ok ==> TheState() == State(old(owned) - stale, old(edges) - stale)
      ensures !ok ==> credit == 0 && forall e ::
                (e !in stale ==> (e in owned <==> e in old(owned)) && (e in edges <==> e in old(edges)))
                && (e in stale ==>
                    e !in edges || ((e in owned <==> e in old(owned)) && (e in edges <==> e in old(edges))))
    {
      ghost var s := TheState();
      var left := stale;
      while left != {}
        invariant left <= stale
        invariant owned == s.owned - (stale - left) && edges == s.edges - (stale - left)
      {
        var e :| e in left;
        ok := Spend();
        if !ok {
          return;
        }
        edges := edges - {e};
        ok := Spend();
        if !ok {
          return;
        }
        owned := owned - {e};
        left := left - {e};
      }
      ok := true;
    }

    /** Creates the desired edges that do not exist, recording ownership first. */
    method AddMissing(desired: set<Edge>) returns (ok: bool)
      modifies this
      ensures ok ==> TheState() == State(old(owned) + (desired - old(edges)), old(edges) + desired)
      ensures !ok ==> credit == 0 && forall e ::
                (e !in desired || e in old(edges) ==>
                    (e in owned <==> e in old(owned)) && (e in edges <==> e in old(edges)))
                && (e in desired && e !in old(edges) ==>
                    e in owned || ((e in owned <==> e in old(owned)) && e !in edges))
    {
      ghost var s := TheState();
      var todo := desired;
      while todo != {}
        invariant todo <= desired
        invariant owned == s.owned + ((desired - todo) - s.edges)
        invariant edges == s.edges + (desired - todo)
      {
        var e :| e in todo;
        if e !in edges {
          ok := Spend();
          if !ok {
            return;
          }
          owned := owned + {e};
          ok := Spend();
          if !ok {
            return;
          }
          edges := edges + {e};
        }
        todo := todo - {e};
      }
      ok := true;
    }

    /** The pass; false when a write failed on the way. */
    method Sync(desired: set<Edge>) returns (ok: bool)
      modifies this
      ensures ok ==> TheState() == After(old(TheState()), desired)
      ensures !ok ==> credit == 0 && Part(old(TheState()), TheState(), desired)
    {
      ok := RemoveStale(owned - desired);
      if ok {
        ok := AddMissing(desired);
      }
    }
  }

  // ---- what the projection promises ----

  /** A pass that was cut short is repaired by the next one. */
  lemma Repairs(s: State, s1: State, desired: set<Edge>)
    requires Part(s, s1, desired)
    ensures After(s1, desired) == After(s, desired)
  {
    var a, b := After(s1, desired), After(s, desired);
    forall e ensures (e in a.owned <==> e in b.owned) && (e in a.edges <==> e in b.edges) {
      assert Progress(s, s1, desired, e);
    }
  }

  /** Only own edges are removed, whether the pass completes or not; afterwards every
      desired edge exists and a second pass changes nothing. */
  lemma PassPromises(s: State, s1: State, desired: set<Edge>)
    requires s1 == After(s, desired)
    ensures Part(s, s1, desired)
    ensures desired <= s1.edges && s.edges - s1.edges <= s.owned
    ensures After(s1, desired) == s1
  {
  }

  /** Anything that happens to the two tables: a pass with some notes, complete or cut
      short, or an edge added by somebody else. */
  datatype Event = Pass(desired: set<Edge>) | Outside(edge: Edge)

  ghost predicate Step(s: State, ev: Event, s1: State) {
    match ev
    case Pass(desired) => Part(s, s1, desired)
    case Outside(e) => s1 == s.(edges := s.edges + {e})
  }

  ghost predicate Run(states: seq<State>, events: seq<Event>) {
    && |states| == |events| + 1
    && forall i :: 0 <= i < |events| ==> Step(states[i], events[i], states[i + 1])
  }

  lemma {:induction false} ForeignEdgeStays(states: seq<State>, events: seq<Event>, e: Edge)
    requires Run(states, events) && e in states[0].edges && e !in states[0].owned
    ensures e in states[|events|].edges && e !in states[|events|].owned
    decreases |events|
  {
    if events != [] {
      assert Step(states[0], events[0], states[1]);
      match events[0] {
        case Pass(desired) => assert Progress(states[0], states[1], desired, e);
        case Outside(x) =>
      }
      forall i | 0 <= i < |events[1..]| ensures Step(states[1..][i], events[1..][i], states[1..][i + 1]) {
        assert Step(states[i + 1], events[i + 1], states[i + 2]);
      }
      ForeignEdgeStays(states[1..], events[1..], e);
    }
  }

  ghost predicate SurvivesEverything(s: State, e: Edge) {
    forall states: seq<State>, events: seq<Event> :: Run(states, events) && states[0] == s ==>
        e in states[|events|].edges
  }

  /** An existing edge survives every sequence of passes exactly when the projection does
      not list it as its own. */
  lemma SurvivesIffForeign(s: State, e: Edge)
    requires e in s.edges
    ensures SurvivesEverything(s, e) <==> e !in s.owned
  {
    if e !in s.owned {
      forall states: seq<State>, events: seq<Event> | Run(states, events) && states[0] == s
          ensures e in states[|events|].edges {
        ForeignEdgeStays(states, events, e);
      }
    } else {
      var s1 := After(s, {});
      PassPromises(s, s1, {});
      var states, events := [s, s1], [Pass({})];
      assert Step(states[0], events[0], states[1]);
      assert Run(states, events) && e !in states[|events|].edges;
    }
  }

  /** An edge somebody adds between a crash and its replay can be lost: the crash left it
      owned but missing, so the projection takes it for its own. */
  lemma EdgeAddedAfterCrashIsLost(s: State, e: Edge)
    requires e !in s.edges
    ensures var crashed := s.(owned := s.owned + {e});
            && Part(s, crashed, {e})
            && Step(crashed, Outside(e), crashed.(edges := crashed.edges + {e}))
            && !SurvivesEverything(crashed.(edges := crashed.edges + {e}), e)
  {
    var crashed := s.(owned := s.owned + {e});
    SurvivesIffForeign(crashed.(edges := crashed.edges + {e}), e);
  }
}
