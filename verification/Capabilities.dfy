/** Resolving capabilities and their dependencies with a work list, and listing conflicts.
    The catalog is any map from ids to dependencies and conflicts, cycles and unknown ids
    included; what is resolved is what can be reached from the request through known ids, and
    conflicts are those between two of the resolved ones, whichever of the two declares it. */
module Capabilities {

  datatype Capability = Capability(dependencies: seq<string>, conflicts: seq<string>)

  /** Capabilities by their id. */
  type Catalog = map<string, Capability>

  // ---- reachability ----

  /** A chain of known capabilities from a requested one, each a dependency of the one before. */
  predicate Chain(all: Catalog, request: seq<string>, path: seq<string>) {
    && path != [] && path[0] in request
    && (forall i :: 0 <= i < |path| ==> path[i] in all)
    && (forall i :: 0 < i < |path| ==> Follows(all, path, i))
  }

  predicate Follows(all: Catalog, path: seq<string>, i: nat)
    requires 0 < i < |path|
  {
    path[i - 1] in all && path[i] in all[path[i - 1]].dependencies
  }

  ghost predicate Reached(all: Catalog, request: seq<string>, id: string) {
    exists path :: LeadsTo(all, request, path, id)
  }

  predicate LeadsTo(all: Catalog, request: seq<string>, path: seq<string>, id: string) {
    Chain(all, request, path) && path[|path| - 1] == id
  }

  lemma ReachedRequest(all: Catalog, request: seq<string>, id: string)
    requires id in request && id in all
    ensures Reached(all, request, id)
  {
    assert LeadsTo(all, request, [id], id);
  }

  lemma ReachedDependency(all: Catalog, request: seq<string>, id: string, dep: string)
    requires Reached(all, request, id) && id in all && dep in all[id].dependencies && dep in all
    ensures Reached(all, request, dep)
  {
    var path :| LeadsTo(all, request, path, id);
    var longer := path + [dep];
    forall i | 0 < i < |longer| ensures Follows(all, longer, i) {
      assert i < |path| ==> Follows(all, path, i);
    }
    assert LeadsTo(all, request, longer, dep);
  }

  ghost predicate Closed(all: Catalog, request: seq<string>, seen: set<string>) {
    && (forall id :: id in request && id in all ==> id in seen)
    && (forall id, dep :: id in seen && id in all && dep in all[id].dependencies && dep in all ==> dep in seen)
  }

  /** A closed set has everything a chain leads to. */
  lemma {:induction false} ClosedHasChain(all: Catalog, request: seq<string>, seen: set<string>, path: seq<string>,
      i: nat)
    requires Closed(all, request, seen) && Chain(all, request, path) && i < |path|
    ensures path[i] in seen
  {
    if i > 0 {
      ClosedHasChain(all, request, seen, path, i - 1);
      assert Follows(all, path, i);
    }
  }

  lemma ClosedHasReached(all: Catalog, request: seq<string>, seen: set<string>)
    requires Closed(all, request, seen)
    ensures forall id :: Reached(all, request, id) ==> id in seen
  {
    forall id | Reached(all, request, id) ensures id in seen {
      var path :| LeadsTo(all, request, path, id);
      ClosedHasChain(all, request, seen, path, |path| - 1);
    }
  }

  // ---- the work list ----

  /** Seen and queued ids are reached, and what the seen ones and the request lead to next
      is seen or queued. */
  ghost predicate Explored(all: Catalog, request: seq<string>, seen: set<string>, queue: seq<string>) {
    && seen <= all.Keys
    && (forall id :: id in seen || (id in queue && id in all) ==> Reached(all, request, id))
    && (forall id :: id in request && id in all ==> id in seen || id in queue)
    && (forall id, dep :: id in seen && id in all && dep in all[id].dependencies && dep in all ==>
        dep in seen || dep in queue)
  }

  lemma ExploredFirst(all: Catalog, request: seq<string>)
    ensures Explored(all, request, {}, request)
  {
    hide Reached;
    forall id | id in request && id in all ensures Reached(all, request, id) {
      ReachedRequest(all, request, id);
    }
  }

  lemma ExploredSkip(all: Catalog, request: seq<string>, seen: set<string>, queue: seq<string>)
    requires queue != [] && Explored(all, request, seen, queue) && (queue[0] in seen || queue[0] !in all)
    ensures Explored(all, request, seen, queue[1..])
  {
    hide Reached;
    assert queue == [queue[0]] + queue[1..];
  }

  lemma ExploredTake(all: Catalog, request: seq<string>, seen: set<string>, queue: seq<string>, more: seq<string>)
    requires queue != [] && Explored(all, request, seen, queue) && queue[0] in all
    requires forall id :: id in more <==>
               id in queue[1..] || (id in all[queue[0]].dependencies && id !in seen + {queue[0]})
    ensures Explored(all, request, seen + {queue[0]}, more)
  {
    hide Reached;
    assert queue == [queue[0]] + queue[1..];
    forall id | id in more && id in all ensures Reached(all, request, id) {
      if id !in queue[1..] {
        ReachedDependency(all, request, queue[0], id);
      }
    }
  }

  lemma ExploredAll(all: Catalog, request: seq<string>, seen: set<string>)
    requires Explored(all, request, seen, [])
    ensures forall id :: id in seen <==> Reached(all, request, id)
  {
    assert Closed(all, request, seen);
    ClosedHasReached(all, request, seen);
  }

  predicate Distinct(ids: seq<string>) {
    forall i, j :: 0 <= i < j < |ids| ==> ids[i] != ids[j]
  }

  // ---- conflicts ----

  /** One capability lists the other as one it cannot be used with. */
  predicate Rejects(all: Catalog, a: string, b: string) {
    a in all && b in all[a].conflicts
  }

  predicate Conflict(all: Catalog, a: string, b: string) {
    (a in all && b in all[a].conflicts) || (b in all && a in all[b].conflicts)
  }

  function ConflictsWith(all: Catalog, a: string, others: seq<string>): seq<(string, string)> {
    if others == [] then []
    else (if Conflict(all, a, others[0]) then [(a, others[0])] else []) + ConflictsWith(all, a, others[1..])
  }

  function Conflicts(all: Catalog, ids: seq<string>): seq<(string, string)> {
    if ids == [] then [] else ConflictsWith(all, ids[0], ids[1..]) + Conflicts(all, ids[1..])
  }

  lemma {:induction false} ConflictsWithMembers(all: Catalog, a: string, others: seq<string>)
    requires Distinct(others) && a !in others
    ensures var found := ConflictsWith(all, a, others);
            && (forall p :: p in found <==> p.0 == a && p.1 in others && Conflict(all, a, p.1))
            && (forall i, j :: 0 <= i < j < |found| ==> found[i].1 != found[j].1)
  {
    if others != [] {
      ConflictsWithMembers(all, a, others[1..]);
      assert others == [others[0]] + others[1..];
    }
  }

  /** Each conflicting pair of the listed capabilities appears once, in one order only. */
  lemma {:induction false} ConflictsOnce(all: Catalog, ids: seq<string>)
    requires Distinct(ids)
    ensures var found := Conflicts(all, ids);
            && (forall p :: p in found ==>
                  p.0 in ids && p.1 in ids && p.0 != p.1 && (Rejects(all, p.0, p.1) || Rejects(all, p.1, p.0)))
            && (forall a, b :: a in ids && b in ids && a != b && (Rejects(all, a, b) || Rejects(all, b, a)) ==>
                ((a, b) in found <==> (b, a) !in found))
            && (forall i, j :: 0 <= i < j < |found| ==> found[i] != found[j] && found[i] != (found[j].1, found[j].0))
  {
    hide Conflict;
    if ids != [] {
      var head, rest := ids[0], ids[1..];
      assert ids == [head] + rest;
      ConflictsWithMembers(all, head, rest);
      ConflictsOnce(all, rest);
      var first, later := ConflictsWith(all, head, rest), Conflicts(all, rest);
      assert Conflicts(all, ids) == first + later;
      ConflictSymmetric(all);
      assert forall p :: p in later ==> p.0 != head && p.1 != head;
    }
  }

  lemma ConflictSymmetric(all: Catalog)
    ensures forall a, b :: Conflict(all, a, b) <==> Rejects(all, a, b) || Rejects(all, b, a)
  {
  }

  /** Two different capabilities that the request leads to are in conflict. */
  ghost predicate Clash(all: Catalog, request: seq<string>, a: string, b: string) {
    Reached(all, request, a) && Reached(all, request, b) && a != b && (Rejects(all, a, b) || Rejects(all, b, a))
  }

  class CapabilityRegistry {
    var capabilities: Catalog

    constructor ()
      ensures capabilities == map[]
    {
      capabilities := map[];
    }

    method Register(id: string, capability: Capability)
      modifies this
      ensures capabilities == old(capabilities)[id := capability]
    {
      capabilities := capabilities[id := capability];
    }

    /** The known capabilities that the requested ones lead to, each once. Unknown ids are
        dropped, and cycles end because a seen id is not taken up again. */
    method ResolveAll(request: seq<string>) returns (resolved: seq<string>)
      ensures Distinct(resolved)
      ensures forall id :: id in resolved <==> Reached(capabilities, request, id)
    {
      hide Reached, Explored;
      resolved := [];
      var seen: set<string> := {};
      var queue := request;
      ExploredFirst(capabilities, request);
      while queue != []
        invariant Distinct(resolved) && forall id :: id in resolved <==> id in seen
        invariant Explored(capabilities, request, seen, queue)
        decreases |capabilities.Keys - seen|, |queue|
      {
        var cid := queue[0];
        if cid in seen || cid !in capabilities {
          ExploredSkip(capabilities, request, seen, queue);
          queue := queue[1..];
          continue;
        }
        var more := Enqueue(queue[1..], seen + {cid}, capabilities[cid].dependencies);
        ExploredTake(capabilities, request, seen, queue, more);
        assert capabilities.Keys - (seen + {cid}) == capabilities.Keys - seen - {cid};
        seen := seen + {cid};
        resolved := resolved + [cid];
        queue := more;
      }
      ExploredAll(capabilities, request, seen);
    }

    /** Appends the dependencies that are not seen yet. */
    method Enqueue(queue: seq<string>, seen: set<string>, deps: seq<string>) returns (more: seq<string>)
      ensures forall id :: id in more <==> id in queue || (id in deps && id !in seen)
    {
      more := queue;
      for i := 0 to |deps|
        invariant forall id :: id in more <==> id in queue || (id in deps[..i] && id !in seen)
      {
        assert deps[..i + 1] == deps[..i] + [deps[i]];
        if deps[i] !in seen {
          more := more + [deps[i]];
        }
      }
      assert deps[..|deps|] == deps;
    }

    method PairUp(before: seq<(string, string)>, a: string, others: seq<string>) returns (found: seq<(string, string)>)
      ensures found == before + ConflictsWith(capabilities, a, others)
    {
      found := before;
      assert others[0..] == others;
      for j := 0 to |others|
        invariant found + ConflictsWith(capabilities, a, others[j..]) == before + ConflictsWith(capabilities, a, others)
      {
        assert others[j..][0] == others[j] && others[j..][1..] == others[j + 1..];
        if Conflict(capabilities, a, others[j]) {
          found := found + [(a, others[j])];
        }
      }
      assert others[|others|..] == [];
    }

    /** Every conflict between two capabilities that the request leads to is listed, once
        and in one order. */
    method CheckConflicts(request: seq<string>) returns (found: seq<(string, string)>)
      ensures forall p :: p in found ==> Clash(capabilities, request, p.0, p.1)
      ensures forall a, b :: Clash(capabilities, request, a, b) ==> ((a, b) in found <==> (b, a) !in found)
      ensures forall i, j :: 0 <= i < j < |found| ==> found[i] != found[j] && found[i] != (found[j].1, found[j].0)
    {
      hide Reached, Conflicts, Conflict;
      var ids := ResolveAll(request);
      found := ListConflicts(ids);
      ConflictsOnce(capabilities, ids);
      forall a, b | Clash(capabilities, request, a, b) ensures (a, b) in found <==> (b, a) !in found
      {
        assert a in ids && b in ids;
      }
    }

    method ListConflicts(ids: seq<string>) returns (found: seq<(string, string)>)
      ensures found == Conflicts(capabilities, ids)
    {
      hide ConflictsWith;
      found := [];
      assert ids[0..] == ids;
      for i := 0 to |ids|
        invariant found + Conflicts(capabilities, ids[i..]) == Conflicts(capabilities, ids)
      {
        assert ids[i..][0] == ids[i] && ids[i..][1..] == ids[i + 1..];
        found := PairUp(found, ids[i], ids[i + 1..]);
      }
      assert ids[|ids|..] == [];
    }
  }
}
