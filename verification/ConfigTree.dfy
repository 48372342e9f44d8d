/** Configuration trees: merging a file over the defaults, stripping what TOML cannot
    hold, and dotted paths into a tree. */
module ConfigTree {
  import opened Text

  datatype Tree = Null | Flag(b: bool) | Num(n: real) | Str(s: string) | List(items: seq<Tree>)
                | Dict(fields: map<string, Tree>)

  /** The keys of a tree; a scalar or list has none. */
  function Fields(t: Tree): map<string, Tree> {
    if t.Dict? then t.fields else map[]
  }

  // ---- dotted paths ----

  /** path.split(".") */
  function Parts(path: string): (parts: seq<string>)
    ensures parts != []
  {
    if path == "" then [""]
    else
      var rest := Parts(path[1..]);
      if path[0] == '.' then [""] + rest else [[path[0]] + rest[0]] + rest[1..]
  }

  lemma {:induction false} PartsConcat(a: string, b: string)
    ensures Parts(a + "." + b) == Parts(a) + Parts(b)
  {
    var whole := a + "." + b;
    if a == "" {
      assert whole == "." + b;
      assert whole[1..] == b;
    } else {
      assert whole[0] == a[0] && whole[1..] == a[1..] + "." + b;
      PartsConcat(a[1..], b);
    }
  }

  predicate DotFree(s: string) {
    forall i :: 0 <= i < |s| ==> s[i] != '.'
  }

  lemma {:induction false} PartsDotFree(s: string)
    requires DotFree(s)
    ensures Parts(s) == [s]
  {
    if s != "" {
      assert s[0] != '.';
      forall i | 0 <= i < |s[1..]| ensures s[1..][i] != '.' {
        assert s[1..][i] == s[i + 1];
      }
      PartsDotFree(s[1..]);
      assert [s[0]] + s[1..] == s;
    }
  }

  /** Only a name itself splits into that name. */
  lemma {:induction false} PartsSingle(path: string, name: string)
    requires Parts(path) == [name]
    ensures path == name
  {
    if path != "" {
      var rest := Parts(path[1..]);
      assert |Parts(path)| == if path[0] == '.' then 1 + |rest| else |rest|;
      assert Parts(path)[0] == [path[0]] + rest[0];
      assert rest == [rest[0]];
      PartsSingle(path[1..], rest[0]);
      assert path == [path[0]] + path[1..];
    }
  }

  function Get(t: Tree, parts: seq<string>): Option<Tree>
    decreases |parts|
  {
    if parts == [] then Some(t)
    else if t.Dict? && parts[0] in t.fields then Get(t.fields[parts[0]], parts[1..])
    else None
  }

  function Put(t: Tree, parts: seq<string>, v: Tree): Tree
    decreases |parts|
  {
    if parts == [] then v
    else
      var next := if parts[0] in Fields(t) then Fields(t)[parts[0]] else Null;
      Dict(Fields(t)[parts[0] := Put(next, parts[1..], v)])
  }

  // ---- merge and strip ----

  function Merge(base: Tree, over: Tree): (t: Tree)
    ensures over.Dict? ==> t.Dict?
    decreases over
  {
    if base.Dict? && over.Dict? then
      Dict(map k | k in base.fields.Keys + over.fields.Keys ::
             if k !in over.fields then base.fields[k]
             else if k !in base.fields then over.fields[k]
             else Merge(base.fields[k], over.fields[k]))
    else over
  }

  function Stripped(t: Tree): Tree {
    match t
    case Dict(f) => Dict(map k | k in f && f[k] != Null && Stripped(f[k]) != Dict(map[]) :: Stripped(f[k]))
    case List(items) =>
      List(seq(|items|, i requires 0 <= i < |items| => if items[i].Dict? then Stripped(items[i]) else items[i]))
    case _ => t
  }

  /** What a file written by the store holds: no None, no empty section, lists as stored. */
  predicate Stable(t: Tree) {
    Stripped(t) == t
  }

  lemma {:induction false} StableInside(t: Tree, k: string)
    requires t.Dict? && Stable(t) && k in t.fields
    ensures t.fields[k] != Null && t.fields[k] != Dict(map[]) && Stable(t.fields[k])
  {
    assert k in Stripped(t).fields;
  }

  /** Defaults the store can give back: no None, and no list it would rewrite. */
  predicate Restorable(t: Tree) {
    match t
    case Null => false
    case Dict(f) => forall k :: k in f ==> Restorable(f[k])
    case _ => Stripped(t) == t
  }

  /** What the store would write over the defaults loads back to the same tree. */
  lemma {:induction false} MergeStripFixpoint(d: Tree, f: Tree)
    requires Restorable(d) && Stable(f) && f != Null
    ensures Merge(d, Stripped(Merge(d, f))) == Merge(d, f)
    decreases d, 1
  {
    var m := Merge(d, f);
    if d.Dict? && f.Dict? {
      var s := Stripped(m);
      var r := Merge(d, s);
      assert r.fields.Keys == m.fields.Keys;
      forall k | k in m.fields ensures r.fields[k] == m.fields[k] {
        FixpointAt(d, f, k);
      }
    }
  }

  lemma {:induction false} FixpointAt(d: Tree, f: Tree, k: string)
    requires d.Dict? && f.Dict? && Restorable(d) && Stable(f) && k in Merge(d, f).fields
    ensures var m := Merge(d, f).fields[k];
            && m != Null
            && (if k in d.fields then Merge(d.fields[k], Stripped(m)) == m else Stripped(m) == m && m != Dict(map[]))
            && (k in d.fields && Stripped(m) == Dict(map[]) ==> m == d.fields[k])
    decreases d, 0
  {
    if k !in f.fields {
      DefaultRestored(d.fields[k]);
    } else {
      StableInside(f, k);
      if k in d.fields {
        MergeStripFixpoint(d.fields[k], f.fields[k]);
      }
    }
  }

  lemma {:induction false} DefaultRestored(d: Tree)
    requires Restorable(d)
    ensures d != Null && Merge(d, Stripped(d)) == d
    decreases d
  {
    if d.Dict? {
      var r := Merge(d, Stripped(d));
      assert r.fields.Keys == d.fields.Keys;
      forall k | k in d.fields ensures r.fields[k] == d.fields[k] {
        DefaultRestored(d.fields[k]);
      }
    }
  }

  // ---- a value that is set, written and loaded again ----

  /** The store does not write it: a None, or a section in which nothing is left. */
  predicate Unwritten(v: Tree) {
    v == Null || Stripped(v) == Dict(map[])
  }

  /** What a set value is after write and load, given the default at its place. */
  function Reloaded(base: Option<Tree>, v: Tree): Option<Tree> {
    if Unwritten(v) then base
    else if base.Some? then Some(Merge(base.value, Stripped(v)))
    else Some(Stripped(v))
  }

  function DefaultFor(t: Option<Tree>, k: string): Option<Tree> {
    if t.Some? && t.value.Dict? && k in t.value.fields then Some(t.value.fields[k]) else None
  }

  /** The value comes back as it is: the default there has no key the value lacks, and so on
      inside; what the store does not write must be the default already. */
  predicate Kept(base: Option<Tree>, v: Tree)
    decreases v
  {
    if Unwritten(v) then base == Some(v)
    else if base.Some? && base.value.Dict? && v.Dict? then
      && base.value.fields.Keys <= v.fields.Keys
      && forall k :: k in v.fields ==> Kept(DefaultFor(base, k), v.fields[k])
    else Stable(v)
  }

  /** Whatever the defaults and the state: the value read back after write and load depends on
      the set value and the default at its place alone, and it is the set value if and only
      if that one is kept. */
  lemma SetSurvivesReload(d: Tree, s: Tree, parts: seq<string>, v: Tree)
    requires parts != []
    ensures Get(Merge(d, Stripped(Put(s, parts, v))), parts) == Reloaded(Get(d, parts), v)
    ensures Get(Merge(d, Stripped(Put(s, parts, v))), parts) == Some(v) <==> Kept(Get(d, parts), v)
  {
    hide Merge, Stripped, Put, Reloaded, Kept, Get;
    ReloadedAt(d, s, parts, v);
    KeptExactly(Get(d, parts), v);
  }

  lemma {:induction false} ReloadedAt(d: Tree, s: Tree, parts: seq<string>, v: Tree)
    requires parts != []
    ensures Get(Merge(d, Stripped(Put(s, parts, v))), parts) == Reloaded(Get(d, parts), v)
    decreases |parts|
  {
    hide Merge, Stripped, Put, Get;
    var k, rest := parts[0], parts[1..];
    ReloadedStep(d, Put(s, parts, v), parts) by { OneStep(s, parts, v); }
    OneStep(s, parts, v);
    OneStep(d, parts, v);
    if rest != [] {
      var next := ChildOrNull(s, k);
      ReloadedAt(Null, next, rest, v);
      ReloadedAt(ChildOrNull(d, k), next, rest, v);
      OneStep(next, rest, v);
      OneStep(Null, rest, v);
      OneStep(Dict(map[]), rest, v);
      MergedOver(Null, Put(next, rest, v));
    } else {
      MergedOver(Null, v);
      NoStep(ChildOrNull(d, k), ChildOrNull(s, k), v);
      NoStep(Merge(ChildOrNull(d, k), Stripped(v)), Null, v);
      assert Put(ChildOrNull(s, k), rest, v) == v && Get(ChildOrNull(d, k), rest) == Some(ChildOrNull(d, k));
      assert Get(Merge(ChildOrNull(d, k), Stripped(v)), rest) == Some(Merge(ChildOrNull(d, k), Stripped(v)));
    }
  }

  lemma OneStep(t: Tree, parts: seq<string>, v: Tree)
    requires parts != []
    ensures var k, rest := parts[0], parts[1..];
            && Put(t, parts, v).Dict? && k in Put(t, parts, v).fields
            && Put(t, parts, v).fields[k] == Put(ChildOrNull(t, k), rest, v)
            && Get(t, parts) == if k in Fields(t) then Get(ChildOrNull(t, k), rest) else None
  {
  }

  lemma NoStep(t: Tree, u: Tree, v: Tree)
    ensures Get(t, []) == Some(t) && Put(u, [], v) == v
  {
  }

  function ChildOrNull(t: Tree, k: string): Tree {
    if k in Fields(t) then t.fields[k] else Null
  }

  lemma ReloadedStep(d: Tree, x: Tree, parts: seq<string>)
    requires parts != [] && x.Dict? && parts[0] in x.fields
    ensures var k, inner := parts[0], x.fields[parts[0]];
            Get(Merge(d, Stripped(x)), parts)
            == if Unwritten(inner) then Get(d, parts) else Get(Merge(ChildOrNull(d, k), Stripped(inner)), parts[1..])
  {
    hide Merge, Stripped;
    var k := parts[0];
    StrippedKey(x, k);
    MergedKey(d, Stripped(x), k);
    MergedOver(Null, x.fields[k]);
  }

  lemma StrippedKey(t: Tree, k: string)
    requires t.Dict? && k in t.fields
    ensures Stripped(t).Dict?
    ensures k in Stripped(t).fields <==> !Unwritten(t.fields[k])
    ensures k in Stripped(t).fields ==> Stripped(t).fields[k] == Stripped(t.fields[k])
  {
  }

  lemma MergedKey(base: Tree, over: Tree, k: string)
    requires over.Dict?
    ensures var m := Merge(base, over);
            && m.Dict? && (k in m.fields <==> k in over.fields || k in Fields(base))
            && (k in over.fields ==>
                  m.fields[k] == if k in Fields(base) then Merge(base.fields[k], over.fields[k]) else over.fields[k])
            && (k !in over.fields && k in Fields(base) ==> m.fields[k] == base.fields[k])
  {
  }

  lemma {:induction false} KeptExactly(base: Option<Tree>, v: Tree)
    ensures Reloaded(base, v) == Some(v) <==> Kept(base, v)
    decreases v
  {
    hide Merge, Stripped;
    if !Unwritten(v) && base.Some? {
      if base.value.Dict? && v.Dict? {
        KeptSection(base.value, v);
      } else {
        MergedOver(base.value, v);
      }
    }
  }

  lemma MergedOver(base: Tree, v: Tree)
    requires !(base.Dict? && v.Dict?)
    ensures Merge(base, Stripped(v)) == Stripped(v)
  {
  }

  lemma {:induction false} KeptSection(base: Tree, v: Tree)
    requires base.Dict? && v.Dict?
    ensures Merge(base, Stripped(v)) == v
       <==> && base.fields.Keys <= v.fields.Keys
            && forall k :: k in v.fields ==> Kept(DefaultFor(Some(base), k), v.fields[k])
    decreases v, 0
  {
    hide Merge, Stripped, Kept, Reloaded, Unwritten;
    var m := Merge(base, Stripped(v));
    StrippedSection(v);
    MergedSection(base, Stripped(v));
    forall k | k in v.fields
      ensures (k in m.fields && m.fields[k] == v.fields[k]) <==> Kept(DefaultFor(Some(base), k), v.fields[k])
    {
      KeptExactly(DefaultFor(Some(base), k), v.fields[k]);
      StrippedKey(v, k);
      MergedKey(base, Stripped(v), k);
      ReloadedKey(base, v, k);
    }
    if base.fields.Keys <= v.fields.Keys && forall k :: k in v.fields ==> Kept(DefaultFor(Some(base), k), v.fields[k]) {
      assert m.fields == v.fields;
    }
  }

  lemma ReloadedKey(base: Tree, v: Tree, k: string)
    requires base.Dict? && v.Dict? && k in v.fields
    ensures var m := Merge(base, Stripped(v));
            && m.Dict?
            && Reloaded(DefaultFor(Some(base), k), v.fields[k]) == if k in m.fields then Some(m.fields[k]) else None
  {
    hide Merge, Stripped, Unwritten;
    StrippedKey(v, k);
    MergedKey(base, Stripped(v), k);
  }

  lemma StrippedSection(v: Tree)
    requires v.Dict?
    ensures Stripped(v).Dict? && Stripped(v).fields.Keys <= v.fields.Keys
  {
  }

  lemma MergedSection(base: Tree, over: Tree)
    requires base.Dict? && over.Dict?
    ensures Merge(base, over).Dict? && Merge(base, over).fields.Keys == base.fields.Keys + over.fields.Keys
  {
  }

  // ---- what is read at a path of a loaded, a written and a changed tree ----

  /** The tree says nothing about the path: a key is missing in one of its sections. */
  predicate Silent(t: Tree, parts: seq<string>)
    decreases |parts|
  {
    parts != [] && t.Dict? && (parts[0] in t.fields ==> Silent(t.fields[parts[0]], parts[1..]))
  }

  /** A value of the file hides the default, a section of the file stays a section, and the
      default shows exactly where the file says nothing. */
  lemma {:induction false} LoadedReads(d: Tree, f: Tree, parts: seq<string>)
    ensures var got, own := Get(Merge(d, f), parts), Get(f, parts);
            && (own.Some? && !own.value.Dict? ==> got == own)
            && (own.Some? && own.value.Dict? ==> got.Some? && got.value.Dict?)
            && (own.None? ==> got == if Silent(f, parts) then Get(d, parts) else None)
    decreases |parts|
  {
    hide Merge;
    if f.Dict? && parts != [] {
      var k := parts[0];
      MergedKey(d, f, k);
      if k in f.fields {
        LoadedReads(if k in Fields(d) then d.fields[k] else Null, f.fields[k], parts[1..]);
        MergedReplaces(Null, f.fields[k]);
      }
    } else {
      MergedShape(d, f);
    }
  }

  lemma MergedShape(d: Tree, f: Tree)
    ensures if f.Dict? then Merge(d, f).Dict? else Merge(d, f) == f
  {
  }

  /** The file keeps every value that is no None where it is, drops every None and every
      section without values, and has nothing else. */
  lemma {:induction false} WrittenReads(t: Tree, parts: seq<string>)
    ensures var got, own := Get(Stripped(t), parts), Get(t, parts);
            && (parts != [] ==> got != Some(Null) && got != Some(Dict(map[])))
            && (own.Some? && !own.value.Dict? && !own.value.List? && own.value != Null ==> got == own)
            && (own.Some? && own.value.List? ==>
                  got.Some? && got.value.List? && |got.value.items| == |own.value.items|
                  && forall i :: 0 <= i < |own.value.items| ==>
                       got.value.items[i]
                       == if own.value.items[i].Dict? then Stripped(own.value.items[i]) else own.value.items[i])
            && (own.Some? && own.value.Dict? && got.Some? ==> got.value.Dict?)
            && (own.None? ==> got == None)
    decreases |parts|
  {
    hide Stripped;
    StrippedShape(t);
    if t.Dict? && parts != [] && parts[0] in t.fields {
      StrippedKey(t, parts[0]);
      WrittenReads(t.fields[parts[0]], parts[1..]);
      StrippedShape(t.fields[parts[0]]);
    }
  }

  lemma StrippedShape(t: Tree)
    ensures match t
            case Dict(f) => Stripped(t).Dict? && Stripped(t).fields.Keys <= f.Keys
            case List(items) =>
              Stripped(t).List? && |Stripped(t).items| == |items|
              && forall i :: 0 <= i < |items| ==>
                   Stripped(t).items[i] == if items[i].Dict? then Stripped(items[i]) else items[i]
            case _ => Stripped(t) == t
  {
  }

  /** Neither path leads through the other. */
  predicate Apart(p: seq<string>, q: seq<string>) {
    exists i :: 0 <= i < |p| && i < |q| && p[i] != q[i]
  }

  /** A set value is read back at its path, and every path apart from it reads as before. */
  lemma {:induction false} PutReads(t: Tree, p: seq<string>, v: Tree, q: seq<string>)
    ensures Get(Put(t, p, v), p) == Some(v)
    ensures Apart(p, q) ==> Get(Put(t, p, v), q) == Get(t, q)
    decreases |p|
  {
    if p != [] {
      var k := p[0];
      var next := if k in Fields(t) then Fields(t)[k] else Null;
      PutReads(next, p[1..], v, if q != [] then q[1..] else []);
      if Apart(p, q) && q[0] == k {
        var i :| 0 <= i < |p| && i < |q| && p[i] != q[i];
        assert p[1..][i - 1] != q[1..][i - 1];
      }
    }
  }

  // ---- which files the store gives back unchanged ----

  /** A default the store gives back: every list in it is one that it would not rewrite. */
  predicate Restores(d: Tree) {
    match d
    case Dict(f) => forall k :: k in f ==> Restores(f[k])
    case _ => Stable(d)
  }

  /** Where the file is silent the default restores itself; sections on both sides are
      settled in turn; any other value of the file is kept over the default there. */
  predicate SettledAt(d: Tree, f: Tree, k: string)
    requires d.Dict? && f.Dict?
    decreases f, 0
  {
    if k !in f.fields then k in d.fields ==> Restores(d.fields[k])
    else if k in d.fields && d.fields[k].Dict? && f.fields[k].Dict? then Settled(d.fields[k], f.fields[k])
    else Kept(DefaultFor(Some(d), k), f.fields[k])
  }

  predicate Settled(d: Tree, f: Tree)
    requires d.Dict? && f.Dict?
    decreases f, 1
  {
    forall k :: k in d.fields.Keys + f.fields.Keys ==> SettledAt(d, f, k)
  }

  lemma {:induction false} SelfKept(d: Tree)
    ensures Kept(Some(d), d) <==> Restores(d)
    decreases d
  {
    if d.Dict? {
      forall k | k in d.fields ensures Kept(Some(d.fields[k]), d.fields[k]) <==> Restores(d.fields[k]) {
        SelfKept(d.fields[k]);
      }
      forall k | k in d.fields && Unwritten(d) ensures Unwritten(d.fields[k]) {
        StrippedKey(d, k);
      }
    }
  }

  /** Over a section a section without entries changes nothing. */
  lemma KeptSections(d: Tree, m: Tree)
    requires d.Dict? && m.Dict?
    ensures Kept(Some(d), m) <==> Merge(d, Stripped(m)) == m
  {
    hide Kept;
    KeptExactly(Some(d), m);
    if Unwritten(m) {
      assert Merge(d, Dict(map[])).fields == d.fields;
    }
  }

  /** A loaded tree that is written and loaded again is unchanged if and only if the file and
      the defaults are settled: whatever they are, with no condition on either. */
  lemma {:induction false} LoadWriteLoadIff(d: Tree, f: Tree)
    requires d.Dict? && f.Dict?
    ensures Merge(d, Stripped(Merge(d, f))) == Merge(d, f) <==> Settled(d, f)
    decreases f
  {
    hide Merge, Stripped, Kept, Restores, Unwritten;
    var m := Merge(d, f);
    MergedSection(d, f);
    KeptSection(d, m);
    forall k | k in m.fields ensures Kept(DefaultFor(Some(d), k), m.fields[k]) <==> SettledAt(d, f, k) {
      MergedKey(d, f, k);
      if k !in f.fields {
        SelfKept(d.fields[k]);
      } else if k in d.fields && d.fields[k].Dict? && f.fields[k].Dict? {
        MergedSection(d.fields[k], f.fields[k]);
        LoadWriteLoadIff(d.fields[k], f.fields[k]);
        KeptSections(d.fields[k], m.fields[k]);
      } else if k in d.fields {
        assert m.fields[k] == f.fields[k] by { MergedReplaces(d.fields[k], f.fields[k]); }
      }
    }
  }

  lemma MergedReplaces(base: Tree, over: Tree)
    requires !(base.Dict? && over.Dict?)
    ensures Merge(base, over) == over
  {
  }

  /** No default key at any depth is missing from the section. */
  predicate Covers(base: Tree, v: Tree) {
    base.Dict? && v.Dict? ==>
      && base.fields.Keys <= v.fields.Keys
      && forall k :: k in base.fields && k in v.fields ==> Covers(base.fields[k], v.fields[k])
  }

  /** A nonempty section the store writes as it is comes back if and only if it has every
      default key; what is no section always does; a None or an empty section is replaced
      by the default. */
  lemma StoredSurvivesReload(d: Tree, s: Tree, parts: seq<string>, v: Tree)
    requires parts != [] && Stable(v)
    ensures var got := Get(Merge(d, Stripped(Put(s, parts, v))), parts);
            && (v == Null || v == Dict(map[]) ==> got == Get(d, parts))
            && (v != Null && v != Dict(map[]) ==>
                  (got == Some(v) <==> (Get(d, parts).Some? ==> Covers(Get(d, parts).value, v))))
  {
    hide Merge, Stripped, Put, Get, Covers;
    SetSurvivesReload(d, s, parts, v);
    if v != Null && v != Dict(map[]) && Get(d, parts).Some? {
      CoversMerges(Get(d, parts).value, v);
    }
  }

  lemma {:induction false} CoversMerges(base: Tree, v: Tree)
    ensures Merge(base, v) == v <==> Covers(base, v)
    decreases v
  {
    if base.Dict? && v.Dict? {
      var m := Merge(base, v);
      forall k | k in base.fields && k in v.fields
        ensures m.fields[k] == v.fields[k] <==> Covers(base.fields[k], v.fields[k])
      {
        CoversMerges(base.fields[k], v.fields[k]);
      }
      assert m.fields.Keys == base.fields.Keys + v.fields.Keys;
      if Covers(base, v) {
        assert m.fields == v.fields;
      }
    }
  }

  /** A section that is replaced gets its default keys back: deleting one does not last. */
  lemma DeletedDefaultReturns(s: Tree)
    requires s.Dict?
    ensures var d := Dict(map["agent" := Dict(map["depth" := Num(1.0)])]);
            var emptied := Put(s, ["agent"], Dict(map[]));
            && Get(emptied, ["agent", "depth"]) == None
            && Get(Merge(d, Stripped(emptied)), ["agent", "depth"]) == Some(Num(1.0))
  {
    var d := Dict(map["agent" := Dict(map["depth" := Num(1.0)])]);
    var emptied := Put(s, ["agent"], Dict(map[]));
    assert ["agent", "depth"][1..] == ["depth"] && ["agent"][1..] == [];
    assert emptied.fields["agent"] == Dict(map[]);
    assert Stripped(Dict(map[])) == Dict(map[]);
    assert "agent" !in Stripped(emptied).fields;
    assert Merge(d, Stripped(emptied)).fields["agent"] == Dict(map["depth" := Num(1.0)]);
    assert Get(Dict(map["depth" := Num(1.0)]), ["depth"]) == Some(Num(1.0));
    assert Get(Dict(map[]), ["depth"]) == None;
  }

  // ---- the loops ----

  /** _deep_merge: one key of the override after the other. */
  method DeepMerge(base: Tree, over: Tree) returns (merged: Tree)
    requires base.Dict? && over.Dict?
    ensures merged == Merge(base, over)
    decreases over
  {
    merged := base;
    var left := over.fields.Keys;
    while left != {}
      invariant left <= over.fields.Keys && merged.Dict?
      invariant merged.fields.Keys == base.fields.Keys + (over.fields.Keys - left)
      invariant forall k :: k in merged.fields ==>
                  merged.fields[k]
                  == if k in left || k !in over.fields then base.fields[k] else Merge(base, over).fields[k]
    {
      var k :| k in left;
      if k in merged.fields && merged.fields[k].Dict? && over.fields[k].Dict? {
        var inner := DeepMerge(merged.fields[k], over.fields[k]);
        merged := Dict(merged.fields[k := inner]);
      } else {
        merged := Dict(merged.fields[k := over.fields[k]]);
      }
      left := left - {k};
    }
    assert merged.fields == Merge(base, over).fields;
  }

  /** _strip_none: one key after the other. */
  method StripNone(d: Tree) returns (out: Tree)
    requires d.Dict?
    ensures out == Stripped(d)
    decreases d
  {
    out := Dict(map[]);
    var left := d.fields.Keys;
    while left != {}
      invariant left <= d.fields.Keys && out.Dict?
      invariant forall k :: k in out.fields <==> k in d.fields && k !in left && k in Stripped(d).fields
      invariant forall k :: k in out.fields ==> out.fields[k] == Stripped(d).fields[k]
    {
      var k :| k in left;
      left := left - {k};
      var v := d.fields[k];
      if v == Null {
        continue;
      }
      if v.Dict? {
        var cleaned := StripNone(v);
        if cleaned != Dict(map[]) {
          out := Dict(out.fields[k := cleaned]);
        }
      } else if v.List? {
        var items := [];
        for i := 0 to |v.items|
          invariant |items| == i
          invariant forall j :: 0 <= j < i ==> items[j] == Stripped(v).items[j]
        {
          var item := v.items[i];
          if item.Dict? {
            item := StripNone(item);
          }
          items := items + [item];
        }
        assert List(items) == Stripped(v);
        out := Dict(out.fields[k := List(items)]);
      } else {
        out := Dict(out.fields[k := v]);
      }
    }
    assert out.fields == Stripped(d).fields;
  }

  method DeepGet(d: Tree, path: string) returns (found: Option<Tree>)
    ensures found == Get(d, Parts(path))
  {
    var parts := Parts(path);
    var cur := d;
    assert parts[0..] == parts;
    for i := 0 to |parts|
      invariant Get(cur, parts[i..]) == Get(d, parts)
    {
      assert parts[i..][0] == parts[i] && parts[i..][1..] == parts[i + 1..];
      if cur.Dict? && parts[i] in cur.fields {
        cur := cur.fields[parts[i]];
      } else {
        return None;
      }
    }
    assert parts[|parts|..] == [];
    return Some(cur);
  }

  class ConfigStore {
    const defaults: Tree
    /** The parsed contents of the file. */
    var file: Tree

    constructor (defaults: Tree, file: Tree)
      requires defaults.Dict? && file.Dict?
      ensures this.defaults == defaults && this.file == file
    {
      this.defaults, this.file := defaults, file;
    }

    method Load() returns (merged: Tree)
      requires defaults.Dict? && file.Dict?
      ensures merged == Merge(defaults, file)
    {
      merged := DeepMerge(defaults, file);
    }

    method Write(config: Tree)
      requires config.Dict?
      modifies this`file
      ensures file == Stripped(config)
    {
      file := StripNone(config);
    }
  }
}
