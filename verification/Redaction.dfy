/** Masking secrets on read surfaces, and restoring them when a masked tree is written back. */
module Redaction {
  import opened Text
  import opened ConfigTree

  // ---- which paths are secret ----

  /** segments: the names under which a namespace keeps secrets. */
  datatype Setting = Setting(secret: bool, namespace: bool, segments: set<string>)

  type Registry = map<string, Setting>

  function JoinDots(parts: seq<string>): string
    requires parts != []
  {
    if |parts| == 1 then parts[0] else parts[0] + "." + JoinDots(parts[1..])
  }

  predicate IsNamespace(reg: Registry, parts: seq<string>, i: nat)
    requires 0 < i <= |parts|
  {
    JoinDots(parts[..i]) in reg && reg[JoinDots(parts[..i])].namespace
  }

  /** The longest of the first i parts that names a namespace. */
  function Enclosing(reg: Registry, parts: seq<string>, i: nat): Option<string>
    requires i <= |parts|
  {
    if i == 0 then None
    else if IsNamespace(reg, parts, i) then Some(JoinDots(parts[..i]))
    else Enclosing(reg, parts, i - 1)
  }

  /** The id of the setting that owns a path: the path itself, else the longest namespace
      that is a proper prefix of it. */
  function Resolve(reg: Registry, path: string): Option<string> {
    if path in reg then Some(path) else Enclosing(reg, Parts(path), |Parts(path)| - 1)
  }

  predicate StartsWith(s: string, prefix: string) {
    |prefix| <= |s| && s[..|prefix|] == prefix
  }

  predicate IsSecret(reg: Registry, path: string) {
    var id := Resolve(reg, path);
    id.Some? && id.value in reg &&
    var setting := reg[id.value];
    || setting.secret
    || (setting.namespace && StartsWith(path, id.value + ".")
        && exists seg :: seg in setting.segments && seg in Parts(path[|id.value| + 1..]))
  }

  /** The namespace found is the longest one. */
  lemma {:induction false} EnclosingIsLongest(reg: Registry, parts: seq<string>, i: nat)
    requires i <= |parts|
    ensures var e := Enclosing(reg, parts, i);
            && (e.None? <==> forall j :: 0 < j <= i ==> !IsNamespace(reg, parts, j))
            && (e.Some? ==> exists j :: 0 < j <= i && e.value == JoinDots(parts[..j]) && IsNamespace(reg, parts, j)
                                        && forall k :: j < k <= i ==> !IsNamespace(reg, parts, k))
  {
    if i > 0 && !IsNamespace(reg, parts, i) {
      EnclosingIsLongest(reg, parts, i - 1);
    } else if i > 0 {
      assert IsNamespace(reg, parts, i);
    }
  }

  // ---- redaction ----

  function Truthy(t: Tree): bool {
    match t
    case Null => false
    case Flag(b) => b
    case Num(n) => n != 0.0
    case Str(s) => s != ""
    case List(items) => items != []
    case Dict(f) => f != map[]
  }

  function Mask(t: Tree): Tree {
    Dict(map["configured" := Flag(Truthy(t)), "masked" := Flag(true)])
  }

  predicate IsMasked(t: Tree) {
    t.Dict? && "masked" in t.fields && t.fields["masked"] == Flag(true)
  }

  function MaskSubtree(t: Tree): Tree {
    if t.Dict? then Dict(map k | k in t.fields :: MaskSubtree(t.fields[k])) else Mask(t)
  }

  function Child(prefix: string, k: string): string {
    if prefix != "" then prefix + "." + k else k
  }

  function Walk(reg: Registry, t: Tree, prefix: string): Tree
    requires t.Dict?
    decreases t, 0
  {
    Dict(map k | k in t.fields :: Redact(reg, Child(prefix, k), t.fields[k]))
  }

  function Redact(reg: Registry, path: string, t: Tree): Tree
    decreases t, 1
  {
    if IsSecret(reg, path) then MaskSubtree(t) else if t.Dict? then Walk(reg, t, path) else t
  }

  // ---- exactly what is masked ----

  lemma {:induction false} PartsJoin(path: string)
    ensures JoinDots(Parts(path)) == path
    ensures forall i :: 0 <= i < |Parts(path)| ==> DotFree(Parts(path)[i])
  {
    hide JoinDots;
    if path == "" {
      JoinOne("");
    } else {
      PartsJoin(path[1..]);
      var rest := Parts(path[1..]);
      assert [path[0]] + path[1..] == path;
      if path[0] == '.' {
        JoinBehind("", rest);
      } else {
        JoinCons(path[0], rest);
      }
    }
  }

  lemma JoinOne(part: string)
    ensures JoinDots([part]) == part
  {
  }

  lemma JoinBehind(part: string, rest: seq<string>)
    requires rest != []
    ensures JoinDots([part] + rest) == part + "." + JoinDots(rest)
  {
    assert ([part] + rest)[1..] == rest;
  }

  lemma JoinCons(c: char, parts: seq<string>)
    requires parts != []
    ensures JoinDots([[c] + parts[0]] + parts[1..]) == [c] + JoinDots(parts)
  {
    var longer := [[c] + parts[0]] + parts[1..];
    assert longer[1..] == parts[1..];
    if |parts| > 1 {
      assert [c] + parts[0] + "." + JoinDots(parts[1..]) == [c] + (parts[0] + "." + JoinDots(parts[1..]));
    }
  }

  lemma {:induction false} JoinAround(parts: seq<string>, j: nat)
    requires 0 < j < |parts|
    ensures JoinDots(parts) == JoinDots(parts[..j]) + "." + JoinDots(parts[j..])
    decreases j
  {
    if j == 1 {
      assert parts[..1] == [parts[0]];
    } else {
      JoinAround(parts[1..], j - 1);
      assert parts[1..][..j - 1] == parts[..j][1..] && parts[1..][j - 1..] == parts[j..];
    }
  }

  lemma {:induction false} JoinParts(parts: seq<string>)
    requires parts != [] && forall i :: 0 <= i < |parts| ==> DotFree(parts[i])
    ensures Parts(JoinDots(parts)) == parts
  {
    PartsDotFree(parts[0]);
    if |parts| > 1 {
      JoinParts(parts[1..]);
      PartsConcat(parts[0], JoinDots(parts[1..]));
    } else {
      assert parts == [parts[0]];
    }
  }

  /** The first j names of the path are the longest ones that form a registered namespace. */
  predicate OwnedBy(reg: Registry, parts: seq<string>, j: nat) {
    && 0 < j < |parts| && JoinDots(parts[..j]) in reg && reg[JoinDots(parts[..j])].namespace
    && forall k :: j < k < |parts| ==> JoinDots(parts[..k]) in reg ==> !reg[JoinDots(parts[..k])].namespace
  }

  /** A registered path is secret when it is marked so; any other path when the namespace that
      owns it is, or when one of the namespace's secret names stands behind it in the path. */
  predicate Hidden(reg: Registry, path: string) {
    var parts := Parts(path);
    if path in reg then reg[path].secret
    else exists j :: 0 < j < |parts| && OwnedBy(reg, parts, j)
           && (reg[JoinDots(parts[..j])].secret
               || exists k :: j <= k < |parts| && parts[k] in reg[JoinDots(parts[..j])].segments)
  }

  /** What stands behind the first j names of a path. */
  lemma BehindNamespace(path: string, j: nat)
    requires 0 < j < |Parts(path)|
    ensures var ns := JoinDots(Parts(path)[..j]);
            && |ns| + 1 <= |path| && StartsWith(path, ns + ".")
            && Parts(path[|ns| + 1..]) == Parts(path)[j..]
  {
    var parts := Parts(path);
    PartsJoin(path);
    JoinAround(parts, j);
    var ns, tail := JoinDots(parts[..j]), JoinDots(parts[j..]);
    assert path == ns + "." + tail;
    assert path[|ns| + 1..] == tail && path[..|ns| + 1] == ns + ".";
    JoinParts(parts[j..]);
  }

  lemma {:induction false} EnclosingOwns(reg: Registry, parts: seq<string>, i: nat, j: nat)
    requires 0 < j <= i < |parts| && OwnedBy(reg, parts, j)
    ensures Enclosing(reg, parts, i) == Some(JoinDots(parts[..j]))
    decreases i
  {
    if i > j {
      EnclosingOwns(reg, parts, i - 1, j);
    }
  }

  lemma OwnerExists(reg: Registry, parts: seq<string>)
    requires parts != [] && Enclosing(reg, parts, |parts| - 1).Some?
    ensures exists j :: 0 < j < |parts| && OwnedBy(reg, parts, j)
  {
    EnclosingIsLongest(reg, parts, |parts| - 1);
    var j :| 0 < j <= |parts| - 1 && IsNamespace(reg, parts, j)
        && forall k :: j < k <= |parts| - 1 ==> !IsNamespace(reg, parts, k);
    LongestOwns(reg, parts, j);
  }

  lemma LongestOwns(reg: Registry, parts: seq<string>, j: nat)
    requires 0 < j < |parts| && IsNamespace(reg, parts, j)
    requires forall k :: j < k <= |parts| - 1 ==> !IsNamespace(reg, parts, k)
    ensures OwnedBy(reg, parts, j)
  {
    forall k | j < k < |parts| && JoinDots(parts[..k]) in reg ensures !reg[JoinDots(parts[..k])].namespace {
      assert !IsNamespace(reg, parts, k);
    }
  }

  lemma OnlyOwner(reg: Registry, parts: seq<string>, i: nat, j: nat)
    requires OwnedBy(reg, parts, i) && OwnedBy(reg, parts, j)
    ensures i == j
  {
  }

  lemma SecretIsHidden(reg: Registry, path: string)
    ensures IsSecret(reg, path) <==> Hidden(reg, path)
  {
    hide Enclosing, JoinDots;
    var parts := Parts(path);
    if path !in reg {
      if j :| 0 < j < |parts| && OwnedBy(reg, parts, j) {
        EnclosingOwns(reg, parts, |parts| - 1, j);
        BehindNamespace(path, j);
        HiddenBehind(reg, path, j);
      } else if Enclosing(reg, parts, |parts| - 1).Some? {
        OwnerExists(reg, parts);
      }
    }
  }

  lemma HiddenBehind(reg: Registry, path: string, j: nat)
    requires path !in reg && OwnedBy(reg, Parts(path), j)
    ensures var parts, setting := Parts(path), reg[JoinDots(Parts(path)[..j])];
            Hidden(reg, path) <==> setting.secret || exists seg :: seg in setting.segments && seg in parts[j..]
  {
    hide JoinDots, OwnedBy;
    var parts := Parts(path);
    OwnedInside(reg, parts, j);
    var setting := reg[JoinDots(parts[..j])];
    forall i | 0 < i < |parts| && OwnedBy(reg, parts, i) ensures i == j {
      OnlyOwner(reg, parts, i, j);
    }
    if k :| j <= k < |parts| && parts[k] in setting.segments {
      assert parts[j..][k - j] == parts[k];
    }
    if seg :| seg in setting.segments && seg in parts[j..] {
      var k :| 0 <= k < |parts[j..]| && parts[j..][k] == seg;
      assert parts[j + k] == seg;
    }
  }

  lemma OwnedInside(reg: Registry, parts: seq<string>, j: nat)
    requires OwnedBy(reg, parts, j)
    ensures 0 < j < |parts| && JoinDots(parts[..j]) in reg
  {
  }

  /** A value that is no section is masked exactly when its path is hidden, and the mask says
      only whether there was anything; any other one reads as it is. */
  lemma LeafMasked(reg: Registry, path: string, v: Tree)
    requires !v.Dict?
    ensures var r := Redact(reg, path, v);
            var set_ := v !in {Null, Flag(false), Num(0.0), Str(""), List([])};
            r == if Hidden(reg, path) then Dict(map["configured" := Flag(set_), "masked" := Flag(true)]) else v
  {
    hide IsSecret, Hidden;
    SecretIsHidden(reg, path);
  }

  // ---- what a reader can tell apart ----

  /** Two secrets of the same shape whose leaves are alike set or unset. */
  predicate SameSecret(a: Tree, b: Tree) {
    if a.Dict? && b.Dict? then
      a.fields.Keys == b.fields.Keys && forall k :: k in a.fields && k in b.fields ==>
          SameSecret(a.fields[k], b.fields[k])
    else !a.Dict? && !b.Dict? && Truthy(a) == Truthy(b)
  }

  /** Two trees that differ in secrets only, and there no more than SameSecret allows. */
  predicate Alike(reg: Registry, path: string, a: Tree, b: Tree)
    decreases a
  {
    if IsSecret(reg, path) then SameSecret(a, b)
    else if a.Dict? && b.Dict? then
      a.fields.Keys == b.fields.Keys
      && forall k :: k in a.fields && k in b.fields ==> Alike(reg, Child(path, k), a.fields[k], b.fields[k])
    else a == b
  }

  lemma {:induction false} MaskedAlike(a: Tree, b: Tree)
    ensures MaskSubtree(a) == MaskSubtree(b) <==> SameSecret(a, b)
    decreases a
  {
    var x, y := MaskSubtree(a), MaskSubtree(b);
    if a.Dict? && b.Dict? {
      assert x.fields.Keys == a.fields.Keys && y.fields.Keys == b.fields.Keys;
      forall k | k in a.fields && k in b.fields
        ensures x.fields[k] == y.fields[k] <==> SameSecret(a.fields[k], b.fields[k])
      {
        MaskedAlike(a.fields[k], b.fields[k]);
      }
      if SameSecret(a, b) {
        assert x.fields == y.fields;
      }
    } else if !a.Dict? && !b.Dict? {
      assert x.fields["configured"] == Flag(Truthy(a)) && y.fields["configured"] == Flag(Truthy(b));
    } else {
      MaskShape(a);
      MaskShape(b);
    }
  }

  /** Reading is exactly as telling as this: two configurations are redacted to the same
      tree if and only if they differ only in secrets that are alike set or unset. */
  lemma {:induction false} RedactedAlike(reg: Registry, path: string, a: Tree, b: Tree)
    ensures Redact(reg, path, a) == Redact(reg, path, b) <==> Alike(reg, path, a, b)
    decreases a
  {
    hide IsSecret;
    if IsSecret(reg, path) {
      MaskedAlike(a, b);
    } else if a.Dict? && b.Dict? {
      var x, y := Walk(reg, a, path), Walk(reg, b, path);
      assert x.fields.Keys == a.fields.Keys && y.fields.Keys == b.fields.Keys;
      forall k | k in a.fields && k in b.fields
        ensures x.fields[k] == y.fields[k] <==> Alike(reg, Child(path, k), a.fields[k], b.fields[k])
      {
        RedactedAlike(reg, Child(path, k), a.fields[k], b.fields[k]);
      }
      if Alike(reg, path, a, b) {
        assert x.fields == y.fields;
      }
    }
  }

  // ---- writing a masked tree back ----

  /** _fill_masked; current.get(k) of a missing key is None. */
  function Fill(write: Tree, current: Tree): Tree
    decreases write
  {
    if write.Dict? && current.Dict? then
      Dict(map k | k in write.fields ::
             if IsMasked(write.fields[k]) then (if k in current.fields then current.fields[k] else Null)
             else if write.fields[k].Dict? then
               Fill(write.fields[k],
                    if k in current.fields && current.fields[k].Dict? then current.fields[k] else Dict(map[]))
             else write.fields[k])
    else write
  }

  lemma MaskShape(t: Tree)
    ensures MaskSubtree(t).Dict? && (IsMasked(MaskSubtree(t)) <==> !t.Dict?)
  {
    var m := MaskSubtree(t);
    if t.Dict? && "masked" in t.fields {
      assert m.fields["masked"] == MaskSubtree(t.fields["masked"]);
    }
  }

  /** Echoing back what was read restores the configuration, secrets included. */
  lemma {:induction false} EchoRestores(reg: Registry, t: Tree, prefix: string)
    requires t.Dict?
    ensures Fill(Walk(reg, t, prefix), t) == t
    decreases t
  {
    hide IsSecret;
    var w := Walk(reg, t, prefix);
    var r := Fill(w, t);
    assert w.fields.Keys == t.fields.Keys && r.fields.Keys == t.fields.Keys;
    forall k | k in t.fields ensures r.fields[k] == t.fields[k] {
      var v, path := t.fields[k], Child(prefix, k);
      assert w.fields[k] == Redact(reg, path, v);
      assert IsMasked(w.fields[k]) ==> r.fields[k] == t.fields[k];
      assert !IsMasked(w.fields[k]) && v.Dict? && w.fields[k].Dict? ==> r.fields[k] == Fill(w.fields[k], v);
      MaskShape(v);
      if v.Dict? {
        if IsSecret(reg, path) {
          MaskRestores(v);
        } else {
          EchoRestores(reg, v, path);
        }
      }
    }
  }

  lemma {:induction false} MaskRestores(t: Tree)
    requires t.Dict?
    ensures Fill(MaskSubtree(t), t) == t
    decreases t
  {
    var w := MaskSubtree(t);
    var r := Fill(w, t);
    assert w.fields.Keys == t.fields.Keys && r.fields.Keys == t.fields.Keys;
    forall k | k in t.fields ensures r.fields[k] == t.fields[k] {
      MaskShape(t.fields[k]);
      if t.fields[k].Dict? {
        MaskRestores(t.fields[k]);
      }
    }
  }

  /** At a path whose every step is a section of both trees, a write keeps the stored value
      where it is masked and replaces it where it is not. */
  predicate Reaches(write: Tree, parts: seq<string>)
    decreases |parts|
  {
    parts == [] || (write.Dict? && parts[0] in write.fields && (|parts| == 1 || !IsMasked(write.fields[parts[0]]))
                    && Reaches(write.fields[parts[0]], parts[1..]))
  }

  /** For any write, edited or not: a masked value stands for the stored one, any other
      value for itself. */
  lemma {:induction false} FillAt(write: Tree, current: Tree, parts: seq<string>)
    requires current.Dict? && parts != [] && Reaches(write, parts)
    ensures var w, r := Get(write, parts), Get(Fill(write, current), parts);
            && w.Some? && r.Some?
            && (IsMasked(w.value) ==>
                r.value == (if Get(current, parts).Some? then Get(current, parts).value else Null))
            && (!w.value.Dict? ==> r.value == w.value)
    decreases |parts|
  {
    var k, rest := parts[0], parts[1..];
    if rest == [] {
      assert Get(write, parts) == Get(write.fields[k], rest);
    } else {
      var base := if k in current.fields && current.fields[k].Dict? then current.fields[k] else Dict(map[]);
      FillAt(write.fields[k], base, rest);
      if Get(write, parts).Some? {
        NothingBelow(current, base, parts);
      }
    }
  }

  lemma NothingBelow(current: Tree, base: Tree, parts: seq<string>)
    requires current.Dict? && |parts| >= 2
    requires var k := parts[0];
             base == if k in current.fields && current.fields[k].Dict? then current.fields[k] else Dict(map[])
    ensures Get(current, parts) == Get(base, parts[1..])
  {
  }

  // ---- reading one path ----

  function Below(path: string, parts: seq<string>): string
    decreases |parts|
  {
    if parts == [] then path else Below(Child(path, parts[0]), parts[1..])
  }

  predicate SecretAbove(reg: Registry, path: string, parts: seq<string>) {
    exists i :: 0 <= i < |parts| && IsSecret(reg, Below(path, parts[..i]))
  }

  /** Everything in the value is masked when it is read alone. */
  predicate AllMasked(reg: Registry, path: string, v: Tree)
    decreases v
  {
    IsSecret(reg, path) || (v.Dict? && forall k :: k in v.fields ==> AllMasked(reg, Child(path, k), v.fields[k]))
  }

  lemma {:induction false} MaskedAlone(reg: Registry, path: string, v: Tree)
    ensures Redact(reg, path, v) == MaskSubtree(v) <==> AllMasked(reg, path, v)
    decreases v
  {
    hide IsSecret;
    if !IsSecret(reg, path) && v.Dict? {
      var w, m := Walk(reg, v, path), MaskSubtree(v);
      assert w.fields.Keys == v.fields.Keys == m.fields.Keys;
      forall k | k in v.fields ensures w.fields[k] == m.fields[k] <==> AllMasked(reg, Child(path, k), v.fields[k]) {
        MaskedAlone(reg, Child(path, k), v.fields[k]);
      }
      if AllMasked(reg, path, v) {
        assert w.fields == m.fields;
      }
    }
  }

  lemma {:induction false} MaskedInside(t: Tree, parts: seq<string>)
    requires Get(t, parts).Some?
    ensures Get(MaskSubtree(t), parts) == Some(MaskSubtree(Get(t, parts).value))
    decreases |parts|
  {
    if parts != [] {
      MaskedInside(t.fields[parts[0]], parts[1..]);
    }
  }

  /** What the tree shows at a path: the masked value under a secret section, else what
      reading the path alone shows. */
  lemma {:induction false} TreeReads(reg: Registry, path: string, t: Tree, parts: seq<string>)
    requires Get(t, parts).Some?
    ensures var v := Get(t, parts).value;
            Get(Redact(reg, path, t), parts)
            == Some(if SecretAbove(reg, path, parts) then MaskSubtree(v) else Redact(reg, Below(path, parts), v))
    decreases |parts|
  {
    hide IsSecret;
    if parts != [] {
      SecretAboveStep(reg, path, parts);
      if IsSecret(reg, path) {
        MaskedInside(t, parts);
      } else {
        TreeReads(reg, Child(path, parts[0]), t.fields[parts[0]], parts[1..]);
      }
    }
  }

  lemma SecretAboveStep(reg: Registry, path: string, parts: seq<string>)
    requires parts != []
    ensures SecretAbove(reg, path, parts)
            <==> IsSecret(reg, path) || SecretAbove(reg, Child(path, parts[0]), parts[1..])
  {
    hide IsSecret;
    var next, rest := Child(path, parts[0]), parts[1..];
    forall i | 0 <= i < |rest| ensures Below(path, parts[..i + 1]) == Below(next, rest[..i]) {
      assert parts[..i + 1][1..] == rest[..i] && parts[..i + 1][0] == parts[0];
    }
    assert parts[..0] == [] && Below(path, parts[..0]) == path;
    if i :| 0 <= i < |parts| && IsSecret(reg, Below(path, parts[..i])) {
      assert i > 0 ==> IsSecret(reg, Below(next, rest[..i - 1]));
    }
    if i :| 0 <= i < |rest| && IsSecret(reg, Below(next, rest[..i])) {
      assert IsSecret(reg, Below(path, parts[..i + 1]));
    }
  }

  /** Keys joined by dots, without empty keys before the first other one. */
  function Dotted(parts: seq<string>): string {
    if parts == [] then "" else if parts[0] == "" then Dotted(parts[1..]) else JoinDots(parts)
  }

  lemma {:induction false} BelowJoins(path: string, parts: seq<string>)
    requires path != ""
    ensures Below(path, parts) == JoinDots([path] + parts)
    decreases |parts|
  {
    if parts == [] {
      assert [path] + parts == [path];
    } else {
      var k, rest := parts[0], parts[1..];
      BelowJoins(path + "." + k, rest);
      assert ([path] + parts)[1..] == [k] + rest && ([k] + rest)[1..] == rest;
      assert ([path + "." + k] + rest)[1..] == rest;
      if rest != [] {
        assert path + "." + k + "." + JoinDots(rest) == path + "." + (k + "." + JoinDots(rest));
      }
    }
  }

  lemma {:induction false} BelowRoot(parts: seq<string>)
    ensures Below("", parts) == Dotted(parts)
    decreases |parts|
  {
    if parts != [] {
      if parts[0] == "" {
        BelowRoot(parts[1..]);
      } else {
        BelowJoins(parts[0], parts[1..]);
        assert [parts[0]] + parts[1..] == parts;
      }
    }
  }

  /** A whole configuration is read: a value that is no section is masked if and only if its
      path or that of a section it lies in is hidden, and reads as it is otherwise. */
  lemma TreeMasked(reg: Registry, t: Tree, parts: seq<string>)
    requires t.Dict? && parts != [] && Get(t, parts).Some? && !Get(t, parts).value.Dict?
    ensures var v := Get(t, parts).value;
            var set_ := v !in {Null, Flag(false), Num(0.0), Str(""), List([])};
            Get(Walk(reg, t, ""), parts)
            == Some(if exists i :: 0 < i <= |parts| && Hidden(reg, Dotted(parts[..i]))
                    then Dict(map["configured" := Flag(set_), "masked" := Flag(true)]) else v)
  {
    hide IsSecret, Hidden, Redact, Below, Dotted, SecretAbove;
    var k, rest := parts[0], parts[1..];
    var v := Get(t, parts).value;
    TreeReads(reg, k, t.fields[k], rest);
    LeafMasked(reg, Below(k, rest), v);
    assert Get(Walk(reg, t, ""), parts) == Get(Redact(reg, k, t.fields[k]), rest);
    HiddenAbove(reg, parts);
  }

  lemma HiddenAbove(reg: Registry, parts: seq<string>)
    requires parts != []
    ensures SecretAbove(reg, parts[0], parts[1..]) || Hidden(reg, Below(parts[0], parts[1..]))
       <==> exists i :: 0 < i <= |parts| && Hidden(reg, Dotted(parts[..i]))
  {
    hide IsSecret, Hidden, Dotted, Below;
    var k, rest := parts[0], parts[1..];
    assert rest[..|rest|] == rest && parts[..|parts|] == parts;
    if SecretAbove(reg, k, rest) {
      var i :| 0 <= i < |rest| && IsSecret(reg, Below(k, rest[..i]));
      BelowPrefix(reg, parts, i + 1);
    }
    BelowPrefix(reg, parts, |parts|);
    if i :| 0 < i <= |parts| && Hidden(reg, Dotted(parts[..i])) {
      BelowPrefix(reg, parts, i);
    }
  }

  lemma BelowPrefix(reg: Registry, parts: seq<string>, i: nat)
    requires 0 < i <= |parts|
    ensures IsSecret(reg, Below(parts[0], parts[1..][..i - 1])) <==> Hidden(reg, Dotted(parts[..i]))
    ensures Below(parts[0], parts[1..][..i - 1]) == Dotted(parts[..i])
  {
    hide IsSecret, Hidden, Dotted;
    BelowRoot(parts[..i]);
    assert parts[..i][0] == parts[0] && parts[..i][1..] == parts[1..][..i - 1];
    SecretIsHidden(reg, Below(parts[0], parts[1..][..i - 1]));
  }

  /** Reading a path alone shows what reading the whole tree shows there if and only if no
      section above it is secret or everything at the path is masked anyway. */
  lemma PathReadAgrees(reg: Registry, path: string, t: Tree, parts: seq<string>)
    requires Get(t, parts).Some?
    ensures var v, at := Get(t, parts).value, Below(path, parts);
            Get(Redact(reg, path, t), parts) == Some(Redact(reg, at, v))
            <==> !SecretAbove(reg, path, parts) || AllMasked(reg, at, v)
  {
    hide IsSecret, SecretAbove, AllMasked, Redact, MaskSubtree, Get, Below;
    TreeReads(reg, path, t, parts);
    MaskedAlone(reg, Below(path, parts), Get(t, parts).value);
  }

  /** For a value that is no section: if and only if no section above is secret or the path
      itself is. */
  lemma LeafReadAgrees(reg: Registry, path: string, t: Tree, parts: seq<string>)
    requires Get(t, parts).Some? && !Get(t, parts).value.Dict?
    ensures var v, at := Get(t, parts).value, Below(path, parts);
            Get(Redact(reg, path, t), parts) == Some(Redact(reg, at, v))
            <==> !SecretAbove(reg, path, parts) || IsSecret(reg, at)
  {
    hide IsSecret, SecretAbove, Redact, Get, Below;
    PathReadAgrees(reg, path, t, parts);
  }

  lemma {:induction false} NoNamespace(reg: Registry, parts: seq<string>, i: nat)
    requires i <= |parts| && forall id :: id in reg ==> !reg[id].namespace
    ensures Enclosing(reg, parts, i) == None
  {
    if i > 0 {
      NoNamespace(reg, parts, i - 1);
    }
  }

  /** A secret stored as a section is masked in the tree, yet a path inside it that no
      setting owns is read in the clear. */
  lemma {:induction false} SecretSectionLeaks(reg: Registry, id: string, key: string, value: string)
    requires id in reg && reg[id].secret && Child(id, key) !in reg
    requires forall other :: other in reg ==> !reg[other].namespace
    ensures var t := Dict(map[key := Str(value)]);
            && Get(Redact(reg, id, t), [key]) == Some(Mask(Str(value)))
            && Redact(reg, Child(id, key), Str(value)) == Str(value)
  {
    var t := Dict(map[key := Str(value)]);
    assert MaskSubtree(t).fields[key] == Mask(Str(value));
    assert [key][1..] == [];
    var parts := Parts(Child(id, key));
    NoNamespace(reg, parts, |parts| - 1);
  }

  // ---- the methods ----

  class ConfigRedactor {
    const registry: Registry

    constructor (registry: Registry)
      ensures this.registry == registry
    {
      this.registry := registry;
    }

    method RedactAt(path: string, value: Tree) returns (out: Tree)
      ensures out == Redact(registry, path, value)
      decreases value, 1
    {
      if IsSecret(registry, path) {
        return MaskSubtree(value);
      }
      if value.Dict? {
        out := WalkTree(value, path);
        return;
      }
      return value;
    }

    method WalkTree(data: Tree, prefix: string) returns (out: Tree)
      requires data.Dict?
      ensures out == Walk(registry, data, prefix)
      decreases data, 0
    {
      hide IsSecret;
      var fields := map[];
      var left := data.fields.Keys;
      while left != {}
        invariant left <= data.fields.Keys && fields.Keys == data.fields.Keys - left
        invariant forall k :: k in fields ==> fields[k] == Redact(registry, Child(prefix, k), data.fields[k])
      {
        var k :| k in left;
        var v := RedactAt(Child(prefix, k), data.fields[k]);
        fields := fields[k := v];
        left := left - {k};
      }
      assert fields == Walk(registry, data, prefix).fields;
      out := Dict(fields);
    }
  }

  method FillMasked(write: Tree, current: Tree) returns (out: Tree)
    ensures out == Fill(write, current)
    decreases write
  {
    if !(write.Dict? && current.Dict?) {
      return write;
    }
    var fields := map[];
    var left := write.fields.Keys;
    while left != {}
      invariant left <= write.fields.Keys && fields.Keys == write.fields.Keys - left
      invariant forall k :: k in fields ==> fields[k] == Fill(write, current).fields[k]
    {
      var k :| k in left;
      var v := write.fields[k];
      if IsMasked(v) {
        v := if k in current.fields then current.fields[k] else Null;
      } else if v.Dict? {
        v := FillMasked(v, if k in current.fields && current.fields[k].Dict? then current.fields[k] else Dict(map[]));
      }
      fields := fields[k := v];
      left := left - {k};
    }
    assert fields == Fill(write, current).fields;
    out := Dict(fields);
  }
}
