/** Writing a version into package-lock.json in place: the two spans the scanner finds
    are replaced from the back, and every other character stays where it was. */
module LockfileSplice {
  import opened JsonText
  import opened LockfileScan
  import opened LockfileSpan
  import opened Text

  datatype Span = Span(start: nat, end: nat)

  // ---- what the writer does to the text ----

  function Clamp(n: nat, limit: nat): (r: nat)
    ensures r <= limit
  {
    if n <= limit then n else limit
  }

  /** text[:start] + new + text[end:], with Python's clamped slices. */
  function Splice(text: string, start: nat, end: nat, new_: string): string {
    text[..Clamp(start, |text|)] + (new_ + text[Clamp(end, |text|)..])
  }

  function SpliceAll(text: string, spans: seq<Span>, new_: string): string
    decreases |spans|
  {
    if spans == [] then text
    else SpliceAll(Splice(text, spans[0].start, spans[0].end, new_), spans[1..], new_)
  }

  predicate Later(a: Span, b: Span) {
    a.start > b.start || (a.start == b.start && a.end > b.end)
  }

  /** sorted(targets, reverse=True) of one or two targets. */
  function Descending(spans: seq<Span>): seq<Span> {
    if |spans| == 2 && Later(spans[1], spans[0]) then [spans[1], spans[0]] else spans
  }

  /** The spans to rewrite, or None where the source raises. */
  function Targets(text: string, decode: string -> string): Option<seq<Span>> {
    var root := Scan(text, 0, 0, Query("version", 1, decode));
    if !root.Found? then None
    else
      var first := Span(root.start, root.end);
      var packages := Scan(text, 0, 0, Query("packages", 1, decode));
      if packages.Raised? then None
      else if packages.Missing? then Some([first])
      else
        var entry := Scan(text, 0, 0, Query("", 2, decode));
        if entry.Raised? then None
        else if entry.Missing? then Some([first])
        else
          var nested := Scan(text[entry.start..entry.end], 0, 0, Query("version", 1, decode));
          if !nested.Found? then None
          else Some([first, Span(entry.start + nested.start, entry.start + nested.end)])
  }

  function Patched(text: string, version: string, decode: string -> string): Option<string> {
    var targets := Targets(text, decode);
    if targets.None? then None else Some(SpliceAll(text, Descending(targets.value), Quote(version)))
  }

  // ---- documents ----

  /** A lockfile: an object between optional whitespace. */
  datatype Document = Document(lead: string, root: Json, trail: string)

  predicate ValidDocument(doc: Document) {
    Spaces(doc.lead) && Spaces(doc.trail) && doc.root.Obj? && Valid(doc.root)
  }

  function DocText(doc: Document): string {
    doc.lead + (Print(doc.root) + doc.trail)
  }

  /** The object v with the value of member k replaced. */
  function SetMember(v: Json, k: nat, w: Json): Json
    requires v.Obj? && k < |v.members|
  {
    v.(members := v.members[k := v.members[k].(value := w)])
  }

  // ---- the text around the value of one member ----

  function Before(members: seq<Member>, k: nat): string
    requires k < |members|
  {
    if k == 0 then Label(members[0])
    else Label(members[0]) + (Print(members[0].value) + (members[0].after + ("," + Before(members[1..], k - 1))))
  }

  function After(members: seq<Member>, k: nat): string
    requires k < |members|
  {
    if k == 0 then members[0].after + (if |members| == 1 then "" else "," + PrintMembers(members[1..]))
    else After(members[1..], k - 1)
  }

  lemma {:induction false} MembersAround(members: seq<Member>, k: nat, w: Json)
    requires k < |members|
    ensures PrintMembers(members[k := members[k].(value := w)]) == Before(members, k) + (Print(w) + After(members, k))
    decreases k
  {
    hide Label, Print;
    var changed := members[k := members[k].(value := w)];
    if k == 0 {
      assert changed[1..] == members[1..];
      assert changed[0].after == members[0].after && Label(changed[0]) == Label(members[0])
          by { SameLabel(members[0], w); }
    } else {
      var rest := members[1..];
      assert changed[1..] == rest[k - 1 := rest[k - 1].(value := w)];
      MembersAround(rest, k - 1, w);
      var m := members[0];
      assert PrintMembers(changed)
          == Label(m) + (Print(m.value) + (m.after + ("," + (Before(rest, k - 1) + (Print(w) + After(rest, k - 1))))));
    }
  }

  lemma SameLabel(m: Member, w: Json)
    ensures Label(m.(value := w)) == Label(m)
  {
  }

  lemma {:induction false} BeforeLength(members: seq<Member>, k: nat)
    requires k < |members|
    ensures |Before(members, k)| == Offset(members, k)
    decreases k
  {
    hide Label, Print;
    if k > 0 {
      BeforeLength(members[1..], k - 1);
    }
  }

  function ObjBefore(v: Json, k: nat): string
    requires v.Obj? && k < |v.members|
  {
    "{" + (v.pad + Before(v.members, k))
  }

  function ObjAfter(v: Json, k: nat): string
    requires v.Obj? && k < |v.members|
  {
    After(v.members, k) + "}"
  }

  lemma ObjAround(v: Json, k: nat, w: Json)
    requires v.Obj? && k < |v.members|
    ensures Print(SetMember(v, k, w)) == ObjBefore(v, k) + (Print(w) + ObjAfter(v, k))
    ensures |ObjBefore(v, k)| == 1 + |v.pad| + Offset(v.members, k)
    ensures SetMember(v, k, v.members[k].value) == v
  {
    hide Before, After, Offset, PrintMembers;
    MembersAround(v.members, k, w);
    BeforeLength(v.members, k);
  }

  // ---- splicing text is replacing in the tree ----

  lemma SpliceInside(b: string, p: string, a: string, start: nat, end: nat, new_: string)
    requires start <= end <= |p|
    ensures Splice(b + (p + a), |b| + start, |b| + end, new_) == b + (Splice(p, start, end, new_) + a)
  {
    var text := b + (p + a);
    assert text[..|b| + start] == b + p[..start];
    assert text[|b| + end..] == p[end..] + a;
  }

  lemma SpliceMember(v: Json, k: nat, start: nat, end: nat, new_: string, w: Json)
    requires v.Obj? && k < |v.members| && start <= end <= |Print(v.members[k].value)|
    requires Print(w) == Splice(Print(v.members[k].value), start, end, new_)
    ensures var o := |ObjBefore(v, k)|;
            && Print(SetMember(v, k, w)) == Splice(Print(v), o + start, o + end, new_)
            && o + end <= |Print(v)|
  {
    hide ObjBefore, ObjAfter, Print, Splice;
    var old_ := v.members[k].value;
    ObjAround(v, k, w);
    ObjAround(v, k, old_);
    SpliceInside(ObjBefore(v, k), Print(old_), ObjAfter(v, k), start, end, new_);
  }

  lemma SpliceWhole(p: string, new_: string)
    ensures Splice(p, 0, |p|, new_) == new_
  {
    assert p[|p|..] == [] && p[..0] == [];
  }

  lemma ReplaceValue(v: Json, k: nat, w: Json)
    requires v.Obj? && k < |v.members|
    ensures var o := |ObjBefore(v, k)|;
            var end := o + |Print(v.members[k].value)|;
            && Print(SetMember(v, k, w)) == Splice(Print(v), o, end, Print(w))
            && end <= |Print(v)|
  {
    hide ObjBefore, Print, Splice;
    SpliceWhole(Print(v.members[k].value), Print(w));
    SpliceMember(v, k, 0, |Print(v.members[k].value)|, Print(w), w);
  }

  // ---- the scanner on a whole document ----

  lemma DocHolds(doc: Document)
    ensures Holds(DocText(doc), 0, doc.lead)
    ensures Holds(DocText(doc), |doc.lead|, Print(doc.root))
    ensures Holds(DocText(doc), |doc.lead| + |Print(doc.root)|, doc.trail)
    ensures |DocText(doc)| == |doc.lead| + |Print(doc.root)| + |doc.trail|
  {
    hide Print;
  }

  lemma ScanTrail(doc: Document, q: Query)
    requires ValidDocument(doc)
    ensures Scan(DocText(doc), |doc.lead| + |Print(doc.root)|, 0, q) == Missing
  {
    hide Print, Holds, Spaces, Valid;
    DocHolds(doc);
    ScanSpaces(DocText(doc), |doc.lead| + |Print(doc.root)|, doc.trail, 0, q);
  }

  /** Position of the value of member k of the root. */
  function ValueAt(doc: Document, k: nat): nat
    requires doc.root.Obj? && k < |doc.root.members|
  {
    |doc.lead| + |ObjBefore(doc.root, k)|
  }

  lemma RootScan(doc: Document, q: Query)
    requires ValidDocument(doc) && q.depth == 1
    ensures var k := FirstKey(doc.root.members, q);
            Scan(DocText(doc), 0, 0, q)
            == if k < |doc.root.members| then ValueSpan(DocText(doc), ValueAt(doc, k)) else Missing
  {
    hide Print, Holds, Spaces, Valid, Scan, ValueSpan, FirstKey, DocText, ObjBefore;
    var text := DocText(doc);
    DocHolds(doc);
    ScanSpaces(text, 0, doc.lead, 0, q);
    ScanObject(text, |doc.lead|, doc.root, 0, q);
    var k := FirstKey(doc.root.members, q);
    if k < |doc.root.members| {
      ObjAround(doc.root, k, doc.root.members[k].value);
    } else {
      ScanTrail(doc, q);
    }
  }

  lemma NestedScan(doc: Document, q: Query)
    requires ValidDocument(doc) && q.depth == 2
    ensures var j := FirstNested(doc.root.members, q);
            Scan(DocText(doc), 0, 0, q)
            == if j < |doc.root.members| then
                 var v := doc.root.members[j].value;
                 ValueSpan(DocText(doc), ValueAt(doc, j) + |ObjBefore(v, FirstKey(v.members, q))|)
               else Missing
  {
    hide Print, Holds, Spaces, Valid, ValidMembers, Scan, ValueSpan, FirstKey, FirstNested, DocText, ObjBefore, Offset;
    var text := DocText(doc);
    var v := doc.root;
    DocHolds(doc);
    ScanSpaces(text, 0, doc.lead, 0, q);
    ValidRoot(v);
    ScanRootMembers(text, |doc.lead|, v, q);
    var j := FirstNested(v.members, q);
    if j < |v.members| {
      var inner := v.members[j].value;
      var k := FirstKey(inner.members, q);
      ObjAround(v, j, inner);
      ObjAround(inner, k, inner.members[k].value);
    } else {
      ScanTrail(doc, q);
    }
  }

  lemma ScanRootMembers(text: string, i: nat, v: Json, q: Query)
    requires v.Obj? && Valid(v) && Holds(text, i, Print(v)) && q.depth == 2
    ensures var j := FirstNested(v.members, q);
            Scan(text, i, 0, q)
            == if j < |v.members| then
                 var inner := v.members[j].value;
                 ValueSpan(text, i + 1 + |v.pad| + Offset(v.members, j)
                                 + 1 + |inner.pad| + Offset(inner.members, FirstKey(inner.members, q)))
               else Scan(text, i + |Print(v)|, 0, q)
  {
    hide Print, Holds, Spaces, ValidMembers, Scan, ValueSpan, FirstKey, FirstNested, Offset;
    ObjParts(text, i, v);
    ScanStep(text, i, 0, q);
    ScanSpaces(text, i + 1, v.pad, 1, q);
    ScanOuter(text, i + 1 + |v.pad|, v.members, q);
    if FirstNested(v.members, q) == |v.members| {
      ScanStep(text, i + |Print(v)| - 1, 1, q);
    }
  }

  lemma ValidRoot(v: Json)
    requires v.Obj? && Valid(v)
    ensures ValidMembers(v.members) && Spaces(v.pad)
  {
  }

  // ---- the members the writer means to change ----

  function VersionKey(decode: string -> string): Query {
    Query("version", 1, decode)
  }

  function PackagesKey(decode: string -> string): Query {
    Query("packages", 1, decode)
  }

  /** The "" key of any object directly under the root: depth alone addresses it. */
  function EntryKey(decode: string -> string): Query {
    Query("", 2, decode)
  }

  /** The root version is a string. */
  predicate RootReady(root: Json, decode: string -> string)
    requires root.Obj?
  {
    var r := FirstKey(root.members, VersionKey(decode));
    r < |root.members| && root.members[r].value.Str?
  }

  predicate HasPackages(root: Json, decode: string -> string)
    requires root.Obj?
  {
    FirstKey(root.members, PackagesKey(decode)) < |root.members|
  }

  /** A value under "packages" is spanned as a whole. */
  predicate PackagesReady(root: Json, decode: string -> string)
    requires root.Obj?
  {
    HasPackages(root, decode) ==> Spannable(root.members[FirstKey(root.members, PackagesKey(decode))].value)
  }

  predicate HasEntry(root: Json, decode: string -> string)
    requires root.Obj?
  {
    FirstNested(root.members, EntryKey(decode)) < |root.members|
  }

  /** The member of the root that holds the first "" key. */
  function Holder(root: Json, decode: string -> string): (v: Json)
    requires root.Obj? && HasEntry(root, decode)
    ensures HasKey(v, EntryKey(decode))
  {
    root.members[FirstNested(root.members, EntryKey(decode))].value
  }

  function Entry(root: Json, decode: string -> string): Json
    requires root.Obj? && HasEntry(root, decode)
  {
    var holder := Holder(root, decode);
    holder.members[FirstKey(holder.members, EntryKey(decode))].value
  }

  /** The first "" entry is an object with a string version, and is spanned as a whole. */
  predicate EntryReady(root: Json, decode: string -> string)
    requires root.Obj?
  {
    HasPackages(root, decode) && HasEntry(root, decode) ==>
      var entry := Entry(root, decode);
      && entry.Obj? && Spannable(entry) && HasKey(entry, VersionKey(decode))
      && entry.members[FirstKey(entry.members, VersionKey(decode))].value.Str?
  }

  predicate Ready(root: Json, decode: string -> string)
    requires root.Obj?
  {
    RootReady(root, decode) && PackagesReady(root, decode) && EntryReady(root, decode)
  }

  function WithRootVersion(root: Json, version: string, decode: string -> string): Json
    requires root.Obj? && RootReady(root, decode)
  {
    SetMember(root, FirstKey(root.members, VersionKey(decode)), Str(version))
  }

  /** The holder of the first "" entry with that entry's version replaced. */
  function HolderWithVersion(root: Json, version: string, decode: string -> string): Json
    requires root.Obj? && Ready(root, decode) && HasPackages(root, decode) && HasEntry(root, decode)
  {
    var holder, entry := Holder(root, decode), Entry(root, decode);
    SetMember(holder, FirstKey(holder.members, EntryKey(decode)),
              SetMember(entry, FirstKey(entry.members, VersionKey(decode)), Str(version)))
  }

  function WithEntryVersion(root: Json, version: string, decode: string -> string): Json
    requires root.Obj? && Ready(root, decode) && HasPackages(root, decode) && HasEntry(root, decode)
  {
    SetMember(root, FirstNested(root.members, EntryKey(decode)), HolderWithVersion(root, version, decode))
  }

  /** Both versions replaced, or only the root's when there is no packages key or no "" entry. */
  function WithVersion(root: Json, version: string, decode: string -> string): Json
    requires root.Obj? && Ready(root, decode)
  {
    var r := FirstKey(root.members, VersionKey(decode));
    if HasPackages(root, decode) && HasEntry(root, decode) then
      SetMember(WithEntryVersion(root, version, decode), r, Str(version))
    else WithRootVersion(root, version, decode)
  }

  // ---- the targets ----

  function RootSpan(doc: Document, decode: string -> string): Span
    requires doc.root.Obj? && RootReady(doc.root, decode)
  {
    var r := FirstKey(doc.root.members, VersionKey(decode));
    Span(ValueAt(doc, r), ValueAt(doc, r) + |Print(doc.root.members[r].value)|)
  }

  function EntryAt(doc: Document, decode: string -> string): nat
    requires doc.root.Obj? && HasEntry(doc.root, decode)
  {
    var holder := Holder(doc.root, decode);
    ValueAt(doc, FirstNested(doc.root.members, EntryKey(decode)))
    + |ObjBefore(holder, FirstKey(holder.members, EntryKey(decode)))|
  }

  function EntrySpan(doc: Document, decode: string -> string): Span
    requires doc.root.Obj? && Ready(doc.root, decode) && HasPackages(doc.root, decode) && HasEntry(doc.root, decode)
  {
    var entry := Entry(doc.root, decode);
    var n := FirstKey(entry.members, VersionKey(decode));
    var start := EntryAt(doc, decode) + |ObjBefore(entry, n)|;
    Span(start, start + |Print(entry.members[n].value)|)
  }

  lemma MemberHolds(text: string, i: nat, v: Json, k: nat)
    requires v.Obj? && Valid(v) && k < |v.members| && Holds(text, i, Print(v))
    ensures Holds(text, i + |ObjBefore(v, k)|, Print(v.members[k].value))
    ensures Valid(v.members[k].value)
  {
    hide Print, Holds, Spaces, Start, ObjBefore, NotKey;
    ObjParts(text, i, v);
    HoldsMember(text, i + 1 + |v.pad|, v.members, k);
    ObjAround(v, k, v.members[k].value);
    ValidAt(v.members, k);
  }

  lemma {:induction false} ValidAt(members: seq<Member>, k: nat)
    requires ValidMembers(members) && k < |members|
    ensures ValidMember(members[k])
    decreases k
  {
    if k > 0 {
      ValidAt(members[1..], k - 1);
    }
  }

  lemma RootTarget(doc: Document, q: Query)
    requires ValidDocument(doc) && q.depth == 1
    requires var k := FirstKey(doc.root.members, q);
             k < |doc.root.members| ==> Spannable(doc.root.members[k].value)
    ensures var k := FirstKey(doc.root.members, q);
            Scan(DocText(doc), 0, 0, q)
            == if k < |doc.root.members| then
                Found(ValueAt(doc, k), ValueAt(doc, k) + |Print(doc.root.members[k].value)|)
               else Missing
  {
    hide Print, Holds, Spaces, Scan, ValueSpan, FirstKey, DocText, ObjBefore, Spannable;
    RootScan(doc, q);
    var k := FirstKey(doc.root.members, q);
    if k < |doc.root.members| {
      DocHolds(doc);
      MemberHolds(DocText(doc), |doc.lead|, doc.root, k);
      SpanOfValue(DocText(doc), ValueAt(doc, k), doc.root.members[k].value);
    }
  }

  lemma EntryHolds(doc: Document, decode: string -> string)
    requires ValidDocument(doc) && HasEntry(doc.root, decode)
    ensures Holds(DocText(doc), EntryAt(doc, decode), Print(Entry(doc.root, decode))) && Valid(Entry(doc.root, decode))
  {
    hide Print, Holds, Spaces, DocText, ObjBefore, FirstKey, FirstNested;
    var j := FirstNested(doc.root.members, EntryKey(decode));
    var holder := doc.root.members[j].value;
    DocHolds(doc);
    MemberHolds(DocText(doc), |doc.lead|, doc.root, j);
    MemberHolds(DocText(doc), ValueAt(doc, j), holder, FirstKey(holder.members, EntryKey(decode)));
  }

  lemma EntryTarget(doc: Document, decode: string -> string)
    requires ValidDocument(doc)
    requires HasEntry(doc.root, decode) ==> Spannable(Entry(doc.root, decode))
    ensures Scan(DocText(doc), 0, 0, EntryKey(decode))
            == if HasEntry(doc.root, decode) then
                 Found(EntryAt(doc, decode), EntryAt(doc, decode) + |Print(Entry(doc.root, decode))|)
               else Missing
  {
    hide Print, Holds, Spaces, Scan, ValueSpan, FirstKey, FirstNested, DocText, ObjBefore, Spannable, Valid;
    NestedScan(doc, EntryKey(decode));
    if HasEntry(doc.root, decode) {
      EntryHolds(doc, decode);
      SpanOfValue(DocText(doc), EntryAt(doc, decode), Entry(doc.root, decode));
    }
  }

  /** The version key inside the text of the entry itself. */
  lemma VersionTarget(entry: Json, decode: string -> string)
    requires entry.Obj? && Valid(entry) && HasKey(entry, VersionKey(decode))
    requires entry.members[FirstKey(entry.members, VersionKey(decode))].value.Str?
    ensures var n := FirstKey(entry.members, VersionKey(decode));
            var o := |ObjBefore(entry, n)|;
            Scan(Print(entry), 0, 0, VersionKey(decode)) == Found(o, o + |Print(entry.members[n].value)|)
  {
    hide Print, Scan, ObjBefore, FirstKey, Valid;
    var doc := Document("", entry, "");
    assert DocText(doc) == Print(entry);
    RootTarget(doc, VersionKey(decode));
  }

  lemma ReadyTargets(doc: Document, decode: string -> string)
    requires ValidDocument(doc) && Ready(doc.root, decode)
    ensures Targets(DocText(doc), decode)
            == if HasPackages(doc.root, decode) && HasEntry(doc.root, decode)
               then Some([RootSpan(doc, decode), EntrySpan(doc, decode)])
               else Some([RootSpan(doc, decode)])
  {
    hide Print, Scan, FirstKey, FirstNested, DocText, ObjBefore, Valid, ValueSpan;
    RootTarget(doc, VersionKey(decode));
    RootTarget(doc, PackagesKey(decode));
    if HasPackages(doc.root, decode) {
      EntryTarget(doc, decode);
      if HasEntry(doc.root, decode) {
        EntryHolds(doc, decode);
        VersionTarget(Entry(doc.root, decode), decode);
      }
    }
  }

  // ---- the splices in the tree ----

  lemma SpliceDoc(doc: Document, start: nat, end: nat, new_: string, root: Json)
    requires start <= end <= |Print(doc.root)| && Print(root) == Splice(Print(doc.root), start, end, new_)
    ensures Splice(DocText(doc), |doc.lead| + start, |doc.lead| + end, new_) == DocText(doc.(root := root))
  {
    hide Print, Splice;
    SpliceInside(doc.lead, Print(doc.root), doc.trail, start, end, new_);
  }

  /** Replacing the span of a root member's value replaces that value. */
  lemma SpliceValue(doc: Document, r: nat, raw: string)
    requires doc.root.Obj? && r < |doc.root.members|
    ensures Splice(DocText(doc), ValueAt(doc, r), ValueAt(doc, r) + |Print(doc.root.members[r].value)|, Quote(raw))
            == DocText(doc.(root := SetMember(doc.root, r, Str(raw))))
  {
    hide Splice, ObjBefore, DocText, PrintMembers;
    ReplaceValue(doc.root, r, Str(raw));
    var o := |ObjBefore(doc.root, r)|;
    SpliceDoc(doc, o, o + |Print(doc.root.members[r].value)|, Quote(raw), SetMember(doc.root, r, Str(raw)));
  }

  predicate Path(root: Json, j: nat, k: nat, n: nat) {
    && root.Obj? && j < |root.members| && root.members[j].value.Obj?
    && k < |root.members[j].value.members| && root.members[j].value.members[k].value.Obj?
    && n < |root.members[j].value.members[k].value.members|
  }

  function SetPath(root: Json, j: nat, k: nat, n: nat, w: Json): Json
    requires Path(root, j, k, n)
  {
    var v := root.members[j].value;
    SetMember(root, j, SetMember(v, k, SetMember(v.members[k].value, n, w)))
  }

  /** Position, inside the printed member j of the root, of the value two objects further down. */
  function InnerAt(root: Json, j: nat, k: nat, n: nat): nat
    requires Path(root, j, k, n)
  {
    var v := root.members[j].value;
    |ObjBefore(v, k)| + |ObjBefore(v.members[k].value, n)|
  }

  lemma SplicePath(doc: Document, j: nat, k: nat, n: nat, raw: string)
    requires Path(doc.root, j, k, n)
    ensures var v := doc.root.members[j].value;
            var start := ValueAt(doc, j) + InnerAt(doc.root, j, k, n);
            var end := start + |Print(v.members[k].value.members[n].value)|;
            && Splice(DocText(doc), start, end, Quote(raw))
                == DocText(doc.(root := SetPath(doc.root, j, k, n, Str(raw))))
            && end <= ValueAt(doc, j) + |Print(v)|
  {
    hide Splice, ObjBefore, DocText, PrintMembers, Print;
    var holder := doc.root.members[j].value;
    var entry := holder.members[k].value;
    var new_ := Quote(raw);
    var old_ := entry.members[n].value;
    PrintStr(raw);
    ReplaceValue(entry, n, Str(raw));
    var o1 := |ObjBefore(entry, n)|;
    var entry1 := SetMember(entry, n, Str(raw));
    SpliceMember(holder, k, o1, o1 + |Print(old_)|, new_, entry1);
    var o2 := |ObjBefore(holder, k)| + o1;
    var holder1 := SetMember(holder, k, entry1);
    SpliceMember(doc.root, j, o2, o2 + |Print(old_)|, new_, holder1);
    var o3 := |ObjBefore(doc.root, j)| + o2;
    SpliceDoc(doc, o3, o3 + |Print(old_)|, new_, SetMember(doc.root, j, holder1));
  }

  lemma PrintStr(raw: string)
    ensures Print(Str(raw)) == Quote(raw)
  {
  }

  lemma {:induction false} BeforeGrows(members: seq<Member>, a: nat, b: nat)
    requires a < b < |members|
    ensures |Before(members, a)| + |Print(members[a].value)| < |Before(members, b)|
    decreases a
  {
    hide Label, Print;
    if a > 0 {
      BeforeGrows(members[1..], a - 1, b - 1);
    } else {
      BeforeStarts(members, b);
    }
  }

  lemma BeforeStarts(members: seq<Member>, b: nat)
    requires 0 < b < |members|
    ensures |Before(members, b)| > |Before(members, 0)| + |Print(members[0].value)|
  {
  }

  lemma {:induction false} BeforeStable(members: seq<Member>, a: nat, b: nat, w: Json)
    requires a < b < |members|
    ensures Before(members[b := members[b].(value := w)], a) == Before(members, a)
    decreases a
  {
    hide Label, Print;
    var changed := members[b := members[b].(value := w)];
    if a > 0 {
      assert changed[1..] == members[1..][b - 1 := members[1..][b - 1].(value := w)];
      BeforeStable(members[1..], a - 1, b - 1, w);
    }
  }

  lemma ObjBeforeStable(v: Json, a: nat, b: nat, w: Json)
    requires v.Obj? && a < b < |v.members|
    ensures ObjBefore(SetMember(v, b, w), a) == ObjBefore(v, a)
  {
    BeforeStable(v.members, a, b, w);
  }

  lemma ObjBeforeGrows(v: Json, a: nat, b: nat)
    requires v.Obj? && a < b < |v.members|
    ensures |ObjBefore(v, a)| + |Print(v.members[a].value)| < |ObjBefore(v, b)|
  {
    BeforeGrows(v.members, a, b);
  }

  /** Two values of the root, one of them deep inside its member: whichever comes
      later is spliced first, and both end up replaced. */
  lemma SpliceBoth(doc: Document, r: nat, j: nat, k: nat, n: nat, raw: string)
    requires Path(doc.root, j, k, n) && r < |doc.root.members| && r != j
    requires |Print(doc.root.members[r].value)| > 0
    ensures var a := Span(ValueAt(doc, r), ValueAt(doc, r) + |Print(doc.root.members[r].value)|);
            var start := ValueAt(doc, j) + InnerAt(doc.root, j, k, n);
            var b := Span(start, start + |Print(doc.root.members[j].value.members[k].value.members[n].value)|);
            && (a.end <= b.start || b.end <= a.start)
            && SpliceAll(DocText(doc), Descending([a, b]), Quote(raw))
               == DocText(doc.(root := SetMember(SetPath(doc.root, j, k, n, Str(raw)), r, Str(raw))))
  {
    hide Splice, ObjBefore, DocText, Print;
    var a := Span(ValueAt(doc, r), ValueAt(doc, r) + |Print(doc.root.members[r].value)|);
    var start := ValueAt(doc, j) + InnerAt(doc.root, j, k, n);
    var b := Span(start, start + |Print(doc.root.members[j].value.members[k].value.members[n].value)|);
    var new_ := Quote(raw);
    SplicePath(doc, j, k, n, raw);
    SpliceValue(doc, r, raw);
    if r < j {
      ObjBeforeGrows(doc.root, r, j);
      var doc1 := doc.(root := SetPath(doc.root, j, k, n, Str(raw)));
      ObjBeforeStable(doc.root, r, j, doc1.root.members[j].value);
      SpliceValue(doc1, r, raw);
      SpliceTwo(DocText(doc), b, a, new_);
    } else {
      ObjBeforeGrows(doc.root, j, r);
      var doc1 := doc.(root := SetMember(doc.root, r, Str(raw)));
      ObjBeforeStable(doc.root, j, r, Str(raw));
      SplicePath(doc1, j, k, n, raw);
      SpliceTwo(DocText(doc), a, b, new_);
      SetCommutes(doc.root, r, Str(raw), j, SetPath(doc.root, j, k, n, Str(raw)).members[j].value);
    }
  }

  lemma SpliceTwo(text: string, first: Span, second: Span, new_: string)
    ensures SpliceAll(text, [first, second], new_)
         == Splice(Splice(text, first.start, first.end, new_), second.start, second.end, new_)
  {
    hide Splice;
    assert [first, second][1..] == [second];
    SpliceOne(Splice(text, first.start, first.end, new_), second, new_);
  }

  lemma SpliceOne(text: string, span: Span, new_: string)
    ensures SpliceAll(text, [span], new_) == Splice(text, span.start, span.end, new_)
  {
    assert [span][1..] == [];
  }

  lemma SetCommutes(v: Json, r: nat, a: Json, j: nat, b: Json)
    requires v.Obj? && r < |v.members| && j < |v.members| && r != j
    ensures SetMember(SetMember(v, r, a), j, b) == SetMember(SetMember(v, j, b), r, a)
  {
    assert SetMember(SetMember(v, r, a), j, b).members == SetMember(SetMember(v, j, b), r, a).members;
  }

  /** The writer turns the text of a lockfile into the text of the same lockfile with
      only the addressed versions changed: layout, order and every other value stay. */
  lemma PatchWrites(doc: Document, version: string, decode: string -> string)
    requires ValidDocument(doc) && Ready(doc.root, decode)
    ensures Patched(DocText(doc), version, decode)
            == Some(DocText(doc.(root := WithVersion(doc.root, version, decode))))
  {
    hide Splice, ObjBefore, DocText, Print, Valid, FirstKey, FirstNested, Targets;
    ReadyTargets(doc, decode);
    var r := FirstKey(doc.root.members, VersionKey(decode));
    if HasPackages(doc.root, decode) && HasEntry(doc.root, decode) {
      var j := FirstNested(doc.root.members, EntryKey(decode));
      var holder, entry := Holder(doc.root, decode), Entry(doc.root, decode);
      var k, n := FirstKey(holder.members, EntryKey(decode)), FirstKey(entry.members, VersionKey(decode));
      StrPrints(doc.root.members[r].value);
      SpliceBoth(doc, r, j, k, n, version);
    } else {
      SpliceValue(doc, r, version);
      SpliceOne(DocText(doc), RootSpan(doc, decode), Quote(version));
    }
  }

  lemma StrPrints(v: Json)
    requires v.Str?
    ensures |Print(v)| > 0
  {
  }

  lemma {:induction false} ValidSetAt(members: seq<Member>, k: nat, w: Json)
    requires ValidMembers(members) && k < |members| && Valid(w)
    ensures ValidMembers(members[k := members[k].(value := w)])
    decreases k
  {
    hide Valid, Spaces, ValidRaw;
    var changed := members[k := members[k].(value := w)];
    if k == 0 {
      assert changed[1..] == members[1..];
    } else {
      assert changed[1..] == members[1..][k - 1 := members[1..][k - 1].(value := w)];
      ValidSetAt(members[1..], k - 1, w);
    }
  }

  lemma ValidSet(v: Json, k: nat, w: Json)
    requires v.Obj? && Valid(v) && k < |v.members| && Valid(w)
    ensures Valid(SetMember(v, k, w)) && Valid(v.members[k].value)
  {
    ValidSetAt(v.members, k, w);
    ValidAt(v.members, k);
  }

  /** The patched lockfile is a document again. */
  lemma PatchStaysValid(doc: Document, version: string, decode: string -> string)
    requires ValidDocument(doc) && Ready(doc.root, decode) && ValidRaw(version)
    ensures ValidDocument(doc.(root := WithVersion(doc.root, version, decode)))
  {
    hide Spaces, Valid, FirstKey, FirstNested, ValidRaw, NoBracketStrings;
    var root, w := doc.root, Str(version);
    assert Valid(w) by { StrValid(version); }
    var r := FirstKey(root.members, VersionKey(decode));
    if HasPackages(root, decode) && HasEntry(root, decode) {
      var j := FirstNested(root.members, EntryKey(decode));
      var holder, entry := Holder(root, decode), Entry(root, decode);
      ValidSet(root, j, w);
      ValidSet(holder, FirstKey(holder.members, EntryKey(decode)), w);
      ValidSet(entry, FirstKey(entry.members, VersionKey(decode)), w);
      ValidSet(holder, FirstKey(holder.members, EntryKey(decode)),
               SetMember(entry, FirstKey(entry.members, VersionKey(decode)), w));
      ValidSet(root, j, HolderWithVersion(root, version, decode));
      ValidSet(WithEntryVersion(root, version, decode), r, w);
    } else {
      ValidSet(root, r, w);
    }
  }

  lemma StrValid(raw: string)
    requires ValidRaw(raw)
    ensures Valid(Str(raw))
  {
  }

  /** packages holds a "" key and no earlier member of the root does: the lookup of the
      entry is by depth over the whole file. */
  predicate EntryInPackages(root: Json, decode: string -> string)
    requires root.Obj? && HasPackages(root, decode)
  {
    var p := FirstKey(root.members, PackagesKey(decode));
    && HasKey(root.members[p].value, EntryKey(decode))
    && forall i :: 0 <= i < p ==> !HasKey(root.members[i].value, EntryKey(decode))
  }

  lemma {:induction false} FirstNestedIs(members: seq<Member>, q: Query, p: nat)
    requires p < |members|
    ensures FirstNested(members, q) == p
       <==> HasKey(members[p].value, q) && forall i :: 0 <= i < p ==> !HasKey(members[i].value, q)
    decreases p
  {
    hide HasKey;
    if p > 0 {
      FirstNestedIs(members[1..], q, p - 1);
      assert forall i :: 1 <= i < p ==> members[i] == members[1..][i - 1];
      assert forall i :: 0 <= i < p - 1 ==> members[1..][i] == members[i + 1];
    }
  }

  /** The second version goes into packages[""] if and only if packages holds a "" key and
      no earlier member of the root does; otherwise packages stays as it was and the first
      member that does hold one is written to. No other member changes. */
  lemma EntryUnderPackages(root: Json, version: string, decode: string -> string)
    requires root.Obj? && Ready(root, decode) && HasPackages(root, decode) && HasEntry(root, decode)
    ensures var p, j := FirstKey(root.members, PackagesKey(decode)), FirstNested(root.members, EntryKey(decode));
            var changed := WithVersion(root, version, decode);
            && (j == p <==> EntryInPackages(root, decode))
            && (j != p ==> changed.members[p] == root.members[p])
            && (forall i :: 0 <= i < |root.members| && i != j && i != FirstKey(root.members, VersionKey(decode)) ==>
                  changed.members[i] == root.members[i])
            && changed.members[j].value == HolderWithVersion(root, version, decode)
            && |changed.members| == |root.members|
  {
    hide FirstKey, FirstNested;
    var p, r := FirstKey(root.members, PackagesKey(decode)), FirstKey(root.members, VersionKey(decode));
    assert p != r;
    FirstNestedIs(root.members, EntryKey(decode), p);
  }

  /** Without a root version the writer raises and writes nothing. */
  lemma MissingVersionFails(doc: Document, version: string, decode: string -> string)
    requires ValidDocument(doc) && FirstKey(doc.root.members, VersionKey(decode)) == |doc.root.members|
    ensures Patched(DocText(doc), version, decode) == None
  {
    hide DocText, Valid, FirstKey;
    RootTarget(doc, VersionKey(decode));
  }

  // ---- a lockfile where depth alone picks the wrong entry ----

  /** Keys without escapes decode to themselves. */
  predicate KeepsKeys(decode: string -> string) {
    decode("version") == "version" && decode("packages") == "packages" && decode("x") == "x" && decode("") == ""
  }

  function Plain(key: string, value: Json): Member {
    Member("", key, "", "", value, "")
  }

  function Versioned(version: string): Json {
    Obj("", [Plain("version", Str(version))])
  }

  function Package(version: string): Json {
    Obj("", [Plain("", Versioned(version))])
  }

  /** {"version":a,"x":{"":{"version":b}},"packages":{"":{"version":c}}} */
  function Stray(a: string, b: string, c: string): Json {
    Obj("", [Plain("version", Str(a)), Plain("x", Package(b)), Plain("packages", Package(c))])
  }

  lemma StrayKeys(a: string, b: string, c: string, decode: string -> string)
    requires KeepsKeys(decode)
    ensures var ms := Stray(a, b, c).members;
            && FirstKey(ms, VersionKey(decode)) == 0
            && FirstKey(ms, PackagesKey(decode)) == 2
            && FirstNested(ms, EntryKey(decode)) == 1
            && FirstKey(Package(b).members, EntryKey(decode)) == 0
            && FirstKey(Versioned(b).members, VersionKey(decode)) == 0
  {
    var ms := Stray(a, b, c).members;
    assert "version"[0] == 'v' && "packages"[0] == 'p' && "x"[0] == 'x';
    assert ms[1..] == [Plain("x", Package(b)), Plain("packages", Package(c))];
    assert ms[1..][1..] == [Plain("packages", Package(c))];
    var q := PackagesKey(decode);
    assert q.decode("version") != q.key && q.decode("x") != q.key;
    assert FirstKey(ms[1..][1..], q) == 0;
    assert FirstKey(ms[1..], q) == 1;
    assert HasKey(Package(b), EntryKey(decode)) && !HasKey(Str(a), EntryKey(decode));
    assert FirstNested(ms[1..], EntryKey(decode)) == 0;
  }

  lemma {:induction false} PlainRaw(s: string)
    requires forall k :: 0 <= k < |s| ==> s[k] != '"' && s[k] != '\\'
    ensures ValidRaw(s)
  {
    if s != [] {
      PlainRaw(s[1..]);
    }
  }

  lemma PlainMember(key: string, v: Json)
    requires Valid(v) && forall k :: 0 <= k < |key| ==> key[k] != '"' && key[k] != '\\' && !Bracket(key[k])
    ensures ValidMember(Plain(key, v))
    ensures Valid(Obj("", [Plain(key, v)]))
    ensures NoBracketStrings(v) ==> NoBracketStrings(Obj("", [Plain(key, v)]))
  {
    PlainRaw(key);
    assert [Plain(key, v)][1..] == [];
  }

  lemma PackageValid(version: string)
    requires ValidRaw(version) && NoBracket(version)
    ensures Valid(Package(version)) && NoBracketStrings(Package(version)) && NoBracketStrings(Versioned(version))
    ensures Spannable(Package(version)) && Spannable(Versioned(version))
  {
    hide NoBracket;
    assert NoBracketStrings(Str(version)) && Valid(Str(version));
    PlainMember("version", Str(version));
    PlainMember("", Versioned(version));
    PlainSpannable(Versioned(version));
    PlainSpannable(Package(version));
  }

  lemma StrayValid(a: string, b: string, c: string)
    requires ValidRaw(a) && ValidRaw(b) && ValidRaw(c) && NoBracket(b) && NoBracket(c)
    ensures Valid(Stray(a, b, c))
  {
    hide NoBracket, ValidMember, Package, ValidRaw, Spannable;
    PackageValid(b);
    PackageValid(c);
    assert Valid(Str(a));
    PlainMember("version", Str(a));
    PlainMember("x", Package(b));
    PlainMember("packages", Package(c));
    ThreeValid(Plain("version", Str(a)), Plain("x", Package(b)), Plain("packages", Package(c)));
  }

  lemma ThreeValid(a: Member, b: Member, c: Member)
    requires ValidMember(a) && ValidMember(b) && ValidMember(c)
    ensures Valid(Obj("", [a, b, c]))
  {
    hide ValidMember;
    assert [a, b, c][1..] == [b, c] && [b, c][1..] == [c] && [c][1..] == [];
    assert ValidMembers([c]) && ValidMembers([b, c]);
  }

  lemma SetOnly(key: string, v: Json, w: Json)
    ensures SetMember(Obj("", [Plain(key, v)]), 0, w) == Obj("", [Plain(key, w)])
  {
    assert [Plain(key, v)][0 := Plain(key, v).(value := w)] == [Plain(key, w)];
  }

  /** A "" key in an earlier member of the root takes the write meant for packages. */
  lemma StrayEntryPatched(a: string, b: string, c: string, version: string, decode: string -> string)
    requires KeepsKeys(decode)
    requires ValidRaw(a) && ValidRaw(b) && ValidRaw(c) && NoBracket(b) && NoBracket(c)
    ensures Patched(Print(Stray(a, b, c)), version, decode) == Some(Print(Stray(version, version, c)))
  {
    hide Valid, NoBracketStrings, FirstKey, FirstNested, Print, Patched;
    var doc := Document("", Stray(a, b, c), "");
    var done := Document("", Stray(version, version, c), "");
    StrayValid(a, b, c);
    PackageValid(b);
    PackageValid(c);
    StrayKeys(a, b, c, decode);
    assert Ready(doc.root, decode);
    PatchWrites(doc, version, decode);
    EntryUnderPackages(doc.root, version, decode);
    SetOnly("version", Str(b), Str(version));
    SetOnly("", Versioned(b), Versioned(version));
    assert HolderWithVersion(doc.root, version, decode) == Package(version);
    var ms := doc.root.members;
    assert ms[1 := ms[1].(value := Package(version))][0 := ms[0].(value := Str(version))] == done.root.members;
    assert DocText(doc) == Print(doc.root) && DocText(done) == Print(done.root);
  }

  /** {"version":a,"packages":{},"x":{"":{"version":b}}} */
  function Hollow(a: string, b: string): Json {
    Obj("", [Plain("version", Str(a)), Plain("packages", Obj("", [])), Plain("x", Package(b))])
  }

  lemma HollowKeys(a: string, b: string, decode: string -> string)
    requires KeepsKeys(decode)
    ensures var ms := Hollow(a, b).members;
            && FirstKey(ms, VersionKey(decode)) == 0
            && FirstKey(ms, PackagesKey(decode)) == 1
            && FirstNested(ms, EntryKey(decode)) == 2
            && FirstKey(Package(b).members, EntryKey(decode)) == 0
            && FirstKey(Versioned(b).members, VersionKey(decode)) == 0
  {
    var ms := Hollow(a, b).members;
    assert "version"[0] == 'v' && "packages"[0] == 'p';
    var rest := [Plain("packages", Obj("", [])), Plain("x", Package(b))];
    assert ms[1..] == rest && rest[1..] == [Plain("x", Package(b))];
    assert FirstKey(rest, PackagesKey(decode)) == 0;
    assert FirstKey(ms, PackagesKey(decode)) == 1;
    var q := EntryKey(decode);
    assert HasKey(Package(b), q) && !HasKey(Str(a), q) && !HasKey(Obj("", []), q);
    assert FirstNested(rest[1..], q) == 0;
    assert FirstNested(rest, q) == 1;
  }

  lemma HollowReady(a: string, b: string, decode: string -> string)
    requires KeepsKeys(decode)
    requires ValidRaw(a) && ValidRaw(b) && NoBracket(b)
    ensures ValidDocument(Document("", Hollow(a, b), "")) && Ready(Hollow(a, b), decode)
    ensures HasPackages(Hollow(a, b), decode) && HasEntry(Hollow(a, b), decode)
  {
    hide ValidRaw, NoBracket, FirstKey, FirstNested, ValidMember, Package, Spannable;
    HollowKeys(a, b, decode);
    PackageValid(b);
    assert Valid(Str(a)) && Valid(Obj("", [])) && NoBracketStrings(Obj("", []));
    PlainSpannable(Obj("", []));
    PlainMember("version", Str(a));
    PlainMember("packages", Obj("", []));
    PlainMember("x", Package(b));
    ThreeValid(Plain("version", Str(a)), Plain("packages", Obj("", [])), Plain("x", Package(b)));
    assert Package(b).Obj? && Package(b).members[0].value == Versioned(b) by { PackageParts(b); }
  }

  lemma PackageParts(b: string)
    ensures Package(b) == Obj("", [Plain("", Versioned(b))])
  {
  }

  lemma HollowWithVersion(a: string, b: string, version: string, decode: string -> string)
    requires KeepsKeys(decode)
    requires ValidRaw(a) && ValidRaw(b) && NoBracket(b)
    ensures Ready(Hollow(a, b), decode) && WithVersion(Hollow(a, b), version, decode) == Hollow(version, version)
  {
    hide Valid, NoBracketStrings, FirstKey, FirstNested, ValidRaw, NoBracket;
    HollowKeys(a, b, decode);
    HollowReady(a, b, decode);
    var root := Hollow(a, b);
    EntryUnderPackages(root, version, decode);
    SetOnly("version", Str(b), Str(version));
    SetOnly("", Versioned(b), Versioned(version));
    assert HolderWithVersion(root, version, decode) == Package(version);
    assert root.members[2 := root.members[2].(value := Package(version))][0 := root.members[0].(value := Str(version))]
        == Hollow(version, version).members;
  }

  /** An empty packages and a "" key in a later member: that member takes the write. */
  lemma HollowPackagesPatched(a: string, b: string, version: string, decode: string -> string)
    requires KeepsKeys(decode)
    requires ValidRaw(a) && ValidRaw(b) && NoBracket(b)
    ensures Patched(Print(Hollow(a, b)), version, decode) == Some(Print(Hollow(version, version)))
  {
    hide Valid, Print, Patched, WithVersion, Ready;
    var doc, done := Document("", Hollow(a, b), ""), Document("", Hollow(version, version), "");
    HollowReady(a, b, decode);
    HollowWithVersion(a, b, version, decode);
    PatchWrites(doc, version, decode);
    assert DocText(doc) == Print(doc.root) && DocText(done) == Print(done.root);
  }

  // ---- a lockfile the writer cannot take ----

  function BracketEntry(b: string): Json {
    Obj("", [Plain("x", Str("}")), Plain("version", Str(b))])
  }

  /** {"version":a,"packages":{"":{"x":"}","version":b}}} */
  function Bracketed(a: string, b: string): Json {
    Obj("", [Plain("version", Str(a)), Plain("packages", Obj("", [Plain("", BracketEntry(b))]))])
  }

  lemma BracketedKeys(a: string, b: string, decode: string -> string)
    requires KeepsKeys(decode)
    ensures var ms := Bracketed(a, b).members;
            && FirstKey(ms, VersionKey(decode)) < |ms| && FirstKey(ms, PackagesKey(decode)) < |ms|
            && FirstNested(ms, EntryKey(decode)) == 1
            && HasKey(ms[1].value, EntryKey(decode)) && FirstKey(ms[1].value.members, EntryKey(decode)) == 0
  {
    var ms := Bracketed(a, b).members;
    assert "version"[0] == 'v' && "packages"[0] == 'p';
    var rest := [Plain("packages", Obj("", [Plain("", BracketEntry(b))]))];
    assert ms[1..] == rest;
    assert FirstKey(rest, PackagesKey(decode)) == 0;
    assert FirstKey(ms, VersionKey(decode)) == 0;
    assert FirstKey(ms, PackagesKey(decode)) <= 1;
    var q := EntryKey(decode);
    assert HasKey(rest[0].value, q) && !HasKey(Str(a), q);
    assert FirstNested(rest, q) == 0;
  }

  lemma BracketedValid(a: string, b: string)
    requires ValidRaw(a) && ValidRaw(b)
    ensures Valid(Bracketed(a, b)) && Bracketed(a, b).Obj?
  {
    hide ValidRaw, ValidMember;
    assert ValidRaw("}") by { PlainRaw("}"); }
    PlainRaw("version");
    PlainRaw("x");
    assert Valid(Str("}")) && Valid(Str(a)) && Valid(Str(b)) by { StrValid("}"); StrValid(a); StrValid(b); }
    PlainMember("x", Str("}"));
    PlainMember("version", Str(b));
    PlainMember("version", Str(a));
    TwoValid(Plain("x", Str("}")), Plain("version", Str(b)));
    PlainMember("", BracketEntry(b));
    var holder := Obj("", [Plain("", BracketEntry(b))]);
    PlainMember("packages", holder);
    TwoValid(Plain("version", Str(a)), Plain("packages", holder));
  }

  lemma TwoValid(a: Member, b: Member)
    requires ValidMember(a) && ValidMember(b)
    ensures Valid(Obj("", [a, b]))
  {
    hide ValidMember;
    assert [a, b][1..] == [b] && [b][1..] == [];
    assert ValidMembers([b]);
  }

  const CUT := "{\"x\":\"}"

  /** The brackets of the entry balance inside its first string. */
  lemma CutBalances()
    ensures |CUT| == 7 && Balanced(CUT) && Delta(CUT[6]) == -1
  {
    hide Balanced;
    var d := CUT;
    assert d[..0] == [] && d[..7] == d;
    DepthStep(d, 0);
    DepthStep(d, 1);
    DepthStep(d, 2);
    DepthStep(d, 3);
    DepthStep(d, 4);
    DepthStep(d, 5);
    DepthStep(d, 6);
    CutDepths(d);
  }

  lemma CutDepths(d: string)
    requires |d| == 7 && DepthAfter(d) == 0
    requires DepthAfter(d[..1]) > 0 && DepthAfter(d[..2]) > 0 && DepthAfter(d[..3]) > 0
    requires DepthAfter(d[..4]) > 0 && DepthAfter(d[..5]) > 0 && DepthAfter(d[..6]) > 0
    ensures Balanced(d)
  {
    hide DepthAfter;
  }

  /** What is left of the entry ends inside a string. */
  lemma CutScan(decode: string -> string)
    requires KeepsKeys(decode)
    ensures Scan(CUT, 0, 0, VersionKey(decode)) == Raised
  {
    var q := VersionKey(decode);
    assert CUT[2..3] == "x" && "x"[0] == 'x' && "version"[0] == 'v';
    assert BodyEnd(CUT, 3) == At(4) && BodyEnd(CUT, 2) == At(4);
    assert BodyEnd(CUT, 7) == Nowhere && BodyEnd(CUT, 6) == Nowhere;
    assert SpacesEnd(CUT, 4) == 4;
    assert Scan(CUT, 5, 1, q) == Raised;
    assert Scan(CUT, 4, 1, q) == Raised;
    assert Scan(CUT, 1, 1, q) == Raised;
  }

  lemma BracketEntryText(b: string)
    ensures Print(BracketEntry(b)) == CUT + ("\"," + (PrintMembers([Plain("version", Str(b))]) + "}"))
  {
    hide Label;
    var ms := [Plain("x", Str("}")), Plain("version", Str(b))];
    assert ms[1..] == [Plain("version", Str(b))];
    assert Label(ms[0]) == "\"x\":" by { LabelOfX(ms[0]); }
    assert Print(Str("}")) == "\"}\"";
    var more := PrintMembers(ms[1..]);
    assert PrintMembers(ms) == "\"x\":" + ("\"}\"" + ("" + ("," + more)));
    assert "{" + ("" + (PrintMembers(ms) + "}")) == CUT + ("\"," + (more + "}"));
  }

  lemma LabelOfX(m: Member)
    requires m.pre == "" && m.key == "x" && m.mid == "" && m.post == ""
    ensures Label(m) == "\"x\":"
  {
  }

  /** A well-formed lockfile with a closing bracket inside a string of its "" entry, before
      the version: the span of the entry is cut short and the writer raises. */
  lemma BracketInStringFails(a: string, b: string, version: string, decode: string -> string)
    requires KeepsKeys(decode) && ValidRaw(a) && ValidRaw(b)
    ensures var doc := Document("", Bracketed(a, b), "");
            ValidDocument(doc) && Patched(DocText(doc), version, decode) == None
  {
    hide Valid, Print, DocText, Scan, Bracketed, KeepsKeys;
    var doc := Document("", Bracketed(a, b), "");
    BracketedValid(a, b);
    BracketedPackages(doc, a, b, decode);
    var at := BracketedScan(doc, a, b, decode);
    CutScan(decode);
  }

  lemma BracketedPackages(doc: Document, a: string, b: string, decode: string -> string)
    requires KeepsKeys(decode) && ValidDocument(doc) && doc.root == Bracketed(a, b)
    ensures !Scan(DocText(doc), 0, 0, PackagesKey(decode)).Missing?
  {
    hide Valid, FirstKey, FirstNested, Print, DocText, ObjBefore, Scan, Bracketed, KeepsKeys, ValueSpan;
    BracketedKeys(a, b, decode);
    RootScan(doc, PackagesKey(decode));
    NeverMissing(DocText(doc), ValueAt(doc, FirstKey(doc.root.members, PackagesKey(decode))));
  }

  lemma NeverMissing(text: string, i: nat)
    ensures !ValueSpan(text, i).Missing?
  {
  }

  lemma BracketedScan(doc: Document, a: string, b: string, decode: string -> string) returns (at: nat)
    requires KeepsKeys(decode) && ValidDocument(doc) && doc.root == Bracketed(a, b)
    ensures at + 7 <= |DocText(doc)| && DocText(doc)[at..at + 7] == CUT
    ensures Scan(DocText(doc), 0, 0, EntryKey(decode)) == Found(at, at + 7)
  {
    hide Valid, FirstKey, FirstNested, Print, DocText, ObjBefore, Scan, Holds, ValueSpan, Bracketed, KeepsKeys;
    var text := DocText(doc);
    BracketedKeys(a, b, decode);
    NestedScan(doc, EntryKey(decode));
    BracketedEntry(a, b, decode);
    EntryHolds(doc, decode);
    at := EntryAt(doc, decode);
    BracketEntryText(b);
    HoldsSplit(text, at, CUT, "\"," + (PrintMembers([Plain("version", Str(b))]) + "}"));
    CutSpan(text, at);
  }

  lemma BracketedEntry(a: string, b: string, decode: string -> string)
    requires KeepsKeys(decode)
    ensures HasEntry(Bracketed(a, b), decode) && Entry(Bracketed(a, b), decode) == BracketEntry(b)
  {
    hide FirstKey, FirstNested, BracketEntry;
    BracketedKeys(a, b, decode);
  }

  lemma CutSpan(text: string, at: nat)
    requires Holds(text, at, CUT)
    ensures ValueSpan(text, at) == Found(at, at + 7) && at + 7 <= |text| && text[at..at + 7] == CUT
  {
    hide Balanced, BracketEnd;
    CutBalances();
    BalancedEnds(text, at, CUT);
    HoldsAt(text, at, CUT, 0);
  }
}
