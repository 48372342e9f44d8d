/** The version writer of package-lock.json. */
module LockfileReadBack {
  import opened JsonText
  import opened LockfileScan
  import opened LockfileSplice
  import opened JsonRead
  import T = Text

  // It patches the text, saves it, reads the saved file back by name, and raises when a
  // version does not read as written.

  // ---- a document is read back as its data ----

  lemma DocumentReads(doc: Document)
    requires ValidDocument(doc)
    ensures ReadText(DocText(doc)) == Got(DataOf(doc.root), |doc.lead| + |Print(doc.root)|)
  {
    ReadsText(doc.lead, doc.root, doc.trail);
  }

  /** A text is the printing of one document only, up to layout. */
  lemma SameTextSameData(a: Document, b: Document)
    requires ValidDocument(a) && ValidDocument(b) && DocText(a) == DocText(b)
    ensures DataOf(a.root) == DataOf(b.root)
  {
    hide ReadText, DataOf, Print, Valid, DocText;
    DocumentReads(a);
    DocumentReads(b);
  }

  // ---- the patch, as a change of the data ----

  function SetField(d: Data, k: nat, w: Data): Data
    requires d.Dict? && k < |d.fields|
  {
    d.(fields := d.fields[k := d.fields[k].(value := w)])
  }

  lemma {:induction false} MemberDataAt(members: seq<Member>, k: nat, w: Json)
    requires k < |members|
    ensures MemberData(members)[k] == Field(members[k].key, DataOf(members[k].value))
    ensures MemberData(members[k := members[k].(value := w)])
         == MemberData(members)[k := Field(members[k].key, DataOf(w))]
    decreases k
  {
    hide DataOf;
    var changed := members[k := members[k].(value := w)];
    if k == 0 {
      assert changed[1..] == members[1..];
    } else {
      assert changed[1..] == members[1..][k - 1 := members[1..][k - 1].(value := w)];
      MemberDataAt(members[1..], k - 1, w);
    }
  }

  lemma DataSet(v: Json, k: nat, w: Json)
    requires v.Obj? && k < |v.members|
    ensures var d := DataOf(v);
            && d.Dict? && |d.fields| == |v.members|
            && d.fields[k] == Field(v.members[k].key, DataOf(v.members[k].value))
            && DataOf(SetMember(v, k, w)) == SetField(d, k, DataOf(w))
  {
    MemberDataAt(v.members, k, w);
  }

  predicate Spot(d: Data, j: nat, k: nat, n: nat) {
    && d.Dict? && j < |d.fields| && d.fields[j].value.Dict?
    && k < |d.fields[j].value.fields| && d.fields[j].value.fields[k].value.Dict?
    && n < |d.fields[j].value.fields[k].value.fields|
  }

  function At3(d: Data, j: nat, k: nat, n: nat): Data
    requires Spot(d, j, k, n)
  {
    d.fields[j].value.fields[k].value.fields[n].value
  }

  function Set3(d: Data, j: nat, k: nat, n: nat, w: Data): Data
    requires Spot(d, j, k, n)
  {
    var holder := d.fields[j].value;
    SetField(d, j, SetField(holder, k, SetField(holder.fields[k].value, n, w)))
  }

  /** Where the second version is written. */
  function EntryK(root: Json, decode: string -> string): nat
    requires root.Obj? && HasEntry(root, decode)
  {
    FirstKey(Holder(root, decode).members, EntryKey(decode))
  }

  function EntryN(root: Json, decode: string -> string): nat
    requires root.Obj? && HasEntry(root, decode) && Entry(root, decode).Obj?
  {
    FirstKey(Entry(root, decode).members, VersionKey(decode))
  }

  /** Only the versions change: the root's, and the one of the "" entry when both keys are there. */
  predicate OnlyVersions(root: Json, version: string, decode: string -> string, after: Data)
    requires root.Obj? && Ready(root, decode)
  {
    var d, r := DataOf(root), FirstKey(root.members, VersionKey(decode));
    && d.Dict? && r < |d.fields|
    && if HasPackages(root, decode) && HasEntry(root, decode) then
         var j, k, n := FirstNested(root.members, EntryKey(decode)), EntryK(root, decode), EntryN(root, decode);
         && Spot(d, j, k, n) && j != r
         && after == SetField(Set3(d, j, k, n, Text(version)), r, Text(version))
       else after == SetField(d, r, Text(version))
  }

  lemma WithVersionData(root: Json, version: string, decode: string -> string)
    requires root.Obj? && Ready(root, decode)
    ensures OnlyVersions(root, version, decode, DataOf(WithVersion(root, version, decode)))
  {
    hide DataOf, FirstKey, FirstNested, NoBracketStrings;
    var w := Str(version);
    assert DataOf(w) == Text(version) by { StrData(version); }
    var r := FirstKey(root.members, VersionKey(decode));
    DataSet(root, r, w);
    if HasPackages(root, decode) && HasEntry(root, decode) {
      var j := FirstNested(root.members, EntryKey(decode));
      var holder, entry := Holder(root, decode), Entry(root, decode);
      var k, n := EntryK(root, decode), EntryN(root, decode);
      DataSet(entry, n, w);
      DataSet(holder, k, SetMember(entry, n, w));
      DataSet(root, j, HolderWithVersion(root, version, decode));
      DataSet(WithEntryVersion(root, version, decode), r, w);
    }
  }

  lemma StrData(raw: string)
    ensures DataOf(Str(raw)) == Text(raw)
  {
  }

  /** Reading the patched text back gives the data of the original with only the addressed
      versions changed. */
  lemma PatchReads(doc: Document, version: string, decode: string -> string)
    requires ValidDocument(doc) && Ready(doc.root, decode) && ValidRaw(version)
    ensures var text := Patched(DocText(doc), version, decode);
            && text.Some? && ReadText(text.value).Got?
            && OnlyVersions(doc.root, version, decode, ReadText(text.value).value)
  {
    hide DataOf, DocText, Valid, ReadText, Patched, Print, OnlyVersions, WithVersion, Ready;
    PatchWrites(doc, version, decode);
    PatchStaysValid(doc, version, decode);
    DocumentReads(doc.(root := WithVersion(doc.root, version, decode)));
    WithVersionData(doc.root, version, decode);
  }

  // ---- the read-back ----

  /** The field a dictionary keeps for a key: the last one; |fields| when there is none. */
  function LastField(fields: seq<Field>, key: string, decode: string -> string): (k: nat)
    ensures k <= |fields|
    ensures k < |fields| ==> decode(fields[k].key) == key
  {
    if fields == [] then 0
    else if decode(fields[|fields| - 1].key) == key then |fields| - 1
    else
      var k := LastField(fields[..|fields| - 1], key, decode);
      if k == |fields| - 1 then |fields| else k
  }

  predicate ReadsAs(d: Data, version: string, decode: string -> string) {
    d.Text? && decode(d.raw) == version
  }

  predicate RootReads(d: Data, version: string, decode: string -> string)
    requires d.Dict?
  {
    var r := LastField(d.fields, "version", decode);
    r < |d.fields| && ReadsAs(d.fields[r].value, version, decode)
  }

  /** written.get("packages", {}).get("", {}).get("version"): a place, nothing, or an
      AttributeError at something that is no dictionary. */
  datatype Place3 = Under(j: nat, k: nat, n: nat) | Nothing | Broken

  function NestedPlace(d: Data, decode: string -> string): (r: Place3)
    requires d.Dict?
    ensures r.Under? ==> Spot(d, r.j, r.k, r.n)
  {
    var j := LastField(d.fields, "packages", decode);
    if j == |d.fields| then Nothing
    else if !d.fields[j].value.Dict? then Broken
    else
      var holder := d.fields[j].value.fields;
      var k := LastField(holder, "", decode);
      if k == |holder| then Nothing
      else if !holder[k].value.Dict? then Broken
      else
        var n := LastField(holder[k].value.fields, "version", decode);
        if n == |holder[k].value.fields| then Nothing else Under(j, k, n)
  }

  predicate NestedReads(d: Data, version: string, decode: string -> string)
    requires d.Dict?
  {
    var place := NestedPlace(d, decode);
    place.Under? && ReadsAs(At3(d, place.j, place.k, place.n), version, decode)
  }

  predicate Accepted(text: string, version: string, second: bool, decode: string -> string) {
    var r := ReadText(text);
    && r.Got? && r.value.Dict? && !NestedPlace(r.value, decode).Broken?
    && RootReads(r.value, version, decode)
    && (second ==> NestedReads(r.value, version, decode))
  }

  /** The file afterwards, and whether the writer raised. */
  datatype Outcome = Outcome(file: string, raised: bool)

  function PatchOutcome(original: string, version: string, decode: string -> string): Outcome {
    var text := Patched(original, version, decode);
    if text.None? then Outcome(original, true)
    else if text.value == original then Outcome(original, false)
    else Outcome(text.value, !Accepted(text.value, version, |Targets(original, decode).value| > 1, decode))
  }

  method PatchPackageLockVersions(original: string, version: string, decode: string -> string)
    returns (file: string, raised: bool)
    ensures Outcome(file, raised) == PatchOutcome(original, version, decode)
  {
    file := original;
    var targets: seq<Span> := [];
    var root := KeyValueSpan(original, "version", 1, decode);
    if !root.Found? {
      return original, true;
    }
    targets := targets + [Span(root.start, root.end)];
    var packages := KeyValueSpan(original, "packages", 1, decode);
    if packages.Raised? {
      return original, true;
    }
    if packages.Found? {
      var entry := KeyValueSpan(original, "", 2, decode);
      if entry.Raised? {
        return original, true;
      }
      if entry.Found? {
        var nested := KeyValueSpan(original[entry.start..entry.end], "version", 1, decode);
        if !nested.Found? {
          return original, true;
        }
        targets := targets + [Span(entry.start + nested.start, entry.start + nested.end)];
      }
    }
    assert targets == [targets[0]] || targets == [targets[0], targets[1]];
    assert Targets(original, decode) == T.Some(targets);
    hide Scan, Targets, Accepted;
    var text := original;
    var sorted := Descending(targets);
    for i := 0 to |sorted|
      invariant SpliceAll(original, sorted, Quote(version)) == SpliceAll(text, sorted[i..], Quote(version))
    {
      assert sorted[i..][1..] == sorted[i + 1..];
      text := Splice(text, sorted[i].start, sorted[i].end, Quote(version));
    }
    assert sorted[|sorted|..] == [];
    if text == original {
      return original, false;
    }
    raised := !Accepted(text, version, |targets| > 1, decode);
    file := text;
  }

  // ---- exactly when the read-back fails ----

  lemma {:induction false} LastFieldKept(fields: seq<Field>, i: nat, w: Data, key: string, decode: string -> string)
    requires i < |fields|
    ensures LastField(fields[i := fields[i].(value := w)], key, decode) == LastField(fields, key, decode)
    decreases |fields|
  {
    var n := |fields| - 1;
    var changed := fields[i := fields[i].(value := w)];
    if i == n {
      assert changed[..n] == fields[..n];
    } else {
      assert changed[..n] == fields[..n][i := fields[..n][i].(value := w)];
      LastFieldKept(fields[..n], i, w, key, decode);
    }
  }

  /** A value that changes from one string to another moves no place. */
  lemma PlaceKept(d: Data, r: nat, w: Data, decode: string -> string)
    requires d.Dict? && r < |d.fields| && d.fields[r].value.Text? && w.Text?
    ensures NestedPlace(SetField(d, r, w), decode) == NestedPlace(d, decode)
  {
    LastFieldKept(d.fields, r, w, "packages", decode);
  }

  lemma PlaceKept3(d: Data, j: nat, k: nat, n: nat, w: Data, decode: string -> string)
    requires Spot(d, j, k, n)
    ensures NestedPlace(Set3(d, j, k, n, w), decode) == NestedPlace(d, decode)
  {
    var holder := d.fields[j].value;
    var entry := holder.fields[k].value;
    var entry1 := SetField(entry, n, w);
    LastFieldKept(d.fields, j, SetField(holder, k, entry1), "packages", decode);
    LastFieldKept(holder.fields, k, entry1, "", decode);
    LastFieldKept(entry.fields, n, w, "version", decode);
  }

  /** The root version that counts, the last one, is the one written, the first one, and its
      escapes decode to themselves; or it read like the new version before. */
  predicate RootCounts(root: Json, version: string, decode: string -> string)
    requires root.Obj?
  {
    var d := DataOf(root);
    && d.Dict?
    && if LastField(d.fields, "version", decode) == FirstKey(root.members, VersionKey(decode))
       then decode(version) == version else RootReads(d, version, decode)
  }

  /** Likewise for the version in packages[""]. */
  predicate EntryCounts(root: Json, version: string, decode: string -> string)
    requires root.Obj? && HasEntry(root, decode) && Entry(root, decode).Obj?
  {
    var d := DataOf(root);
    var j := FirstNested(root.members, EntryKey(decode));
    && d.Dict?
    && if NestedPlace(d, decode) == Under(j, EntryK(root, decode), EntryN(root, decode))
       then decode(version) == version else NestedReads(d, version, decode)
  }

  predicate Unbroken(root: Json, decode: string -> string)
    requires root.Obj?
  {
    DataOf(root).Dict? && !NestedPlace(DataOf(root), decode).Broken?
  }

  /** The read-back accepts exactly the lockfiles in which the versions written are the ones
      a reader by name finds: an error is raised, after the file was overwritten, when a
      repeated key or a stray "" entry hides one of them. */
  lemma ReadBackAccepts(doc: Document, version: string, decode: string -> string)
    requires ValidDocument(doc) && Ready(doc.root, decode) && ValidRaw(version)
    ensures var root, old_, out := doc.root, DocText(doc), PatchOutcome(DocText(doc), version, decode);
            && out.file == DocText(doc.(root := WithVersion(root, version, decode)))
            && (out.raised <==>
                  && out.file != old_
                  && !(Unbroken(root, decode) && RootCounts(root, version, decode)
                       && (HasPackages(root, decode) && HasEntry(root, decode) ==> EntryCounts(root, version, decode))))
  {
    hide DataOf, DocText, Valid, ReadText, Print, WithVersion, OnlyVersions, Spaces, FirstKey, FirstNested, LastField,
         Targets, ValidRaw;
    var text := DocText(doc);
    PatchWrites(doc, version, decode);
    PatchReads(doc, version, decode);
    ReadyTargets(doc, decode);
    var after := ReadText(Patched(text, version, decode).value).value;
    ReadBackData(doc.root, version, decode, after);
  }

  lemma ReadBackData(root: Json, version: string, decode: string -> string, after: Data)
    requires root.Obj? && Ready(root, decode)
    requires OnlyVersions(root, version, decode, after)
    ensures after.Dict? && (Unbroken(root, decode) <==> !NestedPlace(after, decode).Broken?)
    ensures RootReads(after, version, decode) <==> RootCounts(root, version, decode)
    ensures HasPackages(root, decode) && HasEntry(root, decode) ==>
              (NestedReads(after, version, decode) <==> EntryCounts(root, version, decode))
  {
    hide DataOf, FirstKey, FirstNested, LastField, NoBracketStrings;
    var d, r, w := DataOf(root), FirstKey(root.members, VersionKey(decode)), Text(version);
    DataSet(root, r, Str(version));
    assert d.fields[r].value.Text? by { StrData(root.members[r].value.raw); }
    if HasPackages(root, decode) && HasEntry(root, decode) {
      var j, k, n := FirstNested(root.members, EntryKey(decode)), EntryK(root, decode), EntryN(root, decode);
      var mid := Set3(d, j, k, n, w);
      PlaceKept3(d, j, k, n, w, decode);
      PlaceKept(mid, r, w, decode);
      LastFieldKept(d.fields, j, mid.fields[j].value, "version", decode);
      LastFieldKept(mid.fields, r, w, "version", decode);
    } else {
      PlaceKept(d, r, w, decode);
      LastFieldKept(d.fields, r, w, "version", decode);
    }
  }

  /** A file whose packages holds nothing: the "" entry of another member is overwritten,
      and the writer raises afterwards. */
  lemma HollowPackagesRaises(a: string, b: string, version: string, decode: string -> string)
    requires KeepsKeys(decode)
    requires ValidRaw(a) && ValidRaw(b) && ValidRaw(version) && NoBracket(b)
    ensures var out := PatchOutcome(Print(Hollow(a, b)), version, decode);
            && out.file == Print(Hollow(version, version))
            && (out.raised <==> out.file != Print(Hollow(a, b)))
  {
    hide Valid, NoBracketStrings, FirstKey, FirstNested, Print, WithVersion, PatchOutcome, EntryK, EntryN;
    var doc, done := Document("", Hollow(a, b), ""), Document("", Hollow(version, version), "");
    HollowKeys(a, b, decode);
    HollowReady(a, b, decode);
    HollowWithVersion(a, b, version, decode);
    ReadBackAccepts(doc, version, decode);
    assert DocText(doc) == Print(doc.root) && DocText(done) == Print(done.root);
    HollowPlace(a, b, decode);
  }

  lemma HollowPlace(a: string, b: string, decode: string -> string)
    requires KeepsKeys(decode)
    ensures var d := DataOf(Hollow(a, b)); d.Dict? && NestedPlace(d, decode) == Nothing
  {
    var ms := Hollow(a, b).members;
    var d := DataOf(Hollow(a, b));
    MemberDataAt(ms, 0, Str(a));
    MemberDataAt(ms, 1, Str(a));
    MemberDataAt(ms, 2, Str(a));
    assert |d.fields| == 3 && d.fields[1].key == "packages" && d.fields[2].key == "x" && "x"[0] == 'x'
        && "packages"[0] == 'p';
    assert |d.fields[..2]| == 2 && d.fields[..2][1] == d.fields[1];
    assert LastField(d.fields[..2], "packages", decode) == 1;
    assert LastField(d.fields, "packages", decode) == 1;
    assert d.fields[1].value == Dict([]);
    assert LastField([], "", decode) == 0;
  }
}
