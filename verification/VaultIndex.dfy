/** The search index after interrupted passes. */
module VaultIndex {
  import opened Text
  import opened Vault

  // The index does not converge like the manifest and the store: this says exactly when a
  // note is indexed after passes that were cut short.

  // ---- what decides whether a complete pass would leave a note indexed ----

  /** The note at j is recorded at this path and lies elsewhere now. */
  predicate Leaver(u: World, a: seq<Note>, j: nat, path: Path)
    requires j < |a|
  {
    Moved(u, a[j]) && u.notes[a[j].id].path == path
  }

  predicate Left(u: World, a: seq<Note>, from: nat, path: Path) {
    exists j :: from <= j < |a| && Leaver(u, a, j, path)
  }

  /** An id that no note carries is recorded at this path. */
  predicate Abandoned(u: World, a: seq<Note>, path: Path) {
    exists id :: id in u.notes && u.notes[id].path == path && !Present(a, id)
  }

  /** The note's rows are there and no other note will take them away. */
  predicate Safe(u: World, a: seq<Note>, m: nat)
    requires m < |a|
  {
    Covered(u.index, a[m]) && !Left(u, a, 0, a[m].path)
  }

  predicate WillCover(u: World, a: seq<Note>, m: nat)
    requires m < |a|
  {
    && !Abandoned(u, a, a[m].path)
    && if Dirty(u, a[m]) then !Left(u, a, m + 1, a[m].path) else Safe(u, a, m)
  }

  /** Recorded as it stands, but missing from the store. */
  predicate Unstored(u: World, n: Note) {
    n.id in u.notes && u.notes[n.id] == EntryOf(n) && n.id !in u.store
  }

  /** A pass cut right after storing this note loses it: the next one finds nothing to do. */
  predicate AtRisk(u: World, a: seq<Note>, m: nat)
    requires m < |a|
  {
    Unstored(u, a[m]) && !Safe(u, a, m)
  }

  /** The last write that went through stored the note. */
  predicate JustStored(writes: seq<Write>, n: Note) {
    writes != [] && writes[|writes| - 1].StoreAdd? && writes[|writes| - 1].id == n.id
  }

  /** What some writes of a pass, leading from u to v, do to the prospects of note m. */
  predicate Fate(u: World, v: World, a: seq<Note>, m: nat, cut: bool)
    requires m < |a|
  {
    && (WillCover(v, a, m) <==> WillCover(u, a, m) && !(cut && AtRisk(u, a, m)))
    && (AtRisk(v, a, m) ==> AtRisk(u, a, m))
    && (AtRisk(u, a, m) ==> AtRisk(v, a, m) || !Dirty(v, a[m]))
    && (!Dirty(u, a[m]) ==> !Dirty(v, a[m]))
    && (cut ==> Dirty(u, a[m]) && !Unstored(v, a[m]))
  }

  lemma FateThen(u: World, v: World, t: World, a: seq<Note>, m: nat, cut: bool)
    requires m < |a| && Fate(u, v, a, m, false) && Fate(v, t, a, m, cut)
    ensures Fate(u, t, a, m, cut)
  {
    hide WillCover, Safe, Unstored, Dirty;
  }

  lemma FateSame(u: World, v: World, a: seq<Note>, m: nat)
    requires m < |a| && u.notes == v.notes && u.store == v.store && u.index == v.index
    ensures Fate(u, v, a, m, false)
  {
    assert forall from: nat, p: Path :: Left(u, a, from, p) == Left(v, a, from, p) by {
      forall from: nat, p: Path ensures Left(u, a, from, p) == Left(v, a, from, p) {
        assert forall j :: 0 <= j < |a| ==> Leaver(u, a, j, p) == Leaver(v, a, j, p);
      }
    }
    assert forall p: Path :: Abandoned(u, a, p) == Abandoned(v, a, p);
  }

  // ---- the writes of one note ----

  predicate Listing(a: seq<Note>) {
    && (forall i :: 0 <= i < |a| ==> a[i].id != "")
    && (forall i, j :: 0 <= i < j < |a| ==> a[i].id != a[j].id && a[i].path != a[j].path)
  }

  /** The world after the first c writes of a note's projection. */
  lemma ProjectionPart(u: World, n: Note, c: nat)
    requires Dirty(u, n) && c <= |Projection(u, n)|
    ensures var v := ApplyAll(u, Projection(u, n)[..c]);
            && v.files == u.files
            && v.notes == (if c == |Projection(u, n)| then u.notes[n.id := EntryOf(n)] else u.notes)
            && v.store == (if c >= 1 then u.store[n.id := RowOf(n)] else u.store)
            && v.index == (if c < 2 then u.index
                           else if c == 2 || !Moved(u, n) then u.index[n.path := Chunks(n.id, n.meta, n.body)]
                           else u.index[n.path := Chunks(n.id, n.meta, n.body)] - {u.notes[n.id].path})
    ensures |Projection(u, n)| == (if Moved(u, n) then 4 else 3)
  {
    hide ApplyAll, RowOf, EntryOf;
    var plan := Projection(u, n);
    NoWrites(u);
    assert plan[..0] == [];
    if c >= 1 {
      Advance(u, plan, 0);
    }
    if c >= 2 {
      Advance(u, plan, 1);
    }
    if c >= 3 {
      Advance(u, plan, 2);
    }
    if c >= 4 {
      Advance(u, plan, 3);
    }
  }

  /** The projection of another note. */
  lemma OtherFate(u: World, a: seq<Note>, i: nat, m: nat, c: nat)
    requires Listing(a) && i < |a| && m < |a| && i != m && c <= |Projection(u, a[i])|
    requires i > m ==> !Dirty(u, a[m])
    ensures Fate(u, ApplyAll(u, Projection(u, a[i])[..c]), a, m, false)
  {
    hide ApplyAll, RowOf;
    var n, v := a[i], ApplyAll(u, Projection(u, a[i])[..c]);
    if !Dirty(u, n) {
      assert Projection(u, n)[..c] == [];
      NoWrites(u);
      FateSame(u, v, a, m);
    } else {
      ProjectionPart(u, n, c);
      OthersLeave(u, v, a, i, m, c);
    }
  }

  /** u and v record the same about every id but this one. */
  ghost predicate SameBut(u: World, v: World, id: Id) {
    && (forall k :: k != id ==>
        (k in u.notes <==> k in v.notes) && (k in u.notes && k in v.notes ==> u.notes[k] == v.notes[k]))
    && (forall k :: k != id ==> (k in u.store <==> k in v.store))
  }

  lemma LeftBut(u: World, v: World, a: seq<Note>, i: nat, from: nat, path: Path)
    requires Listing(a) && i < |a| && SameBut(u, v, a[i].id)
    requires i < from || (Leaver(u, a, i, path) <==> Leaver(v, a, i, path))
    ensures Left(u, a, from, path) <==> Left(v, a, from, path)
  {
    forall j | 0 <= j < |a| && j != i ensures Leaver(u, a, j, path) <==> Leaver(v, a, j, path) {
      assert a[j].id != a[i].id;
    }
  }

  lemma AbandonedBut(u: World, v: World, a: seq<Note>, i: nat, path: Path)
    requires i < |a| && SameBut(u, v, a[i].id)
    ensures Abandoned(u, a, path) <==> Abandoned(v, a, path)
  {
    assert Present(a, a[i].id);
    if Abandoned(u, a, path) {
      var id :| id in u.notes && u.notes[id].path == path && !Present(a, id);
      assert id in v.notes;
    }
    if Abandoned(v, a, path) {
      var id :| id in v.notes && v.notes[id].path == path && !Present(a, id);
      assert id in u.notes;
    }
  }

  /** Writes of another note, any number of them. */
  lemma OthersLeave(u: World, v: World, a: seq<Note>, i: nat, m: nat, c: nat)
    requires Listing(a) && i < |a| && m < |a| && i != m && c <= |Projection(u, a[i])|
    requires i > m ==> !Dirty(u, a[m])
    requires Dirty(u, a[i]) && v == ApplyAll(u, Projection(u, a[i])[..c])
    ensures Fate(u, v, a, m, false)
  {
    hide Left, Abandoned, Covered;
    var n, p := a[i], a[m].path;
    assert SameBut(u, v, n.id) && n.id != a[m].id && n.path != p by {
      hide ApplyAll, Projection, RowOf;
      ProjectionPart(u, n, c);
    }
    AbandonedBut(u, v, a, i, p);
    assert Dirty(u, a[m]) == Dirty(v, a[m]) && Unstored(u, a[m]) == Unstored(v, a[m]);
    if i < m {
      LeftBut(u, v, a, i, m + 1, p);
    }
    SafeBut(u, v, a, i, m, c);
  }

  lemma SafeBut(u: World, v: World, a: seq<Note>, i: nat, m: nat, c: nat)
    requires Listing(a) && i < |a| && m < |a| && i != m && c <= |Projection(u, a[i])|
    requires Dirty(u, a[i]) && v == ApplyAll(u, Projection(u, a[i])[..c])
    ensures Safe(u, a, m) == Safe(v, a, m)
  {
    hide ApplyAll, Projection, RowOf, Dirty, Left;
    var n, p := a[i], a[m].path;
    ProjectionPart(u, n, c);
    if !Leaver(u, a, i, p) {
      LeftBut(u, v, a, i, 0, p);
    } else {
      LeaverLeft(u, a, i, p);
      if c < |Projection(u, n)| {
        LeaverLeft(v, a, i, p);
      }
    }
  }

  lemma LeaverLeft(u: World, a: seq<Note>, i: nat, path: Path)
    requires i < |a| && Leaver(u, a, i, path)
    ensures Left(u, a, 0, path)
  {
  }

  /** The projection of the note itself, once no note before it has still to leave its path. */
  lemma OwnFate(u: World, a: seq<Note>, m: nat, c: nat)
    requires Listing(a) && m < |a| && c <= |Projection(u, a[m])|
    requires forall j :: 0 <= j < m ==> !Moved(u, a[j])
    ensures var part := Projection(u, a[m])[..c];
            Fate(u, ApplyAll(u, part), a, m, JustStored(part, a[m]))
  {
    var n, p := a[m], a[m].path;
    var part := Projection(u, n)[..c];
    var v := ApplyAll(u, part);
    if !Dirty(u, n) {
      assert part == [];
      NoWrites(u);
      FateSame(u, v, a, m);
    } else {
      assert JustStored(part, n) == (c == 1);
      OwnFateDirty(u, v, a, m, c);
    }
  }

  lemma OwnFateDirty(u: World, v: World, a: seq<Note>, m: nat, c: nat)
    requires Listing(a) && m < |a| && c <= |Projection(u, a[m])| && Dirty(u, a[m])
    requires forall j :: 0 <= j < m ==> !Moved(u, a[j])
    requires v == ApplyAll(u, Projection(u, a[m])[..c])
    ensures Fate(u, v, a, m, c == 1)
  {
    hide ApplyAll, Projection, RowOf;
    var n, p := a[m], a[m].path;
    ProjectionPart(u, n, c);
    assert SameBut(u, v, n.id);
    AbandonedBut(u, v, a, m, p);
    LeftBut(u, v, a, m, m + 1, p);
    LeftBut(u, v, a, m, 0, p);
    LeftFromOwn(u, a, m);
  }

  lemma LeftFromOwn(u: World, a: seq<Note>, m: nat)
    requires m < |a| && forall j :: 0 <= j < m ==> !Moved(u, a[j])
    ensures Left(u, a, 0, a[m].path) <==> Left(u, a, m + 1, a[m].path)
  {
    assert !Leaver(u, a, m, a[m].path);
    if Left(u, a, 0, a[m].path) {
      var j :| 0 <= j < |a| && Leaver(u, a, j, a[m].path);
      assert m + 1 <= j;
    }
  }

  // ---- along the plan of a pass ----

  predicate SameAt(w: World, u: World, id: Id) {
    && (id in w.notes <==> id in u.notes) && (id in w.notes && id in u.notes ==> w.notes[id] == u.notes[id])
    && (id in w.store <==> id in u.store)
  }

  /** The first i notes are done, and the rest is as it was when the pass began. */
  ghost predicate Stage(w: World, u: World, a: seq<Note>, i: nat) {
    && (forall j :: 0 <= j < i && j < |a| ==> !Dirty(u, a[j]))
    && (forall j :: i <= j < |a| ==> SameAt(w, u, a[j].id))
    && (forall id :: !Present(a, id) ==> SameAt(w, u, id))
  }

  lemma SameProjection(w: World, u: World, n: Note)
    requires SameAt(w, u, n.id)
    ensures Projection(w, n) == Projection(u, n)
  {
    hide RowOf, EntryOf;
    assert Dirty(w, n) == Dirty(u, n);
  }

  /** All the writes of one note bring the pass to the next stage. */
  lemma StageStep(w: World, u: World, a: seq<Note>, i: nat)
    requires Listing(a) && i < |a| && Stage(w, u, a, i)
    ensures Stage(w, ApplyAll(u, Projection(w, a[i])), a, i + 1)
  {
    hide RowOf, ApplyAll, Projection;
    var n, v := a[i], ApplyAll(u, Projection(w, a[i]));
    SameProjection(w, u, n);
    var plan := Projection(u, n);
    assert plan[..|plan|] == plan;
    if Dirty(u, n) {
      ProjectionPart(u, n, |plan|);
    } else {
      assert plan == [] by { CleanProjection(u, n); }
      NoWrites(u);
    }
    forall j | 0 <= j < |a| && j != i ensures a[j].id != n.id {
    }
    assert Present(a, n.id);
  }

  lemma CleanProjection(u: World, n: Note)
    requires !Dirty(u, n)
    ensures Projection(u, n) == []
  {
  }

  /** The writes of the note at i, any number of them. */
  lemma NoteFate(w: World, u: World, newId: Path -> Id, i: nat, m: nat, k: nat)
    requires i < |w.files| && m < |w.files| && k <= |NoteWrites(w, i, newId)|
    requires Listing(AdoptAll(w.files, newId)) && Stage(w, u, AdoptAll(w.files, newId), i)
    ensures var a, part := AdoptAll(w.files, newId), NoteWrites(w, i, newId)[..k];
            Fate(u, ApplyAll(u, part), a, m, JustStored(part, a[m]))
  {
    hide Projection, RowOf, EntryOf, Fate, Dirty;
    var a := AdoptAll(w.files, newId);
    var n := a[i];
    var rewrite := if w.files[i].id == "" then [Rewrite(i, n)] else [];
    var own, part := NoteWrites(w, i, newId), NoteWrites(w, i, newId)[..k];
    assert own == rewrite + Projection(w, n);
    NoWrites(u);
    ApplyOne(u, Rewrite(i, n));
    var u1 := ApplyAll(u, rewrite);
    if k < |rewrite| {
      assert part == [];
      FateSame(u, u, a, m);
    } else {
      FateSame(u, u1, a, m);
      StageSame(w, u, u1, a, i);
      var c := k - |rewrite|;
      assert part == rewrite + Projection(w, n)[..c];
      ApplyAllConcat(u, rewrite, Projection(w, n)[..c]);
      assert SameAt(w, u1, n.id);
      SameProjection(w, u1, n);
      ProjectionFate(w, u1, a, i, m, c);
      FateThen(u, u1, ApplyAll(u, part), a, m, JustStored(Projection(w, n)[..c], a[m]));
    }
  }

  lemma ProjectionFate(w: World, u: World, a: seq<Note>, i: nat, m: nat, c: nat)
    requires Listing(a) && i < |a| && m < |a| && Stage(w, u, a, i) && c <= |Projection(u, a[i])|
    ensures var part := Projection(u, a[i])[..c]; Fate(u, ApplyAll(u, part), a, m, JustStored(part, a[m]))
  {
    hide ApplyAll, RowOf, Fate;
    if i == m {
      OwnFate(u, a, m, c);
    } else {
      OtherFate(u, a, i, m, c);
      NotStored(u, a[i], a[m], c);
    }
  }

  lemma NotStored(u: World, n: Note, other: Note, c: nat)
    requires n.id != other.id && c <= |Projection(u, n)|
    ensures !JustStored(Projection(u, n)[..c], other)
    ensures !JustStored(Projection(u, n), n)
  {
    hide RowOf, EntryOf;
  }

  /** The notes' part of the plan, from the note at i on. */
  lemma {:induction false} NotesFate(w: World, u: World, newId: Path -> Id, i: nat, m: nat, k: nat)
    requires i <= |w.files| && m < |w.files| && k <= |NotesPlan(w, i, newId)|
    requires Listing(AdoptAll(w.files, newId)) && Stage(w, u, AdoptAll(w.files, newId), i)
    ensures var a, part := AdoptAll(w.files, newId), NotesPlan(w, i, newId)[..k];
            var v := ApplyAll(u, part);
            && Fate(u, v, a, m, JustStored(part, a[m]))
            && (k == |NotesPlan(w, i, newId)| ==> !JustStored(part, a[m]) && Stage(w, v, a, |a|))
    decreases |w.files| - i
  {
    hide NoteWrites, Fate, Stage, ApplyAll;
    var a, plan := AdoptAll(w.files, newId), NotesPlan(w, i, newId);
    var part := plan[..k];
    NoWrites(u);
    if i == |w.files| {
      assert part == [];
      FateSame(u, u, a, m);
    } else {
      var own, rest := NoteWrites(w, i, newId), NotesPlan(w, i + 1, newId);
      if k < |own| {
        assert part == own[..k];
        NoteFate(w, u, newId, i, m, k);
      } else {
        assert own[..|own|] == own;
        NoteFate(w, u, newId, i, m, |own|);
        var u1 := ApplyAll(u, own);
        OwnDone(w, u, newId, i, m);
        NotesFate(w, u1, newId, i + 1, m, k - |own|);
        assert part == own + rest[..k - |own|];
        ApplyAllConcat(u, own, rest[..k - |own|]);
        FateThen(u, u1, ApplyAll(u, part), a, m, JustStored(rest[..k - |own|], a[m]));
      }
    }
  }

  /** After a note's last write: the next stage, and no store write at the end. */
  lemma OwnDone(w: World, u: World, newId: Path -> Id, i: nat, m: nat)
    requires i < |w.files| && m < |w.files|
    requires Listing(AdoptAll(w.files, newId)) && Stage(w, u, AdoptAll(w.files, newId), i)
    ensures var a, own := AdoptAll(w.files, newId), NoteWrites(w, i, newId);
            !JustStored(own, a[m]) && Stage(w, ApplyAll(u, own), a, i + 1)
  {
    hide Projection, RowOf, EntryOf, Stage, Dirty;
    var a := AdoptAll(w.files, newId);
    var n := a[i];
    var rewrite := if w.files[i].id == "" then [Rewrite(i, n)] else [];
    ApplyAllConcat(u, rewrite, Projection(w, n));
    NoWrites(u);
    ApplyOne(u, Rewrite(i, n));
    var u1 := ApplyAll(u, rewrite);
    assert Stage(w, u1, a, i) by { StageSame(w, u, u1, a, i); }
    StageStep(w, u1, a, i);
    LastIsRecord(w, n);
  }

  lemma LastIsRecord(w: World, n: Note)
    ensures Projection(w, n) == [] || Projection(w, n)[|Projection(w, n)| - 1].Record?
  {
  }

  lemma StageSame(w: World, u: World, v: World, a: seq<Note>, i: nat)
    requires Stage(w, u, a, i) && u.notes == v.notes && u.store == v.store
    ensures Stage(w, v, a, i)
  {
  }

  // ---- the retirements ----

  /** Some of the writes that retire one id. */
  lemma RetireFate(u: World, a: seq<Note>, m: nat, id: Id, c: nat)
    requires m < |a| && !Dirty(u, a[m]) && id in u.notes && !Present(a, id) && c <= 3
    ensures var part := [Retire(id), Unindex(u.notes[id].path), Forget(id)][..c];
            var v := ApplyAll(u, part);
            && Fate(u, v, a, m, false) && !Dirty(v, a[m])
            && (c == 3 ==> v.notes == u.notes - {id} && v.store.Keys == u.store.Keys)
  {
    hide ApplyAll;
    var plan := [Retire(id), Unindex(u.notes[id].path), Forget(id)];
    var v := ApplyAll(u, plan[..c]);
    NoWrites(u);
    Advance(u, plan, 0);
    Advance(u, plan, 1);
    Advance(u, plan, 2);
    RetireEffect(u, v, a, m, id, c);
  }

  lemma RetireEffect(u: World, v: World, a: seq<Note>, m: nat, id: Id, c: nat)
    requires m < |a| && !Dirty(u, a[m]) && id in u.notes && !Present(a, id) && c <= 3
    requires v.notes == (if c == 3 then u.notes - {id} else u.notes) && v.store.Keys == u.store.Keys
    requires v.index == (if c >= 2 then u.index - {u.notes[id].path} else u.index)
    ensures Fate(u, v, a, m, false) && !Dirty(v, a[m])
  {
    var p := a[m].path;
    forall j | 0 <= j < |a| ensures a[j].id != id {
      assert Present(a, a[j].id);
    }
    forall from: nat ensures Left(u, a, from, p) == Left(v, a, from, p) {
      assert forall j :: 0 <= j < |a| ==> Leaver(u, a, j, p) == Leaver(v, a, j, p);
    }
    if u.notes[id].path == p {
      assert Abandoned(u, a, p);
      assert c < 3 ==> Abandoned(v, a, p);
    } else {
      assert Abandoned(u, a, p) ==> Abandoned(v, a, p) by {
        if Abandoned(u, a, p) {
          var k :| k in u.notes && u.notes[k].path == p && !Present(a, k);
          assert k in v.notes;
        }
      }
    }
  }

  lemma {:induction false} GoneFate(w: World, u: World, a: seq<Note>, m: nat, gone: seq<Id>, k: nat)
    requires m < |a| && !Dirty(u, a[m]) && k <= |GonePlan(w, gone)|
    requires forall i, j :: 0 <= i < j < |gone| ==> gone[i] != gone[j]
    requires forall i :: 0 <= i < |gone| ==> !Present(a, gone[i]) && gone[i] in w.notes && SameAt(w, u, gone[i])
    ensures Fate(u, ApplyAll(u, GonePlan(w, gone)[..k]), a, m, false)
    decreases |gone|
  {
    hide Fate, ApplyAll, Dirty;
    var part := GonePlan(w, gone)[..k];
    NoWrites(u);
    if gone == [] {
      assert part == [];
      FateSame(u, u, a, m);
    } else {
      var id, rest := gone[0], gone[1..];
      assert gone == [id] + rest;
      GoneStep(w, id, rest);
      var own := [Retire(id), Unindex(u.notes[id].path), Forget(id)];
      if k < 3 {
        assert part == own[..k];
        RetireFate(u, a, m, id, k);
      } else {
        assert own[..3] == own;
        RetireFate(u, a, m, id, 3);
        var u1 := ApplyAll(u, own);
        GoneFate(w, u1, a, m, rest, k - 3);
        assert part == own + GonePlan(w, rest)[..k - 3];
        ApplyAllConcat(u, own, GonePlan(w, rest)[..k - 3]);
        FateThen(u, u1, ApplyAll(u, part), a, m, false);
      }
    }
  }

  // ---- a cut pass, and a trail of them ----

  lemma CutFate(w: World, w1: World, newId: Path -> Id, gone: seq<Id>, k: nat, m: nat)
    requires Ready(w, newId) && CutShort(w, w1, newId, gone, k) && m < |w.files|
    ensures var a := AdoptAll(w.files, newId); Fate(w, w1, a, m, JustStored(Plan(w, newId, gone)[..k], a[m]))
  {
    hide NotesPlan, GonePlan, Fate, ApplyAll, Ready;
    var a := AdoptAll(w.files, newId);
    assert Listing(a) by { AdoptDistinct(w, newId); }
    var first, second := NotesPlan(w, 0, newId), GonePlan(w, gone);
    if k <= |first| {
      CutFirst(first, second, k);
      NotesFate(w, w, newId, 0, m, k);
    } else {
      var c := k - |first|;
      CutSecond(first, second, c);
      assert first[..|first|] == first;
      NotesFate(w, w, newId, 0, m, |first|);
      var u := ApplyAll(w, first);
      GoneFate(w, u, a, m, gone, c);
      ApplyAllConcat(w, first, second[..c]);
      FateThen(w, u, w1, a, m, false);
      NoStoreInGone(w, gone, c);
    }
  }

  lemma {:induction false} NoStoreInGone(w: World, gone: seq<Id>, c: nat)
    requires c <= |GonePlan(w, gone)|
    ensures forall i :: 0 <= i < c ==> !GonePlan(w, gone)[i].StoreAdd?
  {
    if gone != [] {
      NoStoreInGone(w, gone[1..], |GonePlan(w, gone[1..])|);
    }
  }

  /** The pass started in w was cut right after it stored this note. */
  ghost predicate CutAfterStore(w: World, newId: Path -> Id, cut: (seq<Id>, nat), n: Note) {
    cut.1 <= |Plan(w, newId, cut.0)| && JustStored(Plan(w, newId, cut.0)[..cut.1], n)
  }

  /** Once a note is recorded and stored no later pass stores it again. */
  lemma {:induction false} CleanStaysClean(trail: seq<World>, cuts: seq<(seq<Id>, nat)>, newId: Path -> Id, m: nat,
      i: nat)
    requires |trail| == |cuts| + 1 && Ready(trail[0], newId) && m < |trail[0].files| && i < |cuts|
    requires forall i :: 0 <= i < |cuts| ==> CutShort(trail[i], trail[i + 1], newId, cuts[i].0, cuts[i].1)
    requires !Dirty(trail[0], AdoptAll(trail[0].files, newId)[m])
    ensures !CutAfterStore(trail[i], newId, cuts[i], AdoptAll(trail[0].files, newId)[m])
    decreases |cuts|
  {
    hide Plan, Dirty, WillCover, AtRisk, Unstored, Ready, JustStored;
    CutFate(trail[0], trail[1], newId, cuts[0].0, cuts[0].1, m);
    if i > 0 {
      CutShortReady(trail[0], trail[1], newId, cuts[0].0, cuts[0].1);
      assert AdoptAll(trail[1].files, newId) == AdoptAll(trail[0].files, newId);
      CutsTail(trail, cuts, newId);
      CleanStaysClean(trail[1..], cuts[1..], newId, m, i - 1);
    }
  }

  lemma CutsTail(trail: seq<World>, cuts: seq<(seq<Id>, nat)>, newId: Path -> Id)
    requires |trail| == |cuts| + 1 && cuts != []
    requires forall i :: 0 <= i < |cuts| ==> CutShort(trail[i], trail[i + 1], newId, cuts[i].0, cuts[i].1)
    ensures var t, c := trail[1..], cuts[1..];
            forall i :: 0 <= i < |c| ==> CutShort(t[i], t[i + 1], newId, c[i].0, c[i].1)
  {
    hide CutShort;
    forall i | 0 <= i < |cuts[1..]|
      ensures CutShort(trail[1..][i], trail[1..][i + 1], newId, cuts[1..][i].0, cuts[1..][i].1)
    {
      assert CutShort(trail[i + 1], trail[i + 2], newId, cuts[i + 1].0, cuts[i + 1].1);
    }
  }

  lemma CompleteCovers(w: World, done: World, newId: Path -> Id, gone: seq<Id>, m: nat)
    requires Ready(w, newId) && Complete(w, done, newId, gone) && m < |w.files|
    ensures var a := AdoptAll(w.files, newId); Covered(done.index, a[m]) <==> WillCover(w, a, m)
  {
    hide Plan, ApplyAll, Ready, EntryOf;
    var a := AdoptAll(w.files, newId);
    var n := a[m];
    IndexCovers(w, done, newId, gone, m);
    LeftIsEvicted(w, a, m + 1, n.path);
    LeftIsEvicted(w, a, 0, n.path);
    assert n.path in GonePaths(w, gone) <==> Abandoned(w, a, n.path);
  }

  lemma LeftIsEvicted(w: World, a: seq<Note>, from: nat, path: Path)
    ensures Left(w, a, from, path) <==> Evicted(w, a, from, path)
  {
    hide Dirty;
    forall j | 0 <= j < |a| && Moved(w, a[j]) ensures Dirty(w, a[j]) {
      MovedIsDirty(w, a[j]);
    }
    if Left(w, a, from, path) {
      var j :| from <= j < |a| && Leaver(w, a, j, path);
      assert Dirty(w, a[j]) && Moved(w, a[j]) && w.notes[a[j].id].path == path;
    }
    if Evicted(w, a, from, path) {
      var j :| from <= j < |a| && Dirty(w, a[j]) && Moved(w, a[j]) && w.notes[a[j].id].path == path;
      assert Leaver(w, a, j, path);
    }
  }

  /** However often passes were cut short, the complete pass in the end leaves the note at m
      indexed exactly when a single pass from the start would have, unless the note was
      recorded as it stands, missing from the store and without safe rows, and one of the
      passes was cut right after storing it. */
  lemma {:induction false} IndexConverges(trail: seq<World>, cuts: seq<(seq<Id>, nat)>, newId: Path -> Id,
                                          goneLate: seq<Id>, doneLate: World, m: nat)
    requires |trail| == |cuts| + 1 && Ready(trail[0], newId) && m < |trail[0].files|
    requires forall i :: 0 <= i < |cuts| ==> CutShort(trail[i], trail[i + 1], newId, cuts[i].0, cuts[i].1)
    requires Complete(trail[|cuts|], doneLate, newId, goneLate)
    ensures var a := AdoptAll(trail[0].files, newId);
            Covered(doneLate.index, a[m])
            <==> && WillCover(trail[0], a, m)
                 && !(&& AtRisk(trail[0], a, m)
                      && exists i :: 0 <= i < |cuts| && CutAfterStore(trail[i], newId, cuts[i], a[m]))
    decreases |cuts|
  {
    hide Plan, WillCover, AtRisk, Dirty, Unstored, Ready, JustStored, CutShort, Complete, Covered;
    var a := AdoptAll(trail[0].files, newId);
    if cuts == [] {
      CompleteCovers(trail[0], doneLate, newId, goneLate, m);
    } else {
      var t, c := trail[1..], cuts[1..];
      assert CutShort(trail[0], trail[1], newId, cuts[0].0, cuts[0].1);
      CutFate(trail[0], trail[1], newId, cuts[0].0, cuts[0].1, m);
      CutShortReady(trail[0], trail[1], newId, cuts[0].0, cuts[0].1);
      CutsTail(trail, cuts, newId);
      IndexConverges(t, c, newId, goneLate, doneLate, m);
      CutsSplit(trail, cuts, newId, a[m]);
      CutIsCut(trail[0], trail[1], newId, cuts[0], a[m]);
      if !AtRisk(t[0], a, m) && AtRisk(trail[0], a, m) {
        forall i | 0 <= i < |c| ensures !CutAfterStore(t[i], newId, c[i], a[m]) {
          CleanStaysClean(t, c, newId, m, i);
        }
      }
      if AtRisk(t[0], a, m) {
        assert Unstored(t[0], a[m]) by { AtRiskUnstored(t[0], a, m); }
      }
    }
  }

  lemma AtRiskUnstored(u: World, a: seq<Note>, m: nat)
    requires m < |a| && AtRisk(u, a, m)
    ensures Unstored(u, a[m])
  {
  }

  lemma CutIsCut(w: World, w1: World, newId: Path -> Id, cut: (seq<Id>, nat), n: Note)
    requires CutShort(w, w1, newId, cut.0, cut.1)
    ensures CutAfterStore(w, newId, cut, n) <==> JustStored(Plan(w, newId, cut.0)[..cut.1], n)
  {
  }

  lemma CutsSplit(trail: seq<World>, cuts: seq<(seq<Id>, nat)>, newId: Path -> Id, n: Note)
    requires |trail| == |cuts| + 1 && cuts != []
    ensures var t, c := trail[1..], cuts[1..];
            (exists i :: 0 <= i < |cuts| && CutAfterStore(trail[i], newId, cuts[i], n))
            <==> || CutAfterStore(trail[0], newId, cuts[0], n)
                 || exists i :: 0 <= i < |c| && CutAfterStore(t[i], newId, c[i], n)
  {
    hide CutAfterStore;
    var t, c := trail[1..], cuts[1..];
    if i :| 0 <= i < |c| && CutAfterStore(t[i], newId, c[i], n) {
      assert CutAfterStore(trail[i + 1], newId, cuts[i + 1], n);
    }
    if i :| 0 < i < |cuts| && CutAfterStore(trail[i], newId, cuts[i], n) {
      assert CutAfterStore(t[i - 1], newId, c[i - 1], n);
    }
  }

  /** One note, recorded as it stands but gone from the store: an uninterrupted pass indexes
      it, but after a pass that died between its store write and its index write no later
      pass does. */
  lemma StoredButNeverIndexed(n: Note, newId: Path -> Id, w1: World, gone1: seq<Id>, done1: World, done: World,
                              later: seq<Id>)
    requires n.id != ""
    requires var w := World([n], map[n.id := EntryOf(n)], map[], map[]);
             && w1 == w.(store := map[n.id := RowOf(n)])
             && Complete(w, done, newId, []) && Complete(w1, done1, newId, gone1)
    requires Vanished(done1, newId, later)
    ensures var w := World([n], map[n.id := EntryOf(n)], map[], map[]);
            && Ready(w, newId) && CutShort(w, w1, newId, [], 1)
            && Covered(done.index, n) && !Covered(done1.index, n) && Plan(done1, newId, later) == []
  {
    hide ApplyAll, RowOf, Complete;
    var w := World([n], map[n.id := EntryOf(n)], map[], map[]);
    var a := AdoptAll(w.files, newId);
    assert a == [n] && a[0].id == n.id;
    var plan := Plan(w, newId, []);
    assert plan[..1] == [StoreAdd(n.id, RowOf(n))] by { OneNotePlan(w, newId, n); }
    ApplyOne(w, plan[0]);
    CompleteCovers(w, done, newId, [], 0);
    IndexConverges([w, w1], [([], 1)], newId, gone1, done1, 0);
    assert CutAfterStore([w, w1][0], newId, [([], 1)][0], n);
    CutShortReady(w, w1, newId, [], 1);
    PassIsIdempotent(w1, done1, newId, gone1, later);
  }

  lemma OneNotePlan(w: World, newId: Path -> Id, n: Note)
    requires w.files == [n] && n.id != "" && Unstored(w, n)
    ensures |Plan(w, newId, [])| >= 1 && Plan(w, newId, [])[0] == StoreAdd(n.id, RowOf(n))
  {
    hide RowOf, EntryOf;
    assert NotesPlan(w, 0, newId) == NoteWrites(w, 0, newId) + NotesPlan(w, 1, newId);
  }
}
