/** The vault synchronizer. */
module Vault {
  import opened Text

  // Markdown notes are the source of truth, and a pass projects them into the manifest, the
  // knowledge store and the search index. A pass is a list of writes fixed by what it read at
  // its start, so a pass that is cut short is a prefix.

  type Id = string
  type Path = string

  /** Frontmatter of a note; rest stands for every key the synchronizer does not read. */
  datatype Meta = Meta(status: string, sourceKind: string, rest: string)

  /** One Markdown file; id "" means the frontmatter has none. */
  datatype Note = Note(path: Path, id: Id, meta: Meta, body: string)

  /** A manifest row: the path and the content the digest stands for. */
  datatype Entry = Entry(path: Path, meta: Meta, body: string)

  /** A row of the knowledge store. */
  datatype Row = Row(meta: Meta, body: string, status: string)

  /** What the index holds for one path. */
  datatype Chunks = Chunks(id: Id, meta: Meta, body: string)

  datatype World = World(files: seq<Note>, notes: map<Id, Entry>, store: map<Id, Row>, index: map<Path, Chunks>)

  datatype Write =
    | Rewrite(position: nat, note: Note)
    | StoreAdd(id: Id, row: Row)
    | IndexFile(note: Note)
    | Unindex(path: Path)
    | Record(id: Id, entry: Entry)
    | Retire(id: Id)
    | Forget(id: Id)

  function EntryOf(n: Note): Entry {
    Entry(n.path, n.meta, n.body)
  }

  /** A note with a blank body retires its claim. */
  function RowOf(n: Note): Row {
    Row(n.meta, n.body, if Strip(n.body) == "" then "superseded" else n.meta.status)
  }

  function Retired(row: Row): Row {
    row.(status := "superseded")
  }

  function Apply(w: World, x: Write): World {
    match x
    case Rewrite(i, n) => if i < |w.files| then w.(files := w.files[i := n]) else w
    case StoreAdd(id, row) => w.(store := w.store[id := row])
    case IndexFile(n) => w.(index := w.index[n.path := Chunks(n.id, n.meta, n.body)])
    case Unindex(p) => w.(index := w.index - {p})
    case Record(id, e) => w.(notes := w.notes[id := e])
    case Retire(id) => if id in w.store then w.(store := w.store[id := Retired(w.store[id])]) else w
    case Forget(id) => w.(notes := w.notes - {id})
  }

  function ApplyAll(w: World, xs: seq<Write>): World
    decreases |xs|
  {
    if xs == [] then w else ApplyAll(Apply(w, xs[0]), xs[1..])
  }

  // ---- the writes of one pass ----

  /** A user-authored note without identity gets one; newId supplies the new ids. */
  function Adopt(n: Note, newId: Path -> Id): Note {
    if n.id == "" then n.(id := newId(n.path), meta := Meta("verified", "user_authored", n.meta.rest)) else n
  }

  function AdoptAll(files: seq<Note>, newId: Path -> Id): (r: seq<Note>)
    ensures |r| == |files|
    ensures forall i :: 0 <= i < |files| ==> r[i] == Adopt(files[i], newId)
  {
    seq(|files|, i requires 0 <= i < |files| => Adopt(files[i], newId))
  }

  /** Changed, moved, or missing from the store. */
  predicate Dirty(w: World, n: Note) {
    n.id !in w.notes || w.notes[n.id] != EntryOf(n) || n.id !in w.store
  }

  predicate Moved(w: World, n: Note) {
    n.id in w.notes && w.notes[n.id].path != n.path
  }

  function Projection(w: World, n: Note): seq<Write> {
    if Dirty(w, n) then
      [StoreAdd(n.id, RowOf(n)), IndexFile(n)]
      + (if Moved(w, n) then [Unindex(w.notes[n.id].path)] else [])
      + [Record(n.id, EntryOf(n))]
    else []
  }

  /** The writes for the note at one position of the listing. */
  function NoteWrites(w: World, i: nat, newId: Path -> Id): seq<Write>
    requires i < |w.files|
  {
    var n := Adopt(w.files[i], newId);
    (if w.files[i].id == "" then [Rewrite(i, n)] else []) + Projection(w, n)
  }

  function NotesPlan(w: World, i: nat, newId: Path -> Id): seq<Write>
    requires i <= |w.files|
    decreases |w.files| - i
  {
    if i == |w.files| then [] else NoteWrites(w, i, newId) + NotesPlan(w, i + 1, newId)
  }

  function GonePlan(w: World, gone: seq<Id>): seq<Write> {
    if gone == [] then []
    else
      var id := gone[0];
      [Retire(id)] + (if id in w.notes then [Unindex(w.notes[id].path)] else []) + [Forget(id)] + GonePlan(w, gone[1..])
  }

  function Plan(w: World, newId: Path -> Id, gone: seq<Id>): seq<Write> {
    NotesPlan(w, 0, newId) + GonePlan(w, gone)
  }

  // ---- what one pass assumes ----

  predicate DistinctIds(files: seq<Note>) {
    forall i, j :: 0 <= i < j < |files| && files[i].id == files[j].id ==> files[i].id == ""
  }

  predicate DistinctPaths(files: seq<Note>) {
    forall i, j :: 0 <= i < j < |files| ==> files[i].path != files[j].path
  }

  /** Generated ids are new: they occur nowhere, and never twice. */
  ghost predicate Fresh(w: World, newId: Path -> Id) {
    && (forall i :: 0 <= i < |w.files| && w.files[i].id == "" ==>
          newId(w.files[i].path) != "" && newId(w.files[i].path) !in w.notes && newId(w.files[i].path) !in w.store)
    && (forall i, j :: 0 <= i < |w.files| && 0 <= j < |w.files| && i != j && w.files[i].id == "" ==>
          newId(w.files[i].path) != Adopt(w.files[j], newId).id)
  }

  /** A snapshot a pass goes through with; rows of the stores always carry an id. */
  ghost predicate Ready(w: World, newId: Path -> Id) {
    && DistinctIds(w.files) && DistinctPaths(w.files) && Fresh(w, newId)
    && "" !in w.notes && "" !in w.store
  }

  predicate Present(notes: seq<Note>, id: Id) {
    exists i :: 0 <= i < |notes| && notes[i].id == id
  }

  /** gone lists, in any order and once each, the recorded ids without a note. */
  ghost predicate Vanished(w: World, newId: Path -> Id, gone: seq<Id>) {
    && (forall i, j :: 0 <= i < j < |gone| ==> gone[i] != gone[j])
    && (forall id :: id in gone <==> id in w.notes && !Present(AdoptAll(w.files, newId), id))
  }

  // ---- a world seen from one id ----

  /** The store row and the manifest row of one id, and whether a file carries it. */
  datatype Slice = Slice(row: Option<Row>, entry: Option<Entry>, filed: bool)

  function SliceOf(w: World, id: Id): Slice {
    Slice(if id in w.store then Some(w.store[id]) else None,
          if id in w.notes then Some(w.notes[id]) else None,
          Present(w.files, id))
  }

  predicate Concerns(x: Write, id: Id) {
    match x
    case Rewrite(_, n) => n.id == id
    case StoreAdd(k, _) => k == id
    case Record(k, _) => k == id
    case Retire(k) => k == id
    case Forget(k) => k == id
    case _ => false
  }

  function ApplySlice(s: Slice, x: Write): Slice {
    match x
    case Rewrite(_, _) => s.(filed := true)
    case StoreAdd(_, row) => s.(row := Some(row))
    case Record(_, e) => s.(entry := Some(e))
    case Retire(_) => if s.row.Some? then s.(row := Some(Retired(s.row.value))) else s
    case Forget(_) => s.(entry := None)
    case _ => s
  }

  function SliceAll(s: Slice, xs: seq<Write>): Slice
    decreases |xs|
  {
    if xs == [] then s else SliceAll(ApplySlice(s, xs[0]), xs[1..])
  }

  /** The writes that concern one id, in order. */
  function Focus(xs: seq<Write>, id: Id): seq<Write> {
    if xs == [] then []
    else if Concerns(xs[0], id) then [xs[0]] + Focus(xs[1..], id)
    else Focus(xs[1..], id)
  }

  lemma {:induction false} FocusConcat(xs: seq<Write>, ys: seq<Write>, id: Id)
    ensures Focus(xs + ys, id) == Focus(xs, id) + Focus(ys, id)
  {
    if xs == [] {
      assert xs + ys == ys;
    } else {
      assert (xs + ys)[1..] == xs[1..] + ys;
      FocusConcat(xs[1..], ys, id);
    }
  }

  lemma FocusPrefix(xs: seq<Write>, k: nat, id: Id)
    requires k <= |xs|
    ensures Focus(xs[..k], id) <= Focus(xs, id)
  {
    FocusConcat(xs[..k], xs[k..], id);
    assert xs == xs[..k] + xs[k..];
  }

  lemma {:induction false} ApplyAllConcat(w: World, xs: seq<Write>, ys: seq<Write>)
    ensures ApplyAll(w, xs + ys) == ApplyAll(ApplyAll(w, xs), ys)
    decreases |xs|
  {
    if xs == [] {
      assert xs + ys == ys;
    } else {
      assert (xs + ys)[1..] == xs[1..] + ys;
      ApplyAllConcat(Apply(w, xs[0]), xs[1..], ys);
    }
  }

  /** Rewrites only give identity to files without one, as the given listing says. */
  predicate Tame(xs: seq<Write>, adopted: seq<Note>) {
    forall x :: x in xs && x.Rewrite? ==> x.position < |adopted| && x.note == adopted[x.position]
  }

  /** A listing on the way to being adopted. */
  predicate Between(files: seq<Note>, adopted: seq<Note>) {
    && |files| == |adopted|
    && forall i :: 0 <= i < |files| ==>
        files[i] == adopted[i] || (files[i].id == "" && files[i].path == adopted[i].path)
  }

  lemma {:induction false} SliceApplyAll(w: World, xs: seq<Write>, adopted: seq<Note>, id: Id)
    requires id != "" && Tame(xs, adopted) && Between(w.files, adopted)
    ensures SliceOf(ApplyAll(w, xs), id) == SliceAll(SliceOf(w, id), Focus(xs, id))
    ensures Between(ApplyAll(w, xs).files, adopted)
    decreases |xs|
  {
    if xs != [] {
      var x := xs[0];
      SliceApply(w, x, adopted, id);
      SliceApplyAll(Apply(w, x), xs[1..], adopted, id);
    }
  }

  lemma SliceApply(w: World, x: Write, adopted: seq<Note>, id: Id)
    requires id != "" && Between(w.files, adopted)
    requires x.Rewrite? ==> x.position < |adopted| && x.note == adopted[x.position]
    ensures SliceOf(Apply(w, x), id) == if Concerns(x, id) then ApplySlice(SliceOf(w, id), x) else SliceOf(w, id)
    ensures Between(Apply(w, x).files, adopted)
  {
    if x.Rewrite? {
      var files := Apply(w, x).files;
      assert files[x.position] == x.note;
      if Present(w.files, id) {
        var i :| 0 <= i < |w.files| && w.files[i].id == id;
        assert files[i].id == id;
      }
      if Present(files, id) && x.note.id != id {
        var i :| 0 <= i < |files| && files[i].id == id;
        assert w.files[i].id == id;
      }
    }
  }

  // ---- the plan of a pass, seen from one id ----

  predicate SliceDirty(s: Slice, n: Note) {
    s.entry != Some(EntryOf(n)) || s.row.None?
  }

  /** What a pass does about one id: n is its note, at position i of the listing. */
  function SlicePlan(s: Slice, n: Option<Note>, i: nat, id: Id): seq<Write> {
    match n
    case Some(note) =>
      (if s.filed then [] else [Rewrite(i, note)])
      + (if SliceDirty(s, note) then [StoreAdd(id, RowOf(note)), Record(id, EntryOf(note))] else [])
    case None => if s.entry.Some? then [Retire(id), Forget(id)] else []
  }

  /** The state a complete pass gives one id. */
  function FinalSlice(s: Slice, n: Option<Note>): Slice {
    match n
    case Some(note) =>
      Slice(if SliceDirty(s, note) then Some(RowOf(note)) else s.row, Some(EntryOf(note)), true)
    case None =>
      if s.entry.Some? then Slice(if s.row.Some? then Some(Retired(s.row.value)) else None, None, s.filed) else s
  }

  lemma SliceOne(s: Slice, x: Write)
    ensures SliceAll(s, [x]) == ApplySlice(s, x)
  {
    assert [x][1..] == [];
  }

  lemma SliceTwo(s: Slice, x: Write, y: Write)
    ensures SliceAll(s, [x, y]) == ApplySlice(ApplySlice(s, x), y)
  {
    assert [x, y][1..] == [y];
    SliceOne(ApplySlice(s, x), y);
  }

  lemma SliceThree(s: Slice, x: Write, y: Write, z: Write)
    ensures SliceAll(s, [x, y, z]) == ApplySlice(ApplySlice(ApplySlice(s, x), y), z)
  {
    assert [x, y, z][1..] == [y, z];
    SliceTwo(ApplySlice(s, x), y, z);
  }

  /** A complete pass reaches the final slice, wherever an earlier pass was cut short. */
  lemma SliceConverges(s: Slice, n: Option<Note>, i: nat, id: Id, part: seq<Write>)
    requires part <= SlicePlan(s, n, i, id)
    ensures FinalSlice(SliceAll(s, part), n) == FinalSlice(s, n)
    ensures part == SlicePlan(s, n, i, id) ==> SliceAll(s, part) == FinalSlice(s, n)
  {
    var plan := SlicePlan(s, n, i, id);
    if |part| == 0 {
      assert part == [];
    } else if |part| == 1 {
      assert part == [plan[0]];
      SliceOne(s, plan[0]);
    } else if |part| == 2 {
      assert part == [plan[0], plan[1]];
      SliceTwo(s, plan[0], plan[1]);
    } else {
      assert part == [plan[0], plan[1], plan[2]];
      SliceThree(s, plan[0], plan[1], plan[2]);
    }
  }

  /** After adoption every file has its own id and path. */
  lemma AdoptDistinct(w: World, newId: Path -> Id)
    requires Ready(w, newId)
    ensures var a := AdoptAll(w.files, newId);
            && (forall i :: 0 <= i < |a| ==> a[i].id != "")
            && (forall i, j :: 0 <= i < j < |a| ==> a[i].id != a[j].id && a[i].path != a[j].path)
            && Between(w.files, a)
            && (forall i :: 0 <= i < |a| ==> (w.files[i].id == "" <==> !Present(w.files, a[i].id)))
  {
    var a := AdoptAll(w.files, newId);
    forall i, j | 0 <= i < |a| && 0 <= j < |a| && w.files[i].id == "" ensures w.files[j].id != a[i].id {
      if i != j && w.files[j].id != "" {
        assert a[j] == w.files[j];
      }
    }
  }

  lemma FocusProjection(w: World, n: Note, id: Id)
    ensures Focus(Projection(w, n), id)
         == if n.id == id && Dirty(w, n) then [StoreAdd(id, RowOf(n)), Record(id, EntryOf(n))] else []
  {
    hide RowOf, EntryOf, Dirty;
    if Dirty(w, n) {
      var unindex := if Moved(w, n) then [Unindex(w.notes[n.id].path)] else [];
      var add, record := StoreAdd(n.id, RowOf(n)), Record(n.id, EntryOf(n));
      FocusConcat([add, IndexFile(n)] + unindex, [record], id);
      FocusConcat([add, IndexFile(n)], unindex, id);
      FocusConcat([add], [IndexFile(n)], id);
      assert [add] + [IndexFile(n)] == [add, IndexFile(n)];
      FocusOne(add, id);
      FocusOne(IndexFile(n), id);
      FocusOne(record, id);
      if unindex != [] {
        FocusOne(unindex[0], id);
      }
    }
  }

  lemma FocusNoteWrites(w: World, i: nat, newId: Path -> Id, id: Id)
    requires i < |w.files|
    ensures var n := Adopt(w.files[i], newId);
            Focus(NoteWrites(w, i, newId), id)
            == if n.id != id then []
               else (if w.files[i].id == "" then [Rewrite(i, n)] else [])
                    + (if Dirty(w, n) then [StoreAdd(id, RowOf(n)), Record(id, EntryOf(n))] else [])
  {
    hide RowOf, EntryOf, Dirty, Projection;
    var n := Adopt(w.files[i], newId);
    var rewrite := if w.files[i].id == "" then [Rewrite(i, n)] else [];
    FocusConcat(rewrite, Projection(w, n), id);
    FocusProjection(w, n, id);
    if rewrite != [] {
      FocusOne(Rewrite(i, n), id);
    }
  }

  lemma FocusOne(x: Write, id: Id)
    ensures Focus([x], id) == if Concerns(x, id) then [x] else []
  {
    assert [x][1..] == [];
  }

  lemma {:induction false} FocusNotes(w: World, i: nat, newId: Path -> Id, id: Id, m: nat)
    requires i <= |w.files| && m <= |w.files|
    requires forall j :: 0 <= j < |w.files| ==> (Adopt(w.files[j], newId).id == id <==> j == m)
    ensures Focus(NotesPlan(w, i, newId), id)
         == if i <= m < |w.files| then Focus(NoteWrites(w, m, newId), id) else []
    decreases |w.files| - i
  {
    hide NoteWrites;
    if i < |w.files| {
      FocusConcat(NoteWrites(w, i, newId), NotesPlan(w, i + 1, newId), id);
      FocusNotes(w, i + 1, newId, id, m);
      FocusNoteWrites(w, i, newId, id);
    }
  }

  lemma FocusGoneStep(k: Id, unindex: seq<Write>, id: Id)
    requires |unindex| <= 1 && (unindex != [] ==> unindex[0].Unindex?)
    ensures Focus([Retire(k)] + unindex + [Forget(k)], id) == if k == id then [Retire(id), Forget(id)] else []
  {
    FocusConcat([Retire(k)] + unindex, [Forget(k)], id);
    FocusConcat([Retire(k)], unindex, id);
    FocusOne(Retire(k), id);
    FocusOne(Forget(k), id);
    if unindex != [] {
      FocusOne(unindex[0], id);
      assert unindex == [unindex[0]];
    }
  }

  lemma {:induction false} FocusGone(w: World, gone: seq<Id>, id: Id)
    requires forall i, j :: 0 <= i < j < |gone| ==> gone[i] != gone[j]
    ensures Focus(GonePlan(w, gone), id) == if id in gone then [Retire(id), Forget(id)] else []
  {
    if gone != [] {
      var k := gone[0];
      var unindex := if k in w.notes then [Unindex(w.notes[k].path)] else [];
      FocusGone(w, gone[1..], id);
      FocusConcat([Retire(k)] + unindex + [Forget(k)], GonePlan(w, gone[1..]), id);
      FocusGoneStep(k, unindex, id);
      assert gone == [k] + gone[1..];
    }
  }

  /** The note that carries an id after adoption. */
  function Carrier(notes: seq<Note>, id: Id): (r: Option<Note>)
    ensures r.Some? <==> Present(notes, id)
    ensures r.Some? ==> r.value.id == id && exists i :: 0 <= i < |notes| && notes[i] == r.value
  {
    if notes == [] then None
    else if notes[0].id == id then assert notes[0] == notes[0]; Some(notes[0])
    else
      assert forall i :: 0 < i < |notes| ==> notes[i] == notes[1..][i - 1];
      Carrier(notes[1..], id)
  }

  lemma FocusPlan(w: World, newId: Path -> Id, gone: seq<Id>, id: Id) returns (i: nat)
    requires Ready(w, newId) && Vanished(w, newId, gone) && id != ""
    ensures Focus(Plan(w, newId, gone), id) == SlicePlan(SliceOf(w, id), Carrier(AdoptAll(w.files, newId), id), i, id)
  {
    hide NotesPlan, GonePlan, NoteWrites, RowOf, EntryOf, Focus;
    var a := AdoptAll(w.files, newId);
    AdoptDistinct(w, newId);
    FocusConcat(NotesPlan(w, 0, newId), GonePlan(w, gone), id);
    FocusGone(w, gone, id);
    var n := Carrier(a, id);
    if n.Some? {
      i :| 0 <= i < |a| && a[i] == n.value;
      FocusNotes(w, 0, newId, id, i);
      FocusNoteWrites(w, i, newId, id);
      SlicePlanOfNote(w, i, newId);
    } else {
      i := 0;
      forall j | 0 <= j < |w.files| ensures Adopt(w.files[j], newId).id != id {
        assert a[j].id != id;
      }
      FocusNotes(w, 0, newId, id, |w.files|);
    }
  }

  lemma SlicePlanOfNote(w: World, i: nat, newId: Path -> Id)
    requires i < |w.files|
    requires var n := Adopt(w.files[i], newId); w.files[i].id == "" <==> !Present(w.files, n.id)
    ensures var n := Adopt(w.files[i], newId);
            SlicePlan(SliceOf(w, n.id), Some(n), i, n.id)
            == (if w.files[i].id == "" then [Rewrite(i, n)] else [])
               + (if Dirty(w, n) then [StoreAdd(n.id, RowOf(n)), Record(n.id, EntryOf(n))] else [])
  {
    hide RowOf, Present, EntryOf;
  }

  // ---- what a pass, cut short or not, leaves behind ----

  lemma NoteShape(w: World, i: nat, newId: Path -> Id, adopted: seq<Note>)
    requires i < |w.files| == |adopted| && adopted[i] == Adopt(w.files[i], newId) && adopted[i].id != ""
    ensures forall x :: x in NoteWrites(w, i, newId) ==> WellShaped(x, adopted)
  {
    hide RowOf, EntryOf, Dirty, Moved;
  }

  lemma {:induction false} PlanShape(w: World, i: nat, newId: Path -> Id, adopted: seq<Note>)
    requires i <= |w.files| && adopted == AdoptAll(w.files, newId)
    requires forall j :: 0 <= j < |adopted| ==> adopted[j].id != ""
    ensures forall x :: x in NotesPlan(w, i, newId) ==> WellShaped(x, adopted)
    decreases |w.files| - i
  {
    hide NoteWrites, WellShaped;
    if i < |w.files| {
      NoteShape(w, i, newId, adopted);
      PlanShape(w, i + 1, newId, adopted);
    }
  }

  lemma {:induction false} GoneShape(w: World, gone: seq<Id>, adopted: seq<Note>)
    ensures forall x :: x in GonePlan(w, gone) ==> WellShaped(x, adopted)
  {
    if gone != [] {
      GoneShape(w, gone[1..], adopted);
    }
  }

  /** Rewrites put a file's adopted form in its own place; no row gets an empty id. */
  predicate WellShaped(x: Write, adopted: seq<Note>) {
    match x
    case Rewrite(i, n) => i < |adopted| && n == adopted[i]
    case StoreAdd(id, _) => id != ""
    case Record(id, _) => id != ""
    case _ => true
  }

  lemma {:induction false} FilesAfter(w: World, xs: seq<Write>, adopted: seq<Note>)
    requires |adopted| == |w.files|
    requires forall x :: x in xs ==> WellShaped(x, adopted)
    ensures var w1 := ApplyAll(w, xs);
            && |w1.files| == |w.files|
            && (forall i :: 0 <= i < |w.files| ==> w1.files[i] == w.files[i] || w1.files[i] == adopted[i])
            && ("" !in w.notes ==> "" !in w1.notes) && ("" !in w.store ==> "" !in w1.store)
    decreases |xs|
  {
    if xs != [] {
      assert WellShaped(xs[0], adopted);
      FilesAfter(Apply(w, xs[0]), xs[1..], adopted);
    }
  }

  lemma {:induction false} FiledStays(s: Slice, xs: seq<Write>)
    requires s.filed
    ensures SliceAll(s, xs).filed
    decreases |xs|
  {
    if xs != [] {
      FiledStays(ApplySlice(s, xs[0]), xs[1..]);
    }
  }

  /** w1 is what a pass started in w leaves when it stops after some of its writes. */
  ghost predicate CutShort(w: World, w1: World, newId: Path -> Id, gone: seq<Id>, k: nat) {
    Vanished(w, newId, gone) && k <= |Plan(w, newId, gone)| && w1 == ApplyAll(w, Plan(w, newId, gone)[..k])
  }

  ghost predicate Complete(w: World, w1: World, newId: Path -> Id, gone: seq<Id>) {
    Vanished(w, newId, gone) && w1 == ApplyAll(w, Plan(w, newId, gone))
  }

  lemma PlanPart(w: World, newId: Path -> Id, gone: seq<Id>, k: nat)
    requires Ready(w, newId) && k <= |Plan(w, newId, gone)|
    ensures var part := Plan(w, newId, gone)[..k];
            && (forall x :: x in part ==> WellShaped(x, AdoptAll(w.files, newId)))
            && Tame(part, AdoptAll(w.files, newId))
  {
    AdoptDistinct(w, newId);
    var a := AdoptAll(w.files, newId);
    PlanShape(w, 0, newId, a);
    GoneShape(w, gone, a);
  }

  /** The slice of any id after the first k writes. */
  lemma PartSlice(w: World, newId: Path -> Id, gone: seq<Id>, k: nat, id: Id) returns (i: nat, part: seq<Write>)
    requires Ready(w, newId) && Vanished(w, newId, gone) && k <= |Plan(w, newId, gone)| && id != ""
    ensures part <= SlicePlan(SliceOf(w, id), Carrier(AdoptAll(w.files, newId), id), i, id)
    ensures SliceOf(ApplyAll(w, Plan(w, newId, gone)[..k]), id) == SliceAll(SliceOf(w, id), part)
    ensures k == |Plan(w, newId, gone)| ==>
            part == SlicePlan(SliceOf(w, id), Carrier(AdoptAll(w.files, newId), id), i, id)
  {
    hide Plan, Focus, SliceAll, SlicePlan, Carrier;
    var plan := Plan(w, newId, gone);
    i := FocusPlan(w, newId, gone, id);
    part := Focus(plan[..k], id);
    FocusPrefix(plan, k, id);
    PlanPart(w, newId, gone, k);
    AdoptDistinct(w, newId);
    SliceApplyAll(w, plan[..k], AdoptAll(w.files, newId), id);
    assert k == |plan| ==> plan[..k] == plan;
  }

  /** After a pass that was cut short the next one sees the same notes, and may run. */
  lemma CutShortReady(w: World, w1: World, newId: Path -> Id, gone: seq<Id>, k: nat)
    requires Ready(w, newId) && CutShort(w, w1, newId, gone, k)
    ensures Ready(w1, newId) && AdoptAll(w1.files, newId) == AdoptAll(w.files, newId)
  {
    hide Plan, Focus, SliceAll, Carrier;
    var a := AdoptAll(w.files, newId);
    AdoptDistinct(w, newId);
    PlanPart(w, newId, gone, k);
    FilesAfter(w, Plan(w, newId, gone)[..k], a);
    assert AdoptAll(w1.files, newId) == a;
    forall i | 0 <= i < |w1.files| && w1.files[i].id == ""
      ensures newId(w1.files[i].path) !in w1.notes && newId(w1.files[i].path) !in w1.store
    {
      UnadoptedUntouched(w, w1, newId, gone, k, i);
    }
  }

  lemma UnadoptedUntouched(w: World, w1: World, newId: Path -> Id, gone: seq<Id>, k: nat, i: nat)
    requires Ready(w, newId) && CutShort(w, w1, newId, gone, k)
    requires i < |w.files| && |w1.files| == |w.files| && w.files[i].id == ""
    requires forall j :: 0 <= j < |w.files| ==> w1.files[j] == w.files[j] || w1.files[j] == Adopt(w.files[j], newId)
    requires w1.files[i].id == ""
    ensures newId(w.files[i].path) !in w1.notes && newId(w.files[i].path) !in w1.store
  {
    hide Plan, Focus, Carrier;
    var a := AdoptAll(w.files, newId);
    AdoptDistinct(w, newId);
    var id := a[i].id;
    assert !Present(w1.files, id) by {
      forall j | 0 <= j < |w1.files| ensures w1.files[j].id != id {
        assert a[j].id == id ==> j == i;
      }
    }
    var m, part := PartSlice(w, newId, gone, k, id);
    var s := SliceOf(w, id);
    assert Present(a, id);
    if part != [] {
      assert part[0] == SlicePlan(s, Carrier(a, id), m, id)[0];
      FiledStays(ApplySlice(s, part[0]), part[1..]);
      assert false;
    }
  }

  lemma CompleteFiles(w: World, w1: World, newId: Path -> Id, gone: seq<Id>)
    requires Ready(w, newId) && Complete(w, w1, newId, gone)
    ensures w1.files == AdoptAll(w.files, newId)
    ensures forall id :: id != "" ==>
            SliceOf(w1, id) == FinalSlice(SliceOf(w, id), Carrier(AdoptAll(w.files, newId), id))
    ensures "" !in w1.notes && "" !in w1.store
  {
    hide Plan, Focus, SliceAll, Carrier;
    var a := AdoptAll(w.files, newId);
    var k := |Plan(w, newId, gone)|;
    assert Plan(w, newId, gone)[..k] == Plan(w, newId, gone);
    AdoptDistinct(w, newId);
    PlanPart(w, newId, gone, k);
    FilesAfter(w, Plan(w, newId, gone), a);
    forall id: Id | id != "" ensures SliceOf(w1, id) == FinalSlice(SliceOf(w, id), Carrier(a, id)) {
      var i, part := PartSlice(w, newId, gone, k, id);
      SliceConverges(SliceOf(w, id), Carrier(a, id), i, id, part);
    }
    forall i | 0 <= i < |a| ensures w1.files[i] == a[i] {
      assert Present(a, a[i].id);
      assert SliceOf(w1, a[i].id).filed;
      var j :| 0 <= j < |w1.files| && w1.files[j].id == a[i].id;
      assert a[j].id == a[i].id ==> j == i;
    }
  }

  /** However often a pass was cut short, a complete pass ends in the same files,
      manifest and store as a pass that was never interrupted. */
  lemma {:induction false} Converges(trail: seq<World>, cuts: seq<(seq<Id>, nat)>, newId: Path -> Id,
                                     gone: seq<Id>, done: World, goneLate: seq<Id>, doneLate: World)
    requires |trail| == |cuts| + 1 && Ready(trail[0], newId)
    requires forall i :: 0 <= i < |cuts| ==> CutShort(trail[i], trail[i + 1], newId, cuts[i].0, cuts[i].1)
    requires Complete(trail[0], done, newId, gone)
    requires Complete(trail[|cuts|], doneLate, newId, goneLate)
    ensures doneLate.files == done.files && doneLate.notes == done.notes && doneLate.store == done.store
    decreases |cuts|
  {
    hide Plan, Focus, SliceAll, Carrier, FinalSlice, SliceOf;
    var w := trail[0];
    if cuts == [] {
      SameFinal(w, newId, gone, done, goneLate, doneLate);
    } else {
      CutShortReady(w, trail[1], newId, cuts[0].0, cuts[0].1);
      var gone1 := VanishedList(trail[1], newId);
      var done1 := ApplyAll(trail[1], Plan(trail[1], newId, gone1));
      CompleteFiles(w, done, newId, gone);
      CompleteFiles(trail[1], done1, newId, gone1);
      forall id: Id | id != "" ensures SliceOf(done1, id) == SliceOf(done, id) {
        CutKeepsFinal(w, trail[1], newId, cuts[0].0, cuts[0].1, id);
      }
      SameSlices(done, done1);
      forall i | 0 <= i < |cuts[1..]|
        ensures CutShort(trail[1..][i], trail[1..][i + 1], newId, cuts[1..][i].0, cuts[1..][i].1)
      {
        assert CutShort(trail[i + 1], trail[i + 2], newId, cuts[i + 1].0, cuts[i + 1].1);
      }
      Converges(trail[1..], cuts[1..], newId, gone1, done1, goneLate, doneLate);
    }
  }

  lemma VanishedList(w: World, newId: Path -> Id) returns (gone: seq<Id>)
    ensures Vanished(w, newId, gone)
  {
    var left := set id | id in w.notes && !Present(AdoptAll(w.files, newId), id);
    var all := left;
    gone := [];
    while left != {}
      invariant left <= all
      invariant forall id :: id in gone <==> id in all && id !in left
      invariant forall i, j :: 0 <= i < j < |gone| ==> gone[i] != gone[j]
    {
      var id :| id in left;
      gone := gone + [id];
      left := left - {id};
    }
  }

  /** A pass that was cut short does not change where a complete one ends. */
  lemma CutKeepsFinal(w: World, w1: World, newId: Path -> Id, gone: seq<Id>, k: nat, id: Id)
    requires Ready(w, newId) && CutShort(w, w1, newId, gone, k) && id != ""
    ensures var n := Carrier(AdoptAll(w.files, newId), id);
            FinalSlice(SliceOf(w1, id), n) == FinalSlice(SliceOf(w, id), n)
  {
    hide Plan, Focus, SliceAll, Carrier, FinalSlice, SlicePlan;
    var i, part := PartSlice(w, newId, gone, k, id);
    SliceConverges(SliceOf(w, id), Carrier(AdoptAll(w.files, newId), id), i, id, part);
  }

  lemma SameFinal(w: World, newId: Path -> Id, gone: seq<Id>, done: World, gone1: seq<Id>, done1: World)
    requires Ready(w, newId) && Complete(w, done, newId, gone) && Complete(w, done1, newId, gone1)
    ensures done1.files == done.files && done1.notes == done.notes && done1.store == done.store
  {
    hide Plan, Focus, SliceAll, Carrier, FinalSlice, SlicePlan;
    CompleteFiles(w, done, newId, gone);
    CompleteFiles(w, done1, newId, gone1);
    SameSlices(done, done1);
  }

  lemma SameSlices(a: World, b: World)
    requires forall id :: id != "" ==> SliceOf(a, id) == SliceOf(b, id)
    requires "" !in a.notes && "" !in a.store && "" !in b.notes && "" !in b.store
    ensures a.notes == b.notes && a.store == b.store
  {
    forall id: Id ensures (id in a.notes <==> id in b.notes) && (id in a.notes ==> a.notes[id] == b.notes[id]) {
      if id != "" { assert SliceOf(a, id) == SliceOf(b, id); }
    }
    forall id: Id ensures (id in a.store <==> id in b.store) && (id in a.store ==> a.store[id] == b.store[id]) {
      if id != "" { assert SliceOf(a, id) == SliceOf(b, id); }
    }
  }

  /** What a complete pass does to the manifest and the store. */
  lemma PassProjects(w: World, w1: World, newId: Path -> Id, gone: seq<Id>)
    requires Ready(w, newId) && Complete(w, w1, newId, gone)
    ensures w1.files == AdoptAll(w.files, newId)
    ensures forall i :: 0 <= i < |w1.files| ==>
              var n := w1.files[i];
              && n.id in w1.notes && w1.notes[n.id] == EntryOf(n) && n.id in w1.store
              && w1.store[n.id] == if Dirty(w, n) then RowOf(n) else w.store[n.id]
    ensures forall id :: id in w1.notes ==> Present(w1.files, id)
    ensures forall id :: !Present(w1.files, id) ==>
              && (id in w1.store <==> id in w.store)
              && (id in w.store ==> w1.store[id] == if id in w.notes then Retired(w.store[id]) else w.store[id])
  {
    hide Plan, Focus, SliceAll, RowOf, EntryOf;
    var a := AdoptAll(w.files, newId);
    AdoptDistinct(w, newId);
    CompleteFiles(w, w1, newId, gone);
    forall i | 0 <= i < |a|
      ensures var n := a[i];
              && n.id in w1.notes && w1.notes[n.id] == EntryOf(n) && n.id in w1.store
              && w1.store[n.id] == if Dirty(w, n) then RowOf(n) else w.store[n.id]
    {
      assert Present(a, a[i].id);
      assert Carrier(a, a[i].id) == Some(a[i]);
      assert SliceOf(w1, a[i].id) == FinalSlice(SliceOf(w, a[i].id), Some(a[i]));
    }
    forall id | !Present(w1.files, id)
      ensures id !in w1.notes && (id in w1.store <==> id in w.store)
              && (id in w.store ==> w1.store[id] == if id in w.notes then Retired(w.store[id]) else w.store[id])
    {
      if id != "" {
        assert SliceOf(w1, id) == FinalSlice(SliceOf(w, id), None);
      }
    }
  }

  /** The note as the pass found it: new, edited, moved, or gone from the store. */
  predicate Differs(w: World, n: Note) {
    || n.id !in w.notes || n.id !in w.store
    || w.notes[n.id].path != n.path || w.notes[n.id].meta != n.meta || w.notes[n.id].body != n.body
  }

  /** A complete pass, note by note. A file with an id stays as it is; one without gets a new
      id and is marked as verified and written by the user. A note that differs is stored with
      its own frontmatter and body, under its own status, or as superseded when its body is
      blank; any other row stays. The manifest holds the note's path and contents. */
  lemma PassStores(w: World, w1: World, newId: Path -> Id, gone: seq<Id>, i: nat)
    requires Ready(w, newId) && Complete(w, w1, newId, gone) && i < |w.files|
    ensures |w1.files| == |w.files|
    ensures var f, n := w.files[i], w1.files[i];
            && n.path == f.path && n.body == f.body && n.meta.rest == f.meta.rest
            && (f.id != "" ==> n.id == f.id && n.meta == f.meta)
            && (f.id == "" ==>
                  n.id == newId(f.path) && n.meta.status == "verified" && n.meta.sourceKind == "user_authored")
    ensures var n := w1.files[i];
            && n.id in w1.store && n.id in w1.notes
            && w1.notes[n.id].path == n.path && w1.notes[n.id].meta == n.meta && w1.notes[n.id].body == n.body
            && (!Differs(w, n) ==> w1.store[n.id] == w.store[n.id])
            && (Differs(w, n) ==>
                  && w1.store[n.id].meta == n.meta && w1.store[n.id].body == n.body
                  && (Strip(n.body) == "" ==> w1.store[n.id].status == "superseded")
                  && (Strip(n.body) != "" ==> w1.store[n.id].status == n.meta.status))
  {
    hide Plan, ApplyAll, Strip;
    PassProjects(w, w1, newId, gone);
  }

  /** A recorded id without a note leaves the manifest, and its row, if there is one, stays
      as it was but superseded; a row that was never recorded is not touched. */
  lemma PassRetires(w: World, w1: World, newId: Path -> Id, gone: seq<Id>, id: Id)
    requires Ready(w, newId) && Complete(w, w1, newId, gone) && forall i :: 0 <= i < |w1.files| ==> w1.files[i].id != id
    ensures id !in w1.notes && (id in w1.store <==> id in w.store)
    ensures id in w.store ==>
              && w1.store[id].meta == w.store[id].meta && w1.store[id].body == w.store[id].body
              && w1.store[id].status == if id in w.notes then "superseded" else w.store[id].status
  {
    hide Plan, ApplyAll;
    PassProjects(w, w1, newId, gone);
  }

  /** Notes a pass reports as unchanged. */
  function CleanCount(w: World, notes: seq<Note>): nat {
    if notes == [] then 0 else (if Dirty(w, notes[0]) then 0 else 1) + CleanCount(w, notes[1..])
  }

  lemma {:induction false} CleanConcat(w: World, a: seq<Note>, b: seq<Note>)
    ensures CleanCount(w, a + b) == CleanCount(w, a) + CleanCount(w, b)
    decreases |a|
  {
    hide Dirty;
    if a == [] {
      assert a + b == b;
    } else {
      assert (a + b)[1..] == a[1..] + b;
      CleanConcat(w, a[1..], b);
    }
  }

  /** Of any notes exactly those that do not differ count as unchanged. */
  lemma UnchangedCounted(w: World, a: seq<Note>, n: Note, b: seq<Note>)
    ensures CleanCount(w, a + [n] + b) == CleanCount(w, a + b) + (if Differs(w, n) then 0 else 1)
    ensures CleanCount(w, []) == 0
  {
    CleanConcat(w, a + [n], b);
    CleanConcat(w, a, [n]);
    CleanConcat(w, a, b);
    assert [n][1..] == [];
  }

  lemma {:induction false} CleanPlan(w: World, i: nat, newId: Path -> Id)
    requires i <= |w.files|
    requires forall j :: 0 <= j < |w.files| ==> w.files[j].id != "" && !Dirty(w, w.files[j])
    ensures NotesPlan(w, i, newId) == []
    decreases |w.files| - i
  {
    if i < |w.files| {
      CleanPlan(w, i + 1, newId);
    }
  }

  /** A pass right after a complete one has nothing to write, whatever ids it would generate. */
  lemma PassIsIdempotent(w: World, w1: World, newId: Path -> Id, gone: seq<Id>, gone1: seq<Id>)
    requires Ready(w, newId) && Complete(w, w1, newId, gone) && Vanished(w1, newId, gone1)
    ensures Plan(w1, newId, gone1) == [] && gone1 == []
    ensures AdoptAll(w1.files, newId) == w1.files && CleanCount(w1, w1.files) == |w1.files|
  {
    hide Plan, RowOf;
    PassProjects(w, w1, newId, gone);
    AdoptDistinct(w, newId);
    CleanPlan(w1, 0, newId);
    AllClean(w1, w1.files);
    assert AdoptAll(w1.files, newId) == w1.files;
    SomeMember(gone1);
    assert Plan(w1, newId, gone1) == [] by {
      EmptyPlan(w1, newId);
    }
  }

  lemma {:induction false} AllClean(w: World, notes: seq<Note>)
    requires forall i :: 0 <= i < |notes| ==> !Dirty(w, notes[i])
    ensures CleanCount(w, notes) == |notes|
  {
    if notes != [] {
      AllClean(w, notes[1..]);
    }
  }

  lemma EmptyPlan(w: World, newId: Path -> Id)
    requires NotesPlan(w, 0, newId) == []
    ensures Plan(w, newId, []) == []
  {
  }

  // ---- the search index ----

  /** The index after the note at one position went through. */
  function IndexStep(index: map<Path, Chunks>, w: World, n: Note): map<Path, Chunks> {
    if Dirty(w, n) then
      index[n.path := Chunks(n.id, n.meta, n.body)] - (if Moved(w, n) then {w.notes[n.id].path} else {})
    else index
  }

  function IndexNotes(index: map<Path, Chunks>, w: World, notes: seq<Note>): map<Path, Chunks>
    decreases |notes|
  {
    if notes == [] then index else IndexNotes(IndexStep(index, w, notes[0]), w, notes[1..])
  }

  function GonePaths(w: World, gone: seq<Id>): set<Path> {
    set id | id in gone && id in w.notes :: w.notes[id].path
  }

  lemma IndexProjection(w0: World, w: World, n: Note)
    ensures ApplyAll(w0, Projection(w, n)).index == IndexStep(w0.index, w, n)
  {
    hide RowOf, EntryOf, Dirty;
    if Dirty(w, n) {
      var add, file, record := StoreAdd(n.id, RowOf(n)), IndexFile(n), Record(n.id, EntryOf(n));
      var w1 := Apply(Apply(w0, add), file);
      ApplyTwo(w0, add, file);
      if Moved(w, n) {
        var old_ := Unindex(w.notes[n.id].path);
        assert Projection(w, n) == [add, file] + [old_, record];
        ApplyAllConcat(w0, [add, file], [old_, record]);
        ApplyTwo(w1, old_, record);
      } else {
        assert Projection(w, n) == [add, file] + [record];
        ApplyAllConcat(w0, [add, file], [record]);
        ApplyOne(w1, record);
        assert w1.index - {} == w1.index;
      }
    }
  }

  lemma ApplyOne(w: World, x: Write)
    ensures ApplyAll(w, [x]) == Apply(w, x)
  {
    assert [x][1..] == [];
  }

  lemma ApplyTwo(w: World, x: Write, y: Write)
    ensures ApplyAll(w, [x, y]) == Apply(Apply(w, x), y)
  {
    assert [x, y][1..] == [y];
    ApplyOne(Apply(w, x), y);
  }

  lemma {:induction false} IndexNotesPlan(w0: World, w: World, i: nat, newId: Path -> Id)
    requires i <= |w.files|
    ensures ApplyAll(w0, NotesPlan(w, i, newId)).index == IndexNotes(w0.index, w, AdoptAll(w.files, newId)[i..])
    decreases |w.files| - i
  {
    hide Projection, IndexStep;
    var a := AdoptAll(w.files, newId);
    if i < |w.files| {
      var n := a[i];
      var rewrite := if w.files[i].id == "" then [Rewrite(i, n)] else [];
      ApplyAllConcat(w0, NoteWrites(w, i, newId), NotesPlan(w, i + 1, newId));
      ApplyAllConcat(w0, rewrite, Projection(w, n));
      if rewrite != [] {
        ApplyOne(w0, Rewrite(i, n));
      }
      IndexProjection(ApplyAll(w0, rewrite), w, n);
      IndexNotesPlan(ApplyAll(w0, NoteWrites(w, i, newId)), w, i + 1, newId);
      assert a[i..][1..] == a[i + 1..];
    }
  }

  lemma {:induction false} IndexGonePlan(w0: World, w: World, gone: seq<Id>)
    ensures ApplyAll(w0, GonePlan(w, gone)).index == w0.index - GonePaths(w, gone)
    decreases |gone|
  {
    if gone == [] {
      assert GonePaths(w, gone) == {};
    } else {
      var id := gone[0];
      var unindex := if id in w.notes then [Unindex(w.notes[id].path)] else [];
      var head := [Retire(id)] + unindex + [Forget(id)];
      ApplyAllConcat(w0, head, GonePlan(w, gone[1..]));
      IndexGoneStep(w0, id, unindex);
      IndexGonePlan(ApplyAll(w0, head), w, gone[1..]);
      assert gone == [id] + gone[1..];
      assert GonePaths(w, gone) == (if id in w.notes then {w.notes[id].path} else {}) + GonePaths(w, gone[1..]);
    }
  }

  lemma IndexGoneStep(w0: World, id: Id, unindex: seq<Write>)
    requires unindex == [] || (|unindex| == 1 && unindex[0].Unindex?)
    ensures ApplyAll(w0, [Retire(id)] + unindex + [Forget(id)]).index
         == w0.index - (if unindex == [] then {} else {unindex[0].path})
  {
    ApplyAllConcat(w0, [Retire(id)] + unindex, [Forget(id)]);
    ApplyAllConcat(w0, [Retire(id)], unindex);
    ApplyOne(w0, Retire(id));
    ApplyOne(ApplyAll(w0, [Retire(id)] + unindex), Forget(id));
    if unindex != [] {
      assert unindex == [unindex[0]];
      ApplyOne(Apply(w0, Retire(id)), unindex[0]);
    }
    assert w0.index - {} == w0.index;
  }

  predicate Covered(index: map<Path, Chunks>, n: Note) {
    n.path in index && index[n.path] == Chunks(n.id, n.meta, n.body)
  }

  /** A note at position i or later has moved away from this path. */
  predicate Evicted(w: World, notes: seq<Note>, i: nat, path: Path) {
    exists j :: i <= j < |notes| && Dirty(w, notes[j]) && Moved(w, notes[j]) && w.notes[notes[j].id].path == path
  }

  /** Notes at other paths leave the rows of n alone unless they moved away from n's path. */
  lemma {:induction false} OthersKeep(index: map<Path, Chunks>, w: World, notes: seq<Note>, i: nat, n: Note)
    requires i <= |notes| && forall j :: i <= j < |notes| ==> notes[j].path != n.path
    ensures Covered(IndexNotes(index, w, notes[i..]), n) <==> Covered(index, n) && !Evicted(w, notes, i, n.path)
    decreases |notes| - i
  {
    hide Dirty;
    if i < |notes| {
      var step := IndexStep(index, w, notes[i]);
      assert notes[i..][1..] == notes[i + 1..];
      OthersKeep(step, w, notes, i + 1, n);
      assert notes[i].path != n.path;
    }
  }

  lemma {:induction false} IndexNotesConcat(index: map<Path, Chunks>, w: World, xs: seq<Note>, ys: seq<Note>)
    ensures IndexNotes(index, w, xs + ys) == IndexNotes(IndexNotes(index, w, xs), w, ys)
    decreases |xs|
  {
    if xs == [] {
      assert xs + ys == ys;
    } else {
      assert (xs + ys)[1..] == xs[1..] + ys;
      IndexNotesConcat(IndexStep(index, w, xs[0]), w, xs[1..], ys);
    }
  }

  /** From this position on, a note that moved away evicts the note at m: a note the pass
      projects is safe until its own turn, one it leaves alone is not. */
  function ExposedFrom(w: World, notes: seq<Note>, m: nat): nat
    requires m < |notes|
  {
    if Dirty(w, notes[m]) then m + 1 else 0
  }

  lemma EvictedSplit(w: World, notes: seq<Note>, m: nat, path: Path)
    requires m < |notes| && !Dirty(w, notes[m])
    ensures Evicted(w, notes, 0, path) <==> Evicted(w, notes[..m], 0, path) || Evicted(w, notes, m + 1, path)
  {
    hide Dirty;
    if Evicted(w, notes, 0, path) {
      var j :| 0 <= j < |notes| && Dirty(w, notes[j]) && Moved(w, notes[j]) && w.notes[notes[j].id].path == path;
      assert j != m;
      if j < m { assert notes[..m][j] == notes[j]; }
    }
    if Evicted(w, notes[..m], 0, path) {
      var j :| 0 <= j < |notes[..m]| && Dirty(w, notes[..m][j]) && Moved(w, notes[..m][j])
          && w.notes[notes[..m][j].id].path == path;
      assert notes[..m][j] == notes[j];
    }
  }

  lemma NotesCovered(index: map<Path, Chunks>, w: World, notes: seq<Note>, m: nat)
    requires m < |notes| && DistinctPaths(notes)
    ensures Covered(IndexNotes(index, w, notes), notes[m])
            <==> && (Dirty(w, notes[m]) || Covered(index, notes[m]))
                 && !Evicted(w, notes, ExposedFrom(w, notes, m), notes[m].path)
  {
    hide Dirty, Evicted;
    var n := notes[m];
    assert notes == notes[..m] + notes[m..] && notes[m..][1..] == notes[m + 1..];
    IndexNotesConcat(index, w, notes[..m], notes[m..]);
    var before := IndexNotes(index, w, notes[..m]);
    assert notes[..m][0..] == notes[..m];
    OthersKeep(index, w, notes[..m], 0, n);
    OthersKeep(IndexStep(before, w, n), w, notes, m + 1, n);
    if !Dirty(w, n) {
      EvictedSplit(w, notes, m, n.path);
    }
  }

  lemma CompleteIndex(w: World, w1: World, newId: Path -> Id, gone: seq<Id>)
    requires Complete(w, w1, newId, gone)
    ensures w1.index == IndexNotes(w.index, w, AdoptAll(w.files, newId)) - GonePaths(w, gone)
  {
    hide GonePlan, NotesPlan, IndexNotes;
    ApplyAllConcat(w, NotesPlan(w, 0, newId), GonePlan(w, gone));
    IndexNotesPlan(w, w, 0, newId);
    IndexGonePlan(ApplyAll(w, NotesPlan(w, 0, newId)), w, gone);
    var a := AdoptAll(w.files, newId);
    assert a[0..] == a;
  }

  /** A complete pass leaves the note at m indexed exactly when no other id that was
      recorded at its path vanished, or moved away after the note's rows were in place. */
  lemma IndexCovers(w: World, w1: World, newId: Path -> Id, gone: seq<Id>, m: nat)
    requires Ready(w, newId) && Complete(w, w1, newId, gone) && m < |w.files|
    ensures var a := AdoptAll(w.files, newId);
            Covered(w1.index, a[m])
            <==> && (Dirty(w, a[m]) || Covered(w.index, a[m]))
                 && !Evicted(w, a, ExposedFrom(w, a, m), a[m].path)
                 && a[m].path !in GonePaths(w, gone)
  {
    hide Dirty, Evicted, IndexNotes, GonePaths, Ready;
    var a := AdoptAll(w.files, newId);
    assert DistinctPaths(a) by { AdoptDistinct(w, newId); }
    CompleteIndex(w, w1, newId, gone);
    NotesCovered(w.index, w, a, m);
  }

  /** A recorded path without a note is removed, by a move or by a retirement. */
  lemma RecordedPathRemoved(w: World, newId: Path -> Id, gone: seq<Id>, id: Id)
    requires Ready(w, newId) && Vanished(w, newId, gone) && id in w.notes
    requires forall i :: 0 <= i < |w.files| ==> w.files[i].path != w.notes[id].path
    ensures Evicted(w, AdoptAll(w.files, newId), 0, w.notes[id].path) || w.notes[id].path in GonePaths(w, gone)
  {
    hide Dirty;
    var a := AdoptAll(w.files, newId);
    if Present(a, id) {
      var i :| 0 <= i < |a| && a[i].id == id;
      assert a[i].path == w.files[i].path;
      MovedIsDirty(w, a[i]);
    } else {
      assert id in gone;
    }
  }

  predicate Recorded(w: World, p: Path) {
    exists id :: id in w.notes && w.notes[id].path == p
  }

  /** No rows stay behind: when only recorded paths were indexed, only present paths are. */
  lemma IndexOnlyPresent(w: World, w1: World, newId: Path -> Id, gone: seq<Id>, p: Path)
    requires Ready(w, newId) && Complete(w, w1, newId, gone) && p in w1.index
    requires p in w.index ==> Recorded(w, p)
    ensures exists i :: 0 <= i < |w1.files| && w1.files[i].path == p
  {
    hide Dirty, Evicted, Ready, IndexNotes;
    var a := AdoptAll(w.files, newId);
    CompleteFiles(w, w1, newId, gone);
    CompleteIndex(w, w1, newId, gone);
    assert a[0..] == a;
    if forall i :: 0 <= i < |a| ==> a[i].path != p {
      OnlyEvictions(w.index, w, a, 0, p);
      var id :| id in w.notes && w.notes[id].path == p;
      assert forall i :: 0 <= i < |w.files| ==> w.files[i].path == a[i].path;
      RecordedPathRemoved(w, newId, gone, id);
    }
  }

  lemma MovedIsDirty(w: World, n: Note)
    requires n.id in w.notes && w.notes[n.id].path != n.path
    ensures Moved(w, n) && Dirty(w, n)
  {
  }

  lemma {:induction false} OnlyEvictions(index: map<Path, Chunks>, w: World, notes: seq<Note>, i: nat, p: Path)
    requires i <= |notes| && forall j :: i <= j < |notes| ==> notes[j].path != p
    ensures p in IndexNotes(index, w, notes[i..]) <==> p in index && !Evicted(w, notes, i, p)
    decreases |notes| - i
  {
    hide Dirty;
    if i < |notes| {
      assert notes[i..][1..] == notes[i + 1..];
      OnlyEvictions(IndexStep(index, w, notes[i]), w, notes, i + 1, p);
      assert notes[i].path != p;
    }
  }

  /** Two notes that swapped paths: the pass indexes the first and then removes its rows
      with the old path of the second, and no later pass writes them again. */
  lemma SwappedPathsLoseRows(w: World, w1: World, newId: Path -> Id, gone: seq<Id>, gone1: seq<Id>)
    requires Ready(w, newId) && Complete(w, w1, newId, gone) && Vanished(w1, newId, gone1)
    requires |w.files| == 2 && w.files[0].id != "" && w.files[1].id != ""
    requires w.files[0].id in w.notes && w.notes[w.files[0].id].path == w.files[1].path
    requires w.files[1].id in w.notes && w.notes[w.files[1].id].path == w.files[0].path
    ensures |w1.files| == 2 && !Covered(w1.index, w1.files[0])
    ensures ApplyAll(w1, Plan(w1, newId, gone1)) == w1
  {
    hide Plan;
    var a := AdoptAll(w.files, newId);
    assert a == w.files;
    CompleteFiles(w, w1, newId, gone);
    MovedIsDirty(w, a[0]);
    MovedIsDirty(w, a[1]);
    assert Evicted(w, a, 1, a[0].path);
    IndexCovers(w, w1, newId, gone, 0);
    PassIsIdempotent(w, w1, newId, gone, gone1);
  }

  // ---- the synchronizer object ----

  /** Recorded ids in the order the manifest lists them, without those that have a note. */
  function Missing(order: seq<Id>, notes: seq<Note>): seq<Id> {
    if order == [] then []
    else if Present(notes, order[0]) then Missing(order[1..], notes)
    else [order[0]] + Missing(order[1..], notes)
  }

  lemma {:induction false} MissingMembers(order: seq<Id>, notes: seq<Note>)
    ensures forall id :: id in Missing(order, notes) <==> id in order && !Present(notes, id)
  {
    if order != [] {
      MissingMembers(order[1..], notes);
      assert order == [order[0]] + order[1..];
    }
  }

  lemma {:induction false} MissingDistinct(order: seq<Id>, notes: seq<Note>)
    requires forall i, j :: 0 <= i < j < |order| ==> order[i] != order[j]
    ensures forall i, j :: 0 <= i < j < |Missing(order, notes)| ==> Missing(order, notes)[i] != Missing(order, notes)[j]
  {
    if order != [] {
      MissingDistinct(order[1..], notes);
      MissingMembers(order[1..], notes);
      assert order[0] !in order[1..];
      if !Present(notes, order[0]) {
        DistinctCons(order[0], Missing(order[1..], notes));
      }
    }
  }

  lemma DistinctCons(id: Id, rest: seq<Id>)
    requires id !in rest && forall i, j :: 0 <= i < j < |rest| ==> rest[i] != rest[j]
    ensures var m := [id] + rest; forall i, j :: 0 <= i < j < |m| ==> m[i] != m[j]
  {
  }

  datatype Outcome = Done | Raised | Died

  class VaultSynchronizer {
    var files: seq<Note>
    var notes: map<Id, Entry>
    var store: map<Id, Row>
    var index: map<Path, Chunks>
    /** How many more writes succeed before a call fails or the process dies. */
    var credit: nat

    // ReconcileReport
    var scanned: nat
    var added: nat
    var edited: nat
    var kept: nat
    var missing: nat

    constructor (w: World, n: nat)
      ensures TheWorld() == w && credit == n
    {
      files, notes, store, index, credit := w.files, w.notes, w.store, w.index, n;
      scanned, added, edited, kept, missing := 0, 0, 0, 0, 0;
    }

    function TheWorld(): World
      reads this
    {
      World(files, notes, store, index)
    }

    /** One write to the file system or a database. */
    method Put(x: Write) returns (ok: bool)
      modifies this`files, this`notes, this`store, this`index, this`credit
      ensures ok == (old(credit) > 0)
      ensures ok ==> TheWorld() == Apply(old(TheWorld()), x) && credit == old(credit) - 1
      ensures !ok ==> TheWorld() == old(TheWorld()) && credit == 0
    {
      if credit == 0 {
        return false;
      }
      credit := credit - 1;
      match x {
        case Rewrite(i, n) =>
          if i < |files| {
            files := files[i := n];
          }
        case StoreAdd(id, row) => store := store[id := row];
        case IndexFile(n) => index := index[n.path := Chunks(n.id, n.meta, n.body)];
        case Unindex(p) => index := index - {p};
        case Record(id, e) => notes := notes[id := e];
        case Retire(id) =>
          if id in store {
            store := store[id := Retired(store[id])];
          }
        case Forget(id) => notes := notes - {id};
      }
      return true;
    }

    /** The writes for one dirty note. */
    method Project(w0: World, n: Note) returns (ok: bool)
      requires Dirty(w0, n)
      modifies this`files, this`notes, this`store, this`index, this`credit
      ensures ok == (old(credit) >= |Projection(w0, n)|)
      ensures ok ==> TheWorld() == ApplyAll(old(TheWorld()), Projection(w0, n))
                     && credit == old(credit) - |Projection(w0, n)|
      ensures !ok ==> TheWorld() == ApplyAll(old(TheWorld()), Projection(w0, n)[..old(credit)])
    {
      ghost var start, plan := TheWorld(), Projection(w0, n);
      ghost var k := 0;
      ok := Put(StoreAdd(n.id, RowOf(n)));
      if !ok {
        return;
      }
      Advance(start, plan, 0);
      ok := Put(IndexFile(n));
      if !ok {
        return;
      }
      Advance(start, plan, 1);
      if Moved(w0, n) {
        ok := Put(Unindex(w0.notes[n.id].path));
        if !ok {
          return;
        }
        Advance(start, plan, 2);
      }
      ok := Put(Record(n.id, EntryOf(n)));
      if ok {
        Advance(start, plan, |plan| - 1);
        assert plan[..|plan|] == plan;
      }
    }

    /** The snapshot is read in full before anything is written. */
    method Snapshot(available: bool, readable: Path -> bool) returns (ok: bool)
      ensures ok <==> (notes == map[] || available)
                      && (forall i :: 0 <= i < |files| ==> readable(files[i].path))
                      && DistinctIds(files)
    {
      if notes != map[] && !available {
        return false;
      }
      var seen: set<Id> := {};
      for i := 0 to |files|
        invariant forall j :: 0 <= j < i ==> readable(files[j].path)
        invariant forall j, k :: 0 <= j < k < i && files[j].id == files[k].id ==> files[j].id == ""
        invariant forall id :: id in seen <==> id != "" && exists j :: 0 <= j < i && files[j].id == id
      {
        if !readable(files[i].path) {
          return false;
        }
        var kid := files[i].id;
        if kid != "" && kid in seen {
          return false;
        }
        if kid != "" {
          seen := seen + {kid};
        }
      }
      return true;
    }

    /** The note at one position: give it identity, then project it when it is dirty. */
    method ProjectNote(w0: World, i: nat, newId: Path -> Id) returns (ok: bool)
      requires i < |w0.files|
      modifies this`files, this`notes, this`store, this`index, this`credit, this`added, this`edited, this`kept
      ensures var own := NoteWrites(w0, i, newId);
              && ok == (old(credit) >= |own|)
              && (ok ==> TheWorld() == ApplyAll(old(TheWorld()), own) && credit == old(credit) - |own|)
              && (!ok ==> TheWorld() == ApplyAll(old(TheWorld()), own[..old(credit)]))
      ensures ok ==> kept == old(kept) + (if Dirty(w0, Adopt(w0.files[i], newId)) then 0 else 1)
      ensures ok ==> added + edited + kept == old(added + edited + kept) + 1
    {
      hide Dirty, ApplyAll, RowOf, EntryOf;
      ghost var start, own := TheWorld(), NoteWrites(w0, i, newId);
      var note := w0.files[i];
      NoWrites(start);
      ghost var rewrite: seq<Write> := [];
      if note.id == "" {
        note := Adopt(note, newId);
        rewrite := [Rewrite(i, note)];
        ok := Put(Rewrite(i, note));
        if !ok {
          assert own[..0] == [];
          return;
        }
        ApplyOne(start, Rewrite(i, note));
      }
      assert own == rewrite + Projection(w0, note);
      if Dirty(w0, note) {
        ghost var left := credit;
        ok := Project(w0, note);
        if !ok {
          ApplyAllConcat(start, rewrite, Projection(w0, note)[..left]);
          assert own[..|rewrite| + left] == rewrite + Projection(w0, note)[..left];
          return;
        }
        if note.id !in w0.notes || note.id !in w0.store {
          added := added + 1;
        } else {
          edited := edited + 1;
        }
      } else {
        NoWrites(TheWorld());
        kept := kept + 1;
      }
      ApplyAllConcat(start, rewrite, Projection(w0, note));
      ok := true;
    }

    method ProjectNotes(w0: World, newId: Path -> Id) returns (ok: bool)
      requires TheWorld() == w0 && scanned == added == edited == kept == 0
      modifies this`files, this`notes, this`store, this`index, this`credit, this`scanned, this`added, this`edited,
          this`kept
      ensures var plan := NotesPlan(w0, 0, newId);
              && ok == (old(credit) >= |plan|)
              && (ok ==> TheWorld() == ApplyAll(w0, plan) && credit == old(credit) - |plan|)
              && (!ok ==> TheWorld() == ApplyAll(w0, plan[..old(credit)]))
      ensures ok ==> scanned == |w0.files| && scanned == added + edited + kept
                     && kept == CleanCount(w0, AdoptAll(w0.files, newId))
    {
      hide Dirty, NoteWrites, ApplyAll, Plan;
      ghost var plan, a := NotesPlan(w0, 0, newId), AdoptAll(w0.files, newId);
      assert ApplyAll(w0, []) == w0 by { NoWrites(w0); }
      ghost var done: seq<Write> := [];
      assert a[0..] == a;
      for i := 0 to |w0.files|
        invariant TheWorld() == ApplyAll(w0, done) && |done| + credit == old(credit)
        invariant plan == done + NotesPlan(w0, i, newId)
        invariant scanned == i && scanned == added + edited + kept
        invariant kept + CleanCount(w0, a[i..]) == CleanCount(w0, a)
      {
        scanned := scanned + 1;
        ghost var own, rest := NoteWrites(w0, i, newId), NotesPlan(w0, i + 1, newId);
        ghost var left := credit;
        assert a[i..][0] == a[i] && a[i..][1..] == a[i + 1..];
        ok := ProjectNote(w0, i, newId);
        if !ok {
          ApplyAllConcat(w0, done, own[..left]);
          CutInside(plan, done, own, rest, left);
          return;
        }
        ApplyAllConcat(w0, done, own);
        Assoc(done, own, rest);
        done := done + own;
      }
      assert a[|a|..] == [];
      assert plan == done;
      ok := true;
    }

    method RetireMissing(w0: World, order: seq<Id>, present: seq<Note>) returns (ok: bool)
      requires forall id :: id in order ==> id in w0.notes
      requires missing == 0
      modifies this`files, this`notes, this`store, this`index, this`credit, this`missing
      ensures var plan := GonePlan(w0, Missing(order, present));
              && ok == (old(credit) >= |plan|)
              && (ok ==> TheWorld() == ApplyAll(old(TheWorld()), plan) && credit == old(credit) - |plan|)
              && (!ok ==> TheWorld() == ApplyAll(old(TheWorld()), plan[..old(credit)]))
      ensures ok ==> missing == |Missing(order, present)|
    {
      hide Dirty, ApplyAll, GonePlan;
      ghost var start, gone := TheWorld(), Missing(order, present);
      NoWrites(start);
      ghost var plan := GonePlan(w0, gone);
      ghost var done: seq<Write> := [];
      assert order[0..] == order;
      for i := 0 to |order|
        invariant TheWorld() == ApplyAll(start, done) && |done| + credit == old(credit)
        invariant plan == done + GonePlan(w0, Missing(order[i..], present))
        invariant missing + |Missing(order[i..], present)| == |gone|
      {
        var kid := order[i];
        assert order[i..][0] == kid && order[i..][1..] == order[i + 1..];
        if Present(present, kid) {
          continue;
        }
        ghost var later := Missing(order[i + 1..], present);
        ghost var own, rest := [Retire(kid), Unindex(w0.notes[kid].path), Forget(kid)], GonePlan(w0, later);
        GoneStep(w0, kid, later);
        ghost var left := credit;
        ok := Retiring(kid, w0.notes[kid].path);
        if !ok {
          ApplyAllConcat(start, done, own[..left]);
          CutInside(plan, done, own, rest, left);
          return;
        }
        ApplyAllConcat(start, done, own);
        Assoc(done, own, rest);
        done := done + own;
        missing := missing + 1;
      }
      assert order[|order|..] == [];
      NothingGone(w0);
      assert plan == done;
      ok := true;
    }

    /** One reconciliation pass. order is the order in which the manifest lists its rows;
        available and readable say whether the vault directory and each file can be read. */
    method Sync(newId: Path -> Id, order: seq<Id>, available: bool, readable: Path -> bool) returns (r: Outcome)
      requires forall i, j :: 0 <= i < j < |order| ==> order[i] != order[j]
      requires forall id :: id in order <==> id in notes
      modifies this
      ensures r.Raised? <==> (old(notes) != map[] && !available)
                             || (exists i :: 0 <= i < |old(files)| && !readable(old(files)[i].path))
                             || !DistinctIds(old(files))
      ensures r.Raised? ==> TheWorld() == old(TheWorld())
      ensures var w0 := old(TheWorld());
              var gone := Missing(order, AdoptAll(w0.files, newId));
              var plan := Plan(w0, newId, gone);
              && Vanished(w0, newId, gone)
              && (!r.Raised? ==> (r.Done? <==> old(credit) >= |plan|))
              && (r.Done? ==> TheWorld() == ApplyAll(w0, plan))
              && (r.Died? ==> TheWorld() == ApplyAll(w0, plan[..old(credit)]))
              && (r.Done? ==> scanned == |w0.files| && scanned == added + edited + kept
                              && kept == CleanCount(w0, AdoptAll(w0.files, newId)) && missing == |gone|)
    {
      hide NotesPlan, GonePlan, CleanCount, ApplyAll, Missing, AdoptAll;
      var w0 := TheWorld();
      var a := AdoptAll(files, newId);
      ghost var gone := Missing(order, a);
      ghost var first, second := NotesPlan(w0, 0, newId), GonePlan(w0, gone);
      MissingMembers(order, a);
      MissingDistinct(order, a);
      scanned, added, edited, kept, missing := 0, 0, 0, 0, 0;
      var ok := Snapshot(available, readable);
      if !ok {
        return Raised;
      }
      ok := ProjectNotes(w0, newId);
      if !ok {
        CutFirst(first, second, old(credit));
        return Died;
      }
      ghost var left := credit;
      ok := RetireMissing(w0, order, a);
      if !ok {
        ApplyAllConcat(w0, first, second[..left]);
        CutSecond(first, second, left);
        return Died;
      }
      ApplyAllConcat(w0, first, second);
      return Done;
    }

    /** Retiring one vanished note: its claim, its index rows, its manifest row. */
    method Retiring(kid: Id, path: Path) returns (ok: bool)
      modifies this`files, this`notes, this`store, this`index, this`credit
      ensures var own := [Retire(kid), Unindex(path), Forget(kid)];
              && ok == (old(credit) >= 3)
              && (ok ==> TheWorld() == ApplyAll(old(TheWorld()), own) && credit == old(credit) - 3)
              && (!ok ==> TheWorld() == ApplyAll(old(TheWorld()), own[..old(credit)]))
    {
      ghost var start := TheWorld();
      ghost var own := [Retire(kid), Unindex(path), Forget(kid)];
      ok := Put(Retire(kid));
      if ok {
        Advance(start, own, 0);
        ok := Put(Unindex(path));
        if ok {
          Advance(start, own, 1);
          ok := Put(Forget(kid));
          if ok {
            Advance(start, own, 2);
            assert own[..3] == own;
          }
        }
      }
    }
  }

  /** A prefix that ends inside one group of writes. */
  lemma CutInside(plan: seq<Write>, before: seq<Write>, own: seq<Write>, rest: seq<Write>, k: nat)
    requires plan == before + (own + rest) && k < |own|
    ensures |before| + k < |plan| && plan[..|before| + k] == before + own[..k]
  {
  }

  lemma CutFirst(first: seq<Write>, second: seq<Write>, k: nat)
    requires k <= |first|
    ensures (first + second)[..k] == first[..k]
  {
  }

  lemma CutSecond(first: seq<Write>, second: seq<Write>, k: nat)
    requires k <= |second|
    ensures (first + second)[..|first| + k] == first + second[..k]
  {
  }

  lemma NoWrites(w: World)
    ensures ApplyAll(w, []) == w
  {
  }

  lemma NothingGone(w: World)
    ensures GonePlan(w, []) == []
  {
  }

  lemma GoneStep(w: World, id: Id, later: seq<Id>)
    requires id in w.notes
    ensures GonePlan(w, [id] + later) == [Retire(id), Unindex(w.notes[id].path), Forget(id)] + GonePlan(w, later)
  {
    assert ([id] + later)[1..] == later;
  }

  lemma Advance(w: World, xs: seq<Write>, k: nat)
    requires k < |xs|
    ensures ApplyAll(w, xs[..k + 1]) == Apply(ApplyAll(w, xs[..k]), xs[k])
    ensures xs[..0] == []
  {
    assert xs[..k + 1] == xs[..k] + [xs[k]];
    ApplyAllConcat(w, xs[..k], [xs[k]]);
    ApplyOne(ApplyAll(w, xs[..k]), xs[k]);
  }
}
