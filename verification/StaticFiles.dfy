/**
 Uploads, overwrites and deletions of static files, as requests that interleave statement
 by statement over the `files` and `static_files` tables.

 A stored file is a root row, possibly with variant rows that name it; a variant has no
 variants. Database errors and process death are left out, and the attachments of other
 records (`attached`) do not change meanwhile.

 A new row gets any id that its table does not hold, so ids come back, as they do in SQLite.
 What the requests rely on is that no upload gets the id of a file which an overwrite in
 flight expects to replace but would not purge.
 */
module StaticFiles {
  import opened Options
  import Collections

  datatype StaticRow = StaticRow(filename: string, fileId: int)

  // Where a request stands. `file` is the root it has stored, or is to purge. `expected`
  // is the file_id read at look-up, which the compare-and-swap checks; `previous` is the
  // separate read of the file to purge. `Removing` has rows left to delete, root last.
  datatype Request =
    | Storing(filename: string)
    | Stored(filename: string, file: int)
    | Absent(filename: string, file: int)
    | Overwriting(filename: string, file: int, row: int, expected: int)
    | Swapping(filename: string, file: int, row: int, expected: int, previous: Option<int>)
    | Destroying(row: int)
    | Deleted(file: int)
    | Purging(file: int)
    | Removing(rows: seq<int>)
  {
    // The upload still holds the file it stored.
    predicate Uploads() { Stored? || Absent? || Overwriting? || Swapping? }

    // An overwrite that would not purge the file it expects to replace: it has yet to read the
    // file to purge, or has read another.
    predicate Exposed() { Overwriting? || (Swapping? && previous != Some(expected)) }

    // The root this request must either hand to a static_files row or purge.
    function Holds(): Option<int> {
      match this
      case Storing(_) => None
      case Destroying(_) => None
      case Removing(rows) => if rows == [] then None else Some(rows[|rows| - 1])
      case _ => Some(this.file)
    }
  }

  // `files` maps a row to the root it is a variant of, if any. `apart` holds the stored files
  // that these requests do not deal in: uploads that texts embed by their address alone.
  datatype World = World(
    files: map<int, Option<int>>,
    statics: map<int, StaticRow>,
    attached: set<int>,
    apart: set<int>,
    requests: map<int, Request>)

  /// ### Queries

  predicate NamedBy(w: World, row: int, filename: string) {
    row in w.statics && w.statics[row].filename == filename
  }

  predicate NameFree(w: World, filename: string) {
    forall row :: row in w.statics ==> w.statics[row].filename != filename
  }

  predicate PointedTo(w: World, file: int) {
    exists row :: row in w.statics && w.statics[row].fileId == file
  }

  predicate IsRoot(w: World, file: int) {
    file in w.files && w.files[file].None?
  }

  predicate IsVariant(w: World, variant: int, root: int) {
    variant in w.files && w.files[variant] == Some(root)
  }

  // Another record's attachment names the root or one of its variants.
  predicate Pinned(w: World, root: int) {
    root in w.attached || exists variant :: variant in w.attached && IsVariant(w, variant, root)
  }

  // purgeStoredFile's check over the whole family: attachments and static_files rows.
  predicate FamilyReferenced(w: World, root: int) {
    Pinned(w, root) || PointedTo(w, root) || exists row :: row in w.statics && IsVariant(w, w.statics[row].fileId, root)
  }

  // The rows of a family in the order they are deleted, variants first.
  predicate FamilyOf(w: World, root: int, rows: seq<int>) {
    && |rows| > 0 && rows[|rows| - 1] == root
    && (forall i, j :: 0 <= i < j < |rows| ==> rows[i] != rows[j])
    && (forall i :: 0 <= i < |rows| - 1 ==> IsVariant(w, rows[i], root))
    && (forall variant :: variant in w.files && IsVariant(w, variant, root) ==> variant in rows)
  }

  /// ### Steps

  datatype Step =
    | StartUpload(filename: string)
    | StartDestroy(row: int)
    | StoreFile(file: int)
    | StoreVariant(file: int)
    | FindRow(row: int)
    | FindNone
    | CreateRow(row: int)
    | CreateConflict
    | ReadPrevious(row: int)
    | ReadNone
    | SwapRow
    | SwapLost
    | DeleteRow
    | DeleteMissing
    | ResolveDeleted
    | PurgeKeeps
    | PurgeRemoves(rows: seq<int>)
    | RemoveOne

  // A step of request `q`.
  predicate Enabled(w: World, q: int, step: Step) {
    if step.StartUpload? then q !in w.requests
    else if step.StartDestroy? then q !in w.requests && step.row in w.statics
    else q in w.requests && Continues(w, w.requests[q], step)
  }

  predicate SwapMatches(w: World, r: Request)
    requires r.Swapping?
  {
    r.row in w.statics && w.statics[r.row].fileId == r.expected
  }

  predicate Continues(w: World, r: Request, step: Step) {
    match step
    case StartUpload(_) => false
    case StartDestroy(_) => false
    case StoreFile(file) => r.Storing? && file !in w.files
    case StoreVariant(file) => r.Stored? && file !in w.files
    case FindRow(row) => r.Stored? && NamedBy(w, row, r.filename)
    case FindNone => r.Stored? && NameFree(w, r.filename)
    case CreateRow(row) => r.Absent? && NameFree(w, r.filename) && row !in w.statics
    case CreateConflict => r.Absent? && !NameFree(w, r.filename)
    case ReadPrevious(row) => r.Overwriting? && NamedBy(w, row, r.filename) && w.statics[row].fileId in w.files
    case ReadNone => r.Overwriting? && NameFree(w, r.filename)
    case SwapRow => r.Swapping? && SwapMatches(w, r)
    case SwapLost => r.Swapping? && !SwapMatches(w, r)
    case DeleteRow => r.Destroying? && r.row in w.statics
    case DeleteMissing => r.Destroying? && r.row !in w.statics
    case ResolveDeleted => r.Deleted?
    case PurgeKeeps => r.Purging? && FamilyReferenced(w, r.file)
    case PurgeRemoves(rows) => r.Purging? && !FamilyReferenced(w, r.file) && FamilyOf(w, r.file, rows)
    case RemoveOne => r.Removing? && |r.rows| > 0
  }

  function Moved(w: World, q: int, r: Request): World {
    w.(requests := w.requests[q := r])
  }

  function Finished(w: World, q: int): World {
    w.(requests := w.requests - {q})
  }

  function Next(w: World, q: int, step: Step): World
    requires Enabled(w, q, step)
  {
    match step
    case StartUpload(filename) => Moved(w, q, Storing(filename))
    case StartDestroy(row) => Moved(w, q, Destroying(row))
    case _ => NextOf(w, q, w.requests[q], step)
  }

  function NextOf(w: World, q: int, r: Request, step: Step): World
    requires Continues(w, r, step)
  {
    match step
    case StoreFile(file) => Moved(w.(files := w.files[file := None]), q, Stored(r.filename, file))
    case StoreVariant(file) => w.(files := w.files[file := Some(r.file)])
    case FindRow(row) => Moved(w, q, Overwriting(r.filename, r.file, row, w.statics[row].fileId))
    case FindNone => Moved(w, q, Absent(r.filename, r.file))
    case CreateRow(row) => Finished(w.(statics := w.statics[row := StaticRow(r.filename, r.file)]), q)
    case CreateConflict => Moved(w, q, Purging(r.file))
    case ReadPrevious(row) => Moved(w, q, Swapping(r.filename, r.file, r.row, r.expected, Some(w.statics[row].fileId)))
    case ReadNone => Moved(w, q, Swapping(r.filename, r.file, r.row, r.expected, None))
    case SwapRow =>
      var swapped := w.(statics := w.statics[r.row := w.statics[r.row].(fileId := r.file)]);
      if r.previous.Some? then Moved(swapped, q, Purging(r.previous.value)) else Finished(swapped, q)
    case SwapLost => Moved(w, q, Purging(r.file))
    case DeleteRow => Moved(w.(statics := w.statics - {r.row}), q, Deleted(w.statics[r.row].fileId))
    case DeleteMissing => Finished(w, q)
    case ResolveDeleted => if r.file in w.files then Moved(w, q, Purging(r.file)) else Finished(w, q)
    case PurgeKeeps => Finished(w, q)
    case PurgeRemoves(rows) => Moved(w, q, Removing(rows))
    case RemoveOne =>
      var left := w.(files := w.files - {r.rows[0]});
      if |r.rows| == 1 then Finished(left, q) else Moved(left, q, Removing(r.rows[1..]))
  }

  datatype Action = Action(request: int, step: Step)

  predicate Legal(w: World, actions: seq<Action>)
    decreases |actions|
  {
    actions == [] ||
    (Enabled(w, actions[0].request, actions[0].step)
      && Legal(Next(w, actions[0].request, actions[0].step), actions[1..]))
  }

  function Exec(w: World, actions: seq<Action>): World
    requires Legal(w, actions)
    decreases |actions|
  {
    if actions == [] then w else Exec(Next(w, actions[0].request, actions[0].step), actions[1..])
  }

  /// ### The invariant

  ghost predicate TablesOk(w: World) {
    && w.attached <= w.files.Keys
    && (forall file :: file in w.files && w.files[file].Some? ==> IsRoot(w, w.files[file].value))
    && (forall row :: row in w.statics ==> IsRoot(w, w.statics[row].fileId))
    && (forall s, t :: s in w.statics && t in w.statics && s != t ==> w.statics[s].filename != w.statics[t].filename)
  }

  ghost predicate Held(w: World, q: int, root: int) {
    q in w.requests && w.requests[q].Holds() == Some(root)
  }

  // Leaving pinned files aside, no two rows point to one file, no two requests hold one,
  // and no file is both pointed to and held.
  ghost predicate Exclusive(w: World) {
    && (forall s, t :: s in w.statics && t in w.statics && s != t && w.statics[s].fileId == w.statics[t].fileId ==>
      Pinned(w, w.statics[s].fileId))
    && (forall p, q, root :: Held(w, p, root) && Held(w, q, root) && p != q ==> Pinned(w, root))
    && (forall q, root, row :: Held(w, q, root) && row in w.statics && w.statics[row].fileId == root ==>
      Pinned(w, root))
  }

  // Every file is pointed to, held, pinned or apart.
  ghost predicate Covered(w: World) {
    forall file :: IsRoot(w, file) ==>
      Pinned(w, file) || file in w.apart || PointedTo(w, file) || exists q :: Held(w, q, file)
  }

  // What is apart is stored, and no row or request has anything to do with it.
  ghost predicate ApartOk(w: World) {
    forall file :: file in w.apart ==> IsRoot(w, file) && !PointedTo(w, file) && forall q :: !Held(w, q, file)
  }

  ghost predicate RequestOk(w: World, r: Request) {
    && (r.Holds().Some? ==> IsRoot(w, r.Holds().value))
    && (r.Uploads() ==> !Pinned(w, r.file))
    && (r.Exposed() && r.row in w.statics && w.statics[r.row].fileId == r.expected ==>
          w.statics[r.row].filename == r.filename)
    && (r.Swapping? && SwapMatches(w, r) ==> r.previous == Some(r.expected))
    && (r.Removing? ==> |r.rows| > 0 && FamilyOf(w, r.rows[|r.rows| - 1], r.rows) && !Pinned(w, r.rows[|r.rows| - 1]))
  }

  ghost predicate RequestsOk(w: World) {
    && (forall q :: q in w.requests ==> RequestOk(w, w.requests[q]))
    && (forall p, q ::
          (p in w.requests && q in w.requests && w.requests[p].Uploads() && w.requests[q].Exposed())
          ==> w.requests[p].file != w.requests[q].expected)
  }

  ghost predicate Inv(w: World) {
    TablesOk(w) && Exclusive(w) && Covered(w) && ApartOk(w) && RequestsOk(w)
  }

  /// ### Ids that come back

  predicate Expects(r: Request, file: int) {
    r.Exposed() && r.expected == file
  }

  // An upload is given the id of a file that an exposed overwrite in flight expects to replace.
  predicate HandsOut(w: World, step: Step) {
    step.StoreFile? && exists o :: o in w.requests && Expects(w.requests[o], step.file)
  }

  predicate NothingComesBack(w: World, actions: seq<Action>)
    requires Legal(w, actions)
    decreases |actions|
  {
    actions == [] ||
    (!HandsOut(w, actions[0].step) && NothingComesBack(Next(w, actions[0].request, actions[0].step), actions[1..]))
  }

  /// ### Every step keeps it

  // Foreign keys hold: a row being deleted is not pointed to, not attached, and not the
  // original of a remaining variant.
  lemma RemovalSafe(w: World, q: int)
    requires TablesOk(w) && Exclusive(w) && RequestsOk(w) && Enabled(w, q, RemoveOne)
    ensures
      var file := w.requests[q].rows[0];
      && file in w.files && file !in w.attached && !PointedTo(w, file)
      && forall variant :: variant in w.files ==> w.files[variant] != Some(file)
  {
    var rows := w.requests[q].rows;
    var root := rows[|rows| - 1];
    assert RequestOk(w, w.requests[q]) && Held(w, q, root);
    assert FamilyOf(w, root, rows);
    if rows[0] != root {
      assert IsVariant(w, rows[0], root);
    } else {
      forall variant | variant in w.files ensures w.files[variant] != Some(root) {
        if w.files[variant] == Some(root) { assert IsVariant(w, variant, root); }
      }
    }
  }

  // Steps that only move the request along.
  predicate Quiet(step: Step) {
    !step.StoreFile? && !step.StoreVariant? && !step.CreateRow? && !step.SwapRow? && !step.DeleteRow?
      && !step.RemoveOne?
  }

  ghost predicate OnlyMoved(w: World, v: World, q: int) {
    && v == w.(requests := v.requests)
    && (forall p :: p != q ==> (p in v.requests <==> p in w.requests))
    && (forall p :: p != q && p in w.requests ==> v.requests[p] == w.requests[p])
  }

  lemma QuietStep(w: World, q: int, step: Step)
    requires Enabled(w, q, step) && Quiet(step)
    ensures OnlyMoved(w, Next(w, q, step), q)
    ensures forall root :: Held(Next(w, q, step), q, root) ==> Held(w, q, root)
  {
  }

  lemma TablesRemove(w: World, q: int)
    requires TablesOk(w) && Exclusive(w) && RequestsOk(w) && Enabled(w, q, RemoveOne)
    ensures TablesOk(Next(w, q, RemoveOne))
  {
    RemovalSafe(w, q);
  }

  lemma TablesStep(w: World, q: int, step: Step)
    requires TablesOk(w) && Exclusive(w) && RequestsOk(w) && Enabled(w, q, step)
    ensures TablesOk(Next(w, q, step))
  {
    if Quiet(step) {
      QuietStep(w, q, step);
    } else if step.RemoveOne? {
      TablesRemove(w, q);
    } else {
      assert RequestOk(w, w.requests[q]);
    }
  }

  // A step neither pins a file nor unpins one.
  lemma PinnedStable(w: World, q: int, step: Step, root: int)
    requires TablesOk(w) && RequestsOk(w) && Enabled(w, q, step)
    ensures Pinned(Next(w, q, step), root) == Pinned(w, root)
  {
  }

  ghost predicate SamePins(w: World, v: World) {
    forall root :: Pinned(v, root) == Pinned(w, root)
  }

  lemma PinsKept(w: World, q: int, step: Step)
    requires TablesOk(w) && RequestsOk(w) && Enabled(w, q, step)
    ensures SamePins(w, Next(w, q, step))
  {
    forall root ensures Pinned(Next(w, q, step), root) == Pinned(w, root) { PinnedStable(w, q, step, root); }
  }

  // Nothing new is held and no row points anywhere new.
  lemma ExclusiveShrinks(w: World, v: World)
    requires Exclusive(w) && SamePins(w, v)
    requires forall row :: row in v.statics ==> row in w.statics && v.statics[row].fileId == w.statics[row].fileId
    requires forall q, root :: Held(v, q, root) ==> Held(w, q, root)
    ensures Exclusive(v)
  {
  }

  lemma ExclusiveCreate(w: World, q: int, row: int)
    requires TablesOk(w) && Exclusive(w) && RequestsOk(w) && Enabled(w, q, CreateRow(row))
    ensures Exclusive(Next(w, q, CreateRow(row)))
  {
    PinsKept(w, q, CreateRow(row));
    var r, v := w.requests[q], Next(w, q, CreateRow(row));
    assert RequestOk(w, r) && Held(w, q, r.file);
    assert v.statics[row].fileId == r.file;
    assert forall p, root :: Held(v, p, root) ==> Held(w, p, root) && p != q;
    assert forall other :: other in w.statics ==> w.statics[other].fileId != r.file;
  }

  // The compare-and-swap hands the request's file to the row, and takes over the file the
  // row pointed to: the file read separately is that very file.
  lemma ExclusiveSwap(w: World, q: int)
    requires TablesOk(w) && Exclusive(w) && RequestsOk(w) && Enabled(w, q, SwapRow)
    ensures Exclusive(Next(w, q, SwapRow))
  {
    PinsKept(w, q, SwapRow);
    var r, v := w.requests[q], Next(w, q, SwapRow);
    assert RequestOk(w, r) && Held(w, q, r.file);
    assert r.previous == Some(r.expected) && w.statics[r.row].fileId == r.expected;
    assert forall row :: row in w.statics ==> w.statics[row].fileId != r.file;
    assert forall p, root :: Held(v, p, root) ==> if p == q then root == r.expected else Held(w, p, root);
  }

  lemma ExclusiveDelete(w: World, q: int)
    requires TablesOk(w) && Exclusive(w) && RequestsOk(w) && Enabled(w, q, DeleteRow)
    ensures Exclusive(Next(w, q, DeleteRow))
  {
    PinsKept(w, q, DeleteRow);
    var r, v := w.requests[q], Next(w, q, DeleteRow);
    assert forall p, root :: Held(v, p, root) ==> if p == q then root == w.statics[r.row].fileId else Held(w, p, root);
  }

  lemma ExclusiveStore(w: World, q: int, file: int)
    requires TablesOk(w) && Exclusive(w) && RequestsOk(w) && Enabled(w, q, StoreFile(file))
    ensures Exclusive(Next(w, q, StoreFile(file)))
  {
    PinsKept(w, q, StoreFile(file));
    var v := Next(w, q, StoreFile(file));
    forall p, root | Held(v, p, root) ensures if p == q then root == file else Held(w, p, root) && root != file {
      if p != q { assert RequestOk(w, w.requests[p]); }
    }
  }

  lemma ExclusiveElsewhere(w: World, q: int, step: Step)
    requires TablesOk(w) && Exclusive(w) && RequestsOk(w) && Enabled(w, q, step)
    requires Quiet(step) || step.StoreVariant? || step.RemoveOne?
    ensures Exclusive(Next(w, q, step))
  {
    PinsKept(w, q, step);
    if Quiet(step) { QuietStep(w, q, step); }
    ExclusiveShrinks(w, Next(w, q, step));
  }

  lemma ExclusiveStep(w: World, q: int, step: Step)
    requires TablesOk(w) && Exclusive(w) && RequestsOk(w) && Enabled(w, q, step)
    ensures Exclusive(Next(w, q, step))
  {
    if Quiet(step) || step.StoreVariant? || step.RemoveOne? {
      ExclusiveElsewhere(w, q, step);
    } else {
      match step
      case StoreFile(file) => ExclusiveStore(w, q, file);
      case CreateRow(row) => ExclusiveCreate(w, q, row);
      case SwapRow => ExclusiveSwap(w, q);
      case DeleteRow => ExclusiveDelete(w, q);
    }
  }

  // Whoever answers for a file still does, or someone else has taken over.
  lemma CoveredKept(w: World, v: World)
    requires Covered(w) && SamePins(w, v) && v.apart == w.apart
    requires forall file :: IsRoot(v, file) && !IsRoot(w, file) ==> exists q :: Held(v, q, file)
    requires forall row :: row in w.statics && IsRoot(v, w.statics[row].fileId) ==>
      PointedTo(v, w.statics[row].fileId) || exists q :: Held(v, q, w.statics[row].fileId)
    requires forall q, root :: Held(w, q, root) && IsRoot(v, root) ==>
      Pinned(v, root) || PointedTo(v, root) || exists p :: Held(v, p, root)
    ensures Covered(v)
  {
  }

  lemma HeldCovered(w: World, q: int, step: Step, p: int, root: int)
    requires TablesOk(w) && RequestsOk(w) && Enabled(w, q, step) && Held(w, p, root) && IsRoot(Next(w, q, step), root)
    ensures
      var v := Next(w, q, step);
      Pinned(w, root) || PointedTo(v, root) || exists other :: Held(v, other, root)
  {
    var v := Next(w, q, step);
    if p != q {
      assert Held(v, p, root);
    } else if !Held(v, q, root) {
      if step.CreateRow? { assert v.statics[step.row].fileId == w.requests[q].file; }
      if step.SwapRow? { assert v.statics[w.requests[q].row].fileId == w.requests[q].file; }
      if Quiet(step) || step.RemoveOne? { HandsOver(w, q, step, root); }
    }
  }

  lemma RowCovered(w: World, q: int, step: Step, row: int)
    requires RequestsOk(w) && Enabled(w, q, step) && row in w.statics && IsRoot(Next(w, q, step), w.statics[row].fileId)
    ensures
      var v := Next(w, q, step);
      PointedTo(v, w.statics[row].fileId) || exists other :: Held(v, other, w.statics[row].fileId)
  {
    var v := Next(w, q, step);
    if row !in v.statics || v.statics[row] != w.statics[row] {
      assert RequestOk(w, w.requests[q]);
      assert Held(v, q, w.statics[row].fileId);
    }
  }

  lemma CoveredStep(w: World, q: int, step: Step)
    requires TablesOk(w) && Covered(w) && RequestsOk(w) && Enabled(w, q, step)
    ensures Covered(Next(w, q, step))
  {
    var v := Next(w, q, step);
    PinsKept(w, q, step);
    forall p, root | Held(w, p, root) && IsRoot(v, root)
      ensures Pinned(v, root) || PointedTo(v, root) || exists other :: Held(v, other, root)
    {
      HeldCovered(w, q, step, p, root);
    }
    forall row | row in w.statics && IsRoot(v, w.statics[row].fileId)
      ensures PointedTo(v, w.statics[row].fileId) || exists other :: Held(v, other, w.statics[row].fileId)
    {
      RowCovered(w, q, step, row);
    }
    if step.StoreFile? { assert Held(v, q, step.file); }
    CoveredKept(w, v);
  }

  // Rows come to point only to files that a request held, and a request holds only what it
  // stored or what a row pointed to; it removes rows of such a file's family alone.
  lemma ApartStep(w: World, q: int, step: Step)
    requires TablesOk(w) && Exclusive(w) && ApartOk(w) && RequestsOk(w) && Enabled(w, q, step)
    ensures ApartOk(Next(w, q, step))
  {
    var v := Next(w, q, step);
    if q in w.requests { assert RequestOk(w, w.requests[q]); }
    forall file | file in w.apart ensures IsRoot(v, file) {
      if step.RemoveOne? { ApartSurvives(w, q, file); }
    }
    forall row | row in v.statics ensures v.statics[row].fileId !in w.apart {
      if step.CreateRow? || step.SwapRow? { assert Held(w, q, w.requests[q].file); }
      if row in w.statics { assert PointedTo(w, w.statics[row].fileId); }
    }
    forall p, root | Held(v, p, root) ensures root !in w.apart { HeldNotApart(w, q, step, p, root); }
  }

  lemma ApartSurvives(w: World, q: int, file: int)
    requires ApartOk(w) && RequestsOk(w) && Enabled(w, q, RemoveOne) && file in w.apart
    ensures w.requests[q].rows[0] != file
  {
    var rows := w.requests[q].rows;
    assert RequestOk(w, w.requests[q]) && Held(w, q, rows[|rows| - 1]);
    if |rows| > 1 { assert IsVariant(w, rows[0], rows[|rows| - 1]); }
  }

  lemma HeldNotApart(w: World, q: int, step: Step, p: int, root: int)
    requires TablesOk(w) && ApartOk(w) && RequestsOk(w) && Enabled(w, q, step) && Held(Next(w, q, step), p, root)
    ensures root !in w.apart
  {
    if Quiet(step) && p == q {
      QuietStep(w, q, step);
    } else if p != q {
      assert Held(w, p, root);
    } else {
      assert RequestOk(w, w.requests[q]);
      if step.SwapRow? { assert PointedTo(w, w.requests[q].expected); }
      if step.DeleteRow? { assert PointedTo(w, root); }
      if step.RemoveOne? || step.StoreVariant? { assert Held(w, q, root); }
    }
  }

  // A request lets go of a file only when the file is referenced, or gone.
  lemma HandsOver(w: World, q: int, step: Step, root: int)
    requires TablesOk(w) && RequestsOk(w) && Enabled(w, q, step) && (Quiet(step) || step.RemoveOne?)
    requires Held(w, q, root) && !Held(Next(w, q, step), q, root) && IsRoot(Next(w, q, step), root)
    ensures Pinned(w, root) || PointedTo(Next(w, q, step), root)
  {
  }

  ghost predicate SameVariants(w: World, v: World, root: int) {
    forall file :: IsVariant(v, file, root) <==> IsVariant(w, file, root)
  }

  // What one request relies on survives when its root, its family and its row do.
  lemma RequestKept(w: World, v: World, r: Request)
    requires RequestOk(w, r) && SamePins(w, v)
    requires r.Holds().Some? ==> IsRoot(v, r.Holds().value)
    requires r.Overwriting? || r.Swapping? ==>
      (r.Exposed() && r.row in v.statics && v.statics[r.row].fileId == r.expected ==>
         r.row in w.statics && w.statics[r.row] == v.statics[r.row])
    requires r.Removing? && |r.rows| > 0 ==> SameVariants(w, v, r.rows[|r.rows| - 1])
    ensures RequestOk(v, r)
  {
  }

  // A new row, root or variant, is nobody else's.
  lemma OthersKeptStoring(w: World, q: int, step: Step, p: int)
    requires Inv(w) && Enabled(w, q, step) && (step.StoreFile? || step.StoreVariant?)
    requires p != q && p in w.requests
    ensures RequestOk(Next(w, q, step), w.requests[p])
  {
    var v, r := Next(w, q, step), w.requests[p];
    PinsKept(w, q, step);
    assert RequestOk(w, r) && RequestOk(w, w.requests[q]);
    if r.Holds().Some? && step.StoreVariant? {
      assert Held(w, p, r.Holds().value) && Held(w, q, w.requests[q].file);
    }
    RequestKept(w, v, r);
  }

  // The row removed belongs to the family that the remover alone holds.
  lemma OthersKeptRemoving(w: World, q: int, p: int)
    requires Inv(w) && Enabled(w, q, RemoveOne)
    requires p != q && p in w.requests
    ensures RequestOk(Next(w, q, RemoveOne), w.requests[p])
  {
    var v, r, rows := Next(w, q, RemoveOne), w.requests[p], w.requests[q].rows;
    PinsKept(w, q, RemoveOne);
    assert RequestOk(w, r) && RequestOk(w, w.requests[q]);
    RemovalSafe(w, q);
    assert Held(w, q, rows[|rows| - 1]);
    if r.Holds().Some? { assert Held(w, p, r.Holds().value); }
    RequestKept(w, v, r);
  }

  lemma OthersKeptElsewhere(w: World, q: int, step: Step, p: int)
    requires Inv(w) && Enabled(w, q, step) && p != q && p in w.requests
    requires !step.StoreFile? && !step.StoreVariant? && !step.RemoveOne?
    ensures RequestOk(Next(w, q, step), w.requests[p])
  {
    PinsKept(w, q, step);
    assert RequestOk(w, w.requests[p]);
    assert step.SwapRow? ==> RequestOk(w, w.requests[q]);
    RequestKept(w, Next(w, q, step), w.requests[p]);
  }

  lemma OthersKept(w: World, q: int, step: Step, p: int)
    requires Inv(w) && Enabled(w, q, step) && p != q && p in Next(w, q, step).requests
    ensures p in w.requests && Next(w, q, step).requests[p] == w.requests[p]
    ensures RequestOk(Next(w, q, step), w.requests[p])
  {
    if step.StoreFile? || step.StoreVariant? {
      OthersKeptStoring(w, q, step, p);
    } else if step.RemoveOne? {
      OthersKeptRemoving(w, q, p);
    } else {
      OthersKeptElsewhere(w, q, step, p);
    }
  }

  lemma OwnKeptQuiet(w: World, q: int, step: Step)
    requires Inv(w) && Enabled(w, q, step) && Quiet(step) && q in Next(w, q, step).requests
    ensures RequestOk(Next(w, q, step), Next(w, q, step).requests[q])
  {
    PinsKept(w, q, step);
    QuietStep(w, q, step);
    if q in w.requests { assert RequestOk(w, w.requests[q]); }
  }

  lemma OwnKeptRemoving(w: World, q: int)
    requires Inv(w) && Enabled(w, q, RemoveOne) && q in Next(w, q, RemoveOne).requests
    ensures RequestOk(Next(w, q, RemoveOne), Next(w, q, RemoveOne).requests[q])
  {
    PinsKept(w, q, RemoveOne);
    assert RequestOk(w, w.requests[q]);
  }

  // The request that moved.
  lemma OwnKept(w: World, q: int, step: Step)
    requires Inv(w) && Enabled(w, q, step) && q in Next(w, q, step).requests
    ensures RequestOk(Next(w, q, step), Next(w, q, step).requests[q])
  {
    if Quiet(step) {
      OwnKeptQuiet(w, q, step);
    } else if step.RemoveOne? {
      OwnKeptRemoving(w, q);
    } else {
      PinsKept(w, q, step);
      assert RequestOk(w, w.requests[q]);
    }
  }

  lemma StepKeepsInv(w: World, q: int, step: Step)
    requires Inv(w) && Enabled(w, q, step) && !HandsOut(w, step)
    ensures Inv(Next(w, q, step))
  {
    var v := Next(w, q, step);
    TablesStep(w, q, step);
    ExclusiveStep(w, q, step);
    CoveredStep(w, q, step);
    ApartStep(w, q, step);
    forall p | p in v.requests ensures RequestOk(v, v.requests[p]) {
      if p == q { OwnKept(w, q, step); } else { OthersKept(w, q, step, p); }
    }
    forall p, o | p in v.requests && o in v.requests && v.requests[p].Uploads() && v.requests[o].Exposed()
      ensures v.requests[p].file != v.requests[o].expected
    {
      ExpectedElsewhere(w, q, step, p, o);
    }
  }

  // No upload in flight has stored the file that a compare-and-swap expects to replace.
  lemma ExpectedElsewhere(w: World, q: int, step: Step, p: int, o: int)
    requires Inv(w) && Enabled(w, q, step) && !HandsOut(w, step)
    requires p in Next(w, q, step).requests && o in Next(w, q, step).requests
    requires Next(w, q, step).requests[p].Uploads()
    requires Next(w, q, step).requests[o].Exposed()
    ensures Next(w, q, step).requests[p].file != Next(w, q, step).requests[o].expected
  {
    var v := Next(w, q, step);
    if p != q { OthersKept(w, q, step, p); }
    if o != q { OthersKept(w, q, step, o); }
    if p in w.requests {
      assert RequestOk(w, w.requests[p]);
      assert w.requests[p].Uploads() ==> Held(w, p, w.requests[p].file);
    }
    if o in w.requests { assert RequestOk(w, w.requests[o]); }
    if step.StoreFile? && p == q && o != q { assert !Expects(w.requests[o], step.file); }
  }

  // With ids that count on from the largest, as SQLite's do, only an upload stored under a
  // smaller id than the file it is to replace is exposed.
  lemma LaterUploadsAreSafe(w: World, q: int, file: int)
    requires Inv(w) && Enabled(w, q, StoreFile(file)) && forall known :: known in w.files ==> known < file
    requires forall o :: o in w.requests && w.requests[o].Exposed() ==> w.requests[o].file > w.requests[o].expected
    ensures !HandsOut(w, StoreFile(file))
  {
    forall o | o in w.requests ensures !Expects(w.requests[o], file) {
      assert RequestOk(w, w.requests[o]);
    }
  }

  lemma {:induction false} RunKeepsInv(w: World, actions: seq<Action>)
    requires Inv(w) && Legal(w, actions) && NothingComesBack(w, actions)
    ensures Inv(Exec(w, actions))
    decreases |actions|
  {
    if actions != [] {
      StepKeepsInv(w, actions[0].request, actions[0].step);
      RunKeepsInv(Next(w, actions[0].request, actions[0].step), actions[1..]);
    }
  }

  /// ### What follows

  // A quiet site: consistent tables and no request in flight.
  ghost predicate AtRest(w: World) {
    Inv(w) && w.requests == map[]
  }

  ghost predicate OwnedByRow(w: World, file: int, row: int) {
    row in w.statics && w.statics[row].fileId == file
  }

  // At every moment each stored file that no other record pins and that is not apart has
  // exactly one owner: one static_files row, or one request in flight that is yet to link or
  // purge it.
  lemma OneOwner(w: World, actions: seq<Action>, file: int)
    requires AtRest(w) && Legal(w, actions) && NothingComesBack(w, actions)
    requires IsRoot(Exec(w, actions), file) && !Pinned(Exec(w, actions), file) && file !in Exec(w, actions).apart
    ensures
      var v := Exec(w, actions);
      && ((exists row :: OwnedByRow(v, file, row)) <==> !exists q :: Held(v, q, file))
      && (forall s, t :: OwnedByRow(v, file, s) && OwnedByRow(v, file, t) ==> s == t)
      && (forall p, q :: Held(v, p, file) && Held(v, q, file) ==> p == q)
  {
    RunKeepsInv(w, actions);
    var v := Exec(w, actions);
    if PointedTo(v, file) {
      var row :| row in v.statics && v.statics[row].fileId == file;
      assert OwnedByRow(v, file, row);
    }
  }

  // No static_files row and no variant ever dangles, and file names stay unique.
  lemma NothingDangles(w: World, actions: seq<Action>)
    requires AtRest(w) && Legal(w, actions) && NothingComesBack(w, actions)
    ensures
      var v := Exec(w, actions);
      && (forall row :: row in v.statics ==> v.statics[row].fileId in v.files)
      && (forall file :: file in v.files && v.files[file].Some? ==> v.files[file].value in v.files)
      && (forall s, t :: s in v.statics && t in v.statics && v.statics[s].filename == v.statics[t].filename ==> s == t)
  {
    RunKeepsInv(w, actions);
  }

  // When every request has finished, the stored files are exactly those still in use: each
  // root is pointed to by one row, pinned or apart, and each variant belongs to such a root.
  lemma NothingLeaks(w: World, actions: seq<Action>, file: int)
    requires AtRest(w) && Legal(w, actions) && NothingComesBack(w, actions) && Exec(w, actions).requests == map[]
    ensures
      var v := Exec(w, actions);
      file in v.files ==>
        var root := if v.files[file].Some? then v.files[file].value else file;
        && IsRoot(v, root)
        && (Pinned(v, root) || root in v.apart
            || exists row :: OwnedByRow(v, root, row) && forall other :: OwnedByRow(v, root, other) ==> other == row)
  {
    RunKeepsInv(w, actions);
    var v := Exec(w, actions);
    if file in v.files {
      var root := if v.files[file].Some? then v.files[file].value else file;
      if !Pinned(v, root) && root !in v.apart {
        assert forall q :: !Held(v, q, root);
        var row :| row in v.statics && v.statics[row].fileId == root;
        assert OwnedByRow(v, root, row);
      }
    }
  }

  // The files that are apart are the same throughout, and none of them goes.
  lemma ApartStays(w: World, actions: seq<Action>, file: int)
    requires AtRest(w) && Legal(w, actions) && NothingComesBack(w, actions) && file in w.apart
    ensures IsRoot(Exec(w, actions), file)
  {
    RunKeepsInv(w, actions);
    SameApart(w, actions);
  }

  lemma {:induction false} SameApart(w: World, actions: seq<Action>)
    requires Legal(w, actions)
    ensures Exec(w, actions).apart == w.apart
    decreases |actions|
  {
    if actions != [] { SameApart(Next(w, actions[0].request, actions[0].step), actions[1..]); }
  }

  // Whoever holds a file finds it referenced exactly when another record pins it, and no step
  // of another request changes that. So it does not matter that the purge reads its counts
  // one by one.
  lemma PurgeCheckIsStable(w: World, q: int, p: int, step: Step)
    requires Inv(w) && q in w.requests && w.requests[q].Purging? && p != q && Enabled(w, p, step)
    requires !HandsOut(w, step)
    ensures
      var root := w.requests[q].file;
      && (FamilyReferenced(w, root) <==> Pinned(w, root))
      && FamilyReferenced(Next(w, p, step), root) == FamilyReferenced(w, root)
  {
    StepKeepsInv(w, p, step);
    PinnedStable(w, p, step, w.requests[q].file);
    HeldUnlessPinned(w, q, w.requests[q].file);
    HeldUnlessPinned(Next(w, p, step), q, w.requests[q].file);
  }

  lemma HeldUnlessPinned(w: World, q: int, root: int)
    requires Inv(w) && Held(w, q, root)
    ensures FamilyReferenced(w, root) <==> Pinned(w, root)
  {
  }

  /// ### The statements, in place

  function Variants(files: map<int, Option<int>>, root: int): set<int> {
    set file | file in files && files[file] == Some(root)
  }

  predicate InUse(w: World, file: int) {
    file in w.attached || exists row :: row in w.statics && w.statics[row].fileId == file
  }

  // Counting member by member decides what FamilyReferenced says of the family.
  lemma FamilyCounts(w: World, root: int)
    ensures FamilyReferenced(w, root) <==>
      InUse(w, root) || exists file :: file in Variants(w.files, root) && InUse(w, file)
  {
    forall file ensures file in Variants(w.files, root) <==> IsVariant(w, file, root) {}
    if variant :| variant in w.attached && IsVariant(w, variant, root) {
      assert variant in Variants(w.files, root) && InUse(w, variant);
    }
    if row :| row in w.statics && IsVariant(w, w.statics[row].fileId, root) {
      assert w.statics[row].fileId in Variants(w.files, root) && InUse(w, w.statics[row].fileId);
    }
    if file :| file in Variants(w.files, root) && InUse(w, file) {
      assert IsVariant(w, file, root);
    }
  }

  // Each statement performs the step of its request in the machine above.
  class StaticFileStore {
    var files: map<int, Option<int>>
    var statics: map<int, StaticRow>
    var attached: set<int>
    ghost var apart: set<int>

    ghost function Value(requests: map<int, Request>): World
      reads this
    {
      World(files, statics, attached, apart, requests)
    }

    constructor (files: map<int, Option<int>>, statics: map<int, StaticRow>, attached: set<int>, ghost apart: set<int>)
      ensures Value(map[]) == World(files, statics, attached, apart, map[])
    {
      this.files, this.statics, this.attached, this.apart := files, statics, attached, apart;
    }

    // `row` is the id that the table gives the new row.
    method CreateStaticFile(filename: string, file: int, row: int, ghost requests: map<int, Request>, ghost q: int)
      returns (created: bool)
      requires q in requests && requests[q] == Absent(filename, file) && row !in statics
      modifies this`statics
      ensures
        var before := old(Value(requests));
        var step := if created then CreateRow(row) else CreateConflict;
        Enabled(before, q, step) && Value(Next(before, q, step).requests) == Next(before, q, step)
    {
      if taken :| taken in statics && statics[taken].filename == filename {
        return false;
      }
      statics := statics[row := StaticRow(filename, file)];
      created := true;
    }

    method UpdateStaticFile(row: int, expected: int, file: int, ghost requests: map<int, Request>, ghost q: int)
      returns (affected: int)
      requires q in requests && requests[q].Swapping?
      requires requests[q].row == row && requests[q].expected == expected && requests[q].file == file
      modifies this`statics
      ensures affected == 0 || affected == 1
      ensures
        var before := old(Value(requests));
        var step := if affected == 1 then SwapRow else SwapLost;
        Enabled(before, q, step) && Value(Next(before, q, step).requests) == Next(before, q, step)
    {
      affected := 0;
      if row in statics && statics[row].fileId == expected {
        statics := statics[row := statics[row].(fileId := file)];
        affected := 1;
      }
    }

    method DeleteStaticFile(row: int, ghost requests: map<int, Request>, ghost q: int) returns (file: Option<int>)
      requires q in requests && requests[q] == Destroying(row)
      modifies this`statics
      ensures
        var before := old(Value(requests));
        var step := if file.Some? then DeleteRow else DeleteMissing;
        && Enabled(before, q, step) && Value(Next(before, q, step).requests) == Next(before, q, step)
        && (file.Some? ==> Next(before, q, step).requests[q] == Deleted(file.value))
    {
      if row !in statics { return None; }
      file := Some(statics[row].fileId);
      statics := statics - {row};
    }

    method FileReferenced(file: int) returns (referenced: bool)
      ensures referenced == InUse(Value(map[]), file)
    {
      referenced := file in attached || exists row :: row in statics && statics[row].fileId == file;
    }

    // The whole purge of one file: the family goes unless some member is referenced.
    method PurgeStoredFile(root: int, ghost requests: map<int, Request>)
      modifies this`files
      ensures files == if FamilyReferenced(old(Value(requests)), root) then old(files)
        else old(files) - ({root} + Variants(old(files), root))
    {
      ghost var before := Value(requests);
      var referenced := FileReferenced(root);
      if referenced { return; }
      var variants := set file | file in files && files[file] == Some(root);
      referenced := AnyReferenced(variants);
      FamilyCounts(before, root);
      if referenced { return; }
      RemoveAll(variants);
      files := files - {root};
    }

    method AnyReferenced(members: set<int>) returns (referenced: bool)
      ensures referenced <==> exists file :: file in members && InUse(Value(map[]), file)
    {
      var left := members;
      while left != {}
        invariant left <= members
        invariant forall file :: file in members - left ==> !InUse(Value(map[]), file)
        decreases left
      {
        ghost var some := Collections.Member(left);
        var file :| file in left;
        left := left - {file};
        referenced := FileReferenced(file);
        if referenced { return; }
      }
      referenced := false;
    }

    method RemoveAll(members: set<int>)
      modifies this`files
      ensures files == old(files) - members
    {
      var left := members;
      while left != {}
        invariant left <= members && files == old(files) - (members - left)
        decreases left
      {
        ghost var some := Collections.Member(left);
        var file :| file in left;
        left := left - {file};
        files := files - {file};
      }
    }
  }
}
