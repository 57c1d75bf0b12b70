/**
 Requests of `StaticFiles` run from start to end; the exact condition under which an id that
 comes back can make them lose a stored file; and a whole run in which it does.
 */
module StaticFileRuns {
  import opened Options
  import opened StaticFiles
  import Collections

  lemma {:induction false} Extend(w: World, actions: seq<Action>, q: int, step: Step)
    requires Legal(w, actions) && Enabled(Exec(w, actions), q, step)
    ensures Legal(w, actions + [Action(q, step)])
    ensures Exec(w, actions + [Action(q, step)]) == Next(Exec(w, actions), q, step)
    decreases |actions|
  {
    var more := actions + [Action(q, step)];
    if actions == [] {
      assert more[1..] == [];
    } else {
      Extend(Next(w, actions[0].request, actions[0].step), actions[1..], q, step);
      assert more[1..] == actions[1..] + [Action(q, step)];
    }
  }

  lemma {:induction false} Concat(w: World, actions: seq<Action>, rest: seq<Action>)
    requires Legal(w, actions) && Legal(Exec(w, actions), rest)
    ensures Legal(w, actions + rest) && Exec(w, actions + rest) == Exec(Exec(w, actions), rest)
    decreases |actions|
  {
    if actions == [] {
      assert actions + rest == rest;
    } else {
      Concat(Next(w, actions[0].request, actions[0].step), actions[1..], rest);
      assert (actions + rest)[1..] == actions[1..] + rest;
    }
  }

  // The upload has stored its file.
  lemma Stores(w: World, q: int, filename: string, file: int) returns (run: seq<Action>)
    requires q !in w.requests && file !in w.files
    ensures Legal(w, run)
    ensures Exec(w, run) == w.(files := w.files[file := None], requests := w.requests[q := Stored(filename, file)])
  {
    run := [];
    Extend(w, run, q, StartUpload(filename));
    run := run + [Action(q, StartUpload(filename))];
    Extend(w, run, q, StoreFile(file));
    run := run + [Action(q, StoreFile(file))];
  }

  // A first upload of a name.
  lemma Creates(w: World, q: int, filename: string, file: int, row: int) returns (run: seq<Action>)
    requires q !in w.requests && file !in w.files && NameFree(w, filename) && row !in w.statics
    ensures Legal(w, run)
    ensures Exec(w, run) == w.(files := w.files[file := None], statics := w.statics[row := StaticRow(filename, file)])
  {
    run := Stores(w, q, filename, file);
    Extend(w, run, q, FindNone);
    run := run + [Action(q, FindNone)];
    Extend(w, run, q, CreateRow(row));
    run := run + [Action(q, CreateRow(row))];
    assert w.requests[q := Absent(filename, file)] - {q} == w.requests;
  }

  // Nothing but the request itself cares for the file.
  ghost predicate Loose(w: World, file: int) {
    !FamilyReferenced(w, file) && forall other :: other in w.files ==> w.files[other] != Some(file)
  }

  lemma Purges(w: World, q: int, file: int) returns (run: seq<Action>)
    requires q in w.requests && w.requests[q] == Purging(file) && Loose(w, file)
    ensures Legal(w, run) && Exec(w, run) == w.(files := w.files - {file}, requests := w.requests - {q})
  {
    run := [];
    Extend(w, run, q, PurgeRemoves([file]));
    run := run + [Action(q, PurgeRemoves([file]))];
    Extend(w, run, q, RemoveOne);
    run := run + [Action(q, RemoveOne)];
    assert w.requests[q := Removing([file])] - {q} == w.requests - {q};
  }

  // An overwrite up to the purge of the file it replaced.
  lemma Swaps(w: World, q: int, filename: string, file: int, row: int, replaced: int) returns (run: seq<Action>)
    requires q !in w.requests && file !in w.files
    requires NamedBy(w, row, filename) && w.statics[row].fileId == replaced && replaced in w.files
    ensures Legal(w, run)
    ensures Exec(w, run) == w.(files := w.files[file := None], statics := w.statics[row := StaticRow(filename, file)],
                               requests := w.requests[q := Purging(replaced)])
  {
    run := Stores(w, q, filename, file);
    Extend(w, run, q, FindRow(row));
    run := run + [Action(q, FindRow(row))];
    Extend(w, run, q, ReadPrevious(row));
    run := run + [Action(q, ReadPrevious(row))];
    Extend(w, run, q, SwapRow);
    run := run + [Action(q, SwapRow)];
  }

  // A deletion up to the purge of the file.
  lemma Deletes(w: World, q: int, row: int) returns (run: seq<Action>)
    requires q !in w.requests && row in w.statics && w.statics[row].fileId in w.files
    ensures Legal(w, run)
    ensures Exec(w, run) ==
      w.(statics := w.statics - {row}, requests := w.requests[q := Purging(w.statics[row].fileId)])
  {
    run := [];
    Extend(w, run, q, StartDestroy(row));
    run := run + [Action(q, StartDestroy(row))];
    Extend(w, run, q, DeleteRow);
    run := run + [Action(q, DeleteRow)];
    Extend(w, run, q, ResolveDeleted);
    run := run + [Action(q, ResolveDeleted)];
  }

  /// ### When an id that comes back can lose a file

  // Stored, and nobody answers for it.
  ghost predicate Lost(w: World, file: int) {
    IsRoot(w, file) && !Pinned(w, file) && file !in w.apart && !PointedTo(w, file) && forall q :: !Held(w, q, file)
  }

  // From `w`, with no further id handed out to an overwrite that expects it, a file gets lost.
  ghost predicate Loses(w: World, run: seq<Action>, file: int) {
    Legal(w, run) && NothingComesBack(w, run) && Lost(Exec(w, run), file)
  }

  ghost predicate CanLose(w: World) {
    exists run: seq<Action>, file: int :: Loses(w, run, file)
  }

  ghost predicate NoStores(run: seq<Action>) {
    forall i :: 0 <= i < |run| ==> !run[i].step.StoreFile?
  }

  lemma {:induction false} NoStoresNothingComesBack(w: World, run: seq<Action>)
    requires Legal(w, run) && NoStores(run)
    ensures NothingComesBack(w, run)
    decreases |run|
  {
    if run != [] { NoStoresNothingComesBack(Next(w, run[0].request, run[0].step), run[1..]); }
  }

  // Upload `q` has stored the file under the id that overwrite `o` expects in its row, and
  // that `o` would not purge; only `q` has to do with the file.
  ghost predicate Poised(w: World, q: int, o: int, file: int) {
    && q in w.requests && o in w.requests && q != o && w.requests[q].Stored? && w.requests[q].file == file
    && w.requests[o].Swapping? && w.requests[o].expected == file && w.requests[o].previous != Some(file)
    && w.requests[o].file != file
    && OnlyHeldBy(w, q, file)
    && (forall s, t :: s in w.statics && t in w.statics && s != t ==> w.statics[s].filename != w.statics[t].filename)
    && (forall row :: row in w.statics ==> w.statics[row].fileId in w.files)
  }

  ghost predicate OnlyHeldBy(w: World, q: int, file: int) {
    && IsRoot(w, file) && !Pinned(w, file) && file !in w.apart && !PointedTo(w, file)
    && forall p :: Held(w, p, file) ==> p == q
  }

  lemma NewFileIsAlone(w: World, q: int, file: int)
    requires Inv(w) && Enabled(w, q, StoreFile(file))
    ensures OnlyHeldBy(Next(w, q, StoreFile(file)), q, file)
    ensures TablesOk(Next(w, q, StoreFile(file)))
  {
    var v := Next(w, q, StoreFile(file));
    TablesStep(w, q, StoreFile(file));
    PinnedStable(w, q, StoreFile(file), file);
    assert !Pinned(w, file);
    assert forall p :: p in w.requests ==> RequestOk(w, w.requests[p]);
    assert forall p :: p != q ==> (Held(v, p, file) <==> Held(w, p, file));
  }

  // Another request, or the same one, moves without taking hold of the file.
  lemma StaysPoised(w: World, v: World, q: int, o: int, file: int)
    requires Poised(w, q, o, file)
    requires v.files == w.files && v.attached == w.attached && v.apart == w.apart
    requires forall row :: row in v.statics ==> row in w.statics && v.statics[row] == w.statics[row]
    requires q in v.requests && o in v.requests && v.requests[q] == w.requests[q] && v.requests[o] == w.requests[o]
    requires forall p :: Held(v, p, file) ==> Held(w, p, file)
    ensures Poised(v, q, o, file)
  {
  }

  // An overwrite that has yet to read the file to purge reads another one, or none.
  lemma Poises(w: World, q: int, file: int, o: int) returns (run: seq<Action>)
    requires Inv(w) && Enabled(w, q, StoreFile(file)) && o in w.requests && Expects(w.requests[o], file)
    ensures Legal(Next(w, q, StoreFile(file)), run) && NoStores(run)
    ensures Poised(Exec(Next(w, q, StoreFile(file)), run), q, o, file)
  {
    var v := Next(w, q, StoreFile(file));
    NewFileIsAlone(w, q, file);
    assert RequestOk(w, w.requests[o]) && v.requests[o] == w.requests[o];
    run := [];
    if v.requests[o].Overwriting? { run := ReadsAnother(v, q, o, file); }
  }

  lemma ReadsAnother(v: World, q: int, o: int, file: int) returns (run: seq<Action>)
    requires TablesOk(v) && OnlyHeldBy(v, q, file) && q != o && q in v.requests && o in v.requests
    requires v.requests[q].Stored? && v.requests[q].file == file
    requires v.requests[o].Overwriting? && v.requests[o].expected == file && v.requests[o].file != file
    ensures Legal(v, run) && NoStores(run) && Poised(Exec(v, run), q, o, file)
  {
    var r := v.requests[o];
    var step := ReadNone;
    if row :| NamedBy(v, row, r.filename) {
      step := ReadPrevious(row);
    } else {
      assert forall row :: row in v.statics ==> !NamedBy(v, row, r.filename);
    }
    Extend(v, [], o, step);
    run := [] + [Action(o, step)];
    var after := Exec(v, run);
    assert after == Next(v, o, step);
    assert after.requests[o].Swapping? && after.requests[o].previous != Some(file);
    forall p | Held(after, p, file) ensures p == q {
      if p != o { assert Held(v, p, file); }
    }
    assert after == v.(requests := after.requests);
    OnlyRequestsMoved(v, after, q, file);
  }

  lemma OnlyRequestsMoved(w: World, v: World, q: int, file: int)
    requires OnlyHeldBy(w, q, file) && v == w.(requests := v.requests)
    requires forall p :: Held(v, p, file) ==> p == q
    ensures OnlyHeldBy(v, q, file)
  {
  }

  lemma Clears(w: World, q: int, o: int, file: int, row: int) returns (run: seq<Action>)
    requires Poised(w, q, o, file) && row in w.statics
    ensures Legal(w, run) && NoStores(run) && Poised(Exec(w, run), q, o, file)
    ensures Exec(w, run).statics == w.statics - {row}
    ensures Exec(w, run).requests[q] == w.requests[q] && Exec(w, run).requests[o] == w.requests[o]
  {
    var d := Collections.Above(w.requests.Keys);
    run := [];
    Extend(w, run, d, StartDestroy(row));
    run := run + [Action(d, StartDestroy(row))];
    Extend(w, run, d, DeleteRow);
    run := run + [Action(d, DeleteRow)];
    var deleted := Deleted(w.statics[row].fileId);
    assert Exec(w, run) == w.(statics := w.statics - {row}, requests := w.requests[d := deleted]);
    assert PointedTo(w, w.statics[row].fileId);
    forall p | Held(Exec(w, run), p, file) ensures Held(w, p, file) {}
    StaysPoised(w, Exec(w, run), q, o, file);
  }

  lemma ClearsRow(w: World, q: int, o: int, file: int) returns (run: seq<Action>)
    requires Poised(w, q, o, file)
    ensures Legal(w, run) && NoStores(run) && Poised(Exec(w, run), q, o, file)
    ensures Exec(w, run).requests[o].row !in Exec(w, run).statics
  {
    run := [];
    if w.requests[o].row in w.statics { run := Clears(w, q, o, file, w.requests[o].row); }
  }

  lemma ClearsName(w: World, q: int, o: int, file: int) returns (run: seq<Action>)
    requires Poised(w, q, o, file) && w.requests[o].row !in w.statics
    ensures Legal(w, run) && NoStores(run) && Poised(Exec(w, run), q, o, file)
    ensures Exec(w, run).requests[o].row !in Exec(w, run).statics
    ensures NameFree(Exec(w, run), Exec(w, run).requests[q].filename)
  {
    run := [];
    if row :| NamedBy(w, row, w.requests[q].filename) {
      run := Clears(w, q, o, file, row);
      assert forall other :: other in w.statics - {row} ==> w.statics[other].filename != w.statics[row].filename;
    } else {
      assert forall row :: row in w.statics ==> !NamedBy(w, row, w.requests[q].filename);
    }
  }

  // The row comes back under its old id and points to the file, and the compare-and-swap takes
  // it over.
  lemma Takes(w: World, q: int, o: int, file: int) returns (run: seq<Action>)
    requires Poised(w, q, o, file) && NameFree(w, w.requests[q].filename) && w.requests[o].row !in w.statics
    ensures Legal(w, run) && NoStores(run) && Lost(Exec(w, run), file)
  {
    var r, upload := w.requests[o], w.requests[q];
    run := [];
    Extend(w, run, q, FindNone);
    run := run + [Action(q, FindNone)];
    Extend(w, run, q, CreateRow(r.row));
    run := run + [Action(q, CreateRow(r.row))];
    var created := Exec(w, run);
    assert created.statics == w.statics[r.row := StaticRow(upload.filename, file)];
    assert created.requests == w.requests - {q};
    Extend(w, run, o, SwapRow);
    run := run + [Action(o, SwapRow)];
    var v := Exec(w, run);
    assert v.statics == w.statics[r.row := StaticRow(upload.filename, r.file)];
    assert !PointedTo(v, file);
    forall p ensures !Held(v, p, file) {
      if p != o && p != q { assert Held(v, p, file) ==> Held(w, p, file); }
    }
  }

  // Such an overwrite can lose the file: two deletions clear its row and the upload's name.
  lemma ExposedOverwriteLoses(w: World, q: int, file: int, o: int) returns (run: seq<Action>)
    requires Inv(w) && Enabled(w, q, StoreFile(file)) && o in w.requests && Expects(w.requests[o], file)
    ensures Legal(Next(w, q, StoreFile(file)), run) && NoStores(run)
    ensures Lost(Exec(Next(w, q, StoreFile(file)), run), file)
  {
    var v := Next(w, q, StoreFile(file));
    run := Poises(w, q, file, o);
    var second := ClearsRow(Exec(v, run), q, o, file);
    run := Joined(v, run, second);
    var third := ClearsName(Exec(v, run), q, o, file);
    run := Joined(v, run, third);
    var last := Takes(Exec(v, run), q, o, file);
    run := Joined(v, run, last);
  }

  lemma Joined(w: World, run: seq<Action>, more: seq<Action>) returns (all: seq<Action>)
    requires Legal(w, run) && Legal(Exec(w, run), more) && NoStores(run) && NoStores(more)
    ensures Legal(w, all) && Exec(w, all) == Exec(Exec(w, run), more) && NoStores(all)
  {
    all := run + more;
    Concat(w, run, more);
  }

  // The condition is exact. Storing a file makes a loss possible if and only if its id is one
  // that an exposed overwrite in flight expects to replace.
  lemma StoringCanLoseIff(w: World, q: int, file: int)
    requires Inv(w) && Enabled(w, q, StoreFile(file))
    ensures HandsOut(w, StoreFile(file)) <==> CanLose(Next(w, q, StoreFile(file)))
  {
    var v := Next(w, q, StoreFile(file));
    if HandsOut(w, StoreFile(file)) {
      var o :| o in w.requests && Expects(w.requests[o], file);
      var run := ExposedOverwriteLoses(w, q, file, o);
      NoStoresNothingComesBack(v, run);
      assert Loses(v, run, file);
    } else {
      StepKeepsInv(w, q, StoreFile(file));
      forall run, lost ensures !Loses(v, run, lost) { InvNeverLoses(v, run, lost); }
    }
  }

  lemma InvNeverLoses(w: World, run: seq<Action>, file: int)
    requires Inv(w)
    ensures !Loses(w, run, file)
  {
    if Legal(w, run) && NothingComesBack(w, run) { RunKeepsInv(w, run); }
  }

  /// ### An id that comes back

  function EmptySite(): World { World(map[], map[], {}, {}, map[]) }

  // Upload 1 has stored file 1 and found the name, which another upload gave to file 2.
  function LookedUp(filename: string): World {
    World(map[1 := None, 2 := None], map[1 := StaticRow(filename, 2)], {}, {}, map[1 := Overwriting(filename, 1, 1, 2)])
  }

  // A third upload has replaced file 2 by file 3, which upload 1 then reads for purging.
  function Waits(filename: string): World {
    World(map[1 := None, 3 := None], map[1 := StaticRow(filename, 3)], {}, {},
      map[1 := Swapping(filename, 1, 1, 2, Some(3))])
  }

  // The name has been deleted, with its file.
  function Emptied(filename: string): World {
    World(map[1 := None], map[], {}, {}, map[1 := Swapping(filename, 1, 1, 2, Some(3))])
  }

  // File 2 is left with no owner.
  function Leaked(filename: string): World {
    World(map[1 := None, 2 := None], map[1 := StaticRow(filename, 1)], {}, {}, map[])
  }

  lemma AndThenCreates(w: World, run: seq<Action>, q: int, filename: string, file: int, row: int)
    returns (more: seq<Action>)
    requires Legal(w, run)
    requires
      var v := Exec(w, run);
      q !in v.requests && file !in v.files && NameFree(v, filename) && row !in v.statics
    ensures Legal(w, more)
    ensures
      var v := Exec(w, run);
      Exec(w, more) == v.(files := v.files[file := None], statics := v.statics[row := StaticRow(filename, file)])
  {
    var create := Creates(Exec(w, run), q, filename, file, row);
    Concat(w, run, create);
    more := run + create;
  }

  lemma AndThenPurges(w: World, run: seq<Action>, q: int, file: int) returns (more: seq<Action>)
    requires Legal(w, run)
    requires q in Exec(w, run).requests && Exec(w, run).requests[q] == Purging(file) && Loose(Exec(w, run), file)
    ensures Legal(w, more)
    ensures
      var v := Exec(w, run);
      Exec(w, more) == v.(files := v.files - {file}, requests := v.requests - {q})
  {
    var purge := Purges(Exec(w, run), q, file);
    Concat(w, run, purge);
    more := run + purge;
  }

  lemma FromEmpty(filename: string) returns (run: seq<Action>)
    ensures Legal(EmptySite(), run) && Exec(EmptySite(), run) == LookedUp(filename)
  {
    run := Stores(EmptySite(), 1, filename, 1);
    run := AndThenCreates(EmptySite(), run, 2, filename, 2, 1);
    Extend(EmptySite(), run, 1, FindRow(1));
    run := run + [Action(1, FindRow(1))];
  }

  lemma FromLookedUp(filename: string) returns (run: seq<Action>)
    ensures Legal(LookedUp(filename), run) && Exec(LookedUp(filename), run) == Waits(filename)
  {
    var w := LookedUp(filename);
    run := Swaps(w, 3, filename, 3, 1, 2);
    run := AndThenPurges(w, run, 3, 2);
    Extend(w, run, 1, ReadPrevious(1));
    run := run + [Action(1, ReadPrevious(1))];
  }

  lemma FromWaits(filename: string) returns (run: seq<Action>)
    ensures Legal(Waits(filename), run) && Exec(Waits(filename), run) == Emptied(filename)
  {
    run := Deletes(Waits(filename), 4, 1);
    run := AndThenPurges(Waits(filename), run, 4, 3);
  }

  // A new upload of the name gets the ids 2 and 1 again. The compare-and-swap of upload 1
  // matches them, takes the row over, and purges the file that it read.
  lemma FromEmptied(filename: string) returns (run: seq<Action>)
    ensures Legal(Emptied(filename), run) && Exec(Emptied(filename), run) == Leaked(filename)
  {
    var w := Emptied(filename);
    run := Creates(w, 5, filename, 2, 1);
    Extend(w, run, 1, SwapRow);
    run := run + [Action(1, SwapRow)];
    run := AndThenPurges(w, run, 1, 3);
  }

  // Without the condition on ids a stored file can be lost: when all requests have finished,
  // nothing points to file 2. Every id in this run is the one that SQLite would choose.
  lemma ReusedIdLeaks(filename: string) returns (run: seq<Action>)
    ensures Legal(EmptySite(), run) && AtRest(EmptySite()) && Exec(EmptySite(), run) == Leaked(filename)
    ensures IsRoot(Leaked(filename), 2) && !Pinned(Leaked(filename), 2) && !PointedTo(Leaked(filename), 2)
    ensures !NothingComesBack(EmptySite(), run)
  {
    run := FromEmpty(filename);
    var second := FromLookedUp(filename);
    Concat(EmptySite(), run, second);
    run := run + second;
    var third := FromWaits(filename);
    Concat(EmptySite(), run, third);
    run := run + third;
    var last := FromEmptied(filename);
    Concat(EmptySite(), run, last);
    run := run + last;
    if NothingComesBack(EmptySite(), run) { OneOwner(EmptySite(), run, 2); }
  }
}
