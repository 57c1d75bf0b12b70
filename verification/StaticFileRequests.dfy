/**
 What the requests of `StaticFiles` do when nothing comes in between: the runs that serve an
 upload, replace a file, delete one, and clean up after a lost race.
 */
module StaticFileRequests {
  import opened Options
  import opened StaticFiles
  import opened StaticFileRuns
  import Collections

  lemma ListOf(s: set<int>) returns (rows: seq<int>)
    ensures forall x :: x in rows <==> x in s
    ensures forall i, j :: 0 <= i < j < |rows| ==> rows[i] != rows[j]
    decreases s
  {
    rows := [];
    if s != {} {
      var some := Collections.Member(s);
      var rest := ListOf(s - {some});
      rows := rest + [some];
    }
  }

  lemma {:induction false} RemovesAll(w: World, q: int, rows: seq<int>) returns (run: seq<Action>)
    requires q in w.requests && w.requests[q] == Removing(rows) && rows != []
    ensures Legal(w, run)
    ensures Exec(w, run) == w.(files := w.files - (set row | row in rows), requests := w.requests - {q})
    decreases |rows|
  {
    var next := Next(w, q, RemoveOne);
    run := [];
    if |rows| > 1 {
      run := RemovesAll(next, q, rows[1..]);
      assert rows == [rows[0]] + rows[1..];
      Collections.SameMap(next.files - (set row | row in rows[1..]), w.files - (set row | row in rows));
      assert w.requests[q := Removing(rows[1..])] - {q} == w.requests - {q};
    } else {
      assert (set row | row in rows) == {rows[0]};
    }
    run := Begin(w, q, RemoveOne, run);
  }

  lemma Begin(w: World, q: int, step: Step, rest: seq<Action>) returns (run: seq<Action>)
    requires Enabled(w, q, step) && Legal(Next(w, q, step), rest)
    ensures Legal(w, run) && Exec(w, run) == Exec(Next(w, q, step), rest)
  {
    run := [Action(q, step)] + rest;
  }

  // An attachment or a static_files row names the file or one of its variants.
  ghost predicate Used(w: World, file: int) {
    exists m :: (m == file || (m in w.files && w.files[m] == Some(file)))
      && (m in w.attached || exists row :: row in w.statics && w.statics[row].fileId == m)
  }

  // A purge takes the file with its variants, unless one of them is in use.
  ghost function Purged(w: World, file: int): map<int, Option<int>> {
    if Used(w, file) then w.files else
      map m | m in w.files && m != file && w.files[m] != Some(file) :: w.files[m]
  }

  lemma UsedIsReferenced(w: World, file: int)
    ensures Used(w, file) <==> FamilyReferenced(w, file)
  {
    FamilyCounts(w, file);
    if member :| member in Variants(w.files, file) && InUse(w, member) { assert w.files[member] == Some(file); }
    if Used(w, file) {
      var m :| (m == file || (m in w.files && w.files[m] == Some(file))) && InUse(w, m);
      if m != file { assert m in Variants(w.files, file); }
    }
  }

  // The rows of a file's family, the file last.
  lemma FamilyList(w: World, file: int) returns (rows: seq<int>)
    requires file !in Variants(w.files, file)
    ensures FamilyOf(w, file, rows) && (set row | row in rows) == {file} + Variants(w.files, file)
  {
    var variants := ListOf(Variants(w.files, file));
    rows := variants + [file];
    forall row ensures row in rows <==> row == file || row in Variants(w.files, file) {}
    forall variant | variant in w.files && IsVariant(w, variant, file) ensures variant in rows {
      assert variant in Variants(w.files, file);
    }
    forall i | 0 <= i < |variants| ensures IsVariant(w, variants[i], file) {
      assert variants[i] in Variants(w.files, file);
    }
  }

  lemma PurgeEnds(w: World, q: int, file: int) returns (run: seq<Action>)
    requires q in w.requests && w.requests[q] == Purging(file) && file !in Variants(w.files, file)
    ensures Legal(w, run)
    ensures Exec(w, run) == w.(files := Purged(w, file), requests := w.requests - {q})
  {
    UsedIsReferenced(w, file);
    if Used(w, file) {
      run := Begin(w, q, PurgeKeeps, []);
    } else {
      var rows := FamilyList(w, file);
      run := RemovesAll(Next(w, q, PurgeRemoves(rows)), q, rows);
      assert w.requests[q := Removing(rows)] - {q} == w.requests - {q};
      Collections.SameMap(w.files - (set row | row in rows), Purged(w, file));
      run := Begin(w, q, PurgeRemoves(rows), run);
    }
  }

  // Served under a name: the file that the name's row points to.
  ghost predicate Serves(w: World, filename: string, file: int) {
    exists row :: NamedBy(w, row, filename) && w.statics[row].fileId == file
  }

  // A first upload of a name is served, and changes nothing else.
  lemma UploadCreates(w: World, q: int, filename: string, file: int, row: int) returns (run: seq<Action>)
    requires q !in w.requests && file !in w.files && NameFree(w, filename) && row !in w.statics
    ensures Legal(w, run)
    ensures Exec(w, run) == w.(files := w.files[file := None], statics := w.statics[row := StaticRow(filename, file)])
    ensures Serves(Exec(w, run), filename, file)
  {
    run := Creates(w, q, filename, file, row);
    assert NamedBy(Exec(w, run), row, filename);
  }

  // A later one takes the name's row over, and purges the family that was served before.
  lemma UploadReplaces(w: World, q: int, filename: string, file: int, row: int) returns (run: seq<Action>)
    requires TablesOk(w) && q !in w.requests && file !in w.files && NamedBy(w, row, filename)
    ensures Legal(w, run) && Serves(Exec(w, run), filename, file)
    ensures
      var replaced := w.statics[row].fileId;
      var swapped := w.(files := w.files[file := None], statics := w.statics[row := StaticRow(filename, file)]);
      Exec(w, run) == swapped.(files := Purged(swapped, replaced))
  {
    var replaced := w.statics[row].fileId;
    assert IsRoot(w, replaced);
    run := Swaps(w, q, filename, file, row, replaced);
    var swapped := Exec(w, run);
    var rest := PurgeEnds(swapped, q, replaced);
    Concat(w, run, rest);
    run := run + rest;
    assert (w.requests[q := Purging(replaced)]) - {q} == w.requests;
    assert NamedBy(Exec(w, run), row, filename);
  }

  // A deletion takes the row, and purges the family that it served.
  lemma DestroyRemoves(w: World, q: int, row: int) returns (run: seq<Action>)
    requires TablesOk(w) && q !in w.requests && row in w.statics
    ensures Legal(w, run)
    ensures
      var removed := w.(statics := w.statics - {row});
      Exec(w, run) == removed.(files := Purged(removed, w.statics[row].fileId))
  {
    var file := w.statics[row].fileId;
    assert IsRoot(w, file);
    run := Deletes(w, q, row);
    var rest := PurgeEnds(Exec(w, run), q, file);
    Concat(w, run, rest);
    run := run + rest;
    assert (w.requests[q := Purging(file)]) - {q} == w.requests;
  }

  // An upload that loses its race, for the name or for the row, purges what it stored itself.
  lemma LoserPurgesItsOwn(w: World, q: int, r: Request) returns (run: seq<Action>)
    requires q in w.requests && w.requests[q] == r && (r.Absent? || r.Swapping?)
    requires if r.Absent? then !NameFree(w, r.filename) else !SwapMatches(w, r)
    requires r.file !in Variants(w.files, r.file)
    ensures Legal(w, run) && Exec(w, run) == w.(files := Purged(w, r.file), requests := w.requests - {q})
  {
    var step := if r.Absent? then CreateConflict else SwapLost;
    var lost := Next(w, q, step);
    run := PurgeEnds(lost, q, r.file);
    assert lost.requests - {q} == w.requests - {q};
    run := Begin(w, q, step, run);
  }
}
