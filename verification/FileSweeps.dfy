/**
 The two sweeps that delete stored files: destroying an article, and reaping orphans at
 startup. Both must leave every file that is still referenced, with its whole family.

 A file row is a root or a variant of a root; a variant has no variants. A row is
 referenced by an attachment, by a static_files row, or by its /files/<key> address in one
 of the content columns that the server scans. Database and disk errors are left out.
 */
module FileSweeps {
  import opened Options
  import Collections
  import Like

  datatype FileRow = FileRow(key: string, variantOf: Option<int>, createdAt: int)

  datatype Attachment = Attachment(fileId: int, recordType: string, recordId: int, name: string)

  // A scanned content column; `article` is the article whose row or comment it belongs to.
  datatype Column = Column(article: Option<int>, id: int, name: string)

  datatype Tables = Tables(
    files: map<int, FileRow>, attachments: set<Attachment>, statics: map<int, int>, contents: map<Column, string>)

  function Fold(c: char): char {
    if 'A' <= c <= 'Z' then (c as int + 32) as char else c
  }

  // SQLite's LIKE folds the ASCII letters.
  predicate SameLetter(c: char, d: char) { Fold(c) == Fold(d) }

  predicate ValidKey(key: string) {
    4 <= |key| <= 64 && forall i :: 0 <= i < |key| ==>
      '0' <= key[i] <= '9' || 'a' <= key[i] <= 'z' || 'A' <= key[i] <= 'Z'
  }

  /// ### References

  function Address(key: string): string { "/files/" + key }

  predicate InContent(t: Tables, key: string) {
    exists column ::
      column in t.contents && Like.Matches("%" + Address(key) + "%", t.contents[column], SameLetter, false)
  }

  predicate Attached(t: Tables, file: int) {
    exists a :: a in t.attachments && a.fileId == file
  }

  predicate Served(t: Tables, file: int) {
    exists row :: row in t.statics && t.statics[row] == file
  }

  predicate Referenced(t: Tables, file: int, key: string) {
    Attached(t, file) || Served(t, file) || InContent(t, key)
  }

  function Variants(t: Tables, root: int): set<int> {
    set file | file in t.files && t.files[file].variantOf == Some(root)
  }

  function Family(t: Tables, root: int): set<int> {
    {root} + Variants(t, root)
  }

  ghost predicate Consistent(t: Tables) {
    && (forall file :: file in t.files && t.files[file].variantOf.Some? ==>
          t.files[file].variantOf.value in t.files && t.files[t.files[file].variantOf.value].variantOf.None?)
    && (forall a :: a in t.attachments ==> a.fileId in t.files)
    && (forall row :: row in t.statics ==> t.statics[row] in t.files)
    && (forall f, g :: f in t.files && g in t.files && f != g ==> t.files[f].key != t.files[g].key)
  }

  predicate Mentioned(t: Tables, key: string) {
    exists column :: column in t.contents && Like.Occurs(t.contents[column], Address(key), SameLetter)
  }

  // The scan has no ESCAPE clause. It misses no mention of any key, and finds nothing else
  // when the key is well formed.
  lemma ContentScanIsExact(t: Tables, key: string)
    ensures Mentioned(t, key) ==> InContent(t, key)
    ensures ValidKey(key) ==> (InContent(t, key) <==> Mentioned(t, key))
  {
    var term := Address(key);
    if ValidKey(key) { assert Like.Plain(term); }
    forall column | column in t.contents
      ensures Like.Occurs(t.contents[column], term, SameLetter) ==>
        Like.Matches("%" + term + "%", t.contents[column], SameLetter, false)
      ensures ValidKey(key) && Like.Matches("%" + term + "%", t.contents[column], SameLetter, false) ==>
        Like.Occurs(t.contents[column], term, SameLetter)
    {
      Like.RawPatternFindsOccurrences(term, t.contents[column], SameLetter);
    }
  }

  /// ### What the sweeps delete

  // Neither the file nor any of its variants is referenced.
  predicate Free(t: Tables, file: int) {
    file in t.files && forall member :: member in Family(t, file) && member in t.files ==>
      !Referenced(t, member, t.files[member].key)
  }

  function FamiliesOf(t: Tables, files: set<int>): set<int> {
    set member | member in t.files && (exists file :: file in files && Free(t, file) && member in Family(t, file))
  }

  predicate Of(a: Attachment, article: int) {
    a.recordType == "Article" && a.recordId == article
  }

  // The tables of Destroy once the article's own rows are gone.
  function WithoutArticle(t: Tables, article: int): Tables {
    t.(attachments := (set a | a in t.attachments && !Of(a, article)),
       contents := map column | column in t.contents && column.article != Some(article) :: t.contents[column])
  }

  function AttachedTo(t: Tables, article: int): set<int> {
    set a | a in t.attachments && Of(a, article) && a.fileId in t.files :: a.fileId
  }

  function Doomed(t: Tables, article: int): set<int> {
    FamiliesOf(WithoutArticle(t, article), AttachedTo(t, article))
  }

  function Destroyed(t: Tables, article: int): Tables {
    var left := WithoutArticle(t, article);
    left.(files := left.files - Doomed(t, article))
  }

  // ListOrphanFileCandidates: old roots with no attachment or static_files row in the family.
  predicate Candidate(t: Tables, file: int, cutoff: int) {
    && file in t.files && t.files[file].createdAt < cutoff && t.files[file].variantOf.None?
    && forall member :: member in Family(t, file) ==> !Attached(t, member) && !Served(t, member)
  }

  function Candidates(t: Tables, cutoff: int): set<int> {
    set file | file in t.files && Candidate(t, file, cutoff)
  }

  function Reaped(t: Tables, cutoff: int): set<int> {
    FamiliesOf(t, Candidates(t, cutoff))
  }

  /// ### Deletion respects references

  ghost predicate Respects(before: Tables, after: Tables) {
    && (forall file :: file in after.files ==> file in before.files && after.files[file] == before.files[file])
    && (forall file :: file in before.files && file !in after.files ==>
          !Referenced(after, file, before.files[file].key))
    && Consistent(after)
  }

  lemma FamiliesRespect(t: Tables, files: set<int>)
    requires Consistent(t)
    ensures Respects(t, t.(files := t.files - FamiliesOf(t, files)))
  {
    var gone := FamiliesOf(t, files);
    var after := t.(files := t.files - gone);
    forall member | member in gone
      ensures !Referenced(t, member, t.files[member].key)
      ensures forall v :: v in t.files && t.files[v].variantOf == Some(member) ==> v in gone
    {
      var file :| file in files && Free(t, file) && member in Family(t, file);
      forall v | v in t.files && t.files[v].variantOf == Some(member) ensures v in gone {
        assert member == file;
        assert v in Family(t, file);
      }
    }
    forall a | a in after.attachments ensures a.fileId in after.files {
      assert Attached(t, a.fileId);
    }
    forall row | row in after.statics ensures after.statics[row] in after.files {
      assert Served(t, after.statics[row]);
    }
    forall file | file in t.files && file !in after.files ensures !Referenced(after, file, t.files[file].key) {
      assert Attached(after, file) == Attached(t, file) && Served(after, file) == Served(t, file);
      assert InContent(after, t.files[file].key) == InContent(t, t.files[file].key);
    }
  }

  // No text that remains mentions a deleted file, whatever its key.
  lemma RespectLeavesNoMention(before: Tables, after: Tables, file: int)
    requires Respects(before, after) && file in before.files && file !in after.files
    ensures !Mentioned(after, before.files[file].key)
  {
    ContentScanIsExact(after, before.files[file].key);
  }

  lemma WithoutArticleConsistent(t: Tables, article: int)
    requires Consistent(t)
    ensures Consistent(WithoutArticle(t, article))
  {
  }

  // After Destroy commits, no deleted file is referenced by what remains, no surviving row
  // names a deleted original, and every deletion was of a family that had become free.
  lemma DestroyRespects(t: Tables, article: int)
    requires Consistent(t)
    ensures Respects(WithoutArticle(t, article), Destroyed(t, article))
    ensures forall file :: file in Doomed(t, article) ==>
      exists root :: root in AttachedTo(t, article) && Free(WithoutArticle(t, article), root) && file in Family(t, root)
  {
    WithoutArticleConsistent(t, article);
    FamiliesRespect(WithoutArticle(t, article), AttachedTo(t, article));
    forall file | file in Doomed(t, article)
      ensures exists root ::
        root in AttachedTo(t, article) && Free(WithoutArticle(t, article), root) && file in Family(t, root)
    {
      var root :| root in AttachedTo(t, article) && Free(WithoutArticle(t, article), root)
        && file in Family(WithoutArticle(t, article), root);
      assert file in Family(t, root);
    }
  }

  // The reaper too; and it takes only families whose root is older than the cutoff.
  lemma ReapRespects(t: Tables, cutoff: int)
    requires Consistent(t)
    ensures Respects(t, t.(files := t.files - Reaped(t, cutoff)))
    ensures forall file :: file in Reaped(t, cutoff) ==>
      exists root ::
        root in t.files && t.files[root].createdAt < cutoff && t.files[root].variantOf.None? && file in Family(t, root)
  {
    FamiliesRespect(t, Candidates(t, cutoff));
    forall file | file in Reaped(t, cutoff)
      ensures exists root ::
        root in t.files && t.files[root].createdAt < cutoff && t.files[root].variantOf.None? && file in Family(t, root)
    {
      var root :| root in Candidates(t, cutoff) && Free(t, root) && file in Family(t, root);
    }
  }

  function Keys(t: Tables, files: set<int>): set<string> {
    set file | file in files && file in t.files && ValidKey(t.files[file].key) :: t.files[file].key
  }

  // Keys are unique, so unlinking the blobs of deleted rows leaves every other blob.
  lemma SurvivorsKeepBlobs(t: Tables, gone: set<int>, file: int)
    requires Consistent(t) && file in t.files && file !in gone
    ensures t.files[file].key !in Keys(t, gone)
  {
  }

  /// ### One family after another

  // The sweep so far: the families of `done` are gone.
  function Swept(t: Tables, done: set<int>): Tables {
    t.(files := t.files - FamiliesOf(t, done))
  }

  lemma SweptReferences(t: Tables, done: set<int>, file: int, key: string)
    ensures Referenced(Swept(t, done), file, key) == Referenced(t, file, key)
  {
  }

  // What is gone was not referenced.
  lemma GoneIsFree(t: Tables, done: set<int>, member: int)
    requires member in FamiliesOf(t, done)
    ensures !Referenced(t, member, t.files[member].key)
  {
  }

  predicate KeepsFamily(t: Tables, file: int, key: string) {
    Referenced(t, file, key) || exists v :: v in Variants(t, file) && Referenced(t, v, t.files[v].key)
  }

  // Checking a family in the swept tables decides the same as checking it in the original.
  lemma SweepDecides(t: Tables, done: set<int>, file: int)
    requires file in t.files
    ensures KeepsFamily(Swept(t, done), file, t.files[file].key) <==> !Free(t, file)
  {
    var now := Swept(t, done);
    SweptReferences(t, done, file, t.files[file].key);
    forall v | v in Variants(t, file) && Referenced(t, v, t.files[v].key)
      ensures v in Variants(now, file) && Referenced(now, v, now.files[v].key)
    {
      if v in FamiliesOf(t, done) { GoneIsFree(t, done, v); }
      SweptReferences(t, done, v, t.files[v].key);
    }
    forall v | v in Variants(now, file) && Referenced(now, v, now.files[v].key)
      ensures v in Variants(t, file) && Referenced(t, v, t.files[v].key)
    {
      SweptReferences(t, done, v, t.files[v].key);
    }
  }

  lemma SweepOne(t: Tables, done: set<int>, file: int)
    requires file in t.files
    ensures FamiliesOf(t, done + {file}) == FamiliesOf(t, done) + if Free(t, file) then Family(t, file) else {}
  {
  }

  lemma VariantsHaveNone(before: Tables, now: Tables, root: int, variant: int)
    requires Consistent(before) && variant in Variants(before, root)
    requires forall file :: file in now.files ==> file in before.files && now.files[file] == before.files[file]
    ensures Variants(now, variant) == {}
  {
    assert before.files[variant].variantOf == Some(root);
    assert forall file :: file in now.files ==> now.files[file].variantOf != Some(variant);
    Collections.NoElements(Variants(now, variant));
  }

  lemma OneVariantLess(before: Tables, all: set<int>, left: set<int>, v: int)
    requires left <= all <= before.files.Keys && v in left
    ensures before.files - (all - left) - {v} == before.files - (all - (left - {v}))
    ensures (set u | u in all - left :: before.files[u].key) + {before.files[v].key} ==
            set u | u in all - (left - {v}) :: before.files[u].key
  {
    assert all - (left - {v}) == (all - left) + {v};
    Collections.SameMap(before.files - (all - left) - {v}, before.files - (all - (left - {v})));
  }

  lemma NoVariantsLeft(before: Tables, now: Tables, root: int)
    requires now == before.(files := before.files - Variants(before, root))
    ensures Variants(now, root) == {}
    ensures before.files - Family(before, root) == now.files - {root}
  {
    assert forall v :: v !in Variants(now, root);
    Collections.NoElements(Variants(now, root));
    Collections.SameMap(before.files - Family(before, root), now.files - {root});
  }

  // The keys of all rows in a set, well formed or not.
  function AllKeys(t: Tables, files: set<int>): set<string> {
    set file | file in files && file in t.files :: t.files[file].key
  }

  lemma SameAfter(left: Tables, done: set<int>, file: int, before: Tables, after: Tables)
    requires before == Swept(left, done) && file in left.files && Free(left, file)
    requires after == before.(files := before.files - Family(before, file))
    ensures after == Swept(left, done + {file})
  {
  }

  lemma KeysJoin(t: Tables, a: set<int>, b: set<int>)
    ensures AllKeys(t, a + b) == AllKeys(t, a) + AllKeys(t, b)
  {
  }

  lemma KeysAfter(left: Tables, done: set<int>, file: int, keys: set<string>)
    requires file in left.files && Free(left, file)
    requires keys == {left.files[file].key} + set v | v in Variants(Swept(left, done), file) :: left.files[v].key
    ensures AllKeys(left, FamiliesOf(left, done)) + keys == AllKeys(left, FamiliesOf(left, done + {file}))
  {
    var gone, family := FamiliesOf(left, done), Family(left, file);
    SweepOne(left, done, file);
    KeysJoin(left, gone, family);
    forall key | key in AllKeys(left, family) ensures key in AllKeys(left, gone) + keys {
      var member :| member in family && member in left.files && left.files[member].key == key;
      if member != file && member !in gone { assert member in Variants(Swept(left, done), file); }
    }
    forall key | key in keys ensures key in AllKeys(left, family) {
      if key != left.files[file].key {
        var v :| v in Variants(Swept(left, done), file) && left.files[v].key == key;
        assert v in family;
      }
      assert file in family;
    }
    Collections.SameUnion(AllKeys(left, gone), keys, AllKeys(left, family));
  }

  // A family with a referenced member is kept whole.
  lemma StaysWhole(left: Tables, done: set<int>, file: int)
    requires file in left.files && KeepsFamily(Swept(left, done), file, left.files[file].key)
    ensures Swept(left, done + {file}) == Swept(left, done)
    ensures FamiliesOf(left, done + {file}) == FamiliesOf(left, done)
  {
  }

  // A family without one may go: nothing the foreign keys protect names a member.
  lemma MayGo(left: Tables, done: set<int>, file: int)
    requires Consistent(left) && file in left.files && !KeepsFamily(Swept(left, done), file, left.files[file].key)
    ensures Free(left, file) && Consistent(Swept(left, done))
    ensures forall member :: member in Family(Swept(left, done), file) ==>
      !Attached(Swept(left, done), member) && !Served(Swept(left, done), member)
  {
    SweepDecides(left, done, file);
    FamiliesRespect(left, done);
  }

  // Only well-formed keys ever reach a disk path.
  function WellFormed(keys: set<string>): set<string> {
    set key | key in keys && ValidKey(key)
  }

  function AttachedRows(t: Tables, article: int): map<Attachment, string> {
    map a | a in t.attachments && Of(a, article) && a.fileId in t.files :: t.files[a.fileId].key
  }

  function FileIds(rows: set<Attachment>): set<int> {
    set a | a in rows :: a.fileId
  }

  // Sweeping the rows that were attached is what Destroy is to delete.
  lemma AttachedRowsAre(before: Tables, article: int)
    requires Consistent(before)
    ensures Consistent(WithoutArticle(before, article))
    ensures var attached := AttachedRows(before, article);
      && (forall a :: a in attached ==> a.fileId in before.files && before.files[a.fileId].key == attached[a])
      && Swept(WithoutArticle(before, article), FileIds(attached.Keys)) == Destroyed(before, article)
      && FamiliesOf(WithoutArticle(before, article), FileIds(attached.Keys)) == Doomed(before, article)
  {
    WithoutArticleConsistent(before, article);
    Collections.SameSet(FileIds(AttachedRows(before, article).Keys), AttachedTo(before, article));
  }

  lemma BlobKeys(before: Tables, left: Tables, gone: set<int>)
    requires left.files == before.files
    ensures WellFormed(AllKeys(left, gone)) == Keys(before, gone)
  {
  }

  predicate ContentKeeps(t: Tables, file: int, key: string) {
    InContent(t, key) || exists v :: v in Variants(t, file) && InContent(t, t.files[v].key)
  }

  // The families of two roots are disjoint.
  lemma RootsApart(t: Tables, done: set<int>, cutoff: int, file: int)
    requires done <= Candidates(t, cutoff) && Candidate(t, file, cutoff) && file !in done
    ensures FamiliesOf(t, done) !! Family(t, file)
  {
  }

  // For a candidate, scanning the content for the family's keys decides whether it is free,
  // whatever has been reaped before it.
  lemma ReapDecides(t: Tables, done: set<int>, cutoff: int, file: int)
    requires Consistent(t)
    requires done <= Candidates(t, cutoff) && Candidate(t, file, cutoff) && file !in done
    ensures Consistent(Swept(t, done)) && file in Swept(t, done).files
      && Variants(Swept(t, done), file) == Variants(t, file)
    ensures ContentKeeps(Swept(t, done), file, t.files[file].key) <==>
      KeepsFamily(Swept(t, done), file, t.files[file].key)
  {
    var now := Swept(t, done);
    RootsApart(t, done, cutoff, file);
    FamiliesRespect(t, done);
    assert file in Family(t, file);
    Collections.SameSet(Variants(now, file), Variants(t, file));
    forall v | v in Family(t, file) ensures !Attached(now, v) && !Served(now, v) {
      assert Attached(now, v) == Attached(t, v) && Served(now, v) == Served(t, v);
    }
  }

  lemma ReapCounts(t: Tables, done: set<int>, cutoff: int, file: int)
    requires done <= Candidates(t, cutoff) && Candidate(t, file, cutoff) && file !in done && Free(t, file)
    ensures |FamiliesOf(t, done + {file})| == |FamiliesOf(t, done)| + |Variants(t, file)| + 1
  {
    RootsApart(t, done, cutoff, file);
    SweepOne(t, done, file);
    assert file !in Variants(t, file);
  }

  lemma ReapStays(t: Tables, done: set<int>, cutoff: int, file: int)
    requires Consistent(t) && done <= Candidates(t, cutoff) && Candidate(t, file, cutoff) && file !in done
    requires ContentKeeps(Swept(t, done), file, t.files[file].key)
    ensures Swept(t, done + {file}) == Swept(t, done) && FamiliesOf(t, done + {file}) == FamiliesOf(t, done)
  {
  }

  lemma ReapMayGo(t: Tables, done: set<int>, cutoff: int, file: int)
    requires Consistent(t) && done <= Candidates(t, cutoff) && Candidate(t, file, cutoff) && file !in done
    requires !ContentKeeps(Swept(t, done), file, t.files[file].key)
    ensures Free(t, file) && Consistent(Swept(t, done))
    ensures forall member :: member in Family(Swept(t, done), file) ==>
      !Attached(Swept(t, done), member) && !Served(Swept(t, done), member)
    ensures |FamiliesOf(t, done + {file})| == |FamiliesOf(t, done)| + |Variants(Swept(t, done), file)| + 1
  {
    ReapDecides(t, done, cutoff, file);
    MayGo(t, done, file);
    ReapCounts(t, done, cutoff, file);
  }

  lemma FamilyGone(t: Tables, done: set<int>, file: int, before: Tables, after: Tables, keys: set<string>)
    requires before == Swept(t, done) && file in t.files && Free(t, file)
    requires after == before.(files := before.files - Family(before, file))
    requires keys == {t.files[file].key} + set v | v in Variants(before, file) :: before.files[v].key
    ensures after == Swept(t, done + {file})
    ensures AllKeys(t, FamiliesOf(t, done)) + keys == AllKeys(t, FamiliesOf(t, done + {file}))
  {
    SameAfter(t, done, file, before, after);
    KeysAfter(t, done, file, keys);
  }

  lemma NothingSwept(left: Tables)
    ensures Swept(left, {}) == left && AllKeys(left, FamiliesOf(left, {})) == {} && FileIds({}) == {}
  {
  }

  lemma OneMore(all: set<Attachment>, todo: set<Attachment>, a: Attachment)
    requires todo <= all && a in todo
    ensures FileIds(all - (todo - {a})) == FileIds(all - todo) + {a.fileId}
  {
  }

  ghost predicate ReapedSoFar(start: Tables, cutoff: int, stored: set<string>, todo: set<int>, done: set<int>,
                              now: Tables, blobs: set<string>, removed: nat)
  {
    && done + todo == Candidates(start, cutoff) && done !! todo
    && now == Swept(start, done)
    && blobs == stored - Keys(start, FamiliesOf(start, done))
    && removed == |FamiliesOf(start, done)|
  }

  lemma ReapStarts(start: Tables, cutoff: int, stored: set<string>)
    ensures ReapedSoFar(start, cutoff, stored, Candidates(start, cutoff), {}, start, stored, 0)
  {
  }

  lemma KeysAdd(start: Tables, gone: set<int>, more: set<int>, keys: set<string>)
    requires AllKeys(start, gone) + keys == AllKeys(start, more)
    ensures Keys(start, more) == Keys(start, gone) + WellFormed(keys)
  {
    BlobKeys(start, start, gone);
    BlobKeys(start, start, more);
  }

  lemma ReapProceeds(start: Tables, cutoff: int, stored: set<string>, todo: set<int>, done: set<int>,
                     before: set<string>, after: set<string>, removed: nat, file: int, rows: nat, keys: set<string>)
    requires file in todo && ReapedSoFar(start, cutoff, stored, todo, done, Swept(start, done), before, removed)
    requires AllKeys(start, FamiliesOf(start, done)) + keys == AllKeys(start, FamiliesOf(start, done + {file}))
    requires |FamiliesOf(start, done)| + rows == |FamiliesOf(start, done + {file})|
    requires after == before - WellFormed(keys)
    ensures ReapedSoFar(start, cutoff, stored, todo - {file}, done + {file}, Swept(start, done + {file}), after,
      removed + rows)
  {
    var gone, more := FamiliesOf(start, done), FamiliesOf(start, done + {file});
    KeysAdd(start, gone, more, keys);
    Collections.MinusBoth(stored, Keys(start, gone), WellFormed(keys));
    Collections.MoveOver(done, todo, file);
  }

  lemma ReapEnds(start: Tables, cutoff: int, stored: set<string>, done: set<int>, now: Tables, blobs: set<string>,
                 removed: nat)
    requires ReapedSoFar(start, cutoff, stored, {}, done, now, blobs, removed)
    ensures now == Swept(start, Candidates(start, cutoff))
    ensures blobs == stored - Keys(start, Reaped(start, cutoff)) && removed == |Reaped(start, cutoff)|
  {
    Collections.PlusNothing(done);
  }

  /// ### The sweeps, statement by statement

  class MediaStore {
    var files: map<int, FileRow>
    var attachments: set<Attachment>
    var statics: map<int, int>
    var contents: map<Column, string>
    var blobs: set<string>

    ghost function Value(): Tables
      reads this
    {
      Tables(files, attachments, statics, contents)
    }

    constructor (files: map<int, FileRow>, attachments: set<Attachment>, statics: map<int, int>,
                 contents: map<Column, string>, blobs: set<string>)
      ensures Value() == Tables(files, attachments, statics, contents) && this.blobs == blobs
    {
      this.files, this.attachments, this.statics := files, attachments, statics;
      this.contents, this.blobs := contents, blobs;
    }

    // The foreign keys: nothing may name the row any more.
    method DeleteFile(file: int)
      requires !Attached(Value(), file) && !Served(Value(), file) && Variants(Value(), file) == {}
      modifies this`files
      ensures files == old(files) - {file}
    {
      files := files - {file};
    }

    method CountReferences(file: int, key: string) returns (referenced: bool)
      ensures referenced == Referenced(Value(), file, key)
    {
      var now := Tables(files, attachments, statics, contents);
      referenced := Attached(now, file) || Served(now, file) || InContent(now, key);
    }

    // Deletes the variants and returns the keys of their blobs.
    method DeleteVariants(file: int) returns (keys: set<string>)
      requires Consistent(Value())
      requires forall v :: v in Variants(Value(), file) ==> !Attached(Value(), v) && !Served(Value(), v)
      modifies this`files
      ensures files == old(files) - Variants(old(Value()), file)
      ensures keys == set v | v in Variants(old(Value()), file) :: old(files)[v].key
    {
      ghost var before := Value();
      keys := {};
      var variants := set v | v in files && files[v].variantOf == Some(file);
      ghost var all := variants;
      while variants != {}
        invariant variants <= all
        invariant files == before.files - (all - variants)
        invariant keys == set v | v in all - variants :: before.files[v].key
        decreases variants
      {
        ghost var some := Collections.Member(variants);
        var v :| v in variants;
        VariantsHaveNone(before, Value(), file, v);
        OneVariantLess(before, all, variants, v);
        keys := keys + {files[v].key};
        DeleteFile(v);
        variants := variants - {v};
      }
      assert all - variants == Variants(before, file);
    }

    // Deletes the variants, then the row itself, and returns the keys of their blobs.
    method DeleteFamily(file: int, key: string) returns (keys: set<string>)
      requires Consistent(Value()) && (file in files ==> files[file].key == key)
      requires forall member :: member in Family(Value(), file) ==>
        !Attached(Value(), member) && !Served(Value(), member)
      modifies this`files
      ensures files == old(files) - Family(old(Value()), file)
      ensures keys == {key} + set v | v in Variants(old(Value()), file) :: old(files)[v].key
    {
      ghost var before := Value();
      keys := DeleteVariants(file);
      NoVariantsLeft(before, Value(), file);
      assert file in Family(before, file);
      DeleteFile(file);
      keys := keys + {key};
    }

    method AnyVariantReferenced(file: int) returns (shared: bool)
      ensures shared <==> exists v :: v in Variants(Value(), file) && Referenced(Value(), v, files[v].key)
    {
      var variants := set v | v in files && files[v].variantOf == Some(file);
      ghost var all := variants;
      shared := false;
      while variants != {}
        invariant variants <= all == Variants(Value(), file)
        invariant !shared && forall v :: v in all - variants ==> !Referenced(Value(), v, files[v].key)
        decreases variants
      {
        ghost var some := Collections.Member(variants);
        var v :| v in variants;
        variants := variants - {v};
        shared := CountReferences(v, files[v].key);
        if shared { return true; }
      }
    }

    // One file of the record: its family goes unless some member is still referenced.
    method SweepFamily(ghost left: Tables, ghost done: set<int>, file: int, key: string) returns (keys: set<string>)
      requires Consistent(left) && Value() == Swept(left, done)
      requires file in left.files && left.files[file].key == key
      modifies this`files
      ensures Value() == Swept(left, done + {file})
      ensures AllKeys(left, FamiliesOf(left, done)) + keys == AllKeys(left, FamiliesOf(left, done + {file}))
    {
      ghost var before := Value();
      var referenced := CountReferences(file, key);
      if !referenced {
        referenced := AnyVariantReferenced(file);
      }
      assert referenced == KeepsFamily(before, file, key);
      if referenced {
        StaysWhole(left, done, file);
        return {};
      }
      MayGo(left, done, file);
      keys := DeleteFamily(file, key);
      FamilyGone(left, done, file, before, Value(), keys);
    }

    method RemoveBlobs(doomed: set<string>)
      modifies this`blobs
      ensures blobs == old(blobs) - WellFormed(doomed)
    {
      blobs := blobs - set key | key in doomed && ValidKey(key);
    }

    // Every file that was attached, in some order; returns the keys of the deleted rows.
    method SweepAttached(ghost left: Tables, attached: map<Attachment, string>) returns (doomed: set<string>)
      requires Consistent(left) && Value() == left
      requires forall a :: a in attached ==> a.fileId in left.files && left.files[a.fileId].key == attached[a]
      modifies this`files
      ensures Value() == Swept(left, FileIds(attached.Keys))
      ensures doomed == AllKeys(left, FamiliesOf(left, FileIds(attached.Keys)))
    {
      var todo := attached.Keys;
      doomed := {};
      ghost var done: set<int> := {};
      NothingSwept(left);
      while todo != {}
        invariant todo <= attached.Keys && done == FileIds(attached.Keys - todo)
        invariant Value() == Swept(left, done)
        invariant doomed == AllKeys(left, FamiliesOf(left, done))
        decreases todo
      {
        ghost var some := Collections.Member(todo);
        var a :| a in todo;
        OneMore(attached.Keys, todo, a);
        todo := todo - {a};
        var keys := SweepFamily(left, done, a.fileId, attached[a]);
        doomed := doomed + keys;
        done := done + {a.fileId};
      }
      assert attached.Keys - todo == attached.Keys;
    }

    // Drops the article's comments and row, then its attachments; returns the attached files.
    method DetachRecord(article: int) returns (attached: map<Attachment, string>)
      modifies this`contents, this`attachments
      ensures Value() == WithoutArticle(old(Value()), article)
      ensures attached == AttachedRows(old(Value()), article)
    {
      contents := map column | column in contents && column.article != Some(article) :: contents[column];
      attached := map a | a in attachments && Of(a, article) && a.fileId in files :: files[a.fileId].key;
      attachments := set a | a in attachments && !Of(a, article);
    }

    method VariantInContent(file: int) returns (kept: bool)
      ensures kept <==> exists v :: v in Variants(Value(), file) && InContent(Value(), files[v].key)
    {
      var now := Tables(files, attachments, statics, contents);
      var variants := set v | v in files && files[v].variantOf == Some(file);
      ghost var all := variants;
      kept := false;
      while variants != {}
        invariant variants <= all == Variants(Value(), file)
        invariant !kept && forall v :: v in all - variants ==> !InContent(Value(), files[v].key)
        decreases variants
      {
        ghost var some := Collections.Member(variants);
        var v :| v in variants;
        variants := variants - {v};
        if InContent(now, files[v].key) { return true; }
      }
    }

    method KeptByContent(file: int, key: string) returns (kept: bool)
      ensures kept == ContentKeeps(Value(), file, key)
    {
      var now := Tables(files, attachments, statics, contents);
      kept := InContent(now, key);
      if !kept {
        kept := VariantInContent(file);
      }
    }

    // One candidate of the startup sweep; returns how many rows went.
    method ReapFamily(ghost start: Tables, ghost done: set<int>, ghost cutoff: int, file: int, key: string)
      returns (rows: nat, keys: set<string>)
      requires Consistent(start) && Value() == Swept(start, done)
      requires done <= Candidates(start, cutoff) && Candidate(start, file, cutoff) && file !in done
        && start.files[file].key == key
      modifies this`files
      ensures Value() == Swept(start, done + {file})
      ensures AllKeys(start, FamiliesOf(start, done)) + keys == AllKeys(start, FamiliesOf(start, done + {file}))
      ensures |FamiliesOf(start, done)| + rows == |FamiliesOf(start, done + {file})|
    {
      ghost var before := Value();
      var kept := KeptByContent(file, key);
      if kept {
        ReapStays(start, done, cutoff, file);
        return 0, {};
      }
      ReapMayGo(start, done, cutoff, file);
      rows := |set v | v in files && files[v].variantOf == Some(file)| + 1;
      keys := DeleteFamily(file, key);
      FamilyGone(start, done, file, before, Value(), keys);
    }

    // The next candidate, rows and blobs; `removed` counts the rows so far.
    method ReapNext(ghost start: Tables, ghost cutoff: int, ghost stored: set<string>, ghost todo: set<int>,
                    ghost done: set<int>, key: string, removed: nat, file: int)
      returns (more: nat)
      requires Consistent(start) && file in todo && file in start.files && start.files[file].key == key
      requires ReapedSoFar(start, cutoff, stored, todo, done, Value(), blobs, removed)
      modifies this`files, this`blobs
      ensures ReapedSoFar(start, cutoff, stored, todo - {file}, done + {file}, Value(), blobs, more)
    {
      ghost var before := blobs;
      var rows, keys := ReapFamily(start, done, cutoff, file, key);
      RemoveBlobs(keys);
      ReapProceeds(start, cutoff, stored, todo, done, before, blobs, removed, file, rows, keys);
      more := removed + rows;
    }

    // The startup sweep; between two families the tables are Swept(start, done).
    method ReapOrphanFiles(cutoff: int) returns (removed: nat)
      requires Consistent(Value())
      modifies this`files, this`blobs
      ensures Value() == Swept(old(Value()), Candidates(old(Value()), cutoff))
      ensures blobs == old(blobs) - Keys(old(Value()), Reaped(old(Value()), cutoff))
      ensures removed == |Reaped(old(Value()), cutoff)|
    {
      ghost var start := Value();
      var now := Tables(files, attachments, statics, contents);
      var todo := Candidates(now, cutoff);
      ghost var done: set<int> := {};
      removed := 0;
      ReapStarts(start, cutoff, blobs);
      while todo != {}
        invariant ReapedSoFar(start, cutoff, old(blobs), todo, done, Value(), blobs, removed)
        decreases todo
      {
        ghost var some := Collections.Member(todo);
        var file :| file in todo;
        removed := ReapNext(start, cutoff, old(blobs), todo, done, now.files[file].key, removed, file);
        todo, done := todo - {file}, done + {file};
      }
      ReapEnds(start, cutoff, old(blobs), done, Value(), blobs, removed);
    }

    // The record-destroy transaction; returns the keys to unlink once it has committed.
    method DestroyRecord(article: int) returns (doomed: set<string>)
      requires Consistent(Value())
      modifies this`files, this`contents, this`attachments
      ensures Value() == Destroyed(old(Value()), article)
      ensures doomed == AllKeys(WithoutArticle(old(Value()), article), Doomed(old(Value()), article))
    {
      AttachedRowsAre(Value(), article);
      var attached := DetachRecord(article);
      doomed := SweepAttached(Value(), attached);
    }

    method Destroy(article: int)
      requires Consistent(Value())
      modifies this
      ensures Value() == Destroyed(old(Value()), article)
      ensures blobs == old(blobs) - Keys(old(Value()), Doomed(old(Value()), article))
    {
      BlobKeys(Value(), WithoutArticle(Value(), article), Doomed(Value(), article));
      var doomed := DestroyRecord(article);
      RemoveBlobs(doomed);
    }
  }
}
