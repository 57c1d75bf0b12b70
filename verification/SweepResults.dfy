/**
 What the two sweeps of `FileSweeps` delete, read off the tables alone: which rows and which
 blobs are gone afterwards, both ways.
 */
module SweepResults {
  import opened Options
  import opened FileSweeps
  import Collections
  import Like

  // No row of the file's family is attached or served, and no content holds the address of
  // one, in whatever letter case.
  ghost predicate Unused(t: Tables, file: int) {
    forall m :: m in t.files && (m == file || t.files[m].variantOf == Some(file)) ==>
      && (forall a :: a in t.attachments ==> a.fileId != m)
      && (forall row :: row in t.statics ==> t.statics[row] != m)
      && (forall c :: c in t.contents ==> !Like.Occurs(t.contents[c], "/files/" + t.files[m].key, SameLetter))
  }

  ghost predicate KeysAreValid(t: Tables, file: int) {
    forall m :: m in t.files && (m == file || t.files[m].variantOf == Some(file)) ==> ValidKey(t.files[m].key)
  }

  // Well-formed keys are 4 to 64 ASCII digits and letters. Such a key holds nothing that a path
  // could turn on, and no wildcard; the keys that uploads are given, 32 hexadecimal digits, are
  // well formed.
  lemma KeysAreSafe(key: string)
    ensures ValidKey(key) <==> 4 <= |key| <= 64 && forall c :: c in key ==>
      48 <= c as int <= 57 || 65 <= c as int <= 90 || 97 <= c as int <= 122
    ensures ValidKey(key) ==> '/' !in key && '.' !in key && '\\' !in key && '%' !in key && '_' !in key
    ensures |key| == 32 && (forall c :: c in key ==> '0' <= c <= '9' || 'a' <= c <= 'f') ==> ValidKey(key)
  {
    assert forall i :: 0 <= i < |key| ==> key[i] in key;
  }

  lemma FoldsAscii(c: char, d: char)
    ensures SameLetter(c, d) <==>
      || c == d
      || ('A' <= c <= 'Z' && d as int == c as int + 32)
      || ('A' <= d <= 'Z' && c as int == d as int + 32)
  {
  }

  lemma ReferencedIsUsed(t: Tables, file: int)
    requires file in t.files
    ensures Free(t, file) ==> Unused(t, file)
    ensures KeysAreValid(t, file) && Unused(t, file) ==> Free(t, file)
  {
    forall m | m in t.files {
      ContentScanIsExact(t, t.files[m].key);
    }
  }

  // The blobs that go with the rows in `gone`: those of well-formed keys.
  ghost predicate BlobsOf(keys: set<string>, t: Tables, gone: set<int>) {
    forall key :: key in keys <==>
      ValidKey(key) && exists file :: file in gone && file in t.files && t.files[file].key == key
  }

  // The startup sweep deletes a file exactly when its original is older than the cutoff and no
  // member of the family is in use. That an unused family goes needs well-formed keys: the
  // content scan takes a wildcard in a key for more than it is.
  lemma ReapsExactly(t: Tables, cutoff: int, file: int)
    requires Consistent(t) && file in t.files
    ensures
      var after := Swept(t, Candidates(t, cutoff));
      var root := if t.files[file].variantOf.Some? then t.files[file].variantOf.value else file;
      && (file !in after.files ==> t.files[root].createdAt < cutoff && Unused(t, root))
      && (KeysAreValid(t, root) && t.files[root].createdAt < cutoff && Unused(t, root) ==> file !in after.files)
      && (file in after.files ==> after.files[file] == t.files[file])
      && after.attachments == t.attachments && after.statics == t.statics && after.contents == t.contents
  {
    var root := if t.files[file].variantOf.Some? then t.files[file].variantOf.value else file;
    ReferencedIsUsed(t, root);
    if file in FamiliesOf(t, Candidates(t, cutoff)) {
      var c :| c in Candidates(t, cutoff) && Free(t, c) && file in Family(t, c);
      assert c == root;
    }
    if Free(t, root) && t.files[root].createdAt < cutoff {
      FreeRootIsCandidate(t, cutoff, root);
      assert file in Family(t, root);
    }
  }

  lemma FreeRootIsCandidate(t: Tables, cutoff: int, root: int)
    requires Consistent(t) && Free(t, root) && t.files[root].variantOf.None? && t.files[root].createdAt < cutoff
    ensures root in Candidates(t, cutoff)
  {
    forall member | member in Family(t, root) ensures !Attached(t, member) && !Served(t, member) {
      assert !Referenced(t, member, t.files[member].key);
    }
  }

  // The rows that ReapOrphanFiles counts and whose blobs it unlinks are the rows that are gone.
  lemma ReapedIsGone(t: Tables, cutoff: int)
    ensures Reaped(t, cutoff) == t.files.Keys - Swept(t, Candidates(t, cutoff)).files.Keys
    ensures BlobsOf(Keys(t, Reaped(t, cutoff)), t, Reaped(t, cutoff))
  {
  }

  // What an article's own rows, comments and attachments leave.
  lemma ArticleGone(t: Tables, article: int)
    ensures
      var left := WithoutArticle(t, article);
      && (forall a :: a in left.attachments <==>
            a in t.attachments && !(a.recordType == "Article" && a.recordId == article))
      && (forall c :: c in left.contents <==> c in t.contents && c.article != Some(article))
      && (forall c :: c in left.contents ==> left.contents[c] == t.contents[c])
      && left.files == t.files && left.statics == t.statics
  {
  }

  // The file's own attachment to the article, or its original's.
  ghost predicate AttachedThrough(t: Tables, article: int, file: int, a: Attachment) {
    a in t.attachments && a.recordType == "Article" && a.recordId == article && file in t.files
    && (a.fileId == file || t.files[file].variantOf == Some(a.fileId))
  }

  // Destroying an article deletes a file exactly when it, or its original, was attached to the
  // article and that file's family is in no other use: by another record's attachment, by a
  // static_files row, or by content outside the article and its comments.
  lemma DestroysExactly(t: Tables, article: int, file: int)
    requires Consistent(t) && file in t.files
    ensures
      var after, left := Destroyed(t, article), WithoutArticle(t, article);
      && (file !in after.files ==>
            exists a :: AttachedThrough(t, article, file, a) && Unused(left, a.fileId))
      && (forall a :: AttachedThrough(t, article, file, a) && KeysAreValid(t, a.fileId) && Unused(left, a.fileId) ==>
            file !in after.files)
      && (file in after.files ==> after.files[file] == t.files[file])
      && after == left.(files := after.files)
  {
    var left := WithoutArticle(t, article);
    if file in Doomed(t, article) {
      var root :| root in AttachedTo(t, article) && Free(left, root) && file in Family(left, root);
      var a :| a in t.attachments && Of(a, article) && a.fileId == root;
      ReferencedIsUsed(left, root);
      assert AttachedThrough(t, article, file, a);
    }
    forall a | AttachedThrough(t, article, file, a) && KeysAreValid(t, a.fileId) && Unused(left, a.fileId)
      ensures file in Doomed(t, article)
    {
      ReferencedIsUsed(left, a.fileId);
      assert a.fileId in AttachedTo(t, article);
      assert file in Family(left, a.fileId);
    }
  }

  lemma DoomedIsGone(t: Tables, article: int)
    ensures Doomed(t, article) == t.files.Keys - Destroyed(t, article).files.Keys
    ensures BlobsOf(Keys(t, Doomed(t, article)), t, Doomed(t, article))
  {
  }
}
