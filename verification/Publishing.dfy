/**
 Articles, and the transactions that schedule and publish them: saving, changing the
 status, destroying, and the publish_article handler.

 Each transaction is a function from one database value to the next; class `Store`
 performs it statement by statement and rolls back when a statement fails.
 */
module Publishing {
  import opened Options
  import opened JobTable
  import Collections

  datatype ArticleStatus = Draft | Publish | Schedule | Trash | Shared

  datatype Article = Article(
    status: ArticleStatus, scheduledAt: Option<int>, platforms: seq<string>, newsletter: bool,
    createdAt: int, updatedAt: int)
  {
    // The handler's guard, evaluated on the row it read.
    predicate ReadyAt(now: int) { status.Schedule? && scheduledAt.Some? && scheduledAt.value <= now }
  }

  datatype Db = Db(jobs: Table, nextJob: int, articles: map<int, Article>, nextArticle: int)

  const CROSSPOST_PLATFORMS := ["mastodon", "twitter", "bluesky", "xiaohongshu"]

  // The parsed form. `valid` stands for the validations that do not concern scheduling.
  datatype SaveForm = SaveForm(
    status: ArticleStatus, scheduledAt: Option<int>, crosspost: set<string>, newsletter: bool,
    createdAt: Option<int>, valid: bool)
  {
    predicate Accepted() { valid && (status.Schedule? ==> scheduledAt.Some?) }
  }

  // What EnqueuePublishEffects looks up: the enabled platforms, those whose post URL is
  // already recorded for the article, and whether the newsletter is ready.
  datatype Channels = Channels(enabled: set<string>, recorded: set<string>, newsletterReady: bool)

  /// ### Inserting rows

  function Insert(db: Db, job: JobRun): Db {
    db.(jobs := db.jobs[db.nextJob := job], nextJob := db.nextJob + 1)
  }

  function InsertAll(db: Db, jobs: seq<JobRun>): (after: Db)
    ensures after.nextJob == db.nextJob + |jobs|
    ensures after.articles == db.articles && after.nextArticle == db.nextArticle
    ensures forall id :: id in after.jobs <==> id in db.jobs || db.nextJob <= id < db.nextJob + |jobs|
    ensures forall id :: id in after.jobs ==>
      after.jobs[id] == if db.nextJob <= id < db.nextJob + |jobs| then jobs[id - db.nextJob] else db.jobs[id]
  {
    if jobs == [] then db else Insert(InsertAll(db, jobs[..|jobs| - 1]), jobs[|jobs| - 1])
  }

  lemma InsertAllThenOne(db: Db, jobs: seq<JobRun>, job: JobRun)
    ensures InsertAll(db, jobs + [job]) == Insert(InsertAll(db, jobs), job)
  {
  }

  // The rows the publish handler enqueues from the snapshot it read.
  function FollowUps(id: int, platforms: seq<string>, newsletter: bool, now: int): seq<JobRun> {
    (if |platforms| > 0 then [NewJob(Crosspost, ForPlatforms(id, platforms), now, now)] else [])
    + (if newsletter then [NewJob(SendNewsletter, ForArticle(id), now, now)] else [])
  }

  predicate Posts(platform: string, selected: set<string>, channels: Channels) {
    platform in selected && platform in channels.enabled && platform != "xiaohongshu" && platform !in channels.recorded
  }

  // The rows EnqueuePublishEffects enqueues for a list of platforms, in their order.
  function CrosspostEffects(id: int, order: seq<string>, selected: set<string>, channels: Channels, now: int)
    : seq<JobRun>
  {
    if order == [] then [] else
      var platform := order[|order| - 1];
      var before := CrosspostEffects(id, order[..|order| - 1], selected, channels, now);
      if !Posts(platform, selected, channels) then before
      else before + [NewJob(Crosspost, ForPlatform(id, platform, now), now, now)]
  }

  lemma NextCrosspost(id: int, order: seq<string>, n: nat, selected: set<string>, channels: Channels, now: int)
    requires n < |order|
    ensures var before := CrosspostEffects(id, order[..n], selected, channels, now);
      CrosspostEffects(id, order[..n + 1], selected, channels, now) ==
        if !Posts(order[n], selected, channels) then before
        else before + [NewJob(Crosspost, ForPlatform(id, order[n], now), now, now)]
  {
    assert order[..n + 1][..n] == order[..n];
    var before := CrosspostEffects(id, order[..n], selected, channels, now);
    assert before + [] == before;
  }

  function Effects(id: int, selected: set<string>, newsletter: bool, channels: Channels, now: int): seq<JobRun> {
    CrosspostEffects(id, CROSSPOST_PLATFORMS, selected, channels, now)
    + if newsletter && channels.newsletterReady then [NewJob(SendNewsletter, ForArticle(id), now, now)] else []
  }

  // None of the effects is itself a publish_article row.
  lemma {:induction false} CrosspostEffectsNeverPublish(id: int, order: seq<string>, selected: set<string>,
                                                       channels: Channels, now: int)
    ensures forall i :: 0 <= i < |CrosspostEffects(id, order, selected, channels, now)| ==>
      var job := CrosspostEffects(id, order, selected, channels, now)[i];
      job.kind.Crosspost? && job.status.Queued? && job.attempts == 0
  {
    if order != [] { CrosspostEffectsNeverPublish(id, order[..|order| - 1], selected, channels, now); }
  }

  /// ### The transactions

  function SelectedPlatforms(order: seq<string>, crosspost: set<string>): seq<string> {
    if order == [] then [] else
      (if order[0] in crosspost then [order[0]] else []) + SelectedPlatforms(order[1..], crosspost)
  }

  function SavedRow(form: SaveForm, before: Option<Article>, now: int): Article {
    Article(
      form.status,
      form.scheduledAt,
      if form.status.Schedule? then SelectedPlatforms(CROSSPOST_PLATFORMS, form.crosspost) else [],
      form.status.Schedule? && form.newsletter,
      if form.createdAt.Some? then form.createdAt.value else if before.Some? then before.value.createdAt else now,
      now)
  }

  function WriteArticle(db: Db, id: int, form: SaveForm, now: int): Db {
    var before := if id in db.articles then Some(db.articles[id]) else None;
    db.(articles := db.articles[id := SavedRow(form, before, now)],
        nextArticle := if id == db.nextArticle then id + 1 else db.nextArticle)
  }

  // A save that commits, on article `id` (existing or freshly numbered).
  function SaveTx(db: Db, id: int, form: SaveForm, channels: Channels, now: int): Db {
    SaveJobs(WriteArticle(db, id, form, now), id, form, channels, now)
  }

  function SaveJobs(db: Db, id: int, form: SaveForm, channels: Channels, now: int): Db {
    if form.status.Schedule? && form.scheduledAt.Some? then
      Insert(db.(jobs := WithoutQueuedPublish(db.jobs, id)),
             NewJob(JobTable.PublishArticle, ForArticle(id), form.scheduledAt.value, now))
    else if form.status.Publish? then
      InsertAll(db, Effects(id, form.crosspost, form.newsletter, channels, now))
    else
      db
  }

  // The status-only update. `read` is the row as it was read before the transaction.
  function TransitionTx(db: Db, id: int, target: ArticleStatus, read: Article, channels: Channels, now: int): Db
    requires id in db.articles
  {
    var row := db.articles[id].(status := target, platforms := [], newsletter := false, updatedAt := now);
    var written := db.(articles := db.articles[id := row]);
    if target.Publish? then
      var restored := read.status.Schedule?;
      InsertAll(written,
        Effects(id, if restored then set p | p in read.platforms else {}, restored && read.newsletter, channels, now))
    else
      written
  }

  // The part of Destroy that concerns the article row and its jobs.
  function DestroyTx(db: Db, id: int): Db {
    db.(articles := db.articles - {id}, jobs := WithoutQueuedPublish(db.jobs, id))
  }

  predicate Flips(db: Db, id: int) {
    id in db.articles && db.articles[id].status.Schedule?
  }

  // The handler's transaction. `read` is the row its guard accepted; the UPDATE is
  // guarded by the status alone, so the row may have changed since.
  function PublishTx(db: Db, id: int, read: Article, now: int): Db
    requires read.scheduledAt.Some?
  {
    if Flips(db, id) then
      var row := db.articles[id].(status := Publish, createdAt := read.scheduledAt.value, scheduledAt := None,
                                  platforms := [], newsletter := false, updatedAt := now);
      InsertAll(db.(articles := db.articles[id := row]), FollowUps(id, read.platforms, read.newsletter, now))
    else
      db
  }

  /// ### What the transactions leave behind

  // However often an article is saved to schedule, one queued publish row is left: the one
  // for its present time. Every other row stays.
  lemma OneQueuedPublish(db: Db, id: int, form: SaveForm, channels: Channels, now: int)
    requires form.Accepted() && form.status.Schedule? && db.nextJob !in db.jobs
    ensures
      var after := SaveTx(db, id, form, channels, now);
      && (forall row :: row in after.jobs && after.jobs[row].status.Queued? && after.jobs[row].Publishes(id) <==>
        row == db.nextJob)
      && after.jobs[db.nextJob] == JobRun(
           JobTable.PublishArticle, ForArticle(id), form.scheduledAt.value, Queued, 0, None, now, now)
      && (forall row :: row in db.jobs && !(db.jobs[row].status.Queued? && db.jobs[row].Publishes(id)) ==>
            row in after.jobs && after.jobs[row] == db.jobs[row])
      && (forall row :: row in after.jobs && row != db.nextJob ==> row in db.jobs)
  {
  }

  ghost predicate PostedIn(jobs: seq<JobRun>, id: int, platform: string, now: int) {
    exists i :: 0 <= i < |jobs| && jobs[i].payload == ForPlatform(id, platform, now)
  }

  ghost predicate Distinct(order: seq<string>) {
    forall i, j :: 0 <= i < j < |order| ==> order[i] != order[j]
  }

  // A platform gets a crosspost exactly when it is listed, selected, enabled, postable and
  // not yet recorded; and none gets two.
  lemma {:induction false} CrosspostsExactly(id: int, order: seq<string>, selected: set<string>,
                                            channels: Channels, now: int)
    requires Distinct(order)
    ensures
      var jobs := CrosspostEffects(id, order, selected, channels, now);
      && (forall platform :: PostedIn(jobs, id, platform, now) <==>
        platform in order && Posts(platform, selected, channels))
      && (forall i, j :: 0 <= i < j < |jobs| ==> jobs[i].payload != jobs[j].payload)
  {
    if order != [] {
      var front, last := order[..|order| - 1], order[|order| - 1];
      CrosspostsExactly(id, front, selected, channels, now);
      CrosspostPayloads(id, front, selected, channels, now);
      var before := CrosspostEffects(id, front, selected, channels, now);
      var jobs := CrosspostEffects(id, order, selected, channels, now);
      assert last !in front;
      assert order == front + [last];
      assert !PostedIn(before, id, last, now);
      forall platform ensures PostedIn(jobs, id, platform, now) <==>
        platform in order && Posts(platform, selected, channels) {
        PostedInMore(before, jobs, id, platform, now);
      }
    }
  }

  lemma PostedInMore(before: seq<JobRun>, jobs: seq<JobRun>, id: int, platform: string, now: int)
    requires before <= jobs && |jobs| <= |before| + 1
    ensures PostedIn(jobs, id, platform, now) <==>
      PostedIn(before, id, platform, now)
        || (|jobs| > |before| && jobs[|before|].payload == ForPlatform(id, platform, now))
  {
  }

  lemma {:induction false} CrosspostPayloads(id: int, order: seq<string>, selected: set<string>,
                                            channels: Channels, now: int)
    ensures forall i :: 0 <= i < |CrosspostEffects(id, order, selected, channels, now)| ==>
      var job := CrosspostEffects(id, order, selected, channels, now)[i];
      job.payload.ForPlatform? && job.payload == ForPlatform(id, job.payload.platform, now)
  {
    if order != [] { CrosspostPayloads(id, order[..|order| - 1], selected, channels, now); }
  }

  // The snapshot: the listed platforms that were selected, in their order.
  lemma {:induction false} SelectedExactly(order: seq<string>, crosspost: set<string>)
    ensures forall p :: p in SelectedPlatforms(order, crosspost) <==> p in order && p in crosspost
    ensures Distinct(order) ==> Distinct(SelectedPlatforms(order, crosspost))
  {
    if order != [] {
      SelectedExactly(order[1..], crosspost);
      assert order == [order[0]] + order[1..];
      if Distinct(order) {
        assert forall i :: 0 <= i < |order[1..]| ==> order[1..][i] == order[i + 1];
        assert Distinct(order[1..]);
        assert order[0] !in order[1..];
      }
    }
  }

  // From the form to the follow-ups: an article saved to schedule and published by its
  // handler, with nothing in between, is dated by the schedule and crossposted to exactly the
  // listed platforms that were ticked, in one row, and mailed if that was ticked.
  lemma SavedThenPublished(db: Db, id: int, form: SaveForm, channels: Channels, now: int, at: int)
    requires form.Accepted() && form.status.Schedule? && form.scheduledAt.value <= at
    ensures
      var saved := SaveTx(db, id, form, channels, now);
      && id in saved.articles && saved.articles[id].ReadyAt(at)
      && var done := PublishTx(saved, id, saved.articles[id], at);
         var platforms := SelectedPlatforms(CROSSPOST_PLATFORMS, form.crosspost);
         && done.articles[id].status == Publish && done.articles[id].createdAt == form.scheduledAt.value
         && done.articles[id].scheduledAt.None? && done.articles[id].platforms == [] && !done.articles[id].newsletter
         && (forall p :: p in platforms <==> p in CROSSPOST_PLATFORMS && p in form.crosspost)
         && done == InsertAll(saved.(articles := done.articles), FollowUps(id, platforms, form.newsletter, at))
         && (platforms != [] ==>
               saved.nextJob in done.jobs
               && done.jobs[saved.nextJob] == NewJob(Crosspost, ForPlatforms(id, platforms), at, at))
         && (form.newsletter ==>
               var row := saved.nextJob + if platforms == [] then 0 else 1;
               row in done.jobs && done.jobs[row] == NewJob(SendNewsletter, ForArticle(id), at, at))
         && done.nextJob == saved.nextJob + (if platforms == [] then 0 else 1) + (if form.newsletter then 1 else 0)
         && (forall row :: row in done.jobs <==> row in saved.jobs || saved.nextJob <= row < done.nextJob)
  {
    SelectedExactly(CROSSPOST_PLATFORMS, form.crosspost);
    var saved := SaveTx(db, id, form, channels, now);
    assert saved.articles[id] == SavedRow(form, if id in db.articles then Some(db.articles[id]) else None, now);
  }

  lemma EffectsPost(id: int, selected: set<string>, newsletter: bool, channels: Channels, now: int)
    ensures forall platform :: PostedIn(Effects(id, selected, newsletter, channels, now), id, platform, now) <==>
      platform in CROSSPOST_PLATFORMS && Posts(platform, selected, channels)
  {
    var posts := CrosspostEffects(id, CROSSPOST_PLATFORMS, selected, channels, now);
    var jobs := Effects(id, selected, newsletter, channels, now);
    CrosspostsExactly(id, CROSSPOST_PLATFORMS, selected, channels, now);
    forall platform ensures PostedIn(jobs, id, platform, now) <==> PostedIn(posts, id, platform, now) {
      PostedInMore(posts, jobs, id, platform, now);
    }
  }

  // Published by hand instead, it is crossposted one row a platform, where that platform was
  // ticked and is enabled, postable and not yet recorded: the selection is not lost with the
  // schedule.
  lemma SavedThenTransitioned(db: Db, id: int, form: SaveForm, channels: Channels, now: int, later: int)
    requires form.Accepted() && form.status.Schedule?
    ensures
      var saved := SaveTx(db, id, form, channels, now);
      && id in saved.articles
      && var done := TransitionTx(saved, id, Publish, saved.articles[id], channels, later);
         var jobs := Effects(id, (set p | p in saved.articles[id].platforms), form.newsletter, channels, later);
         && done == InsertAll(saved.(articles := done.articles), jobs)
         && done.articles[id].status == Publish && done.articles[id].platforms == []
         && (forall platform :: PostedIn(jobs, id, platform, later) <==>
           platform in CROSSPOST_PLATFORMS && Posts(platform, form.crosspost, channels))
  {
    var saved := SaveTx(db, id, form, channels, now);
    var selected := set p | p in saved.articles[id].platforms;
    SelectedExactly(CROSSPOST_PLATFORMS, form.crosspost);
    EffectsPost(id, selected, form.newsletter, channels, later);
    assert forall p :: p in CROSSPOST_PLATFORMS ==> Posts(p, selected, channels) == Posts(p, form.crosspost, channels);
  }

  /// ### The tables before and after, row by row

  // The old rows stay, and each of `jobs` is in exactly one new row.
  ghost predicate Adds<T(!new)>(before: map<int, T>, after: map<int, T>, jobs: set<T>) {
    && (forall row :: row in before ==> row in after && after[row] == before[row])
    && (forall row :: row in after && row !in before ==> after[row] in jobs)
    && (forall job :: job in jobs ==> exists row :: row in after && row !in before && after[row] == job)
    && (forall row, other ::
          row in after && row !in before && other in after && other !in before && after[row] == after[other] ==>
            row == other)
  }

  // One crosspost row for each platform, due at once.
  ghost function PostRows(id: int, platforms: set<string>, now: int): set<JobRun> {
    set p | p in platforms :: JobRun(Crosspost, ForPlatform(id, p, now), now, Queued, 0, None, now, now)
  }

  ghost function MailRows(id: int, mails: bool, now: int): set<JobRun> {
    if mails then {JobRun(SendNewsletter, ForArticle(id), now, Queued, 0, None, now, now)} else {}
  }

  lemma AppendedAdds<T(!new)>(before: map<int, T>, next: int, jobs: seq<T>, after: map<int, T>, rows: set<T>)
    requires forall row :: row in before ==> row < next
    requires forall id :: id in after <==> id in before || next <= id < next + |jobs|
    requires forall id :: id in after ==>
      after[id] == if next <= id < next + |jobs| then jobs[id - next] else before[id]
    requires forall job :: job in jobs <==> job in rows
    requires forall i, j :: 0 <= i < j < |jobs| ==> jobs[i] != jobs[j]
    ensures Adds(before, after, rows)
  {
    forall job | job in rows ensures exists row :: row in after && row !in before && after[row] == job {
      var i :| 0 <= i < |jobs| && jobs[i] == job;
      assert after[next + i] == job;
    }
  }

  lemma InsertAllAdds(db: Db, jobs: seq<JobRun>, rows: set<JobRun>)
    requires forall row :: row in db.jobs ==> row < db.nextJob
    requires forall job :: job in jobs <==> job in rows
    requires forall i, j :: 0 <= i < j < |jobs| ==> jobs[i] != jobs[j]
    ensures Adds(db.jobs, InsertAll(db, jobs).jobs, rows)
  {
    AppendedAdds(db.jobs, db.nextJob, jobs, InsertAll(db, jobs).jobs, rows);
  }

  lemma Listed(platform: string)
    ensures platform in CROSSPOST_PLATFORMS <==> platform in {"mastodon", "twitter", "bluesky", "xiaohongshu"}
    ensures platform in CROSSPOST_PLATFORMS && platform != "xiaohongshu" <==>
      platform in {"mastodon", "twitter", "bluesky"}
  {
    assert platform in CROSSPOST_PLATFORMS <==>
      platform == "mastodon" || platform == "twitter" || platform == "bluesky" || platform == "xiaohongshu";
  }

  lemma EffectsAre(id: int, selected: set<string>, newsletter: bool, channels: Channels, now: int, job: JobRun)
    ensures job in Effects(id, selected, newsletter, channels, now) <==>
      || (newsletter && channels.newsletterReady && job == NewJob(SendNewsletter, ForArticle(id), now, now))
      || (exists p :: p in {"mastodon", "twitter", "bluesky"} && p in selected && p in channels.enabled
            && p !in channels.recorded && job == NewJob(Crosspost, ForPlatform(id, p, now), now, now))
  {
    var posts := CrosspostEffects(id, CROSSPOST_PLATFORMS, selected, channels, now);
    CrosspostsExactly(id, CROSSPOST_PLATFORMS, selected, channels, now);
    CrosspostPayloads(id, CROSSPOST_PLATFORMS, selected, channels, now);
    CrosspostsAreNew(id, CROSSPOST_PLATFORMS, selected, channels, now);
    if job in posts {
      var i :| 0 <= i < |posts| && posts[i] == job;
      assert PostedIn(posts, id, job.payload.platform, now);
      Listed(job.payload.platform);
    }
    forall p | p in {"mastodon", "twitter", "bluesky"} && p in selected && p in channels.enabled
      && p !in channels.recorded
      ensures NewJob(Crosspost, ForPlatform(id, p, now), now, now) in posts
    {
      Listed(p);
      assert PostedIn(posts, id, p, now);
      var i :| 0 <= i < |posts| && posts[i].payload == ForPlatform(id, p, now);
      assert posts[i] in posts;
    }
  }

  lemma {:induction false} CrosspostsAreNew(id: int, order: seq<string>, selected: set<string>,
                                           channels: Channels, now: int)
    ensures forall job :: job in CrosspostEffects(id, order, selected, channels, now) ==>
      job == NewJob(Crosspost, job.payload, now, now)
  {
    if order != [] { CrosspostsAreNew(id, order[..|order| - 1], selected, channels, now); }
  }

  // One row for each selected platform that is enabled, can be posted to and has no recorded
  // post, and one for the newsletter if it was selected and is ready.
  lemma EffectsAdd(db: Db, id: int, selected: set<string>, newsletter: bool, channels: Channels, now: int)
    requires forall row :: row in db.jobs ==> row < db.nextJob
    ensures Adds(db.jobs, InsertAll(db, Effects(id, selected, newsletter, channels, now)).jobs,
      PostRows(id, selected * channels.enabled * {"mastodon", "twitter", "bluesky"} - channels.recorded, now)
        + MailRows(id, newsletter && channels.newsletterReady, now))
  {
    var posts := selected * channels.enabled * {"mastodon", "twitter", "bluesky"} - channels.recorded;
    var rows := PostRows(id, posts, now) + MailRows(id, newsletter && channels.newsletterReady, now);
    var jobs := Effects(id, selected, newsletter, channels, now);
    forall job ensures job in jobs <==> job in rows {
      EffectsAre(id, selected, newsletter, channels, now, job);
    }
    CrosspostsExactly(id, CROSSPOST_PLATFORMS, selected, channels, now);
    CrosspostPayloads(id, CROSSPOST_PLATFORMS, selected, channels, now);
    InsertAllAdds(db, jobs, rows);
  }

  // A save to publish: each ticked platform that is enabled, can be posted to and has no
  // recorded post gets one crosspost row, and the newsletter one if it was ticked and is
  // ready. No other row is added and none is touched.
  lemma SavedToPublish(db: Db, id: int, form: SaveForm, channels: Channels, now: int)
    requires form.Accepted() && form.status == Publish
    requires forall row :: row in db.jobs ==> row < db.nextJob
    ensures Adds(db.jobs, SaveTx(db, id, form, channels, now).jobs,
      PostRows(id, form.crosspost * channels.enabled * {"mastodon", "twitter", "bluesky"} - channels.recorded, now)
        + MailRows(id, form.newsletter && channels.newsletterReady, now))
  {
    EffectsAdd(WriteArticle(db, id, form, now), id, form.crosspost, form.newsletter, channels, now);
  }

  // The row a save writes. The platforms and the newsletter are kept for a later publication
  // only while the article is scheduled, and a save that neither schedules nor publishes
  // leaves the job table alone.
  lemma SaveWrites(db: Db, id: int, form: SaveForm, channels: Channels, now: int)
    requires form.Accepted()
    ensures
      var after := SaveTx(db, id, form, channels, now);
      && id in after.articles && after.articles == db.articles[id := after.articles[id]]
      && var row := after.articles[id];
      && row.status == form.status && row.scheduledAt == form.scheduledAt && row.updatedAt == now
      && (forall p :: p in row.platforms <==>
            form.status == Schedule && p in {"mastodon", "twitter", "bluesky", "xiaohongshu"} && p in form.crosspost)
      && Distinct(row.platforms)
      && (row.newsletter <==> form.status == Schedule && form.newsletter)
      && (form.createdAt.Some? ==> row.createdAt == form.createdAt.value)
      && (form.createdAt.None? && id in db.articles ==> row.createdAt == db.articles[id].createdAt)
      && (form.createdAt.None? && id !in db.articles ==> row.createdAt == now)
      && after.nextArticle == (if id == db.nextArticle then id + 1 else db.nextArticle)
      && (form.status != Schedule && form.status != Publish ==>
            after.jobs == db.jobs && after.nextJob == db.nextJob)
  {
    SnapshotKept(form, if id in db.articles then Some(db.articles[id]) else None, now);
    var written := WriteArticle(db, id, form, now);
    assert SaveTx(db, id, form, channels, now).articles == written.articles;
  }

  lemma SnapshotKept(form: SaveForm, before: Option<Article>, now: int)
    ensures
      var row := SavedRow(form, before, now);
      && (forall p :: p in row.platforms <==>
            form.status == Schedule && p in {"mastodon", "twitter", "bluesky", "xiaohongshu"} && p in form.crosspost)
      && Distinct(row.platforms)
  {
    SnapshotOf(form.crosspost);
  }

  lemma SnapshotOf(crosspost: set<string>)
    ensures
      var platforms := SelectedPlatforms(CROSSPOST_PLATFORMS, crosspost);
      && (forall p :: p in platforms <==> p in {"mastodon", "twitter", "bluesky", "xiaohongshu"} && p in crosspost)
      && Distinct(platforms)
  {
    PlatformsDiffer();
    SelectedExactly(CROSSPOST_PLATFORMS, crosspost);
    forall p ensures p in CROSSPOST_PLATFORMS <==> p in {"mastodon", "twitter", "bluesky", "xiaohongshu"} {
      Listed(p);
    }
  }

  lemma PlatformsDiffer()
    ensures Distinct(CROSSPOST_PLATFORMS)
  {
  }

  // A change of status keeps the dates and clears the snapshot. Publishing a scheduled
  // article adds the rows of its snapshot; publishing any other, and every other change of
  // status, adds none.
  lemma TransitionWrites(db: Db, id: int, target: ArticleStatus, read: Article, channels: Channels, now: int)
    requires id in db.articles && forall row :: row in db.jobs ==> row < db.nextJob
    ensures
      var after := TransitionTx(db, id, target, read, channels, now);
      && after.articles == db.articles[id := Article(
           target, db.articles[id].scheduledAt, [], false, db.articles[id].createdAt, now)]
      && Adds(db.jobs, after.jobs, if target != Publish || read.status != Schedule then {} else
           PostRows(id, (set p | p in read.platforms) * channels.enabled * {"mastodon", "twitter", "bluesky"}
                          - channels.recorded, now)
             + MailRows(id, read.newsletter && channels.newsletterReady, now))
  {
    var row := db.articles[id].(status := target, platforms := [], newsletter := false, updatedAt := now);
    var written := db.(articles := db.articles[id := row]);
    var selected := if read.status.Schedule? then set p | p in read.platforms else {};
    EffectsAdd(written, id, selected, read.status.Schedule? && read.newsletter, channels, now);
    if read.status != Schedule {
      var posts := selected * channels.enabled * {"mastodon", "twitter", "bluesky"} - channels.recorded;
      Collections.NoElements(PostRows(id, posts, now));
    }
  }

  // The handler's transaction on whatever row it read: the article it finds scheduled is
  // dated by that row and gets that row's follow-ups, and any other is left alone.
  lemma PublishWrites(db: Db, id: int, read: Article, now: int)
    requires read.scheduledAt.Some? && forall row :: row in db.jobs ==> row < db.nextJob
    ensures
      var after := PublishTx(db, id, read, now);
      if id in db.articles && db.articles[id].status == Schedule then
        && after.articles == db.articles[id := Article(Publish, None, [], false, read.scheduledAt.value, now)]
        && Adds(db.jobs, after.jobs,
             (if read.platforms == [] then {} else
              {JobRun(Crosspost, ForPlatforms(id, read.platforms), now, Queued, 0, None, now, now)})
             + MailRows(id, read.newsletter, now))
      else
        after == db
  {
    var posts := if read.platforms == [] then {} else
      {JobRun(Crosspost, ForPlatforms(id, read.platforms), now, Queued, 0, None, now, now)};
    if Flips(db, id) {
      var row := db.articles[id].(status := Publish, createdAt := read.scheduledAt.value, scheduledAt := None,
                                  platforms := [], newsletter := false, updatedAt := now);
      InsertAllAdds(db.(articles := db.articles[id := row]), FollowUps(id, read.platforms, read.newsletter, now),
                    posts + MailRows(id, read.newsletter, now));
    }
  }

  // Destroying takes the article and its waiting publish_article rows, and nothing else.
  lemma DestroyWrites(db: Db, id: int)
    ensures
      var after := DestroyTx(db, id);
      && (forall article :: article in after.articles <==> article in db.articles && article != id)
      && (forall article :: article in after.articles ==> after.articles[article] == db.articles[article])
      && (forall row :: row in db.jobs && row !in after.jobs <==>
            row in db.jobs && db.jobs[row].status == Queued && db.jobs[row].kind == JobTable.PublishArticle
            && db.jobs[row].payload == ForArticle(id))
      && (forall row :: row in after.jobs ==> row in db.jobs && after.jobs[row] == db.jobs[row])
      && after.nextJob == db.nextJob
  {
  }

  /// ### The same, statement by statement

  datatype SaveResult = Saved(id: int) | Rejected | Aborted

  class Store {
    const queue: JobRuns
    var articles: map<int, Article>
    var nextArticle: int

    constructor ()
      ensures fresh(queue) && Value() == Db(map[], 1, map[], 1)
    {
      queue := new JobRuns();
      articles := map[];
      nextArticle := 1;
    }

    ghost function Value(): Db
      reads this, queue
    {
      Db(queue.rows, queue.nextId, articles, nextArticle)
    }

    method Rollback(jobs: Table, nextJob: int, rows: map<int, Article>, next: int)
      modifies this, queue
      ensures Value() == Db(jobs, nextJob, rows, next)
    {
      queue.rows, queue.nextId := jobs, nextJob;
      articles, nextArticle := rows, next;
    }

    method EnqueuePublishEffects(id: int, selected: set<string>, newsletter: bool, channels: Channels, now: int)
      modifies queue
      ensures Value() == InsertAll(old(Value()), Effects(id, selected, newsletter, channels, now))
    {
      ghost var effects := EnqueueCrossposts(id, CROSSPOST_PLATFORMS, selected, channels, now);
      if newsletter && channels.newsletterReady {
        InsertAllThenOne(old(Value()), effects, NewJob(SendNewsletter, ForArticle(id), now, now));
        var _ := queue.EnqueueJobRun(SendNewsletter, ForArticle(id), now, now);
      } else {
        assert effects + [] == effects;
      }
    }

    method EnqueueCrossposts(id: int, order: seq<string>, selected: set<string>, channels: Channels, now: int)
      returns (ghost effects: seq<JobRun>)
      modifies queue
      ensures effects == CrosspostEffects(id, order, selected, channels, now)
      ensures Value() == InsertAll(old(Value()), effects)
    {
      ghost var before := Value();
      effects := [];
      for n := 0 to |order|
        invariant effects == CrosspostEffects(id, order[..n], selected, channels, now)
        invariant Value() == InsertAll(before, effects)
      {
        var platform := order[n];
        NextCrosspost(id, order, n, selected, channels, now);
        if platform !in selected { continue; }
        if platform !in channels.enabled || platform == "xiaohongshu" { continue; }
        if platform in channels.recorded { continue; }
        var payload := ForPlatform(id, platform, now);
        InsertAllThenOne(before, effects, NewJob(Crosspost, payload, now, now));
        effects := effects + [NewJob(Crosspost, payload, now, now)];
        var _ := queue.EnqueueJobRun(Crosspost, payload, now, now);
      }
      assert order[..|order|] == order;
    }

    method SelectPlatforms(order: seq<string>, crosspost: set<string>) returns (selected: seq<string>)
      ensures selected == SelectedPlatforms(order, crosspost)
    {
      selected := [];
      assert order[0..] == order;
      for n := 0 to |order|
        invariant selected + SelectedPlatforms(order[n..], crosspost) == SelectedPlatforms(order, crosspost)
      {
        assert order[n..][1..] == order[n + 1..];
        if order[n] in crosspost { selected := selected + [order[n]]; }
      }
    }

    // A blank created_at keeps the stored value; only a scheduled row keeps a snapshot.
    method RowOf(form: SaveForm, before: Option<Article>, now: int) returns (row: Article)
      ensures row == SavedRow(form, before, now)
    {
      var snapshot, newsletter := [], false;
      if form.status.Schedule? {
        snapshot := SelectPlatforms(CROSSPOST_PLATFORMS, form.crosspost);
        newsletter := form.newsletter;
      }
      var createdAt := now;
      if form.createdAt.Some? {
        createdAt := form.createdAt.value;
      } else if before.Some? {
        createdAt := before.value.createdAt;
      }
      row := Article(form.status, form.scheduledAt, snapshot, newsletter, createdAt, now);
    }

    // The job rows of a save; with a fault they are left half done.
    method EnqueueForSave(id: int, form: SaveForm, channels: Channels, now: int, fault: Option<nat>) returns (ok: bool)
      modifies queue
      ensures ok <==> fault.None?
      ensures ok ==> Value() == SaveJobs(old(Value()), id, form, channels, now)
    {
      if form.status.Schedule? && form.scheduledAt.Some? {
        queue.CancelQueuedPublishJobs(id);
        if fault == Some(1) { return false; }
        var _ := queue.EnqueueJobRun(JobTable.PublishArticle, ForArticle(id), form.scheduledAt.value, now);
      }
      if form.status.Publish? {
        EnqueuePublishEffects(id, form.crosspost, form.newsletter, channels, now);
      }
      ok := fault.None?;
    }

    // Creates (`target` is None) or updates an article. `fault` is the first statement
    // that fails; the transaction then leaves nothing behind.
    method Save(target: Option<int>, form: SaveForm, channels: Channels, now: int, fault: Option<nat>)
      returns (result: SaveResult)
      modifies this, queue
      ensures result.Rejected? <==> !form.valid || (form.status == Schedule && form.scheduledAt == None)
      ensures result.Saved? ==>
        && result.id == (if target.Some? then target.value else old(nextArticle))
        && (target.Some? ==> target.value in old(articles))
        && Value() == SaveTx(old(Value()), result.id, form, channels, now)
      ensures !result.Saved? ==> Value() == old(Value())
      ensures result.Aborted? ==> fault.Some? || (target.Some? && target.value !in old(articles))
    {
      if !form.valid || (form.status.Schedule? && form.scheduledAt.None?) { return Rejected; }
      var jobs, nextJob, rows, next := queue.rows, queue.nextId, articles, nextArticle;
      var before := None;
      var id := nextArticle;
      if target.Some? {
        if target.value !in articles { return Aborted; }
        id := target.value;
      }
      if id in articles { before := Some(articles[id]); }
      var row := RowOf(form, before, now);
      articles := articles[id := row];
      if id == nextArticle { nextArticle := nextArticle + 1; }
      var ok := fault != Some(0);
      if ok {
        ok := EnqueueForSave(id, form, channels, now, fault);
      }
      if !ok { Rollback(jobs, nextJob, rows, next); return Aborted; }
      result := Saved(id);
    }

    method TransitionStatus(id: int, target: ArticleStatus, channels: Channels, now: int, fails: bool)
      returns (ok: bool)
      modifies this, queue
      ensures ok <==> id in old(articles) && !fails
      ensures Value() == if ok then TransitionTx(old(Value()), id, target, old(articles)[id], channels, now)
        else old(Value())
    {
      if id !in articles { return false; }
      var existing := articles[id];
      var crosspost, newsletter := {}, false;
      if target.Publish? && existing.status.Schedule? {
        crosspost := set p | p in existing.platforms;
        newsletter := existing.newsletter;
      }
      var jobs, nextJob, rows, next := queue.rows, queue.nextId, articles, nextArticle;
      articles := articles[id := articles[id].(status := target, platforms := [], newsletter := false,
        updatedAt := now)];
      if target.Publish? {
        EnqueuePublishEffects(id, crosspost, newsletter, channels, now);
      }
      if fails { Rollback(jobs, nextJob, rows, next); return false; }
      ok := true;
    }

    method Destroy(id: int)
      modifies this, queue
      ensures Value() == DestroyTx(old(Value()), id)
    {
      articles := articles - {id};
      queue.CancelQueuedPublishJobs(id);
    }

    // The publish_article handler run to its end with nothing in between. `fault` is the
    // first statement of its transaction that fails, or that the process dies before.
    method PublishArticle(id: int, now: int, fault: Option<nat>) returns (ok: bool)
      modifies this, queue
      ensures id !in old(articles) || !old(articles)[id].ReadyAt(now) ==> ok && Value() == old(Value())
      ensures ok && id in old(articles) && old(articles)[id].ReadyAt(now) ==>
        Value() == PublishTx(old(Value()), id, old(articles)[id], now)
      ensures !ok ==> fault.Some? && Value() == old(Value())
    {
      if id !in articles { return true; }
      var state := articles[id];
      if !state.status.Schedule? || state.scheduledAt.None? || state.scheduledAt.value > now { return true; }
      var jobs, nextJob, rows, next := queue.rows, queue.nextId, articles, nextArticle;
      if fault == Some(0) { return false; }
      articles := articles[id := articles[id].(
        status := Publish, createdAt := state.scheduledAt.value, scheduledAt := None,
        platforms := [], newsletter := false, updatedAt := now)];
      ghost var flipped := Value();
      if fault == Some(1) { Rollback(jobs, nextJob, rows, next); return false; }
      assert flipped == InsertAll(flipped, []);
      if |state.platforms| > 0 {
        InsertAllThenOne(flipped, [], NewJob(Crosspost, ForPlatforms(id, state.platforms), now, now));
        var _ := queue.EnqueueJobRun(Crosspost, ForPlatforms(id, state.platforms), now, now);
      }
      if fault == Some(2) { Rollback(jobs, nextJob, rows, next); return false; }
      ghost var first := FollowUps(id, state.platforms, false, now);
      assert [] + first == first && first + [] == first;
      assert Value() == InsertAll(flipped, first);
      if state.newsletter {
        InsertAllThenOne(flipped, first, NewJob(SendNewsletter, ForArticle(id), now, now));
        var _ := queue.EnqueueJobRun(SendNewsletter, ForArticle(id), now, now);
      }
      if fault.Some? { Rollback(jobs, nextJob, rows, next); return false; }
      ok := true;
    }
  }
}
