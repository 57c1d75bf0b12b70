/**
 What particular stretches of a run of `PublishRuns` do: the handler taken as one step,
 a pending row that is picked, a shutdown, a recovery; and two ways the guarantees end
 where their assumptions do.
 */
module PublishScenarios {
  import opened Options
  import opened JobTable
  import opened Publishing
  import opened PublishRuns
  import opened PublishSafety

  // With the read and the transaction next to each other, either nothing changes or the
  // article is published at its scheduled time, which has come, with exactly the batch of
  // the snapshot that the same transaction clears.
  lemma AtomicHandler(w: World)
    requires Inv(w) && Enabled(w, ReadArticle)
    ensures
      var article := w.phase.job.payload.article;
      var read := Next(w, ReadArticle);
      if article in w.db.articles && w.db.articles[article].ReadyAt(w.clock) then
        && Enabled(read, CommitPublish)
        && var v := Next(read, CommitPublish);
           var before := w.db.articles[article];
           && |v.log| == |w.log| + 1 && v.log[|w.log|].Flipped? && v.log[|w.log|].before == before
           && before.scheduledAt.value <= v.log[|w.log|].at == w.clock
           && v.log[|w.log|].batch == FollowUps(article, before.platforms, before.newsletter, w.clock)
           && v.db.articles ==
             w.db.articles[article := before.(status := Publish, createdAt := before.scheduledAt.value,
                scheduledAt := None, platforms := [], newsletter := false, updatedAt := w.clock)]
           && (forall id :: id in v.db.jobs <==> id in w.db.jobs || v.log[|w.log|].Inserted(id))
      else
        read.db == w.db && read.phase.stage.Finishing?
  {
  }

  ghost predicate PublishedAt(w: World, id: int, article: int, at: int) {
    && w.phase.Idle? && id in w.db.jobs && w.db.jobs[id].status.Done?
    && article in w.db.articles && w.db.articles[article].status == Publish && w.db.articles[article].createdAt == at
  }

  // The worker is in the publish handler of this row, and the article is due.
  ghost predicate Handling(w: World, id: int, article: int, at: int) {
    && w.phase.Held? && w.phase.id == id && w.phase.job.Publishes(article)
    && article in w.db.articles && w.db.articles[article].ReadyAt(w.clock)
    && w.db.articles[article].scheduledAt == Some(at)
  }

  lemma Prepend(w: World, step: Step, rest: seq<Step>)
    requires Enabled(w, step) && Legal(Next(w, step), rest)
    ensures Legal(w, [step] + rest) && Exec(w, [step] + rest) == Exec(Next(w, step), rest)
  {
  }

  lemma ReadyPublishes(w: World, id: int, article: int, at: int) returns (run: seq<Step>)
    requires Inv(w) && Handling(w, id, article, at) && w.phase.stage.Ready?
      && w.phase.stage.read.scheduledAt == Some(at)
    ensures Legal(w, run) && PublishedAt(Exec(w, run), id, article, at)
  {
    StepKeepsInv(w, CommitPublish);
    var done := Next(w, CommitPublish);
    var back := Next(done, Return);
    Prepend(back, Settle, []);
    Prepend(done, Return, [Settle] + []);
    Prepend(w, CommitPublish, [Return] + ([Settle] + []));
    run := [CommitPublish] + ([Return] + ([Settle] + []));
  }

  lemma StartedPublishes(w: World, id: int, article: int, at: int) returns (run: seq<Step>)
    requires Inv(w) && Handling(w, id, article, at) && w.phase.stage.Started?
    ensures Legal(w, run) && PublishedAt(Exec(w, run), id, article, at)
  {
    StepKeepsInv(w, ReadArticle);
    var rest := ReadyPublishes(Next(w, ReadArticle), id, article, at);
    Prepend(w, ReadArticle, rest);
    run := [ReadArticle] + rest;
  }

  lemma TakenPublishes(w: World, id: int, article: int, at: int) returns (run: seq<Step>)
    requires Inv(w) && Handling(w, id, article, at) && w.phase.stage.Taken?
    ensures Legal(w, run) && PublishedAt(Exec(w, run), id, article, at)
  {
    StepKeepsInv(w, StartHandler);
    var rest := StartedPublishes(Next(w, StartHandler), id, article, at);
    Prepend(w, StartHandler, rest);
    run := [StartHandler] + rest;
  }

  // A pending row that is the oldest due one can be run to the publication of its article,
  // dated by its scheduled time.
  lemma PendingRowPublishes(w: World, article: int, id: int, at: int) returns (run: seq<Step>)
    requires Inv(w) && w.phase.Idle? && !w.stopping
    requires article in w.db.articles && w.db.articles[article].status.Schedule?
      && w.db.articles[article].scheduledAt == Some(at)
    requires Pending(w, id, article, at) && Oldest(w.db.jobs, id, w.clock)
    ensures Legal(w, run) && PublishedAt(Exec(w, run), id, article, at)
  {
    StepKeepsInv(w, Pick(id));
    var picked := Next(w, Pick(id));
    StepKeepsInv(picked, ClaimRow);
    var rest := TakenPublishes(Next(picked, ClaimRow), id, article, at);
    Prepend(picked, ClaimRow, rest);
    Prepend(w, Pick(id), [ClaimRow] + rest);
    run := [Pick(id)] + ([ClaimRow] + rest);
  }

  // A handler cancelled by shutdown costs its row nothing: same attempts, due at once.
  lemma ShutdownIsFree(w: World, message: string)
    requires Inv(w) && Working(w.phase) && w.stopping
    ensures Enabled(w, CancelHandler(message)) && Enabled(Next(w, CancelHandler(message)), Settle)
    ensures
      var v := Next(Next(w, CancelHandler(message)), Settle);
      var id := w.phase.id;
      && v.charged == w.charged && v.exhausted == w.exhausted
      && v.db.jobs[id].attempts == w.db.jobs[id].attempts && v.db.jobs[id].Due(w.clock)
      && v.db.jobs[id] == w.db.jobs[id].(
           status := Queued, runAt := w.phase.now, lastError := Some(message), updatedAt := w.phase.now)
  {
  }

  // A process that dies between a handler's start and its return has failed that start, and
  // otherwise none; the database stays as it was.
  lemma CrashIsCharged(w: World, id: int)
    requires Enabled(w, Crash)
    ensures
      var v := Next(w, Crash);
      && v.db == w.db && v.phase.Down?
      && Count(v.charged, id) == Count(w.charged, id) +
           if w.phase.Held? && w.phase.id == id && !w.phase.stage.Taken? && !w.phase.stage.Returned? then 1 else 0
  {
  }

  // A row of a kind without a handler fails for good, with the attempts it had.
  lemma UnknownKindFails(w: World)
    requires Inv(w) && Enabled(w, RejectKind)
    ensures
      var v, id := Next(w, RejectKind), w.phase.id;
      && v.db == w.db.(jobs := w.db.jobs[id := w.db.jobs[id].(
           status := Failed, lastError := Some("unknown job kind"), updatedAt := w.clock)])
      && v.phase.Idle? && v.charged == w.charged
  {
  }

  // After a restart, no row claimed before the cutoff is left running: each is queued
  // again with one attempt fewer to go, or failed for good. Every other row is left alone.
  lemma RecoveryRevives(w: World, cutoff: int, id: int)
    requires Inv(w) && w.phase.Down? && id in w.db.jobs
    ensures id in Next(w, Restart(cutoff)).db.jobs
    ensures
      var job, row := w.db.jobs[id], Next(w, Restart(cutoff)).db.jobs[id];
      if job.status != Running || cutoff <= job.updatedAt then
        row == job
      else if job.attempts < 4 then
        row == job.(status := Queued, attempts := job.attempts + 1, updatedAt := w.clock)
      else
        && row.attempts == 5
        && row == job.(status := Failed, attempts := 5, updatedAt := w.clock, lastError := Some(
             "process restarted while the job was running; attempt budget exhausted"))
  {
  }

  // A running row that no worker holds.
  predicate Orphaned(w: World, id: int) {
    id in w.db.jobs && w.db.jobs[id].status.Running? && !(w.phase.Held? && w.phase.id == id)
  }

  lemma OrphanStep(w: World, step: Step, id: int)
    requires Inv(w) && Enabled(w, step) && Orphaned(w, id) && !step.Restart?
    ensures Orphaned(Next(w, step), id) && Next(w, step).db.jobs[id] == w.db.jobs[id]
  {
    if OnlyAdds(step) { StepGrows(w, step); }
  }

  // Nothing but a restart ever touches an orphaned row: with RecoveryRevives, one that was
  // claimed within the cutoff of the next restart stays running until a later one.
  lemma {:induction false} OrphanWaitsForRestart(w: World, steps: seq<Step>, id: int)
    requires Inv(w) && Legal(w, steps) && Orphaned(w, id)
    requires forall i :: 0 <= i < |steps| ==> !steps[i].Restart?
    ensures Orphaned(Exec(w, steps), id) && Exec(w, steps).db.jobs[id] == w.db.jobs[id]
    decreases |steps|
  {
    if steps != [] {
      OrphanStep(w, steps[0], id);
      StepKeepsInv(w, steps[0]);
      OrphanWaitsForRestart(Next(w, steps[0]), steps[1..], id);
    }
  }

  /// ### Where the guarantees end

  // The handler reads outside its transaction, and the transaction checks the status
  // alone. A save in between that moves the article to a later time is published early,
  // and the new snapshot is dropped in favour of the one read.
  lemma SplitHandlerPublishesEarly(w: World, article: int, form: SaveForm, channels: Channels)
    returns (saved: World, v: World)
    requires Inv(w) && w.phase.Held? && w.phase.stage.Ready? && w.phase.job.payload == ForArticle(article)
    requires article in w.db.articles && form.Accepted() && form.status.Schedule? && w.clock < form.scheduledAt.value
    ensures Enabled(w, Save(article, form, channels)) && saved == Next(w, Save(article, form, channels))
    ensures Enabled(saved, CommitPublish) && v == Next(saved, CommitPublish)
    ensures v.clock == w.clock && article in v.db.articles && v.db.articles[article].status == Publish
    ensures |v.log| > 0 && v.log[|v.log| - 1].Flipped?
    ensures
      var event, read := v.log[|v.log| - 1], w.phase.stage.read;
      && event.article == article && event.before.scheduledAt == form.scheduledAt
      && event.at <= w.clock < form.scheduledAt.value
      && event.batch == FollowUps(article, read.platforms, read.newsletter, w.phase.stage.at)
  {
    saved := Next(w, Save(article, form, channels));
    SavedUnderTheHandler(w, article, form, channels);
    v := Next(saved, CommitPublish);
    CommitFlips(saved, article);
  }

  lemma SavedUnderTheHandler(w: World, article: int, form: SaveForm, channels: Channels)
    requires form.Accepted() && form.status.Schedule?
    ensures
      var saved := Next(w, Save(article, form, channels));
      && saved.phase == w.phase && saved.clock == w.clock && article in saved.db.articles
      && saved.db.articles[article].status == Schedule && saved.db.articles[article].scheduledAt == form.scheduledAt
  {
  }

  lemma CommitFlips(w: World, article: int)
    requires Enabled(w, CommitPublish) && w.phase.job.payload.article == article
    requires article in w.db.articles && w.db.articles[article].status == Schedule
    ensures
      var v, read := Next(w, CommitPublish), w.phase.stage.read;
      && v.clock == w.clock && article in v.db.articles && v.db.articles[article].status == Publish
      && |v.log| == |w.log| + 1 && v.log[|w.log|].Flipped? && v.log[|w.log|].article == article
      && v.log[|w.log|].before == w.db.articles[article] && v.log[|w.log|].at == w.phase.stage.at
      && v.log[|w.log|].batch == FollowUps(article, read.platforms, read.newsletter, w.phase.stage.at)
  {
  }

  lemma FollowUpsDetermine(article: int, p: seq<string>, m: bool, q: seq<string>, n: bool, at: int)
    ensures FollowUps(article, p, m, at) == FollowUps(article, q, n, at) <==> p == q && m == n
  {
    var a, b := FollowUps(article, p, m, at), FollowUps(article, q, n, at);
    if a == b {
      if |p| > 0 { assert a[0].payload == ForPlatforms(article, p); }
      if |q| > 0 { assert b[0].payload == ForPlatforms(article, q); }
      assert |a| == (if |p| > 0 then 1 else 0) + (if m then 1 else 0);
      assert |b| == (if |q| > 0 then 1 else 0) + (if n then 1 else 0);
    }
  }

  // A flip does what the row it clears asks for, its date and its follow-ups, if and only if
  // the row's schedule and snapshot are still those that the handler read.
  lemma FlipFitsRowIffUnchanged(w: World)
    requires Inv(w) && Enabled(w, CommitPublish) && Flips(w.db, w.phase.job.payload.article)
    ensures
      var article := w.phase.job.payload.article;
      var before, read := w.db.articles[article], w.phase.stage.read;
      var v := Next(w, CommitPublish);
      && v.db.articles[article].status == Publish && |v.log| == |w.log| + 1 && v.log[|w.log|].Flipped?
      && (Some(v.db.articles[article].createdAt) == before.scheduledAt
          && v.log[|w.log|].batch == FollowUps(article, before.platforms, before.newsletter, w.phase.stage.at)
          <==>
          read.scheduledAt == before.scheduledAt && read.platforms == before.platforms
            && read.newsletter == before.newsletter)
  {
    var article := w.phase.job.payload.article;
    var before, read := w.db.articles[article], w.phase.stage.read;
    FollowUpsDetermine(article, read.platforms, read.newsletter, before.platforms, before.newsletter, w.phase.stage.at);
  }

  ghost predicate HasPublishRow(w: World, article: int) {
    exists id :: id in w.db.jobs && w.db.jobs[id].Publishes(article) && w.db.jobs[id].Active()
  }

  // TransitionStatus enqueues nothing for the schedule status, so its callers must not ask
  // for it: the article is covered if and only if an active row of its own was there before,
  // and one that no save ever scheduled has no publish row of any kind.
  lemma TransitionToScheduleStrands(w: World, article: int, read: Article, channels: Channels)
    requires Inv(w) && article in w.db.articles
    ensures
      var v := Record(w, TransitionTx(w.db, article, Schedule, read, channels, w.clock));
      && v.db.articles[article].status.Schedule?
      && (HasPublishRow(v, article) <==> HasPublishRow(w, article))
      && (article !in w.owner ==> forall id :: id in v.db.jobs ==> !v.db.jobs[id].Publishes(article))
  {
    assert TransitionTx(w.db, article, Schedule, read, channels, w.clock).jobs == w.db.jobs;
    assert SavesOk(w);
  }

  /// ### Runs that reach these states

  lemma {:induction false} Extend(w: World, steps: seq<Step>, step: Step)
    requires Legal(w, steps) && Enabled(Exec(w, steps), step)
    ensures Legal(w, steps + [step]) && Exec(w, steps + [step]) == Next(Exec(w, steps), step)
    decreases |steps|
  {
    if steps == [] {
      assert [] + [step] == [step];
      Prepend(w, step, []);
      assert [step] + [] == [step];
    } else {
      Extend(Next(w, steps[0]), steps[1..], step);
      assert (steps + [step])[1..] == steps[1..] + [step];
      Prepend(w, steps[0], steps[1..] + [step]);
      assert [steps[0]] + (steps[1..] + [step]) == steps + [step];
    }
  }

  // The site has one article, saved to schedule, and its publish row is queued and due.
  ghost predicate OneDueRow(w: World, article: int, form: SaveForm) {
    && w.phase.Idle? && !w.stopping && form.scheduledAt.Some? && form.scheduledAt.value <= w.clock
    && w.db.nextJob == 2 && w.db.jobs.Keys == {1} && w.db.jobs[1].Publishes(article) && w.db.jobs[1].status.Queued?
    && w.db.jobs[1].attempts == 0 && w.db.jobs[1].runAt == form.scheduledAt.value
    && article in w.db.articles && w.db.articles[article].status.Schedule?
    && w.db.articles[article].scheduledAt == form.scheduledAt
  }

  lemma ReachDue(w: World, article: int, form: SaveForm, channels: Channels, to: int, cutoff: int)
    returns (run: seq<Step>)
    requires Init(w) && form.Accepted() && form.status.Schedule? && w.clock <= to && form.scheduledAt.value <= to
    ensures Legal(w, run) && Inv(Exec(w, run)) && OneDueRow(Exec(w, run), article, form) && Exec(w, run).clock == to
    ensures PublishArticle in Exec(w, run).registered
  {
    InitInv(w);
    run := [];
    Extend(w, run, Restart(cutoff));
    run := run + [Restart(cutoff)];
    assert Exec(w, run).db.jobs == map[];
    Extend(w, run, Save(article, form, channels));
    run := run + [Save(article, form, channels)];
    Extend(w, run, Tick(to));
    run := run + [Tick(to)];
    RunKeepsInv(w, run);
  }

  lemma ReachTaken(w: World, article: int, form: SaveForm, channels: Channels, to: int, cutoff: int)
    returns (run: seq<Step>)
    requires Init(w) && form.Accepted() && form.status.Schedule? && w.clock <= to && form.scheduledAt.value <= to
    ensures Legal(w, run) && Inv(Exec(w, run))
    ensures
      var v := Exec(w, run);
      && v.phase.Held? && v.phase.id == 1 && v.phase.stage.Taken? && v.phase.job.Publishes(article) && v.phase.now == to
      && v.clock == to && !v.stopping && v.phase.job.kind in v.registered
      && 1 in v.db.jobs && v.db.jobs[1].status.Running? && v.db.jobs[1].updatedAt == to
      && article in v.db.articles && v.db.articles[article].ReadyAt(to)
  {
    run := ReachDue(w, article, form, channels, to, cutoff);
    var due := Exec(w, run);
    assert Oldest(due.db.jobs, 1, due.clock);
    Extend(w, run, Pick(1));
    run := run + [Pick(1)];
    Extend(w, run, ClaimRow);
    run := run + [ClaimRow];
    RunKeepsInv(w, run);
  }

  // Between the handler's read and its transaction.
  lemma ReachReady(w: World, article: int, form: SaveForm, channels: Channels, to: int, cutoff: int)
    returns (run: seq<Step>)
    requires Init(w) && form.Accepted() && form.status.Schedule? && w.clock <= to && form.scheduledAt.value <= to
    ensures Legal(w, run) && Inv(Exec(w, run))
    ensures
      var v := Exec(w, run);
      && v.phase.Held? && v.phase.stage.Ready? && v.phase.job.payload == ForArticle(article) && v.clock == to
      && article in v.db.articles && Enabled(v, CommitPublish)
  {
    run := ReachTaken(w, article, form, channels, to, cutoff);
    Extend(w, run, StartHandler);
    run := run + [StartHandler];
    Extend(w, run, ReadArticle);
    run := run + [ReadArticle];
    RunKeepsInv(w, run);
  }

  // A whole run that publishes an article before the time it was last saved for.
  lemma EarlyPublicationHappens(w: World, article: int, form: SaveForm, later: SaveForm, channels: Channels,
                                to: int, cutoff: int)
    returns (run: seq<Step>)
    requires Init(w) && form.Accepted() && form.status.Schedule? && w.clock <= to && form.scheduledAt.value <= to
    requires later.Accepted() && later.status.Schedule? && to < later.scheduledAt.value
    ensures Legal(w, run)
    ensures
      var v := Exec(w, run);
      && v.clock < later.scheduledAt.value && article in v.db.articles && v.db.articles[article].status == Publish
      && v.log != [] && v.log[|v.log| - 1].Flipped? && v.log[|v.log| - 1].before.scheduledAt == later.scheduledAt
  {
    run := ReachReady(w, article, form, channels, to, cutoff);
    var saved, v := SplitHandlerPublishesEarly(Exec(w, run), article, later, channels);
    Extend(w, run, Save(article, later, channels));
    run := run + [Save(article, later, channels)];
    Extend(w, run, CommitPublish);
    run := run + [CommitPublish];
    assert Exec(w, run) == v;
  }

  // A handler at work when shutdown begins: what ShutdownIsFree speaks of.
  lemma ReachShutdown(w: World, article: int, form: SaveForm, channels: Channels, to: int, cutoff: int)
    returns (run: seq<Step>)
    requires Init(w) && form.Accepted() && form.status.Schedule? && w.clock <= to && form.scheduledAt.value <= to
    ensures Legal(w, run) && Inv(Exec(w, run)) && Working(Exec(w, run).phase) && Exec(w, run).stopping
  {
    run := ReachTaken(w, article, form, channels, to, cutoff);
    Extend(w, run, StartHandler);
    run := run + [StartHandler];
    Extend(w, run, Shutdown);
    run := run + [Shutdown];
    RunKeepsInv(w, run);
  }

  lemma CrashAndRestart(w: World, id: int, cutoff: int) returns (down: World, up: World)
    requires Inv(w) && w.phase.Held? && id in w.db.jobs && w.db.jobs[id].status.Running?
    requires cutoff <= w.db.jobs[id].updatedAt
    ensures Enabled(w, Crash) && down == Next(w, Crash)
    ensures Enabled(down, Restart(cutoff)) && up == Next(down, Restart(cutoff))
    ensures Inv(up) && up.phase.Idle? && Orphaned(up, id) && up.db.articles == w.db.articles && up.clock == w.clock
  {
    down := Next(w, Crash);
    StepKeepsInv(w, Crash);
    up := Next(down, Restart(cutoff));
    StepKeepsInv(down, Restart(cutoff));
  }

  // A crash just after the claim, and a restart whose cutoff is not later than it: the row
  // stays running, and by OrphanWaitsForRestart nothing but another restart touches it.
  lemma OrphanSurvivesRestart(w: World, article: int, form: SaveForm, channels: Channels, to: int,
                              first: int, cutoff: int)
    returns (run: seq<Step>)
    requires Init(w) && form.Accepted() && form.status.Schedule? && w.clock <= to && form.scheduledAt.value <= to
    requires cutoff <= to
    ensures Legal(w, run) && Inv(Exec(w, run)) && Orphaned(Exec(w, run), 1) && Exec(w, run).phase.Idle?
    ensures article in Exec(w, run).db.articles && Exec(w, run).db.articles[article].ReadyAt(Exec(w, run).clock)
  {
    run := ReachTaken(w, article, form, channels, to, first);
    var down, up := CrashAndRestart(Exec(w, run), 1, cutoff);
    Extend(w, run, Crash);
    run := run + [Crash];
    Extend(w, run, Restart(cutoff));
    run := run + [Restart(cutoff)];
    assert Exec(w, run) == up;
  }
}
