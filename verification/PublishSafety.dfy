/**
 Every step keeps the invariant of `PublishRuns`, part by part, so it holds after every
 run; the properties of scheduled publishing follow from it.
 */
module PublishSafety {
  import opened Options
  import opened JobTable
  import opened Publishing
  import opened PublishRuns

  /// ### What the transactions do to the tables

  // Rows are added under new numbers; the new ones are queued and publish nothing.
  ghost predicate Grows(before: Db, after: Db) {
    && before.nextJob <= after.nextJob
    && (forall id :: id in before.jobs && id < before.nextJob ==> id in after.jobs && after.jobs[id] == before.jobs[id])
    && (forall id :: id in after.jobs && !(id in before.jobs && id < before.nextJob) ==>
          before.nextJob <= id < after.nextJob
          && var job := after.jobs[id]; job.status.Queued? && job.attempts == 0 && !job.kind.PublishArticle?)
  }

  lemma InsertAllGrows(db: Db, jobs: seq<JobRun>)
    requires forall id :: id in db.jobs ==> id < db.nextJob
    requires forall i :: 0 <= i < |jobs| ==>
      jobs[i].status.Queued? && jobs[i].attempts == 0 && !jobs[i].kind.PublishArticle?
    ensures Grows(db, InsertAll(db, jobs))
  {
  }

  lemma EffectsGrow(db: Db, id: int, selected: set<string>, newsletter: bool, channels: Channels, now: int)
    requires forall id :: id in db.jobs ==> id < db.nextJob
    ensures Grows(db, InsertAll(db, Effects(id, selected, newsletter, channels, now)))
  {
    CrosspostEffectsNeverPublish(id, CROSSPOST_PLATFORMS, selected, channels, now);
    InsertAllGrows(db, Effects(id, selected, newsletter, channels, now));
  }

  lemma TransitionGrows(w: World, id: int, target: ArticleStatus, read: Article, channels: Channels, now: int)
    requires TableOk(w) && id in w.db.articles
    ensures Grows(w.db, TransitionTx(w.db, id, target, read, channels, now))
  {
    var row := w.db.articles[id].(status := target, platforms := [], newsletter := false, updatedAt := now);
    var written := w.db.(articles := w.db.articles[id := row]);
    var restored := read.status.Schedule?;
    var selected := if restored then set p | p in read.platforms else {};
    EffectsGrow(written, id, selected, restored && read.newsletter, channels, now);
  }

  lemma SaveJobsGrow(db: Db, id: int, form: SaveForm, channels: Channels, now: int)
    requires forall row :: row in db.jobs ==> row < db.nextJob
    requires !form.status.Schedule?
    ensures Grows(db, SaveJobs(db, id, form, channels, now))
  {
    if form.status.Publish? { EffectsGrow(db, id, form.crosspost, form.newsletter, channels, now); }
  }

  lemma SaveGrows(w: World, id: int, form: SaveForm, channels: Channels, now: int)
    requires TableOk(w) && !form.status.Schedule?
    ensures Grows(w.db, SaveTx(w.db, id, form, channels, now))
  {
    SaveJobsGrow(WriteArticle(w.db, id, form, now), id, form, channels, now);
  }

  lemma PublishGrows(w: World, id: int, read: Article, now: int)
    requires TableOk(w) && read.scheduledAt.Some?
    ensures Grows(w.db, PublishTx(w.db, id, read, now))
  {
  }

  /// ### The rows and the worker

  predicate ByWorker(step: Step) {
    match step
    case Pick(_) => true
    case Miss => true
    case ClaimRow => true
    case RejectKind => true
    case StartHandler => true
    case ReadArticle => true
    case CommitPublish => true
    case FailHandler(_) => true
    case CancelHandler(_) => true
    case FinishOther => true
    case Return => true
    case Settle => true
    case LoseBookkeeping => true
    case Stop => true
    case Crash => true
    case Restart(_) => true
    case _ => false
  }

  // The transactions that only add rows.
  lemma StepGrows(w: World, step: Step)
    requires TableOk(w) && Enabled(w, step)
    requires OnlyAdds(step)
    ensures Grows(w.db, Next(w, step).db)
  {
    match step
    case Save(id, form, channels) => SaveGrows(w, id, form, channels, w.clock);
    case Transition(id, target, read, channels) => TransitionGrows(w, id, target, read, channels, w.clock);
    case CommitPublish => PublishGrows(w, w.phase.job.payload.article, w.phase.stage.read, w.phase.stage.at);
    case _ =>
  }

  predicate OnlyAdds(step: Step) {
    step.Transition? || step.CommitPublish? || step.Enqueue? || (step.Save? && !step.form.status.Schedule?)
  }

  lemma TableGrown(w: World, v: World)
    requires TableOk(w) && Grows(w.db, v.db)
    ensures TableOk(v)
  {
  }

  lemma TableStepWorker(w: World, step: Step)
    requires TableOk(w) && PhaseOk(w) && Enabled(w, step) && ByWorker(step) && !OnlyAdds(step)
    ensures TableOk(Next(w, step))
  {
  }

  lemma TableStep(w: World, step: Step)
    requires TableOk(w) && PhaseOk(w) && Enabled(w, step)
    ensures TableOk(Next(w, step))
  {
    if OnlyAdds(step) {
      StepGrows(w, step);
      TableGrown(w, Next(w, step));
    } else if ByWorker(step) {
      TableStepWorker(w, step);
    }
  }

  // The row the worker has picked or holds does not change under its hands.
  lemma PhaseKept(w: World, v: World)
    requires PhaseOk(w) && v.phase == w.phase && v.registered == w.registered && (w.stopping ==> v.stopping)
    requires w.clock <= v.clock && w.db.nextJob <= v.db.nextJob
    requires w.phase.Picked? && w.phase.id in v.db.jobs && v.db.jobs[w.phase.id].status.Queued? ==>
      w.phase.id in w.db.jobs && v.db.jobs[w.phase.id] == w.db.jobs[w.phase.id]
    requires w.phase.Held? ==> w.phase.id in v.db.jobs && v.db.jobs[w.phase.id] == w.db.jobs[w.phase.id]
    ensures PhaseOk(v)
  {
  }

  lemma PhaseStepOutside(w: World, step: Step)
    requires TableOk(w) && PhaseOk(w) && Enabled(w, step) && !ByWorker(step)
    ensures PhaseOk(Next(w, step))
  {
    if OnlyAdds(step) { StepGrows(w, step); }
    PhaseKept(w, Next(w, step));
  }

  // The handler's transaction leaves its own row alone.
  lemma CommitPhaseAt(w: World, article: int, read: Article, at: int)
    requires PhaseOk(w) && w.phase.Held? && w.phase.stage.Ready? && read.scheduledAt.Some?
    requires Grows(w.db, AfterCommit(w, article, read, at).db) && TableOk(w)
    ensures PhaseOk(AfterCommit(w, article, read, at))
  {
    assert w.phase.id in w.db.jobs && w.phase.id < w.db.nextJob;
  }

  lemma CommitPhase(w: World)
    requires TableOk(w) && PhaseOk(w) && Enabled(w, CommitPublish)
    ensures PhaseOk(Next(w, CommitPublish))
  {
    StepGrows(w, CommitPublish);
    CommitPhaseAt(w, w.phase.job.payload.article, w.phase.stage.read, w.phase.stage.at);
  }

  lemma PhaseStep(w: World, step: Step)
    requires TableOk(w) && PhaseOk(w) && Enabled(w, step)
    ensures PhaseOk(Next(w, step))
  {
    if step.CommitPublish? {
      CommitPhase(w);
    } else if !ByWorker(step) {
      PhaseStepOutside(w, step);
    }
  }

  /// ### Owners: the row made by the latest save still covers a scheduled article

  ghost predicate SchedulesNothingNew(before: Db, after: Db) {
    forall article :: article in after.articles && after.articles[article].status.Schedule? ==>
      article in before.articles && before.articles[article] == after.articles[article]
  }

  // A step that leaves the saves alone only has to keep pending rows pending, or exhaust them.
  lemma OwnersKept(w: World, v: World)
    requires OwnersOk(w) && v.registered == w.registered && v.owner == w.owner && w.exhausted <= v.exhausted
    requires SchedulesNothingNew(w.db, v.db)
    requires forall article, at ::
      (article in v.db.articles && v.db.articles[article].status.Schedule? && article in w.owner
        && Pending(w, w.owner[article], article, at))
      ==> w.owner[article] in v.exhausted || Pending(v, w.owner[article], article, at)
    ensures OwnersOk(v)
  {
  }

  lemma ScheduleOwns(w: World, id: int, form: SaveForm, channels: Channels)
    requires TableOk(w) && PhaseOk(w) && OwnersOk(w) && Enabled(w, Save(id, form, channels)) && form.status.Schedule?
    ensures OwnersOk(Next(w, Save(id, form, channels)))
  {
    var v := Next(w, Save(id, form, channels));
    forall article | article in v.db.articles ensures Owned(v, article) {
      if article == id {
        assert v.owner[id] == w.db.nextJob;
        assert Pending(v, w.db.nextJob, id, form.scheduledAt.value);
      } else {
        assert Owned(w, article);
      }
    }
  }

  // The handler that reads, or commits, for a row that is pending does not give it up:
  // its article is scheduled, and due since the row was.
  lemma ReadOwns(w: World)
    requires TableOk(w) && PhaseOk(w) && OwnersOk(w) && Enabled(w, ReadArticle)
    ensures OwnersOk(Next(w, ReadArticle))
  {
    var v := Next(w, ReadArticle);
    forall article | article in v.db.articles ensures Owned(v, article) {
      assert Owned(w, article);
    }
  }

  lemma CommitSchedulesNothing(w: World)
    requires Enabled(w, CommitPublish)
    ensures SchedulesNothingNew(w.db, Next(w, CommitPublish).db)
    ensures !Flips(Next(w, CommitPublish).db, w.phase.job.payload.article)
  {
  }

  lemma CommitOwns(w: World)
    requires TableOk(w) && PhaseOk(w) && OwnersOk(w) && Enabled(w, CommitPublish)
    ensures OwnersOk(Next(w, CommitPublish))
  {
    StepGrows(w, CommitPublish);
    CommitSchedulesNothing(w);
    var v := Next(w, CommitPublish);
    forall id, article, at | Pending(w, id, article, at) && Flips(v.db, article) ensures Pending(v, id, article, at) {
      assert v.db.jobs[id] == w.db.jobs[id];
    }
    OwnersKept(w, v);
  }

  lemma OwnersStepOutside(w: World, step: Step)
    requires TableOk(w) && PhaseOk(w) && OwnersOk(w) && Enabled(w, step) && !ByWorker(step)
    requires step.Save? ==> !step.form.status.Schedule?
    ensures OwnersOk(Next(w, step))
  {
    if OnlyAdds(step) { StepGrows(w, step); }
    OwnersKept(w, Next(w, step));
  }

  lemma OwnersStepWorker(w: World, step: Step)
    requires TableOk(w) && PhaseOk(w) && OwnersOk(w) && Enabled(w, step)
    requires ByWorker(step) && !step.ReadArticle? && !step.CommitPublish?
    ensures OwnersOk(Next(w, step))
  {
    OwnersKept(w, Next(w, step));
  }

  lemma OwnersStep(w: World, step: Step)
    requires TableOk(w) && PhaseOk(w) && OwnersOk(w) && Enabled(w, step)
    ensures OwnersOk(Next(w, step))
  {
    if step.Save? && step.form.status.Schedule? {
      ScheduleOwns(w, step.id, step.form, step.channels);
    } else if !ByWorker(step) {
      OwnersStepOutside(w, step);
    } else if step.ReadArticle? {
      ReadOwns(w);
    } else if step.CommitPublish? {
      CommitOwns(w);
    } else {
      OwnersStepWorker(w, step);
    }
  }

  /// ### The attempt budget

  // Nothing new was charged, and no row owes more than it did.
  lemma BudgetKept(w: World, v: World)
    requires BudgetOk(w) && v.charged == w.charged && w.db.nextJob <= v.db.nextJob
    requires forall id :: id in v.db.jobs ==>
      if id in w.db.jobs
      then w.db.jobs[id].attempts + (if MayOwe(w, id) then 1 else 0)
           <= v.db.jobs[id].attempts + (if MayOwe(v, id) then 1 else 0)
      else w.db.nextJob <= id && 0 <= v.db.jobs[id].attempts
    ensures BudgetOk(v)
  {
  }

  // A handler start is charged while its row runs with attempts to spare.
  lemma ChargeBudget(w: World, v: World)
    requires TableOk(w) && PhaseOk(w) && BudgetOk(w) && InHandler(w.phase)
    requires v.db == w.db && v.charged == Charge(w, w.phase.id)
    requires v.phase.Down?
      || (v.phase.Held? && v.phase.id == w.phase.id && v.phase.stage.Returned? && v.phase.stage.outcome.Errored?)
    ensures BudgetOk(v)
  {
    assert !MayOwe(w, w.phase.id);
    forall id ensures Count(v.charged, id) == Count(w.charged, id) + if id == w.phase.id then 1 else 0 {}
    forall id | id in v.db.jobs
      ensures Count(v.charged, id) <= v.db.jobs[id].attempts + if MayOwe(v, id) then 1 else 0
    {
      if id != w.phase.id { assert MayOwe(v, id) == MayOwe(w, id); }
    }
  }

  lemma BudgetStepOutside(w: World, step: Step)
    requires TableOk(w) && PhaseOk(w) && BudgetOk(w) && Enabled(w, step) && !ByWorker(step)
    ensures BudgetOk(Next(w, step))
  {
    if OnlyAdds(step) { StepGrows(w, step); }
    BudgetKept(w, Next(w, step));
  }

  lemma CommitBudget(w: World)
    requires TableOk(w) && PhaseOk(w) && BudgetOk(w) && Enabled(w, CommitPublish)
    ensures BudgetOk(Next(w, CommitPublish))
  {
    StepGrows(w, CommitPublish);
    BudgetKept(w, Next(w, CommitPublish));
  }

  // The worker's steps that leave the table alone.
  predicate TableUntouched(step: Step) {
    step.Pick? || step.Miss? || step.StartHandler? || step.ReadArticle? || step.CancelHandler? || step.FinishOther?
    || step.Return? || step.LoseBookkeeping? || step.Stop? || step.Crash?
  }

  lemma BudgetStepUntouched(w: World, step: Step)
    requires PhaseOk(w) && BudgetOk(w) && Enabled(w, step) && TableUntouched(step)
    requires !(step.Crash? && InHandler(w.phase))
    ensures BudgetOk(Next(w, step))
  {
    var v := Next(w, step);
    assert v.db == w.db && v.charged == w.charged;
    BudgetKept(w, v);
  }

  lemma BudgetStepWorker(w: World, step: Step)
    requires TableOk(w) && PhaseOk(w) && BudgetOk(w) && Enabled(w, step) && ByWorker(step) && !step.CommitPublish?
    requires !step.FailHandler? && !(step.Crash? && InHandler(w.phase))
    ensures BudgetOk(Next(w, step))
  {
    if TableUntouched(step) { BudgetStepUntouched(w, step); } else { BudgetKept(w, Next(w, step)); }
  }

  lemma BudgetStep(w: World, step: Step)
    requires TableOk(w) && PhaseOk(w) && BudgetOk(w) && Enabled(w, step)
    ensures BudgetOk(Next(w, step))
  {
    if !ByWorker(step) {
      BudgetStepOutside(w, step);
    } else if step.CommitPublish? {
      CommitBudget(w);
    } else if step.FailHandler? || (step.Crash? && InHandler(w.phase)) {
      ChargeBudget(w, Next(w, step));
    } else {
      BudgetStepWorker(w, step);
    }
  }

  lemma TerminalGrown(w: World, v: World, id: int)
    requires TableOk(w) && Grows(w.db, v.db) && id < w.db.nextJob
    ensures id < v.db.nextJob
    ensures id in v.db.jobs ==> id in w.db.jobs && v.db.jobs[id] == w.db.jobs[id]
  {
  }

  // A row that reached `done` or `failed` stays there, or is cleaned up.
  lemma TerminalStep(w: World, step: Step, id: int)
    requires TableOk(w) && PhaseOk(w) && Enabled(w, step)
    requires id < w.db.nextJob && (id in w.db.jobs ==> !w.db.jobs[id].Active())
    ensures id < Next(w, step).db.nextJob
    ensures id in Next(w, step).db.jobs ==> id in w.db.jobs && Next(w, step).db.jobs[id] == w.db.jobs[id]
  {
    if OnlyAdds(step) {
      StepGrows(w, step);
      TerminalGrown(w, Next(w, step), id);
    }
  }

  /// ### The log of saves and flips

  lemma LogKept(w: World, v: World)
    requires LogOk(w) && v.log == w.log && SchedulesNothingNew(w.db, v.db)
    ensures LogOk(v)
  {
  }

  lemma SavedSinceExtends(log: seq<Event>, event: Event, article: int, from: int, to: int)
    requires SavedSince(log, article, from, to)
    ensures SavedSince(log + [event], article, from, to) && SavedSince(log + [event], article, from, to + 1)
  {
    var k :| from < k < to && 0 <= k < |log| && log[k] == SavedToSchedule(article);
    assert (log + [event])[k] == SavedToSchedule(article);
  }

  lemma ScheduleLog(w: World, id: int, form: SaveForm, channels: Channels)
    requires LogOk(w) && Enabled(w, Save(id, form, channels)) && form.status.Schedule?
    ensures LogOk(Next(w, Save(id, form, channels)))
  {
    var event := SavedToSchedule(id);
    var v := Next(w, Save(id, form, channels));
    forall i, j | 0 <= i < j < |v.log| && v.log[i].Flipped? && v.log[j].Flipped? && v.log[i].article == v.log[j].article
      ensures SavedSince(v.log, v.log[i].article, i, j)
    {
      SavedSinceExtends(w.log, event, v.log[i].article, i, j);
    }
    forall article, i | article in v.db.articles && v.db.articles[article].status.Schedule? && 0 <= i < |v.log|
      && v.log[i].Flipped? && v.log[i].article == article
      ensures SavedSince(v.log, article, i, |v.log|)
    {
      if article == id {
        assert v.log[|w.log|] == SavedToSchedule(article);
      } else {
        SavedSinceExtends(w.log, event, article, i, |w.log|);
      }
    }
  }

  lemma CommitLog(w: World)
    requires LogOk(w) && Enabled(w, CommitPublish)
    ensures LogOk(Next(w, CommitPublish))
  {
    var flipped := w.phase.job.payload.article;
    var v := Next(w, CommitPublish);
    if Flips(w.db, flipped) {
      var event := v.log[|w.log|];
      assert v.log == w.log + [event];
      forall i, j | 0 <= i < j < |v.log| && v.log[i].Flipped? && v.log[j].Flipped?
        && v.log[i].article == v.log[j].article
        ensures SavedSince(v.log, v.log[i].article, i, j)
      {
        SavedSinceExtends(w.log, event, v.log[i].article, i, j);
      }
      forall article, i | article in v.db.articles && v.db.articles[article].status.Schedule? && 0 <= i < |v.log|
        && v.log[i].Flipped? && v.log[i].article == article
        ensures SavedSince(v.log, article, i, |v.log|)
      {
        SavedSinceExtends(w.log, event, article, i, |w.log|);
      }
    } else {
      LogKept(w, v);
    }
  }

  lemma LogStep(w: World, step: Step)
    requires LogOk(w) && Enabled(w, step)
    ensures LogOk(Next(w, step))
  {
    if step.Save? && step.form.status.Schedule? {
      ScheduleLog(w, step.id, step.form, step.channels);
    } else if step.CommitPublish? {
      CommitLog(w);
    } else {
      LogKept(w, Next(w, step));
    }
  }

  /// ### The batches of follow-ups

  lemma HandlerRowsAppend(log: seq<Event>, handlerRows: set<int>, event: Event, after: set<int>)
    requires HandlerRowsOk(log, handlerRows)
    requires forall id :: id in after <==> id in handlerRows || event.Inserted(id)
    ensures HandlerRowsOk(log + [event], after)
  {
    var more := log + [event];
    assert more[|log|] == event && forall i :: 0 <= i < |log| ==> more[i] == log[i];
    forall id | id in after ensures exists i :: 0 <= i < |more| && more[i].Inserted(id) {
      if id in handlerRows {
        var i :| 0 <= i < |log| && log[i].Inserted(id);
        assert more[i].Inserted(id);
      } else {
        assert more[|log|].Inserted(id);
      }
    }
  }

  // One more event, whose batch (if it has one) is the newly numbered rows.
  lemma BatchesAppend(w: World, v: World, event: Event)
    requires BatchesOk(w) && v.log == w.log + [event] && w.db.nextJob <= v.db.nextJob
    requires event.Flipped? ==> event.first == w.db.nextJob && v.db.nextJob == w.db.nextJob + |event.batch|
    requires forall id :: id in v.handlerRows <==> id in w.handlerRows || event.Inserted(id)
    requires forall id :: id in w.born ==> id in v.born && v.born[id] == w.born[id]
    requires forall id :: id in v.born ==> id < v.db.nextJob
    requires BatchOk(event, v.born)
    ensures BatchesOk(v)
  {
    HandlerRowsAppend(w.log, w.handlerRows, event, v.handlerRows);
    forall i | 0 <= i < |v.log| ensures BatchOk(v.log[i], v.born) {
      if i < |w.log| { assert BatchOk(w.log[i], w.born); }
    }
  }

  lemma BatchesKept(w: World, v: World)
    requires BatchesOk(w) && v.handlerRows == w.handlerRows && w.db.nextJob <= v.db.nextJob && v.log == w.log
    requires forall id :: id in w.born ==> id in v.born && v.born[id] == w.born[id]
    requires forall id :: id in v.born ==> id < v.db.nextJob
    ensures BatchesOk(v)
  {
  }

  // What recording a grown database does to the history of inserted rows.
  lemma RecordedRows(w: World, after: Db, batch: seq<JobRun>)
    requires TableOk(w) && (forall id :: id in w.born ==> id < w.db.nextJob)
    requires after.nextJob == w.db.nextJob + |batch|
    requires forall id :: id in after.jobs <==> id in w.db.jobs || w.db.nextJob <= id < after.nextJob
    requires forall id :: w.db.nextJob <= id < after.nextJob ==> after.jobs[id] == batch[id - w.db.nextJob]
    ensures forall id :: id in w.born ==> id in Record(w, after).born && Record(w, after).born[id] == w.born[id]
    ensures forall id :: id in Record(w, after).born ==> id < after.nextJob
    ensures forall id :: w.db.nextJob <= id < after.nextJob ==>
      id in Record(w, after).born && Record(w, after).born[id] == batch[id - w.db.nextJob]
    ensures forall id :: id in after.jobs.Keys - w.db.jobs.Keys <==> w.db.nextJob <= id < after.nextJob
  {
    forall id ensures id in after.jobs.Keys - w.db.jobs.Keys <==> w.db.nextJob <= id < after.nextJob {
      NewKey(w.db.jobs, after.jobs, w.db.nextJob, after.nextJob, id);
    }
  }

  lemma NewKey(before: Table, after: Table, from: int, to: int, id: int)
    requires id in before ==> id < from
    requires id in after <==> id in before || from <= id < to
    ensures id in after.Keys - before.Keys <==> from <= id < to
  {
  }

  lemma FlipBatches(w: World, article: int, read: Article, at: int)
    requires TableOk(w) && BatchesOk(w) && w.phase.Held? && read.ReadyAt(at) && Flips(w.db, article)
    ensures BatchesOk(AfterCommit(w, article, read, at))
  {
    var v := AfterCommit(w, article, read, at);
    var batch := FollowUps(article, read.platforms, read.newsletter, at);
    var event := Flipped(article, read, w.db.articles[article], at, w.db.nextJob, batch);
    FlipRecords(w, article, read, at, batch, event);
    assert BatchOk(event, v.born);
    BatchesAppend(w, v, event);
  }

  lemma FlipRecords(w: World, article: int, read: Article, at: int, batch: seq<JobRun>, event: Event)
    requires TableOk(w) && (forall id :: id in w.born ==> id < w.db.nextJob)
    requires w.phase.Held? && read.ReadyAt(at) && Flips(w.db, article)
    requires batch == FollowUps(article, read.platforms, read.newsletter, at)
    requires event == Flipped(article, read, w.db.articles[article], at, w.db.nextJob, batch)
    ensures
      var v := AfterCommit(w, article, read, at);
      && v.log == w.log + [event]
      && v.db.nextJob == w.db.nextJob + |batch|
      && (forall id :: id in v.handlerRows <==> id in w.handlerRows || w.db.nextJob <= id < v.db.nextJob)
      && (forall id :: id in w.born ==> id in v.born && v.born[id] == w.born[id])
      && (forall id :: id in v.born ==> id < v.db.nextJob)
      && (forall id :: w.db.nextJob <= id < v.db.nextJob ==> id in v.born && v.born[id] == batch[id - w.db.nextJob])
  {
    var v := AfterCommit(w, article, read, at);
    assert v.db == PublishTx(w.db, article, read, at);
    assert v.born == Record(w, v.db).born;
    RecordedRows(w, v.db, batch);
  }

  lemma CommitBatches(w: World)
    requires TableOk(w) && PhaseOk(w) && BatchesOk(w) && Enabled(w, CommitPublish)
    ensures BatchesOk(Next(w, CommitPublish))
  {
    var article := w.phase.job.payload.article;
    if Flips(w.db, article) {
      FlipBatches(w, article, w.phase.stage.read, w.phase.stage.at);
    } else {
      BatchesKept(w, Next(w, CommitPublish));
    }
  }

  lemma RecordKeepsBorn(w: World, after: Db)
    requires (forall id :: id in w.born ==> id < w.db.nextJob) && w.db.nextJob <= after.nextJob
    requires forall id :: id in after.jobs ==> id < after.nextJob
    ensures forall id :: id in w.born ==> id in Record(w, after).born && Record(w, after).born[id] == w.born[id]
    ensures forall id :: id in Record(w, after).born ==> id < after.nextJob
  {
  }

  lemma SaveBatches(w: World, id: int, form: SaveForm, channels: Channels)
    requires TableOk(w) && BatchesOk(w) && Enabled(w, Save(id, form, channels))
    ensures BatchesOk(AfterSave(w, id, form, channels))
  {
    if !form.status.Schedule? { SaveGrows(w, id, form, channels, w.clock); }
    var v := AfterSave(w, id, form, channels);
    RecordKeepsBorn(w, v.db);
    if form.status.Schedule? {
      BatchesAppend(w, v, SavedToSchedule(id));
    } else {
      BatchesKept(w, v);
    }
  }

  lemma BatchesStepWorker(w: World, step: Step)
    requires BatchesOk(w) && Enabled(w, step) && ByWorker(step) && !step.CommitPublish?
    ensures BatchesOk(Next(w, step))
  {
    BatchesKept(w, Next(w, step));
  }

  lemma BatchesStepOutside(w: World, step: Step)
    requires TableOk(w) && BatchesOk(w) && Enabled(w, step) && !ByWorker(step) && !step.Save?
    ensures BatchesOk(Next(w, step))
  {
    if OnlyAdds(step) { StepGrows(w, step); }
    BatchesKept(w, Next(w, step));
  }

  lemma BatchesStep(w: World, step: Step)
    requires TableOk(w) && PhaseOk(w) && BatchesOk(w) && Enabled(w, step)
    ensures BatchesOk(Next(w, step))
  {
    if step.CommitPublish? {
      CommitBatches(w);
    } else if step.Save? {
      SaveBatches(w, step.id, step.form, step.channels);
    } else if ByWorker(step) {
      BatchesStepWorker(w, step);
    } else {
      BatchesStepOutside(w, step);
    }
  }

  lemma ExhaustedStep(w: World, step: Step)
    requires TableOk(w) && PhaseOk(w) && ExhaustedOk(w) && Enabled(w, step)
    ensures ExhaustedOk(Next(w, step))
  {
    forall id | id in w.exhausted
      ensures id < Next(w, step).db.nextJob
      ensures id in Next(w, step).db.jobs ==> id in w.db.jobs && Next(w, step).db.jobs[id] == w.db.jobs[id]
    {
      TerminalStep(w, step, id);
    }
  }

  /// ### Publish rows come from saves

  lemma SavesGrown(w: World, v: World)
    requires TableOk(w) && SavesOk(w) && Grows(w.db, v.db) && v.owner == w.owner
    ensures SavesOk(v)
  {
  }

  lemma SavesStepWorker(w: World, step: Step)
    requires TableOk(w) && PhaseOk(w) && SavesOk(w) && Enabled(w, step) && ByWorker(step) && !step.CommitPublish?
    ensures SavesOk(Next(w, step))
  {
  }

  lemma SavesStepOutside(w: World, step: Step)
    requires SavesOk(w) && Enabled(w, step) && !ByWorker(step) && !OnlyAdds(step)
    ensures SavesOk(Next(w, step))
  {
  }

  lemma SavesStep(w: World, step: Step)
    requires TableOk(w) && PhaseOk(w) && SavesOk(w) && Enabled(w, step)
    ensures SavesOk(Next(w, step))
  {
    if OnlyAdds(step) {
      StepGrows(w, step);
      SavesGrown(w, Next(w, step));
    } else if ByWorker(step) {
      SavesStepWorker(w, step);
    } else {
      SavesStepOutside(w, step);
    }
  }

  /// ### Whole runs

  lemma StepKeepsInv(w: World, step: Step)
    requires Inv(w) && Enabled(w, step)
    ensures Inv(Next(w, step))
  {
    TableStep(w, step);
    PhaseStep(w, step);
    OwnersStep(w, step);
    ExhaustedStep(w, step);
    BudgetStep(w, step);
    LogStep(w, step);
    BatchesStep(w, step);
    SavesStep(w, step);
  }

  lemma {:induction false} RunKeepsInv(w: World, steps: seq<Step>)
    requires Inv(w) && Legal(w, steps)
    ensures Inv(Exec(w, steps))
    decreases |steps|
  {
    if steps != [] {
      StepKeepsInv(w, steps[0]);
      RunKeepsInv(Next(w, steps[0]), steps[1..]);
    }
  }

  // No scheduled publication is stranded: a scheduled article has a publish row, not due
  // before the article is, that is queued or still being worked on, unless the row made
  // by its latest save to schedule has used up its attempts.
  lemma NeverStranded(w: World, steps: seq<Step>, article: int)
    requires Init(w) && Legal(w, steps)
    requires article in Exec(w, steps).db.articles && Exec(w, steps).db.articles[article].status.Schedule?
    ensures
      var v := Exec(w, steps);
      var row := v.db.articles[article];
      && row.scheduledAt.Some? && article in v.owner
      && ((exists id :: Pending(v, id, article, row.scheduledAt.value))
          || (v.owner[article] in v.exhausted
              && (v.owner[article] in v.db.jobs ==>
                  v.db.jobs[v.owner[article]].status.Failed? && v.db.jobs[v.owner[article]].attempts == MAX_ATTEMPTS)))
  {
    InitInv(w);
    RunKeepsInv(w, steps);
    assert Owned(Exec(w, steps), article);
  }

  // Follow-ups are enqueued exactly once per flip: two flips of an article have a save to
  // schedule between them, the rows that handlers ever inserted are exactly the batches of
  // the committed flips, the batches share no row, and each is what the snapshot read by
  // its handler asked for, at or after the time that snapshot was scheduled for.
  lemma FollowUpsOncePerFlip(w: World, steps: seq<Step>)
    requires Init(w) && Legal(w, steps)
    ensures
      var v := Exec(w, steps);
      && FlipsSeparated(v.log)
      && HandlerRowsOk(v.log, v.handlerRows)
      && BatchesApart(v.log, v.db.nextJob)
      && forall i :: 0 <= i < |v.log| ==> BatchOk(v.log[i], v.born)
  {
    InitInv(w);
    RunKeepsInv(w, steps);
  }

  // No handler publishes before the time that the row it read was scheduled for.
  lemma NeverEarly(w: World, steps: seq<Step>, i: nat)
    requires Init(w) && Legal(w, steps) && i < |Exec(w, steps).log| && Exec(w, steps).log[i].Flipped?
    ensures
      var flip := Exec(w, steps).log[i];
      flip.read.status == Schedule && flip.read.scheduledAt != None && flip.read.scheduledAt.value <= flip.at
  {
    FollowUpsOncePerFlip(w, steps);
  }

  // The budget: no row exceeds its attempts, active rows have one to spare, and at most
  // five handler starts of a row ever ended in an error, a panic or with the process.
  lemma AttemptBudget(w: World, steps: seq<Step>, id: int)
    requires Init(w) && Legal(w, steps)
    ensures Count(Exec(w, steps).charged, id) <= MAX_ATTEMPTS
    ensures id in Exec(w, steps).db.jobs ==>
      var job := Exec(w, steps).db.jobs[id];
      0 <= job.attempts <= MAX_ATTEMPTS && (job.Active() ==> job.attempts < MAX_ATTEMPTS)
  {
    InitInv(w);
    RunKeepsInv(w, steps);
  }

  lemma {:induction false} TerminalForever(w: World, steps: seq<Step>, id: int)
    requires Inv(w) && Legal(w, steps)
    requires id < w.db.nextJob && (id in w.db.jobs ==> !w.db.jobs[id].Active())
    ensures id in Exec(w, steps).db.jobs ==> id in w.db.jobs && Exec(w, steps).db.jobs[id] == w.db.jobs[id]
    decreases |steps|
  {
    if steps != [] {
      var next := Next(w, steps[0]);
      StepKeepsInv(w, steps[0]);
      TerminalStep(w, steps[0], id);
      TerminalForever(next, steps[1..], id);
    }
  }
}
