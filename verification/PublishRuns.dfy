/**
 Scheduled publishing as a transition system: every interleaving of article saves, status
 changes and deletions with the worker's claims, the split publish handler (read, then
 transaction), retries, shutdowns, crashes and restarts.

 Assumptions: one live process, a clock that never goes back, atomic transactions, fresh
 job ids (`RowNumbers` does without); article ids may be used again. A crash may happen
 between any two steps. The database statements are those of `JobTable` and `Publishing`.
 */
module PublishRuns {
  import opened Options
  import opened JobTable
  import opened Publishing

  /// ### States

  // How far the worker is with the row it holds. `Ready` is the publish handler between
  // its read of the article (which passed the guard) and its transaction; `Finishing` a
  // handler with nothing left to do but come back.
  datatype Stage = Taken | Started | Ready(read: Article, at: int) | Finishing | Returned(outcome: Outcome)

  datatype Phase =
    | Down
    | Idle
    | Picked(id: int, job: JobRun, now: int)
    | Held(id: int, job: JobRun, now: int, stage: Stage)

  datatype Event =
    | SavedToSchedule(article: int)
    | Flipped(article: int, read: Article, before: Article, at: int, first: int, batch: seq<JobRun>)
  {
    // The numbers given to the rows of a flip's batch.
    predicate Inserted(id: int) { Flipped? && first <= id < first + |batch| }
  }

  // `owner` to `handlerRows` are history: the row made by each article's latest save to
  // schedule, the rows that failed for lack of budget, the handler starts that ended in
  // error, panic or process death, every row as inserted, the saves and flips in order,
  // and the rows inserted by publish handlers.
  datatype World = World(
    db: Db, clock: int, phase: Phase, stopping: bool, registered: set<Kind>,
    owner: map<int, int>, exhausted: set<int>, charged: map<int, int>,
    born: map<int, JobRun>, log: seq<Event>, handlerRows: set<int>)

  predicate Init(w: World) {
    w.db == Db(map[], 1, map[], 1) && w.phase == Down && PublishArticle in w.registered
    && w.owner == map[] && w.exhausted == {} && w.charged == map[] && w.born == map[] && w.log == []
    && w.handlerRows == {}
  }

  function Count(charged: map<int, int>, id: int): int {
    if id in charged then charged[id] else 0
  }

  function Charge(w: World, id: int): map<int, int> {
    w.charged[id := Count(w.charged, id) + 1]
  }

  // Moves to a database value and records the rows it inserted.
  function Record(w: World, db: Db): World {
    w.(db := db, born := w.born + map id | id in db.jobs && w.db.nextJob <= id :: db.jobs[id])
  }

  /// ### Steps

  datatype Step =
    | Tick(to: int)
    | Save(id: int, form: SaveForm, channels: Channels)
    | Transition(id: int, target: ArticleStatus, read: Article, channels: Channels)
    | Destroy(id: int)
    | Enqueue(kind: Kind, payload: Payload, runAt: int)
    | CancelPage(page: int)
    | Cleanup(cutoff: int)
    | Pick(id: int)
    | Miss
    | ClaimRow
    | RejectKind
    | StartHandler
    | ReadArticle
    | CommitPublish
    | FailHandler(message: string)
    | CancelHandler(message: string)
    | FinishOther
    | Return
    | Settle
    | LoseBookkeeping
    | Shutdown
    | Stop
    | Crash
    | Restart(cutoff: int)

  // The handler has been started and has not come back.
  predicate InHandler(p: Phase) {
    p.Held? && (p.stage.Started? || p.stage.Ready? || p.stage.Finishing?)
  }

  // It can still come back with an error.
  predicate Working(p: Phase) {
    InHandler(p) && !p.stage.Finishing?
  }

  // The callers of TransitionStatus never ask for the schedule status, and only Save
  // enqueues publish_article rows.
  predicate Enabled(w: World, step: Step) {
    match step
    case Tick(to) => w.clock <= to
    case Save(_, form, _) => form.Accepted()
    case Transition(id, target, _, _) => id in w.db.articles && !target.Schedule?
    case Destroy(_) => true
    case Enqueue(kind, _, _) => !kind.PublishArticle?
    case CancelPage(_) => true
    case Cleanup(_) => true
    case Pick(id) => w.phase.Idle? && !w.stopping && Oldest(w.db.jobs, id, w.clock)
    case Miss => w.phase.Picked?
    case ClaimRow => w.phase.Picked? && w.phase.id in w.db.jobs && w.db.jobs[w.phase.id].status.Queued?
    case RejectKind => w.phase.Held? && w.phase.stage.Taken? && w.phase.job.kind !in w.registered
    case StartHandler => w.phase.Held? && w.phase.stage.Taken? && w.phase.job.kind in w.registered
    case ReadArticle => w.phase.Held? && w.phase.stage.Started? && w.phase.job.kind.PublishArticle?
      && w.phase.job.payload.ForArticle?
    case CommitPublish => w.phase.Held? && w.phase.stage.Ready? && w.phase.stage.read.scheduledAt.Some?
      && w.phase.job.payload.ForArticle?
    case FailHandler(_) => Working(w.phase)
    case CancelHandler(_) => Working(w.phase) && w.stopping
    case FinishOther => w.phase.Held? && w.phase.stage.Started? && !w.phase.job.kind.PublishArticle?
    case Return => w.phase.Held? && w.phase.stage.Finishing?
    case Settle => w.phase.Held? && w.phase.stage.Returned? && 0 <= w.phase.job.attempts
    case LoseBookkeeping => w.phase.Held? && w.phase.stage.Returned?
    case Shutdown => !w.phase.Down?
    case Stop => w.phase.Idle? && w.stopping
    case Crash => !w.phase.Down?
    case Restart(_) => w.phase.Down?
  }

  function Next(w: World, step: Step): World
    requires Enabled(w, step)
  {
    match step
    case Tick(to) => w.(clock := to)
    case Save(id, form, channels) => AfterSave(w, id, form, channels)
    case Transition(id, target, read, channels) => Record(w, TransitionTx(w.db, id, target, read, channels, w.clock))
    case Destroy(id) => Record(w, DestroyTx(w.db, id))
    case Enqueue(kind, payload, runAt) => Record(w, Insert(w.db, NewJob(kind, payload, runAt, w.clock)))
    case CancelPage(page) => w.(db := w.db.(jobs := CancelPages(w.db.jobs, page, w.clock)))
    case Cleanup(cutoff) => w.(db := w.db.(jobs := DeleteFinished(w.db.jobs, cutoff)))
    case Pick(id) => w.(phase := Picked(id, w.db.jobs[id], w.clock))
    case Miss => w.(phase := Idle)
    case ClaimRow =>
      w.(db := w.db.(jobs := Claim(w.db.jobs, w.phase.id, w.phase.now)),
         phase := Held(w.phase.id, w.phase.job, w.phase.now, Taken))
    case RejectKind =>
      w.(db := w.db.(jobs := w.db.jobs[w.phase.id := UnknownKind(w.phase.job, w.clock)]), phase := Idle)
    case StartHandler => w.(phase := w.phase.(stage := Started))
    case ReadArticle => AfterRead(w, w.phase.job.payload.article)
    case CommitPublish => AfterCommit(w, w.phase.job.payload.article, w.phase.stage.read, w.phase.stage.at)
    case FailHandler(message) =>
      w.(phase := w.phase.(stage := Returned(Errored(message))), charged := Charge(w, w.phase.id))
    case CancelHandler(message) => w.(phase := w.phase.(stage := Returned(Canceled(message))))
    case FinishOther => w.(phase := w.phase.(stage := Finishing))
    case Return => w.(phase := w.phase.(stage := Returned(Succeeded)))
    case Settle => AfterSettle(w, w.phase.id, w.phase.job, w.phase.now, w.phase.stage.outcome)
    case LoseBookkeeping => w.(phase := Idle)
    case Shutdown => w.(stopping := true)
    case Stop => w.(phase := Down)
    case Crash => w.(phase := Down, charged := if InHandler(w.phase) then Charge(w, w.phase.id) else w.charged)
    case Restart(cutoff) => AfterRestart(w, cutoff)
  }

  function AfterSave(w: World, id: int, form: SaveForm, channels: Channels): World {
    var saved := Record(w, SaveTx(w.db, id, form, channels, w.clock));
    if form.status.Schedule? && form.scheduledAt.Some? then
      saved.(owner := w.owner[id := w.db.nextJob], log := w.log + [SavedToSchedule(id)])
    else
      saved
  }

  // A missing article, or one that is not due for publishing, leaves nothing to do.
  function AfterRead(w: World, article: int): World
    requires w.phase.Held?
  {
    if article in w.db.articles && w.db.articles[article].ReadyAt(w.clock) then
      w.(phase := w.phase.(stage := Ready(w.db.articles[article], w.clock)))
    else
      w.(phase := w.phase.(stage := Finishing))
  }

  function AfterCommit(w: World, article: int, read: Article, at: int): World
    requires w.phase.Held? && read.scheduledAt.Some?
  {
    var done := w.(phase := w.phase.(stage := Finishing));
    if Flips(w.db, article) then
      var batch := FollowUps(article, read.platforms, read.newsletter, at);
      var event := Flipped(article, read, w.db.articles[article], at, w.db.nextJob, batch);
      var after := PublishTx(w.db, article, read, at);
      Record(done, after).(log := w.log + [event], handlerRows := w.handlerRows + (after.jobs.Keys - w.db.jobs.Keys))
    else
      done
  }

  function AfterSettle(w: World, id: int, job: JobRun, now: int, outcome: Outcome): World
    requires 0 <= job.attempts
  {
    var row := Settled(job, now, w.clock, w.stopping, outcome);
    w.(db := w.db.(jobs := w.db.jobs[id := row]), phase := Idle,
       exhausted := if row.status.Failed? then w.exhausted + {id} else w.exhausted)
  }

  function AfterRestart(w: World, cutoff: int): World {
    w.(db := w.db.(jobs := RequeueStale(w.db.jobs, w.clock, cutoff)), phase := Idle, stopping := false,
       exhausted := w.exhausted + set id | id in w.db.jobs && w.db.jobs[id].Active()
         && Recovered(w.db.jobs[id], w.clock, cutoff).status.Failed?)
  }

  // A run, as the steps it takes from `w`.
  predicate Legal(w: World, steps: seq<Step>)
    decreases |steps|
  {
    steps == [] || (Enabled(w, steps[0]) && Legal(Next(w, steps[0]), steps[1..]))
  }

  function Exec(w: World, steps: seq<Step>): World
    requires Legal(w, steps)
    decreases |steps|
  {
    if steps == [] then w else Exec(Next(w, steps[0]), steps[1..])
  }

  /// ### The invariant

  ghost predicate RowOk(id: int, job: JobRun, nextJob: int) {
    && id < nextJob
    && 0 <= job.attempts <= MAX_ATTEMPTS
    && (job.Active() ==> job.attempts < MAX_ATTEMPTS)
    && (job.kind.PublishArticle? ==> job.payload.ForArticle?)
  }

  ghost predicate TableOk(w: World) {
    forall id :: id in w.db.jobs ==> RowOk(id, w.db.jobs[id], w.db.nextJob)
  }

  ghost predicate PhaseOk(w: World) {
    match w.phase
    case Down => true
    case Idle => true
    case Picked(id, job, now) =>
      && job.Due(now) && now <= w.clock && RowOk(id, job, w.db.nextJob)
      && (id in w.db.jobs && w.db.jobs[id].status.Queued? ==> w.db.jobs[id] == job)
    case Held(id, job, now, stage) =>
      && job.Due(now) && now <= w.clock && RowOk(id, job, w.db.nextJob)
      && id in w.db.jobs && w.db.jobs[id] == Claimed(job, now)
      && (!stage.Taken? ==> job.kind in w.registered)
      && (stage.Ready? ==> job.kind.PublishArticle? && stage.read.ReadyAt(stage.at) && stage.at <= w.clock)
      && (stage.Returned? && stage.outcome.Canceled? ==> w.stopping)
  }

  // The worker's publish handler for this row is through, and comes or came back without an
  // error.
  predicate GaveUp(w: World, id: int) {
    w.phase.Held? && w.phase.id == id && (w.phase.stage.Finishing? || w.phase.stage == Returned(Succeeded))
  }

  // A row that will still publish the article at or after `at`.
  ghost predicate Pending(w: World, id: int, article: int, at: int) {
    && id in w.db.jobs && w.db.jobs[id].Publishes(article) && at <= w.db.jobs[id].runAt
    && (w.db.jobs[id].status.Queued? || (w.db.jobs[id].status.Running? && !GaveUp(w, id)))
  }

  ghost predicate Owned(w: World, article: int)
    requires article in w.db.articles
  {
    var row := w.db.articles[article];
    row.status.Schedule? ==>
      && row.scheduledAt.Some? && article in w.owner
      && (w.owner[article] in w.exhausted || Pending(w, w.owner[article], article, row.scheduledAt.value))
  }

  ghost predicate OwnersOk(w: World) {
    && PublishArticle in w.registered
    && forall article :: article in w.db.articles ==> Owned(w, article)
  }

  // A handler start of this row has ended badly but no attempt has been charged for it yet.
  predicate MayOwe(w: World, id: int)
    requires id in w.db.jobs
  {
    w.db.jobs[id].status.Running? &&
    !(w.phase.Held? && w.phase.id == id && !(w.phase.stage.Returned? && w.phase.stage.outcome.Errored?))
  }

  ghost predicate BudgetOk(w: World) {
    && (forall id {:trigger Count(w.charged, id)} :: 0 <= Count(w.charged, id) <= MAX_ATTEMPTS)
    && (forall id {:trigger Count(w.charged, id)} :: w.db.nextJob <= id ==> Count(w.charged, id) == 0)
    && (forall id :: id in w.db.jobs ==>
      Count(w.charged, id) <= w.db.jobs[id].attempts + if MayOwe(w, id) then 1 else 0)
  }

  ghost predicate SavedSince(log: seq<Event>, article: int, from: int, to: int) {
    exists k :: from < k < to && 0 <= k < |log| && log[k] == SavedToSchedule(article)
  }

  ghost predicate FlipsSeparated(log: seq<Event>) {
    forall i, j :: 0 <= i < j < |log| && log[i].Flipped? && log[j].Flipped? && log[i].article == log[j].article
      ==> SavedSince(log, log[i].article, i, j)
  }

  ghost predicate LogOk(w: World) {
    && FlipsSeparated(w.log)
    && (forall article, i ::
          (article in w.db.articles && w.db.articles[article].status.Schedule? && 0 <= i < |w.log|
           && w.log[i].Flipped? && w.log[i].article == article)
          ==> SavedSince(w.log, article, i, |w.log|))
  }

  // The handlers inserted the rows of the flips' batches and no others.
  ghost predicate HandlerRowsOk(log: seq<Event>, handlerRows: set<int>) {
    && (forall id :: id in handlerRows ==> exists i :: 0 <= i < |log| && log[i].Inserted(id))
    && (forall i, id :: 0 <= i < |log| && log[i].Inserted(id) ==> id in handlerRows)
  }

  // Each batch is what its snapshot asks for, and is what was inserted.
  ghost predicate BatchOk(event: Event, born: map<int, JobRun>) {
    event.Flipped? ==>
      && event.read.ReadyAt(event.at)
      && event.batch == FollowUps(event.article, event.read.platforms, event.read.newsletter, event.at)
      && forall id :: event.Inserted(id) ==> id in born && born[id] == event.batch[id - event.first]
  }

  // Batches do not overlap.
  ghost predicate BatchesApart(log: seq<Event>, nextJob: int) {
    && (forall i, j :: 0 <= i < j < |log| && log[i].Flipped? && log[j].Flipped? ==>
      log[i].first + |log[i].batch| <= log[j].first)
    && (forall i :: 0 <= i < |log| && log[i].Flipped? ==> log[i].first + |log[i].batch| <= nextJob)
  }

  ghost predicate BatchesOk(w: World) {
    && (forall id :: id in w.born ==> id < w.db.nextJob)
    && HandlerRowsOk(w.log, w.handlerRows)
    && (forall i :: 0 <= i < |w.log| ==> BatchOk(w.log[i], w.born))
    && BatchesApart(w.log, w.db.nextJob)
  }

  // A row counted as exhausted has failed with no attempt left, or was cleaned up since.
  ghost predicate ExhaustedOk(w: World) {
    forall id :: id in w.exhausted ==>
      && id < w.db.nextJob
      && (id in w.db.jobs ==> w.db.jobs[id].status.Failed? && w.db.jobs[id].attempts == MAX_ATTEMPTS)
  }

  // A publish row is of an article that was saved to schedule.
  ghost predicate SavesOk(w: World) {
    forall id :: id in w.db.jobs && w.db.jobs[id].kind.PublishArticle? ==>
      w.db.jobs[id].payload.ForArticle? && w.db.jobs[id].payload.article in w.owner
  }

  ghost predicate Inv(w: World) {
    && TableOk(w) && PhaseOk(w) && OwnersOk(w) && ExhaustedOk(w) && BudgetOk(w) && LogOk(w) && BatchesOk(w)
    && SavesOk(w)
  }

  lemma InitInv(w: World)
    requires Init(w)
    ensures Inv(w)
  {
  }
}
