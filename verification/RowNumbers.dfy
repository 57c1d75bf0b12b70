/**
 Job ids as SQLite hands them out. The `id` column of job_runs is an INTEGER PRIMARY KEY
 without AUTOINCREMENT, so a new row gets one more than the largest id in the table, and an
 id may come back once its row is deleted.

 `PublishRuns` names rows for good. Here each row of the table also has its number, which is
 all that the worker's statements know it by. They hit the row they mean unless a claim goes
 astray: the number of the row that the worker has selected was handed out again before.
 */
module RowNumbers {
  import opened Options
  import opened JobTable
  import opened Publishing
  import opened PublishRuns
  import opened PublishSafety
  import opened PublishScenarios

  // `picked` is the id that the worker read with its last selection.
  datatype Numbered = Numbered(w: World, number: map<int, int>, picked: int)

  // The largest number left, or 0, when the table becomes `after`.
  ghost predicate IsTop(number: map<int, int>, after: Table, top: int) {
    && (forall id :: id in number && id in after ==> number[id] <= top)
    && (top == 0 || exists id :: id in number && id in after && number[id] == top)
  }

  // Rows that stay keep their numbers; the new ones count on from the largest.
  ghost predicate Numbers(n: Numbered, m: Numbered, top: int) {
    && IsTop(n.number, m.w.db.jobs, top)
    && (forall id :: id in m.number <==> id in m.w.db.jobs)
    && (forall id :: id in m.number ==>
          m.number[id] == if id in n.number then n.number[id] else top + 1 + (id - n.w.db.nextJob))
  }

  // The claim would hit a queued row that is not the one selected.
  ghost predicate ClaimsOther(n: Numbered, other: int) {
    && n.w.phase.Picked? && other in n.w.db.jobs && other != n.w.phase.id
    && n.w.db.jobs[other].status.Queued? && other in n.number && n.number[other] == n.picked
  }

  ghost predicate Astray(n: Numbered) {
    exists other :: ClaimsOther(n, other)
  }

  // A step in which no claim goes astray.
  ghost predicate Moves(n: Numbered, step: Step, m: Numbered, top: int) {
    && Enabled(n.w, step) && m.w == Next(n.w, step) && Numbers(n, m, top)
    && (step.ClaimRow? || step.Miss? ==> !Astray(n))
    && m.picked == if step.Pick? && step.id in n.number then n.number[step.id] else n.picked
  }

  ghost predicate Trace(states: seq<Numbered>, steps: seq<Step>, tops: seq<int>) {
    && |states| == |steps| + 1 && |tops| == |steps|
    && forall i :: 0 <= i < |steps| ==> Moves(states[i], steps[i], states[i + 1], tops[i])
  }

  ghost predicate NumbersOk(n: Numbered) {
    && (forall id :: id in n.number <==> id in n.w.db.jobs)
    && (forall id :: id in n.number ==> n.number[id] > 0)
    && (forall id, other :: id in n.number && other in n.number && n.number[id] == n.number[other] ==> id == other)
    && ((n.w.phase.Picked? || n.w.phase.Held?) && n.w.phase.id in n.number ==> n.number[n.w.phase.id] == n.picked)
  }

  /// ### When a number comes back

  // A new row gets the number that the worker is about to claim.
  ghost predicate HandsOut(n: Numbered, m: Numbered) {
    n.w.phase.Picked? && exists id :: id in m.number && id !in n.number && m.number[id] == n.picked
  }

  // The rows a step inserts are those with the next names.
  lemma StepInserts(w: World, step: Step, id: int)
    requires TableOk(w) && PhaseOk(w) && Enabled(w, step)
    ensures id in Next(w, step).db.jobs && id !in w.db.jobs <==> w.db.nextJob <= id < Next(w, step).db.nextJob
  {
    if OnlyAdds(step) { StepGrows(w, step); }
  }

  // Exactly when the selected row is gone and so few rows are left that counting on from the
  // largest reaches its number.
  lemma HandsOutIff(n: Numbered, step: Step, m: Numbered, top: int)
    requires Inv(n.w) && NumbersOk(n) && Moves(n, step, m, top)
    ensures HandsOut(n, m) <==>
      n.w.phase.Picked? && top < n.picked <= top + (m.w.db.nextJob - n.w.db.nextJob)
  {
    if n.w.phase.Picked? && top < n.picked <= top + (m.w.db.nextJob - n.w.db.nextJob) {
      var id := n.w.db.nextJob + (n.picked - top - 1);
      StepInserts(n.w, step, id);
      assert id in m.number && id !in n.number && m.number[id] == n.picked;
    }
    if HandsOut(n, m) {
      var id :| id in m.number && id !in n.number && m.number[id] == n.picked;
      StepInserts(n.w, step, id);
    }
  }

  // A row numbered like the selected one, or above it, that stays keeps the number away.
  lemma LargerRowGuards(n: Numbered, step: Step, m: Numbered, top: int, other: int)
    requires Inv(n.w) && NumbersOk(n) && Moves(n, step, m, top)
    requires other in n.number && other in m.number && n.picked <= n.number[other]
    ensures !HandsOut(n, m)
  {
    HandsOutIff(n, step, m, top);
  }

  // The save that moves an article while its row is selected hands the number out if and only
  // if the cancel leaves no row at or above that number, and one just below it or none at all.
  lemma SaveHandsOutIff(n: Numbered, article: int, form: SaveForm, channels: Channels, m: Numbered, top: int)
    requires Inv(n.w) && NumbersOk(n) && form.status.Schedule? && Moves(n, Save(article, form, channels), m, top)
    requires n.w.phase.Picked?
    ensures HandsOut(n, m) <==>
      && (forall id :: id in WithoutQueuedPublish(n.w.db.jobs, article) ==> n.number[id] < n.picked)
      && (n.picked == 1 || exists id ::
        id in WithoutQueuedPublish(n.w.db.jobs, article) && n.number[id] == n.picked - 1)
  {
    HandsOutIff(n, Save(article, form, channels), m, top);
    var left := WithoutQueuedPublish(n.w.db.jobs, article);
    forall id | id in n.number ensures id in m.w.db.jobs <==> id in left {
      SaveLeaves(n.w, article, form, channels, id);
    }
  }

  lemma SaveLeaves(w: World, article: int, form: SaveForm, channels: Channels, id: int)
    requires TableOk(w) && Enabled(w, Save(article, form, channels)) && form.status.Schedule? && id in w.db.jobs
    ensures id in Next(w, Save(article, form, channels)).db.jobs <==> id in WithoutQueuedPublish(w.db.jobs, article)
    ensures Next(w, Save(article, form, channels)).db.nextJob == w.db.nextJob + 1
  {
  }

  /// ### Runs in which no claim goes astray

  lemma NumbersStep(n: Numbered, step: Step, m: Numbered, top: int)
    requires Inv(n.w) && NumbersOk(n) && Moves(n, step, m, top)
    ensures Inv(m.w) && NumbersOk(m)
  {
    StepKeepsInv(n.w, step);
    NumbersApart(n, step, m, top);
    PhaseMoves(n, step, m, top);
  }

  lemma NumbersApart(n: Numbered, step: Step, m: Numbered, top: int)
    requires Inv(n.w) && NumbersOk(n) && Moves(n, step, m, top)
    ensures forall id :: id in m.number ==> m.number[id] > 0
    ensures forall id, other :: id in m.number && other in m.number && m.number[id] == m.number[other] ==> id == other
  {
    assert top >= 0;
    forall id | id in m.number && id !in n.number ensures m.number[id] > top && id >= n.w.db.nextJob {
      StepInserts(n.w, step, id);
    }
    forall id | id in m.number && id in n.number ensures 0 < m.number[id] <= top {}
  }

  // A row the worker has selected or holds is the one it selected before.
  lemma PhaseMoves(n: Numbered, step: Step, m: Numbered, top: int)
    requires Inv(n.w) && NumbersOk(n) && Moves(n, step, m, top)
    ensures (m.w.phase.Picked? || m.w.phase.Held?) && m.w.phase.id in m.number ==> m.number[m.w.phase.id] == m.picked
  {
    SelectedBefore(n.w, step);
    if (m.w.phase.Picked? || m.w.phase.Held?) && m.w.phase.id in m.number && m.w.phase.id !in n.number {
      StepInserts(n.w, step, m.w.phase.id);
    }
  }

  lemma SelectedOutside(w: World, step: Step)
    requires Enabled(w, step) && !ByWorker(step)
    ensures Next(w, step).phase == w.phase && !step.Pick?
  {
  }

  lemma SelectedBefore(w: World, step: Step)
    requires TableOk(w) && PhaseOk(w) && Enabled(w, step)
    ensures
      var v := Next(w, step);
      v.phase.Picked? || v.phase.Held? ==>
        && v.phase.id < w.db.nextJob
        && (step.Pick? ==> v.phase.Picked? && v.phase.id == step.id && step.id in w.db.jobs)
        && (!step.Pick? ==> w.phase.Picked? || w.phase.Held?)
        && (!step.Pick? ==> w.phase.id == v.phase.id && (v.phase.Picked? ==> w.phase.Picked?))
  {
    if !ByWorker(step) { SelectedOutside(w, step); }
  }

  lemma {:induction false} TraceKeepsNumbers(states: seq<Numbered>, steps: seq<Step>, tops: seq<int>)
    requires Trace(states, steps, tops) && Inv(states[0].w) && NumbersOk(states[0])
    ensures Legal(states[0].w, steps) && Exec(states[0].w, steps) == states[|steps|].w
    ensures Inv(states[|steps|].w) && NumbersOk(states[|steps|])
    decreases |steps|
  {
    if steps != [] {
      assert Moves(states[0], steps[0], states[1], tops[0]);
      NumbersStep(states[0], steps[0], states[1], tops[0]);
      TailTraces(states, steps, tops);
      TraceKeepsNumbers(states[1..], steps[1..], tops[1..]);
    }
  }

  lemma TailTraces(states: seq<Numbered>, steps: seq<Step>, tops: seq<int>)
    requires Trace(states, steps, tops) && steps != []
    ensures Trace(states[1..], steps[1..], tops[1..])
  {
    forall i | 0 <= i < |steps[1..]|
      ensures Moves(states[1..][i], steps[1..][i], states[1..][i + 1], tops[1..][i])
    {
      assert Moves(states[i + 1], steps[i + 1], states[i + 2], tops[i + 1]);
    }
  }

  ghost predicate Fresh(n: Numbered) {
    Init(n.w) && n.number == map[]
  }

  // UPDATE ... WHERE id = picked AND status = 'queued', on the numbers.
  ghost function ClaimByNumber(n: Numbered): Table
    requires n.w.phase.Picked?
  {
    map id | id in n.w.db.jobs ::
      if id in n.number && n.number[id] == n.picked && n.w.db.jobs[id].status.Queued?
      then Claimed(n.w.db.jobs[id], n.w.phase.now) else n.w.db.jobs[id]
  }

  // The claim by number does what the claim of the selected row does, unless it goes astray.
  lemma ClaimIsRightIff(n: Numbered)
    requires n.w.phase.Picked? && NumbersOk(n)
    ensures ClaimByNumber(n) == Claim(n.w.db.jobs, n.w.phase.id, n.w.phase.now) <==> !Astray(n)
  {
    var claimed := Claim(n.w.db.jobs, n.w.phase.id, n.w.phase.now);
    if Astray(n) {
      var other :| ClaimsOther(n, other);
      assert ClaimByNumber(n)[other].status.Running? && claimed[other].status.Queued?;
    } else {
      forall id | id in n.w.db.jobs ensures ClaimByNumber(n)[id] == claimed[id] {
        assert !ClaimsOther(n, id);
      }
      assert ClaimByNumber(n).Keys == claimed.Keys;
    }
  }

  // In a run of such steps every claim and every bookkeeping write hits its row alone.
  lemma StatementsHitTheirRow(states: seq<Numbered>, steps: seq<Step>, tops: seq<int>,
                              step: Step, m: Numbered, top: int)
    requires Trace(states, steps, tops) && Fresh(states[0]) && Moves(states[|steps|], step, m, top)
    ensures
      var n := states[|steps|];
      && (step.ClaimRow? || step.Miss? ==> ClaimByNumber(n) == Claim(n.w.db.jobs, n.w.phase.id, n.w.phase.now))
      && (n.w.phase.Held? ==> forall id :: id in n.number && n.number[id] == n.picked <==> id == n.w.phase.id)
  {
    InitInv(states[0].w);
    TraceKeepsNumbers(states, steps, tops);
    if step.ClaimRow? || step.Miss? { ClaimIsRightIff(states[|steps|]); }
  }

  // No scheduled publication is stranded in a run with SQLite's numbers, as long as no claim
  // goes astray.
  lemma NeverStrandedByNumber(states: seq<Numbered>, steps: seq<Step>, tops: seq<int>, article: int)
    requires Trace(states, steps, tops) && Fresh(states[0])
    requires
      var v := states[|steps|].w;
      article in v.db.articles && v.db.articles[article].status.Schedule?
    ensures
      var v := states[|steps|].w;
      var row := v.db.articles[article];
      && row.scheduledAt.Some? && article in v.owner
      && (v.owner[article] in v.exhausted || exists id :: Pending(v, id, article, row.scheduledAt.value))
  {
    InitInv(states[0].w);
    TraceKeepsNumbers(states, steps, tops);
    NeverStranded(states[0].w, steps, article);
  }

  // Only the selected row answers to the selected number.
  ghost predicate Safe(n: Numbered) {
    n.w.phase.Picked? ==> forall id :: id in n.number && n.number[id] == n.picked ==> id == n.w.phase.id
  }

  // It stays so until that number is handed out: no claim goes astray before.
  lemma SafeUntilHandedOut(n: Numbered, step: Step, m: Numbered, top: int)
    requires Inv(n.w) && NumbersOk(n) && Safe(n) && Moves(n, step, m, top) && !HandsOut(n, m)
    ensures Safe(m) && !Astray(m)
  {
    NumbersApart(n, step, m, top);
    PhaseMoves(n, step, m, top);
    SelectedBefore(n.w, step);
  }

  /// ### A claim that goes astray

  // The row as the bookkeeping leaves it: found by its number, written from what the worker
  // remembers of the job it selected.
  function Booked(row: JobRun, job: JobRun, now: int, later: int, stopping: bool, outcome: Outcome): JobRun
    requires 0 <= job.attempts
  {
    match outcome
    case Succeeded => row.(status := Done, lastError := None, updatedAt := now)
    case Errored(message) => BookedFailure(row, job, now, later, message)
    case Canceled(message) =>
      if stopping then
        row.(status := Queued, attempts := job.attempts, runAt := now, lastError := Some(message), updatedAt := now)
      else
        BookedFailure(row, job, now, later, message)
  }

  function BookedFailure(row: JobRun, job: JobRun, now: int, later: int, message: string): JobRun
    requires 0 <= job.attempts
  {
    if job.attempts + 1 >= MAX_ATTEMPTS then
      row.(status := Failed, attempts := job.attempts + 1, lastError := Some(message), updatedAt := later)
    else
      row.(status := Queued, attempts := job.attempts + 1, runAt := now + Delay(job.attempts),
           lastError := Some(message), updatedAt := now)
  }

  // On the row that was selected, this is what PublishRuns settles.
  lemma BookedIsSettled(job: JobRun, now: int, later: int, stopping: bool, outcome: Outcome)
    requires 0 <= job.attempts
    ensures Booked(Claimed(job, now), job, now, later, stopping, outcome) == Settled(job, now, later, stopping, outcome)
  {
  }

  // The handler of the selected job, run to its end; a handler that errs changes nothing.
  function Handled(db: Db, job: JobRun, at: int, outcome: Outcome): Db {
    if outcome.Succeeded? && job.kind.PublishArticle? && job.payload.ForArticle?
       && job.payload.article in db.articles && db.articles[job.payload.article].ReadyAt(at)
    then PublishTx(db, job.payload.article, db.articles[job.payload.article], at)
    else db
  }

  // The claim hits `other`, the handler runs for the job that was selected, and the
  // bookkeeping hits `other` again.
  function AfterStray(w: World, other: int, at: int, outcome: Outcome): Db
    requires w.phase.Picked? && 0 <= w.phase.job.attempts && other in w.db.jobs && other < w.db.nextJob
  {
    var claimed := w.db.(jobs := Claim(w.db.jobs, other, w.phase.now));
    var handled := Handled(claimed, w.phase.job, at, outcome);
    var row := Booked(handled.jobs[other], w.phase.job, w.phase.now, at, w.stopping, outcome);
    handled.(jobs := handled.jobs[other := row])
  }

  // Scheduled, with no row left that would publish it.
  ghost predicate Stranded(db: Db, article: int) {
    && article in db.articles && db.articles[article].status.Schedule?
    && forall id :: id in db.jobs && db.jobs[id].Publishes(article) ==> !db.jobs[id].Active()
  }

  // `other` is the only row that would publish the article.
  ghost predicate OnlyRow(w: World, other: int, article: int) {
    && w.phase.Picked? && other in w.db.jobs && w.db.jobs[other].status.Queued? && w.db.jobs[other].Publishes(article)
    && article in w.db.articles && w.db.articles[article].status.Schedule?
    && forall id :: id in w.db.jobs && w.db.jobs[id].Publishes(article) && w.db.jobs[id].Active() ==> id == other
  }

  // A handler that comes back without an error leaves the article stranded if and only if it
  // was the handler of another article's job, or found this one before its time.
  lemma StrayStrandsIff(w: World, other: int, article: int, at: int)
    requires Inv(w) && OnlyRow(w, other, article)
    ensures Stranded(AfterStray(w, other, at, Succeeded), article) <==>
      !(w.phase.job.Publishes(article) && w.db.articles[article].ReadyAt(at))
  {
    var claimed := w.db.(jobs := Claim(w.db.jobs, other, w.phase.now));
    HandledRows(claimed, w.phase.job, at);
  }

  lemma HandledRows(db: Db, job: JobRun, at: int)
    requires forall id :: id in db.jobs ==> id < db.nextJob
    ensures
      var done := Handled(db, job, at, Succeeded);
      && (forall id :: id in db.jobs ==> id in done.jobs && done.jobs[id] == db.jobs[id])
      && (forall id :: id in done.jobs && id !in db.jobs ==> !done.jobs[id].kind.PublishArticle?)
      && (forall article :: article in done.articles <==> article in db.articles)
      && (forall article :: article in db.articles && db.articles[article].status.Schedule? ==>
            (done.articles[article].status.Schedule? <==>
               !(job.Publishes(article) && db.articles[article].ReadyAt(at))))
  {
  }

  // One that errs leaves a row for the article's time if and only if the old job has an
  // attempt left and its retry is not due before the article.
  lemma StrayFailureCoversIff(w: World, other: int, article: int, at: int, message: string)
    requires Inv(w) && OnlyRow(w, other, article) && w.db.articles[article].scheduledAt.Some?
    ensures
      var after := AfterStray(w, other, at, Errored(message));
      (exists id :: id in after.jobs && after.jobs[id].Publishes(article) && after.jobs[id].Active()
         && w.db.articles[article].scheduledAt.value <= after.jobs[id].runAt)
      <==>
      w.phase.job.attempts + 1 < MAX_ATTEMPTS
      && w.db.articles[article].scheduledAt.value <= w.phase.now + Delay(w.phase.job.attempts)
  {
    var after := AfterStray(w, other, at, Errored(message));
    assert after.jobs[other].Publishes(article);
  }

  // Whatever the row's own kind and payload, it is done without having been run.
  lemma StraySkipsRow(w: World, other: int, at: int)
    requires Inv(w) && w.phase.Picked? && other in w.db.jobs && w.db.jobs[other].status.Queued?
    ensures AfterStray(w, other, at, Succeeded).jobs[other] ==
      w.db.jobs[other].(status := Done, lastError := None, updatedAt := w.phase.now)
  {
    HandledRows(w.db.(jobs := Claim(w.db.jobs, other, w.phase.now)), w.phase.job, at);
  }

  /// ### Runs that lead there

  // The one row of the table is queued, due and numbered 1.
  ghost predicate OneDue(due: Numbered, article: int) {
    && due.w.phase.Idle? && !due.w.stopping && PublishArticle in due.w.registered
    && due.w.db.nextJob == 2 && due.number == map[1 := 1]
    && (forall id :: id in due.w.db.jobs <==> id == 1)
    && due.w.db.jobs[1].Publishes(article) && due.w.db.jobs[1].Due(due.w.clock) && due.w.db.jobs[1].attempts == 0
  }

  lemma FirstSave(n: Numbered, article: int, form: SaveForm, channels: Channels, to: int, cutoff: int)
    returns (up: Numbered, saved: Numbered, due: Numbered)
    requires Fresh(n) && form.Accepted() && form.status.Schedule? && n.w.clock <= to && form.scheduledAt.value <= to
    ensures Moves(n, Restart(cutoff), up, 0) && Moves(up, Save(article, form, channels), saved, 0)
    ensures Moves(saved, Tick(to), due, 1) && OneDue(due, article) && due.w.clock == to
  {
    up := Numbered(Next(n.w, Restart(cutoff)), map[], n.picked);
    assert up.w.db.jobs == map[];
    saved := SaveFirst(up, article, form, channels);
    due := Numbered(Next(saved.w, Tick(to)), map[1 := 1], n.picked);
    assert 1 in saved.number && saved.number[1] == 1;
  }

  lemma SaveFirst(up: Numbered, article: int, form: SaveForm, channels: Channels) returns (saved: Numbered)
    requires up.w.db.jobs == map[] && up.w.db.nextJob == 1 && up.number == map[]
    requires form.Accepted() && form.status.Schedule?
    ensures Moves(up, Save(article, form, channels), saved, 0)
    ensures saved.number == map[1 := 1] && saved.picked == up.picked
    ensures saved.w == Next(up.w, Save(article, form, channels)) && saved.w.db.nextJob == 2
    ensures forall id :: id in saved.w.db.jobs <==> id == 1
    ensures saved.w.db.jobs[1] == NewJob(PublishArticle, ForArticle(article), form.scheduledAt.value, up.w.clock)
  {
    saved := Numbered(Next(up.w, Save(article, form, channels)), map[1 := 1], up.picked);
  }

  // The worker has selected that row.
  ghost predicate Selected(due: Numbered, picked: Numbered) {
    && 1 in due.w.db.jobs && picked.picked == 1 && picked.number == due.number
    && picked.w == due.w.(phase := Picked(1, due.w.db.jobs[1], due.w.clock))
  }

  lemma SelectOnly(due: Numbered, article: int) returns (picked: Numbered)
    requires OneDue(due, article)
    ensures Moves(due, Pick(1), picked, 1) && Selected(due, picked)
  {
    picked := Numbered(Next(due.w, Pick(1)), map[1 := 1], 1);
    assert 1 in due.number && due.number[1] == 1;
  }

  // The cancel empties the table, and the row for the new time is numbered 1 again.
  lemma MoveLater(due: Numbered, picked: Numbered, article: int, later: SaveForm, channels: Channels)
    returns (last: Numbered)
    requires OneDue(due, article) && Selected(due, picked)
    requires later.Accepted() && later.status.Schedule? && due.w.clock < later.scheduledAt.value
    ensures Moves(picked, Save(article, later, channels), last, 0) && ClaimsOther(last, 2)
    ensures OnlyRow(last.w, 2, article) && !last.w.db.articles[article].ReadyAt(last.w.clock)
  {
    last := Numbered(Next(picked.w, Save(article, later, channels)), map[2 := 1], 1);
    assert forall id :: id in last.w.db.jobs <==> id == 2;
  }

  // Destroying the article empties it as well, and another article's row is numbered 1.
  lemma DestroyOnly(due: Numbered, picked: Numbered, article: int) returns (gone: Numbered)
    requires OneDue(due, article) && Selected(due, picked)
    ensures Moves(picked, Destroy(article), gone, 0) && gone.number == map[] && gone.picked == 1
    ensures gone.w.db.jobs == map[] && gone.w.db.nextJob == 2 && gone.w.clock == due.w.clock
    ensures gone.w.phase == picked.w.phase
  {
    gone := Numbered(Next(picked.w, Destroy(article)), map[], 1);
    assert gone.w.db.jobs == map[];
  }

  lemma SaveOther(gone: Numbered, article: int, other: int, form: SaveForm, channels: Channels) returns (last: Numbered)
    requires gone.w.db.jobs == map[] && gone.w.db.nextJob == 2 && gone.number == map[] && gone.picked == 1
    requires gone.w.phase.Picked? && gone.w.phase.id == 1 && gone.w.phase.job.Publishes(article) && article != other
    requires form.Accepted() && form.status.Schedule? && form.scheduledAt.value <= gone.w.clock
    ensures Moves(gone, Save(other, form, channels), last, 0) && ClaimsOther(last, 2)
    ensures OnlyRow(last.w, 2, other) && last.w.db.articles[other].ReadyAt(last.w.clock)
    ensures !last.w.phase.job.Publishes(other)
  {
    last := Numbered(Next(gone.w, Save(other, form, channels)), map[2 := 1], 1);
    assert forall id :: id in last.w.db.jobs <==> id == 2;
  }

  lemma TraceMore(states: seq<Numbered>, steps: seq<Step>, tops: seq<int>, step: Step, m: Numbered, top: int)
    returns (states': seq<Numbered>, steps': seq<Step>, tops': seq<int>)
    requires Trace(states, steps, tops) && Moves(states[|steps|], step, m, top)
    ensures Trace(states', steps', tops') && states'[0] == states[0] && states'[|steps'|] == m
  {
    states', steps', tops' := states + [m], steps + [step], tops + [top];
    forall i | 0 <= i < |steps'| ensures Moves(states'[i], steps'[i], states'[i + 1], tops'[i]) {
      if i < |steps| { assert Moves(states[i], steps[i], states[i + 1], tops[i]); }
    }
  }

  // Up to the selection of the row of the only article.
  lemma ReachSelected(n: Numbered, article: int, form: SaveForm, channels: Channels, to: int, cutoff: int)
    returns (states: seq<Numbered>, steps: seq<Step>, tops: seq<int>, due: Numbered)
    requires Fresh(n) && form.Accepted() && form.status.Schedule? && n.w.clock <= to && form.scheduledAt.value <= to
    ensures Trace(states, steps, tops) && states[0] == n
    ensures OneDue(due, article) && due.w.clock == to && Selected(due, states[|steps|])
  {
    var up, saved, last := FirstSave(n, article, form, channels, to, cutoff);
    due := last;
    var picked := SelectOnly(due, article);
    states, steps, tops := TraceMore([n], [], [], Restart(cutoff), up, 0);
    states, steps, tops := TraceMore(states, steps, tops, Save(article, form, channels), saved, 0);
    states, steps, tops := TraceMore(states, steps, tops, Tick(to), due, 1);
    states, steps, tops := TraceMore(states, steps, tops, Pick(1), picked, 1);
  }

  // A whole run that strands an article: its row is selected when a save moves it to a later
  // time, and the row for that time gets the number of the one it replaces.
  lemma NumberComesBack(n: Numbered, article: int, form: SaveForm, later: SaveForm, channels: Channels,
                        to: int, cutoff: int)
    returns (states: seq<Numbered>, steps: seq<Step>, tops: seq<int>)
    requires Fresh(n) && form.Accepted() && form.status.Schedule? && n.w.clock <= to && form.scheduledAt.value <= to
    requires later.Accepted() && later.status.Schedule? && to < later.scheduledAt.value
    ensures Trace(states, steps, tops) && states[0] == n
    ensures
      var v := states[|steps|];
      ClaimsOther(v, 2) && OnlyRow(v.w, 2, article) && Inv(v.w)
      && Stranded(AfterStray(v.w, 2, v.w.clock, Succeeded), article)
  {
    var due;
    states, steps, tops, due := ReachSelected(n, article, form, channels, to, cutoff);
    var last := MoveLater(due, states[|steps|], article, later, channels);
    states, steps, tops := TraceMore(states, steps, tops, Save(article, later, channels), last, 0);
    InitInv(n.w);
    TraceKeepsNumbers(states, steps, tops);
    StrayStrandsIff(last.w, 2, article, last.w.clock);
  }

  // Another: the selected row's article is destroyed, and its number goes to the row of a
  // second article, which is due and is never published.
  lemma NumberGoesToAnother(n: Numbered, article: int, form: SaveForm, other: int, second: SaveForm, channels: Channels,
                            to: int, cutoff: int)
    returns (states: seq<Numbered>, steps: seq<Step>, tops: seq<int>)
    requires Fresh(n) && form.Accepted() && form.status.Schedule? && n.w.clock <= to && form.scheduledAt.value <= to
    requires article != other && second.Accepted() && second.status.Schedule? && second.scheduledAt.value <= to
    ensures Trace(states, steps, tops) && states[0] == n
    ensures
      var v := states[|steps|];
      ClaimsOther(v, 2) && OnlyRow(v.w, 2, other) && Inv(v.w) && v.w.db.articles[other].ReadyAt(v.w.clock)
      && Stranded(AfterStray(v.w, 2, v.w.clock, Succeeded), other)
  {
    var due;
    states, steps, tops, due := ReachSelected(n, article, form, channels, to, cutoff);
    var gone := DestroyOnly(due, states[|steps|], article);
    states, steps, tops := TraceMore(states, steps, tops, Destroy(article), gone, 0);
    var last := SaveOther(gone, article, other, second, channels);
    states, steps, tops := TraceMore(states, steps, tops, Save(other, second, channels), last, 0);
    InitInv(n.w);
    TraceKeepsNumbers(states, steps, tops);
    StrayStrandsIff(last.w, 2, other, last.w.clock);
  }
}
