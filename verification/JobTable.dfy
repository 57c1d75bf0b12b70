/**
 The `job_runs` table and the SQL statements that touch it.

 Every statement has a function on the table value, which the transition system in
 `PublishRuns` uses, and a method of class `JobRuns` that performs it in place.
 Row ids are taken to be fresh: an id that was deleted is never handed out again. What the
 ids of the schema change is in `RowNumbers`.
 */
module JobTable {
  import opened Options
  import Collections

  datatype Kind = PublishArticle | PublishPage | SendNewsletter | Crosspost | OtherKind(name: string)

  // The JSON payloads, already decoded. A payload without an article id is `NoPayload`.
  datatype Payload =
    | NoPayload
    | ForArticle(article: int)
    | ForPage(page: int)
    | ForPlatforms(article: int, platforms: seq<string>)
    | ForPlatform(article: int, platform: string, requestedAt: int)

  datatype Status = Queued | Running | Done | Failed

  datatype JobRun = JobRun(
    kind: Kind, payload: Payload, runAt: int, status: Status, attempts: int,
    lastError: Option<string>, createdAt: int, updatedAt: int)
  {
    predicate Active() { status.Queued? || status.Running? }
    predicate Due(now: int) { status.Queued? && runAt <= now }
    predicate Publishes(id: int) { kind.PublishArticle? && payload == ForArticle(id) }
  }

  type Table = map<int, JobRun>

  const MAX_ATTEMPTS := 5
  const BACKOFF := [30, 60, 300, 900, 3600]
  const CRASH_ERROR := "process restarted while the job was running; attempt budget exhausted"

  const SUPERSEDED := "superseded by a newer schedule"

  // How a handler came back. `Errored` covers returned errors, recovered panics and
  // time-outs; `Canceled` is an error chain that contains context.Canceled.
  datatype Outcome = Succeeded | Errored(message: string) | Canceled(message: string)

  /// ### The statements as functions on the table

  function NewJob(kind: Kind, payload: Payload, runAt: int, now: int): JobRun {
    JobRun(kind, payload, runAt, Queued, 0, None, now, now)
  }

  function Claimed(job: JobRun, now: int): JobRun {
    job.(status := Running, updatedAt := now)
  }

  function Claim(t: Table, id: int, now: int): Table {
    if id in t && t[id].status.Queued? then t[id := Claimed(t[id], now)] else t
  }

  // RequeueStaleRunningJobRuns, row by row.
  function Recovered(job: JobRun, now: int, cutoff: int): JobRun {
    if job.status.Running? && job.updatedAt < cutoff then
      if job.attempts + 1 >= MAX_ATTEMPTS then
        job.(status := Failed, attempts := job.attempts + 1, lastError := Some(CRASH_ERROR), updatedAt := now)
      else
        job.(status := Queued, attempts := job.attempts + 1, updatedAt := now)
    else
      job
  }

  function RequeueStale(t: Table, now: int, cutoff: int): Table {
    map id | id in t :: Recovered(t[id], now, cutoff)
  }

  predicate Cleanable(job: JobRun, cutoff: int) {
    !job.Active() && job.updatedAt < cutoff
  }

  function DeleteFinished(t: Table, cutoff: int): Table {
    map id | id in t && !Cleanable(t[id], cutoff) :: t[id]
  }

  // What is left once the queued publish_article rows of one article are dropped.
  function WithoutQueuedPublish(t: Table, article: int): Table {
    map id | id in t && !(t[id].status.Queued? && t[id].Publishes(article)) :: t[id]
  }

  // CancelQueuedPublishPageJobs: a page's queued rows are not dropped but marked failed.
  function PageCanceled(job: JobRun, page: int, now: int): JobRun {
    if job.kind.PublishPage? && job.status.Queued? && job.payload == ForPage(page) then
      job.(status := Failed, lastError := Some(SUPERSEDED), updatedAt := now)
    else
      job
  }

  function CancelPages(t: Table, page: int, now: int): Table {
    map id | id in t :: PageCanceled(t[id], page, now)
  }

  // ORDER BY run_at LIMIT 1 over the due rows; ties may go either way.
  predicate Oldest(t: Table, id: int, now: int) {
    id in t && t[id].Due(now) && forall other :: other in t && t[other].Due(now) ==> t[id].runAt <= t[other].runAt
  }

  function Delay(attempts: int): int
    requires 0 <= attempts
  {
    BACKOFF[if attempts < |BACKOFF| - 1 then attempts else |BACKOFF| - 1]
  }

  // The bookkeeping write that follows a handler. `now` was read when the job was
  // selected, `later` when a failure is recorded; `stopping` is ctx.Err() != nil.
  function Settled(job: JobRun, now: int, later: int, stopping: bool, outcome: Outcome): JobRun
    requires 0 <= job.attempts
  {
    match outcome
    case Succeeded => job.(status := Done, lastError := None, updatedAt := now)
    case Errored(message) => Charged(job, now, later, message)
    case Canceled(message) =>
      if stopping then job.(status := Queued, runAt := now, lastError := Some(message), updatedAt := now)
      else Charged(job, now, later, message)
  }

  function Charged(job: JobRun, now: int, later: int, message: string): JobRun
    requires 0 <= job.attempts
  {
    if job.attempts + 1 >= MAX_ATTEMPTS then
      job.(status := Failed, attempts := job.attempts + 1, lastError := Some(message), updatedAt := later)
    else
      job.(status := Queued, attempts := job.attempts + 1, runAt := now + Delay(job.attempts),
           lastError := Some(message), updatedAt := now)
  }

  function UnknownKind(job: JobRun, later: int): JobRun {
    job.(status := Failed, lastError := Some("unknown job kind"), updatedAt := later)
  }

  // The cleanup deletes done and failed rows that have not changed since the cutoff, whatever
  // their kind, and no others.
  lemma CleanupDeletes(t: Table, cutoff: int, id: int)
    requires id in t
    ensures id !in DeleteFinished(t, cutoff) <==> t[id].status in {Done, Failed} && t[id].updatedAt < cutoff
    ensures id in DeleteFinished(t, cutoff) ==> DeleteFinished(t, cutoff)[id] == t[id]
    ensures DeleteFinished(t, cutoff).Keys <= t.Keys
  {
  }

  lemma {:induction false} OldestExists(t: Table, ids: set<int>, now: int) returns (oldest: int)
    requires ids != {} && ids <= t.Keys
    ensures oldest in ids && forall other :: other in ids ==> t[oldest].runAt <= t[other].runAt
    decreases ids
  {
    oldest := Collections.Member(ids);
    if ids != {oldest} {
      var rest := OldestExists(t, ids - {oldest}, now);
      if t[rest].runAt < t[oldest].runAt { oldest := rest; }
    }
  }

  /// ### The table, updated in place

  class JobRuns {
    var rows: Table
    var nextId: int

    constructor ()
      ensures rows == map[] && nextId == 1
    {
      rows := map[];
      nextId := 1;
    }

    method EnqueueJobRun(kind: Kind, payload: Payload, runAt: int, now: int) returns (id: int)
      modifies this
      ensures id == old(nextId) && nextId == id + 1
      ensures rows == old(rows)[id := NewJob(kind, payload, runAt, now)]
    {
      id := nextId;
      rows := rows[id := JobRun(kind, payload, runAt, Queued, 0, None, now, now)];
      nextId := nextId + 1;
    }

    method GetDueJobRun(now: int) returns (found: Option<int>)
      ensures found.Some? ==> Oldest(rows, found.value, now)
      ensures found.Some? ==>
        && found.value in rows && rows[found.value].status == Queued && rows[found.value].runAt <= now
        && forall id :: id in rows && rows[id].status == Queued ==> rows[found.value].runAt <= rows[id].runAt
      ensures found.None? <==> forall id :: id in rows && rows[id].status == Queued ==> rows[id].runAt > now
    {
      var due := set id | id in rows && rows[id].Due(now);
      if id :| id in rows && Oldest(rows, id, now) {
        found := Some(id);
      } else {
        found := None;
        if due != {} {
          ghost var id := OldestExists(rows, due, now);
          assert Oldest(rows, id, now);
        }
        forall id | id in rows ensures !rows[id].Due(now) { assert id !in due; }
      }
    }

    method ClaimJobRun(id: int, now: int) returns (affected: int)
      modifies this`rows
      ensures rows == Claim(old(rows), id, now)
      ensures affected == if id in old(rows) && old(rows)[id].status.Queued? then 1 else 0
      ensures rows == if affected == 0 then old(rows)
        else old(rows)[id := old(rows)[id].(status := Running, updatedAt := now)]
    {
      affected := 0;
      if id in rows && rows[id].status.Queued? {
        rows := rows[id := rows[id].(status := Running, updatedAt := now)];
        affected := 1;
      }
    }

    // The three bookkeeping statements name the row by id alone, whatever its status.
    method CompleteJobRun(id: int, now: int)
      modifies this`rows
      ensures rows == if id in old(rows)
        then old(rows)[id := old(rows)[id].(status := Done, lastError := None, updatedAt := now)] else old(rows)
    {
      if id in rows {
        rows := rows[id := rows[id].(status := Done, lastError := None, updatedAt := now)];
      }
    }

    method FailJobRun(id: int, attempts: int, message: string, now: int)
      modifies this`rows
      ensures rows == if id in old(rows)
        then old(rows)[id := old(rows)[id].(status := Failed, attempts := attempts,
                                            lastError := Some(message), updatedAt := now)]
        else old(rows)
    {
      if id in rows {
        rows := rows[id := rows[id].(status := Failed, attempts := attempts, lastError := Some(message),
          updatedAt := now)];
      }
    }

    method RescheduleJobRun(id: int, attempts: int, runAt: int, message: string, now: int)
      modifies this`rows
      ensures rows == if id in old(rows)
        then old(rows)[id := old(rows)[id].(status := Queued, attempts := attempts, runAt := runAt,
                                            lastError := Some(message), updatedAt := now)]
        else old(rows)
    {
      if id in rows {
        rows := rows[id := rows[id].(status := Queued, attempts := attempts, runAt := runAt,
                                     lastError := Some(message), updatedAt := now)];
      }
    }

    method RequeueStaleRunningJobRuns(now: int, cutoff: int)
      modifies this`rows
      ensures rows == RequeueStale(old(rows), now, cutoff)
    {
      rows := map id | id in rows :: Recovered(rows[id], now, cutoff);
    }

    method CancelQueuedPublishPageJobs(page: int, now: int)
      modifies this`rows
      ensures rows == CancelPages(old(rows), page, now)
      ensures rows.Keys == old(rows).Keys
      ensures forall id :: id in rows ==>
        var job := old(rows)[id];
        rows[id] ==
          if job.kind == PublishPage && job.status == Queued && job.payload == ForPage(page)
          then job.(status := Failed, lastError := Some("superseded by a newer schedule"), updatedAt := now) else job
    {
      rows := map id | id in rows :: PageCanceled(rows[id], page, now);
    }

    method DeleteJobRun(id: int)
      modifies this`rows
      ensures rows == old(rows) - {id}
    {
      rows := rows - {id};
    }

    // ListQueuedJobRunsByKind(publish_article), then one DELETE per row of the article.
    method CancelQueuedPublishJobs(article: int)
      modifies this`rows
      ensures rows == WithoutQueuedPublish(old(rows), article)
    {
      var runs := set id | id in rows && rows[id].status.Queued? && rows[id].kind.PublishArticle?;
      ghost var before := rows;
      while runs != {}
        invariant forall id :: id in runs ==> id in rows && before[id].status.Queued? && before[id].kind.PublishArticle?
        invariant forall id :: id in rows <==>
          id in before && (id in runs || id in WithoutQueuedPublish(before, article))
        invariant forall id :: id in rows ==> rows[id] == before[id]
        decreases runs
      {
        ghost var some := Collections.Member(runs);
        var id :| id in runs;
        runs := runs - {id};
        if rows[id].payload == ForArticle(article) {
          DeleteJobRun(id);
        }
      }
      Collections.SameMap(rows, WithoutQueuedPublish(before, article));
    }
  }
}
