/**
 The worker: one RunOnce call, and the inner loop of Start that drains every due job.

 The handlers appear as an oracle that gives each started job's outcome. Here they leave
 the table alone and the clock stands still; `PublishRuns` has the interleaved version.
 */
module Drain {
  import opened Options
  import opened JobTable
  import Collections

  type Handlers = (int, JobRun) -> Outcome

  ghost predicate SoundAttempts(t: Table) {
    forall id :: id in t ==> 0 <= t[id].attempts
  }

  // What one RunOnce makes of a due row, when no shutdown is in progress.
  function Finished(id: int, job: JobRun, now: int, known: set<Kind>, run: Handlers): JobRun
    requires 0 <= job.attempts
  {
    if job.kind in known then Settled(job, now, now, false, run(id, job)) else UnknownKind(job, now)
  }

  // The table after a complete drain: every due row is finished, the rest is untouched.
  ghost function Drained(t: Table, now: int, known: set<Kind>, run: Handlers): Table
    requires SoundAttempts(t)
  {
    map id | id in t :: if t[id].Due(now) then Finished(id, t[id], now, known, run) else t[id]
  }

  ghost predicate NoneDue(t: Table, now: int) {
    forall id :: id in t ==> !t[id].Due(now)
  }

  ghost function DueIds(t: Table, now: int): set<int> {
    set id | id in t && t[id].Due(now)
  }

  ghost predicate InRunAtOrder(t: Table, ids: seq<int>) {
    && (forall i :: 0 <= i < |ids| ==> ids[i] in t)
    && (forall i, j :: 0 <= i < j < |ids| ==> ids[i] != ids[j] && t[ids[i]].runAt <= t[ids[j]].runAt)
  }

  // Every backoff entry is positive, so a row that was just retried is not due again.
  lemma FinishedIsNotDue(id: int, job: JobRun, now: int, known: set<Kind>, run: Handlers)
    requires 0 <= job.attempts && job.Due(now)
    ensures !Finished(id, job, now, known, run).Due(now)
    ensures 0 <= Finished(id, job, now, known, run).attempts
  {
  }

  // A drain settles each row that was queued and due by its handler's outcome: done, queued
  // again after 30, 60, 300 or 900 seconds, or failed with the fifth attempt. A row of a kind
  // without a handler fails unstarted and uncharged, and rows that were not due stay as they are.
  lemma DrainSettles(t: Table, now: int, known: set<Kind>, run: Handlers, id: int)
    requires SoundAttempts(t) && id in t
    ensures
      var after := Drained(t, now, known, run);
      && after.Keys == t.Keys
      && var job, settled := t[id], after[id];
      if job.status != Queued || job.runAt > now then settled == job
      else if job.kind !in known then
        settled == job.(status := Failed, lastError := Some("unknown job kind"), updatedAt := now)
      else match run(id, job)
        case Succeeded => settled == job.(status := Done, lastError := None, updatedAt := now)
        case Errored(message) => FailedOnce(job, settled, now, message)
        case Canceled(message) => FailedOnce(job, settled, now, message)
  {
  }

  ghost predicate FailedOnce(job: JobRun, settled: JobRun, now: int, message: string) {
    var charged := job.(attempts := job.attempts + 1, lastError := Some(message), updatedAt := now);
    if job.attempts >= 4 then settled == charged.(status := Failed)
    else
      var delay :=
        if job.attempts == 0 then 30 else if job.attempts == 1 then 60 else if job.attempts == 2 then 300 else 900;
      settled == charged.(status := Queued, runAt := now + delay)
  }

  // A job whose first `k` starts all failed, each started just when it was due.
  function Tried(job: JobRun, k: nat, message: string): (tried: JobRun)
    requires 0 <= job.attempts
    ensures tried.attempts == job.attempts + k
  {
    if k == 0 then job else
      var before := Tried(job, k - 1, message);
      Charged(before, before.runAt, before.runAt, message)
  }

  // The retries of a job that keeps failing come 30 s, 90 s, 390 s and 1290 s after its
  // first start; the fifth failure is final. The last backoff entry, an hour, is never used.
  lemma {:induction false} RetrySchedule(job: JobRun, k: nat, message: string)
    requires job.status.Queued? && job.attempts == 0 && k <= MAX_ATTEMPTS
    ensures var tried := Tried(job, k, message);
      if k < MAX_ATTEMPTS then tried.status.Queued? && tried.runAt == job.runAt + [0, 30, 90, 390, 1290][k]
      else tried.status.Failed? && tried.lastError == Some(message)
  {
    if k > 0 { RetrySchedule(job, k - 1, message); }
  }

  class Worker {
    const db: JobRuns
    const handlers: set<Kind>

    constructor (db: JobRuns, handlers: set<Kind>)
      ensures this.db == db && this.handlers == handlers
    {
      this.db := db;
      this.handlers := handlers;
    }

    // One claim. `raced` holds rows that a concurrent transaction deletes between the
    // SELECT and the compare-and-swap; `stopping` says whether ctx was cancelled by the
    // time the handler came back.
    method RunOnce(now: int, run: Handlers, stopping: bool, raced: set<int>)
      returns (claimed: bool, started: Option<int>)
      requires SoundAttempts(db.rows)
      modifies db
      ensures claimed ==> exists id :: Ran(old(db.rows), db.rows, id, now, run, stopping, raced, started)
      ensures !claimed ==> db.rows == old(db.rows) || db.rows == old(db.rows) - raced
      ensures !claimed ==> started.None?
      ensures !claimed && raced == {} ==> NoneDue(old(db.rows), now)
    {
      started := None;
      var due := db.GetDueJobRun(now);
      if due.None? {
        return false, None;
      }
      var id := due.value;
      var job := db.rows[id];
      db.rows := db.rows - raced;
      var affected := db.ClaimJobRun(id, now);
      if affected == 0 {
        assert id in raced;
        return false, None;
      }
      claimed := true;
      if job.kind !in handlers {
        db.FailJobRun(id, job.attempts, "unknown job kind", now);
      } else {
        started := Some(id);
        match run(id, job)
        case Succeeded =>
          db.CompleteJobRun(id, now);
        case Canceled(message) =>
          if stopping {
            db.RescheduleJobRun(id, job.attempts, now, message, now);
          } else {
            ChargeAttempt(id, job, now, message);
          }
        case Errored(message) =>
          ChargeAttempt(id, job, now, message);
      }
      assert Ran(old(db.rows), db.rows, id, now, run, stopping, raced, started);
    }

    method ChargeAttempt(id: int, job: JobRun, now: int, message: string)
      requires 0 <= job.attempts
      requires id in db.rows && db.rows[id] == Claimed(job, now)
      modifies db`rows
      ensures db.rows == old(db.rows)[id := Charged(job, now, now, message)]
    {
      var attempts := job.attempts + 1;
      if attempts >= MAX_ATTEMPTS {
        db.FailJobRun(id, attempts, message, now);
      } else {
        var delay := BACKOFF[if job.attempts < |BACKOFF| - 1 then job.attempts else |BACKOFF| - 1];
        db.RescheduleJobRun(id, attempts, now + delay, message, now);
      }
    }

    ghost predicate Ran(before: Table, after: Table, id: int, now: int, run: Handlers, stopping: bool,
                        raced: set<int>, started: Option<int>)
    {
      && SoundAttempts(before)
      && Oldest(before, id, now) && id !in raced
      && var job := before[id];
         && started == (if job.kind in handlers then Some(id) else None)
         && var settled :=
              if job.kind in handlers then Settled(job, now, now, stopping, run(id, job)) else UnknownKind(job, now);
            after == (before - raced)[id := settled]
    }

    // The inner loop of Start, with the clock fixed, ctx live and no enqueues. It
    // terminates because each round takes one row out of the due set.
    method DrainDue(now: int, run: Handlers) returns (started: seq<int>)
      requires SoundAttempts(db.rows)
      modifies db
      ensures db.rows == Drained(old(db.rows), now, handlers, run)
      ensures NoneDue(db.rows, now)
      ensures InRunAtOrder(old(db.rows), started)
      ensures forall id :: id in started <==>
        id in old(db.rows) && old(db.rows)[id].Due(now) && old(db.rows)[id].kind in handlers
    {
      ghost var before := db.rows;
      started := [];
      while true
        invariant Partial(before, db.rows, now, run, started)
        decreases DueIds(db.rows, now)
      {
        ghost var rows := db.rows;
        var claimed, one := RunOnce(now, run, false, {});
        if !claimed { break; }
        ghost var id :| Ran(rows, db.rows, id, now, run, false, {}, one);
        Progress(before, rows, db.rows, now, run, started, id, one);
        if one.Some? { started := started + [one.value]; }
      }
      Collections.SameMap(db.rows, Drained(before, now, handlers, run));
    }

    // The loop invariant: a row is either as it was, or was due and is finished; finished
    // rows ran before every row that is still due.
    ghost predicate Partial(before: Table, rows: Table, now: int, run: Handlers, started: seq<int>) {
      PartialRows(before, rows, now, run) && PartialStarts(before, rows, now, started)
    }

    ghost predicate PartialRows(before: Table, rows: Table, now: int, run: Handlers) {
      && SoundAttempts(before) && SoundAttempts(rows)
      && (forall id :: id in rows <==> id in before)
      && (forall id :: id in rows ==>
        rows[id] == before[id] || (before[id].Due(now) && rows[id] == Finished(id, before[id], now, handlers, run)))
      && (forall id, other ::
            (id in rows && other in rows && before[id].Due(now) && !rows[id].Due(now) && rows[other].Due(now))
            ==> before[id].runAt <= rows[other].runAt)
    }

    ghost predicate PartialStarts(before: Table, rows: Table, now: int, started: seq<int>) {
      && InRunAtOrder(before, started)
      && (forall id :: id in started <==>
        id in before && id in rows && before[id].Due(now) && !rows[id].Due(now) && before[id].kind in handlers)
    }

    lemma ProgressRows(before: Table, rows: Table, after: Table, now: int, run: Handlers, id: int, one: Option<int>)
      requires PartialRows(before, rows, now, run)
      requires Ran(rows, after, id, now, run, false, {}, one)
      ensures PartialRows(before, after, now, run)
      ensures rows[id] == before[id] && after == rows[id := Finished(id, before[id], now, handlers, run)]
        && !after[id].Due(now)
    {
      assert rows[id] == before[id] by {
        if rows[id] != before[id] { FinishedIsNotDue(id, before[id], now, handlers, run); }
      }
      FinishedIsNotDue(id, before[id], now, handlers, run);
      assert after == rows[id := Finished(id, before[id], now, handlers, run)] by { assert rows - {} == rows; }
    }

    lemma ProgressStarts(before: Table, rows: Table, after: Table, now: int, run: Handlers, started: seq<int>,
                        id: int, one: Option<int>)
      requires PartialRows(before, rows, now, run) && PartialStarts(before, rows, now, started)
      requires id in rows && rows[id] == before[id] && rows[id].Due(now) && id in after && !after[id].Due(now)
      requires after == rows[id := after[id]]
      requires one == if before[id].kind in handlers then Some(id) else None
      ensures PartialStarts(before, after, now, if one.Some? then started + [one.value] else started)
    {
      assert forall other :: other in started ==> before[other].runAt <= before[id].runAt;
      var more := if one.Some? then started + [one.value] else started;
      assert forall other :: other in more <==> other in started || (one.Some? && other == id);
    }

    lemma Progress(before: Table, rows: Table, after: Table, now: int, run: Handlers, started: seq<int>,
                        id: int, one: Option<int>)
      requires Partial(before, rows, now, run, started)
      requires Ran(rows, after, id, now, run, false, {}, one)
      ensures Partial(before, after, now, run, if one.Some? then started + [one.value] else started)
      ensures DueIds(after, now) < DueIds(rows, now)
    {
      ProgressRows(before, rows, after, now, run, id, one);
      ProgressStarts(before, rows, after, now, run, started, id, one);
      assert id in DueIds(rows, now) && id !in DueIds(after, now);
    }
  }
}
