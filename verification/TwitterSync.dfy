/**
 The cursor of the Twitter sync: the guarded writes of runs in flight against admin updates
 that change the account and reset the cursor.

 A run reads the singleton row, may resolve the account's user id, fetches, and writes the
 cursor with a compare-and-swap on what it read. Any number of runs may be in flight. An
 admin update reads the row outside its transaction; updates are serialised against each
 other, not against runs.
 */
module TwitterSync {
  import opened Options

  const SCHEDULES := ["every_15_minutes", "hourly", "every_6_hours", "daily", "weekly"]

  datatype Row = Row(
    enabled: bool, username: Option<string>, startDate: Option<string>, schedule: string,
    sinceId: Option<string>, userId: Option<string>, lastSyncedAt: Option<int>, lastError: Option<string>,
      updatedAt: int)

  datatype Form = Form(enabled: bool, username: Option<string>, startDate: Option<string>, schedule: string)
  {
    // Blank fields arrive as NULL; an enabled sync needs an account.
    predicate Valid() {
      username != Some("") && startDate != Some("") && (enabled ==> username.Some?) && schedule in SCHEDULES
    }
  }

  function Text(value: Option<string>): string { if value.Some? then value.value else "" }

  /// ### The statements

  function UpdateConfig(row: Row, form: Form, now: int): Row {
    row.(enabled := form.enabled, username := form.username, startDate := form.startDate, schedule := form.schedule,
      updatedAt := now)
  }

  function ResetCursor(row: Row, now: int): Row {
    row.(sinceId := None, lastSyncedAt := None, lastError := None, updatedAt := now)
  }

  function SetUserId(row: Row, userId: Option<string>, expected: Option<string>, now: int): Row {
    if row.username == expected then row.(userId := userId, updatedAt := now) else row
  }

  // The guard of SetTwitterSyncSuccess: the row is still as the run read it.
  predicate Unmoved(row: Row, read: Row) {
    row.sinceId == read.sinceId && row.username == read.username && row.startDate == read.startDate
  }

  function SetSuccess(row: Row, sinceId: Option<string>, read: Row, now: int): Row {
    if Unmoved(row, read) then row.(sinceId := sinceId, lastSyncedAt := Some(now), lastError := None, updatedAt := now)
      else row
  }

  // The three writes of one admin update. `read` is the row read before the transaction.
  function AdminTx(row: Row, read: Row, form: Form, now: int): Row {
    var usernameChanged := Text(form.username) != Text(read.username);
    var cursorReset := usernameChanged || Text(form.startDate) != Text(read.startDate);
    var configured := UpdateConfig(row, form, now);
    var reset := if cursorReset then ResetCursor(configured, now) else configured;
    if usernameChanged then SetUserId(reset, None, form.username, now) else reset
  }

  class SyncTable {
    var row: Row

    constructor (row: Row)
      ensures this.row == row
    {
      this.row := row;
    }

    method SetTwitterSyncUserId(userId: Option<string>, expected: Option<string>, now: int) returns (affected: int)
      modifies this
      ensures row == SetUserId(old(row), userId, expected, now)
      ensures affected == if old(row).username == expected then 1 else 0
    {
      affected := 0;
      if row.username == expected {
        row := row.(userId := userId, updatedAt := now);
        affected := 1;
      }
    }

    method SetTwitterSyncSuccess(sinceId: Option<string>, read: Row, now: int) returns (affected: int)
      modifies this
      ensures row == SetSuccess(old(row), sinceId, read, now)
      ensures affected == if Unmoved(old(row), read) then 1 else 0
    {
      affected := 0;
      if row.sinceId == read.sinceId && row.username == read.username && row.startDate == read.startDate {
        row := row.(sinceId := sinceId, lastSyncedAt := Some(now), lastError := None, updatedAt := now);
        affected := 1;
      }
    }

    // `fails` is whether a write of the transaction fails; the row is then untouched.
    method TwitterSyncUpdate(read: Row, form: Form, now: int, fails: bool) returns (committed: bool)
      modifies this
      ensures committed <==> form.Valid() && !fails
      ensures committed <==>
        && !fails
        && form.username != Some("") && form.startDate != Some("") && (form.enabled ==> form.username != None)
        && form.schedule in {"every_15_minutes", "hourly", "every_6_hours", "daily", "weekly"}
      ensures row == if committed then AdminTx(old(row), read, form, now) else old(row)
    {
      if form.username == Some("") || form.startDate == Some("") || (form.enabled && form.username.None?)
        || form.schedule !in SCHEDULES {
        return false;
      }
      var usernameChanged := Text(form.username) != Text(read.username);
      var cursorReset := usernameChanged || Text(form.startDate) != Text(read.startDate);
      var before := row;
      row := row.(enabled := form.enabled, username := form.username, startDate := form.startDate,
        schedule := form.schedule, updatedAt := now);
      if cursorReset {
        row := row.(sinceId := None, lastSyncedAt := None, lastError := None, updatedAt := now);
      }
      if usernameChanged {
        var _ := SetTwitterSyncUserId(None, form.username, now);
      }
      if fails {
        row := before;
        return false;
      }
      committed := true;
    }
  }

  /// ### Runs and updates, interleaved

  // `Fetching` knows the account its user id was resolved for.
  datatype Stage = Resolving | Fetching(account: string)

  datatype Run = Run(read: Row, stage: Stage)

  // Under which configuration the run that wrote the cursor had started, and whose posts it fetched.
  datatype Origin = Origin(username: Option<string>, startDate: Option<string>, account: string)

  // `cursor`, `synced` and `resolvedFor` are history: where since_id and last_synced_at
  // come from, and the account that user_id was resolved for.
  datatype World = World(
    row: Row, runs: map<int, Run>, admin: Option<Row>,
    cursor: Option<Origin>, synced: Option<Origin>, resolvedFor: Option<string>)

  predicate Init(w: World) {
    w.row.username.None? && w.row.startDate.None? && w.row.sinceId.None? && w.row.userId.None?
      && w.row.lastSyncedAt.None?
    && w.runs == map[] && w.admin.None? && w.cursor.None? && w.synced.None? && w.resolvedFor.None?
  }

  datatype Step =
    | StartRun(run: int)
    | Resolve(run: int, userId: string, now: int)
    | Finish(run: int, newest: Option<string>, now: int)
    | FailRun(run: int, message: string, now: int)
    | DropRun(run: int)
    | AdminRead
    | AdminCommit(form: Form, now: int)
    | AdminAbandon

  predicate Enabled(w: World, step: Step) {
    match step
    case StartRun(run) => run !in w.runs && w.row.enabled && Text(w.row.username) != ""
    case Resolve(run, userId, _) => run in w.runs && w.runs[run].stage.Resolving? && userId != ""
    case Finish(run, _, _) => run in w.runs && w.runs[run].stage.Fetching?
    case FailRun(run, _, _) => run in w.runs
    case DropRun(run) => run in w.runs
    case AdminRead => w.admin.None?
    case AdminCommit(form, _) => w.admin.Some? && form.Valid()
    case AdminAbandon => w.admin.Some?
  }

  function Next(w: World, step: Step): World
    requires Enabled(w, step)
  {
    match step
    case StartRun(run) =>
      var known := Text(w.row.userId) != "";
      w.(runs := w.runs[run := Run(w.row, if known then Fetching(Text(w.resolvedFor)) else Resolving)])
    case Resolve(run, userId, now) => AfterResolve(w, run, w.runs[run].read, userId, now)
    case Finish(run, newest, now) => AfterFinish(w, run, w.runs[run].read, w.runs[run].stage.account, newest, now)
    case FailRun(run, message, now) =>
      w.(row := w.row.(lastError := Some(message), updatedAt := now), runs := w.runs - {run})
    case DropRun(run) => w.(runs := w.runs - {run})
    case AdminRead => w.(admin := Some(w.row))
    case AdminCommit(form, now) => w.(row := AdminTx(w.row, w.admin.value, form, now), admin := None)
    case AdminAbandon => w.(admin := None)
  }

  // A lookup that lost its guard aborts the run.
  function AfterResolve(w: World, run: int, read: Row, userId: string, now: int): World
    requires run in w.runs
  {
    var account := Text(read.username);
    if w.row.username == Some(account) then
      w.(row := SetUserId(w.row, Some(userId), Some(account), now), resolvedFor := Some(account),
         runs := w.runs[run := w.runs[run].(stage := Fetching(account))])
    else
      w.(runs := w.runs - {run})
  }

  function AfterFinish(w: World, run: int, read: Row, account: string, newest: Option<string>, now: int): World {
    var origin := Some(Origin(read.username, read.startDate, account));
    var written := w.(row := SetSuccess(w.row, if newest.Some? then newest else read.sinceId, read, now),
      runs := w.runs - {run});
    if Unmoved(w.row, read) then written.(cursor := origin, synced := origin) else written
  }

  predicate Legal(w: World, steps: seq<Step>)
    decreases |steps|
  {
    steps == [] || (Enabled(w, steps[0]) && Legal(Next(w, steps[0]), steps[1..]))
  }

  function Exec(w: World, steps: seq<Step>): World
    requires Legal(w, steps)
    decreases |steps|
  {
    if steps == [] then w else Exec(Next(w, steps[0]), steps[1..])
  }

  /// ### Stale writes cannot undo a reset

  predicate Current(row: Row, origin: Option<Origin>) {
    origin.Some? && origin.value == Origin(row.username, row.startDate, Text(row.username))
  }

  ghost predicate Inv(w: World) {
    && w.row.username != Some("") && w.row.startDate != Some("")
    && (w.row.sinceId.Some? ==> Current(w.row, w.cursor))
    && (w.row.lastSyncedAt.Some? ==> Current(w.row, w.synced))
    && (w.row.userId.Some? ==> w.row.userId != Some("") && w.resolvedFor.Some? && w.resolvedFor == w.row.username)
    && (w.admin.Some? ==> w.admin.value.username == w.row.username && w.admin.value.startDate == w.row.startDate)
    && (forall run :: run in w.runs ==>
          && w.runs[run].read.username.Some?
          && (w.runs[run].stage.Fetching? ==> w.runs[run].read.username == Some(w.runs[run].stage.account)))
  }

  lemma FinishKeepsInv(w: World, run: int, newest: Option<string>, now: int)
    requires Inv(w) && Enabled(w, Finish(run, newest, now))
    ensures Inv(AfterFinish(w, run, w.runs[run].read, w.runs[run].stage.account, newest, now))
  {
  }

  lemma AdminKeepsInv(w: World, form: Form, now: int)
    requires Inv(w) && Enabled(w, AdminCommit(form, now))
    ensures Inv(w.(row := AdminTx(w.row, w.admin.value, form, now), admin := None))
  {
  }

  lemma ResolveKeepsInv(w: World, run: int, userId: string, now: int)
    requires Inv(w) && Enabled(w, Resolve(run, userId, now))
    ensures Inv(AfterResolve(w, run, w.runs[run].read, userId, now))
  {
  }

  lemma StartKeepsInv(w: World, run: int)
    requires Inv(w) && Enabled(w, StartRun(run))
    ensures Inv(Next(w, StartRun(run)))
  {
  }

  lemma StepKeepsInv(w: World, step: Step)
    requires Inv(w) && Enabled(w, step)
    ensures Inv(Next(w, step))
  {
    match step
    case StartRun(run) => StartKeepsInv(w, run);
    case Resolve(run, userId, now) => ResolveKeepsInv(w, run, userId, now);
    case Finish(run, newest, now) => FinishKeepsInv(w, run, newest, now);
    case FailRun(run, message, now) => FailKeepsInv(w, run, message, now);
    case AdminCommit(form, now) => AdminKeepsInv(w, form, now);
    case _ =>
  }

  lemma FailKeepsInv(w: World, run: int, message: string, now: int)
    requires Inv(w) && Enabled(w, FailRun(run, message, now))
    ensures Inv(Next(w, FailRun(run, message, now)))
  {
  }

  lemma {:induction false} RunKeepsInv(w: World, steps: seq<Step>)
    requires Inv(w) && Legal(w, steps)
    ensures Inv(Exec(w, steps))
    decreases |steps|
  {
    if steps != [] {
      StepKeepsInv(w, steps[0]);
      RunKeepsInv(Next(w, steps[0]), steps[1..]);
    }
  }

  // In every reachable state, a cursor that is set was written by a run that started under
  // the present account and start date and fetched that account's posts; so was the time
  // of the last sync; and a user id that is set was resolved for the present account.
  lemma CursorMatchesConfig(w: World, steps: seq<Step>)
    requires Init(w) && Legal(w, steps)
    ensures
      var v := Exec(w, steps);
      && (v.row.sinceId.Some? ==> Current(v.row, v.cursor))
      && (v.row.lastSyncedAt.Some? ==> Current(v.row, v.synced))
      && (v.row.userId.Some? ==> v.resolvedFor.Some? && v.resolvedFor == v.row.username)
  {
    RunKeepsInv(w, steps);
  }

  // A change of account or start date leaves no cursor behind, and a change of account no
  // user id, whatever runs wrote between the update's read and its transaction.
  lemma ChangeResets(w: World, form: Form, now: int)
    requires Inv(w) && Enabled(w, AdminCommit(form, now))
    ensures
      var v := Next(w, AdminCommit(form, now));
      && (form.username != w.row.username || form.startDate != w.row.startDate ==>
            v.row.sinceId.None? && v.row.lastSyncedAt.None? && v.row.lastError.None?)
      && (form.username != w.row.username ==> v.row.userId.None?)
      && (form.username == w.row.username && form.startDate == w.row.startDate ==>
            v.row.sinceId == w.row.sinceId && v.row.lastSyncedAt == w.row.lastSyncedAt)
      && (form.username == w.row.username ==> v.row.userId == w.row.userId)
      && (form.username == w.row.username && form.startDate == w.row.startDate ==>
            v.row.lastError == w.row.lastError)
      && v.row.enabled == form.enabled && v.row.username == form.username && v.row.startDate == form.startDate
      && v.row.schedule == form.schedule && v.row.updatedAt == now && v.runs == w.runs && v.admin.None?
  {
  }

  // A run that finishes moves the cursor to its newest post, or leaves it where the run found
  // it, if cursor, account and start date are still as it read them; otherwise it writes nothing.
  lemma FinishWrites(w: World, run: int, newest: Option<string>, now: int)
    requires Enabled(w, Finish(run, newest, now))
    ensures
      var v, row, read := Next(w, Finish(run, newest, now)), w.row, w.runs[run].read;
      && (forall other :: other in v.runs <==> other in w.runs && other != run)
      && v.row ==
        if row.sinceId == read.sinceId && row.username == read.username && row.startDate == read.startDate
        then row.(sinceId := if newest.Some? then newest else read.sinceId, lastSyncedAt := Some(now),
                  lastError := None, updatedAt := now)
        else row
  {
  }

  // A run that fails leaves its message and nothing else.
  lemma FailWrites(w: World, run: int, message: string, now: int)
    requires Enabled(w, FailRun(run, message, now))
    ensures
      var v := Next(w, FailRun(run, message, now));
      && v.row == w.row.(lastError := Some(message), updatedAt := now)
      && (forall other :: other in v.runs <==> other in w.runs && other != run)
  {
  }

  // A lookup writes the user id if the account is still the one it looked up, and the run then
  // fetches that account's posts; otherwise it writes nothing and the run ends.
  lemma ResolveWrites(w: World, run: int, userId: string, now: int)
    requires Enabled(w, Resolve(run, userId, now)) && w.runs[run].read.username.Some?
    ensures
      var v, account := Next(w, Resolve(run, userId, now)), w.runs[run].read.username;
      if w.row.username == account then
        && v.row == w.row.(userId := Some(userId), updatedAt := now)
        && v.runs == w.runs[run := Run(w.runs[run].read, Fetching(account.value))]
      else
        v.row == w.row && v.runs == w.runs - {run}
  {
  }

  // The serialisation is needed. Two updates that both read account A: the first moves to B,
  // a run under B writes its cursor, and the second, seeing no change from A, keeps it.
  lemma UnserialisedUpdatesMix(row: Row, toB: Form, backToA: Form, since: string, now: int)
    requires row.username.Some? && row.username != Some("") && toB.Valid() && backToA.Valid()
    requires toB.username != row.username && backToA.username == row.username && backToA.startDate == row.startDate
    ensures
      var underB := AdminTx(row, row, toB, now);
      var synced := SetSuccess(underB, Some(since), underB, now);
      var final := AdminTx(synced, row, backToA, now);
      final.username == row.username && final.sinceId == Some(since)
  {
  }
}
