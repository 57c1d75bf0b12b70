/**
 The wake nudge: enqueuers insert a row and then fill a one-slot channel, the worker waits
 on the channel and a ticker and then drains. A wake that finds the slot full is dropped.

 The worker selects a row and claims it in two statements. A row that is cancelled in
 between makes the claim fail, which ends the drain as if no row had been due.

 One worker, live ctx, no database errors, a clock that never goes back, fresh row ids. A
 row counts as woken from the moment its enqueuer called Wake.
 */
module Wakeups {
  import opened Options

  // `woken` is the time of the enqueuer's Wake call, once made.
  datatype Row = Row(runAt: int, queued: bool, woken: Option<int>)

  // Waiting in the select; at the head of the drain loop; between RunOnce's clock read and
  // its query; between its query and its claim; running the job it claimed.
  datatype Phase = Waiting | Draining | Looking(now: int) | Picked(id: int) | Running(id: int)

  // `beaten` is history: the last drain ended with a lost claim.
  datatype World = World(rows: map<int, Row>, clock: int, pending: bool, phase: Phase, beaten: bool)

  predicate Init(w: World) {
    w.rows == map[] && w.phase.Waiting? && !w.pending && !w.beaten
  }

  datatype Step =
    | Advance(to: int)
    | Insert(id: int, runAt: int)
    | Wake(id: int)
    | ReceiveTick
    | ReceiveWake
    | ReadClock
    | Pick(id: int)
    | FindNothing
    | Claim
    | LoseClaim
    | Finish
    | Retry(runAt: int)
    | Cancel(id: int)

  predicate Due(w: World, id: int, now: int) {
    id in w.rows && w.rows[id].queued && w.rows[id].runAt <= now
  }

  predicate Enabled(w: World, step: Step) {
    match step
    case Advance(to) => w.clock <= to
    case Insert(id, _) => id !in w.rows
    case Wake(id) => id in w.rows && w.rows[id].woken.None?
    case ReceiveTick => w.phase.Waiting?
    case ReceiveWake => w.phase.Waiting? && w.pending
    case ReadClock => w.phase.Draining?
    case Pick(id) => w.phase.Looking? && Due(w, id, w.phase.now)
    case FindNothing => w.phase.Looking? && forall id :: id in w.rows ==> !Due(w, id, w.phase.now)
    case Claim => w.phase.Picked? && w.phase.id in w.rows && w.rows[w.phase.id].queued
    case LoseClaim => w.phase.Picked? && !(w.phase.id in w.rows && w.rows[w.phase.id].queued)
    case Finish => w.phase.Running? && w.phase.id in w.rows
    case Retry(_) => w.phase.Running? && w.phase.id in w.rows
    case Cancel(id) => id in w.rows && w.rows[id].queued
  }

  function Next(w: World, step: Step): World
    requires Enabled(w, step)
  {
    match step
    case Advance(to) => w.(clock := to)
    case Insert(id, runAt) => w.(rows := w.rows[id := Row(runAt, true, None)])
    case Wake(id) => w.(rows := w.rows[id := w.rows[id].(woken := Some(w.clock))], pending := true)
    case ReceiveTick => w.(phase := Draining, beaten := false)
    case ReceiveWake => w.(phase := Draining, pending := false, beaten := false)
    case ReadClock => w.(phase := Looking(w.clock))
    case Pick(id) => w.(phase := Picked(id))
    case FindNothing => w.(phase := Waiting)
    case Claim => w.(rows := w.rows[w.phase.id := w.rows[w.phase.id].(queued := false)], phase := Running(w.phase.id))
    case LoseClaim => w.(phase := Waiting, beaten := true)
    case Finish => w.(phase := Draining)
    case Retry(runAt) =>
      w.(rows := w.rows[w.phase.id := w.rows[w.phase.id].(queued := true, runAt := runAt)], phase := Draining)
    case Cancel(id) => w.(rows := w.rows[id := w.rows[id].(queued := false)])
  }

  predicate Legal(w: World, steps: seq<Step>)
    decreases |steps|
  {
    steps == [] || (Enabled(w, steps[0]) && Legal(Next(w, steps[0]), steps[1..]))
  }

  function Exec(w: World, steps: seq<Step>): World
    requires Legal(w, steps)
    decreases |steps|
  {
    if steps == [] then w else Exec(Next(w, steps[0]), steps[1..])
  }

  // The row was woken when it was already due, and is still queued for that time.
  predicate WokenDue(row: Row) {
    row.queued && row.woken.Some? && row.runAt <= row.woken.value
  }

  // A wake is in the channel, or the worker has yet to look at a time that shows the row.
  predicate Covered(w: World, row: Row)
    requires row.woken.Some?
  {
    w.pending || w.phase.Draining? || w.phase.Picked? || w.phase.Running?
    || (w.phase.Looking? && row.woken.value <= w.phase.now)
  }

  ghost predicate AllCovered(w: World) {
    forall id :: id in w.rows && WokenDue(w.rows[id]) ==> Covered(w, w.rows[id])
  }

  ghost predicate TimesOk(w: World) {
    && (forall id :: id in w.rows && w.rows[id].woken.Some? ==> w.rows[id].woken.value <= w.clock)
    && (w.phase.Looking? ==> w.phase.now <= w.clock)
  }

  // Nothing woken is left behind, unless the worker waits after a lost claim.
  ghost predicate Inv(w: World) {
    TimesOk(w) && (w.beaten ==> w.phase.Waiting?) && (w.beaten || AllCovered(w))
  }

  lemma StepKeepsInv(w: World, step: Step)
    requires Inv(w) && Enabled(w, step)
    ensures Inv(Next(w, step))
  {
    if step.FindNothing? {
      forall id | id in w.rows && WokenDue(w.rows[id]) ensures w.pending {
        assert Covered(w, w.rows[id]) && !Due(w, id, w.phase.now);
      }
    }
  }

  lemma {:induction false} RunKeepsInv(w: World, steps: seq<Step>)
    requires Inv(w) && Legal(w, steps)
    ensures Inv(Exec(w, steps))
    decreases |steps|
  {
    if steps != [] {
      StepKeepsInv(w, steps[0]);
      RunKeepsInv(Next(w, steps[0]), steps[1..]);
    }
  }

  // In every reachable state, a queued row that was due when its enqueuer woke the worker
  // has a wake in the channel or a worker still draining, unless the worker waits because
  // its last drain ended with a lost claim.
  lemma OnlyLostClaimsLoseWakeups(w: World, steps: seq<Step>, id: int)
    requires Init(w) && Legal(w, steps)
    requires id in Exec(w, steps).rows && Exec(w, steps).rows[id].queued
    ensures
      var v := Exec(w, steps);
      || v.pending || !v.phase.Waiting? || v.beaten
      || v.rows[id].woken.None? || v.rows[id].woken.value < v.rows[id].runAt
  {
    RunKeepsInv(w, steps);
  }

  /// ### Lost claims

  ghost predicate NothingWokenLeft(w: World) {
    forall id :: id in w.rows ==> !WokenDue(w.rows[id])
  }

  // A lost claim leaves everything covered if and only if a wake is pending or no row that
  // was due when woken is queued any more.
  lemma LostClaimIsHarmlessIff(w: World)
    requires Enabled(w, LoseClaim)
    ensures AllCovered(Next(w, LoseClaim)) <==> w.pending || NothingWokenLeft(w)
  {
    assert Next(w, LoseClaim).rows == w.rows;
  }

  ghost predicate CoveredThroughout(w: World, steps: seq<Step>)
    requires Legal(w, steps)
    decreases |steps|
  {
    AllCovered(w) && (steps == [] || CoveredThroughout(Next(w, steps[0]), steps[1..]))
  }

  ghost predicate LosesHarmlessly(w: World, steps: seq<Step>)
    requires Legal(w, steps)
    decreases |steps|
  {
    steps == [] ||
    ((steps[0].LoseClaim? ==> w.pending || NothingWokenLeft(w)) && LosesHarmlessly(Next(w, steps[0]), steps[1..]))
  }

  lemma CoverKept(w: World, step: Step)
    requires TimesOk(w) && AllCovered(w) && Enabled(w, step)
    ensures TimesOk(Next(w, step))
    ensures !step.LoseClaim? ==> AllCovered(Next(w, step))
  {
    StepKeepsInv(w.(beaten := false), step);
    assert Next(w, step).rows == Next(w.(beaten := false), step).rows;
  }

  // Over whole runs: every state of a run has its woken due rows covered if and only if each
  // lost claim of the run was harmless when it happened.
  lemma {:induction false} CoveredIffLossesHarmless(w: World, steps: seq<Step>)
    requires TimesOk(w) && AllCovered(w) && Legal(w, steps)
    ensures CoveredThroughout(w, steps) <==> LosesHarmlessly(w, steps)
    decreases |steps|
  {
    if steps != [] {
      var next := Next(w, steps[0]);
      CoverKept(w, steps[0]);
      if steps[0].LoseClaim? { LostClaimIsHarmlessIff(w); }
      if AllCovered(next) { CoveredIffLossesHarmless(next, steps[1..]); }
    }
  }

  // No cancel hits a row between its selection and its claim.
  predicate Undisturbed(w: World, steps: seq<Step>)
    requires Legal(w, steps)
    decreases |steps|
  {
    steps == [] || (!(steps[0].Cancel? && w.phase == Picked(steps[0].id)) && Undisturbed(Next(w, steps[0]), steps[1..]))
  }

  ghost predicate Claimable(w: World) {
    !w.beaten && (w.phase.Picked? ==> w.phase.id in w.rows && w.rows[w.phase.id].queued)
  }

  // Then no claim is lost.
  lemma {:induction false} UndisturbedNeverLoses(w: World, steps: seq<Step>)
    requires Claimable(w) && Legal(w, steps) && Undisturbed(w, steps)
    ensures Claimable(Exec(w, steps)) && !Enabled(Exec(w, steps), LoseClaim)
    decreases |steps|
  {
    if steps != [] {
      assert !steps[0].LoseClaim?;
      UndisturbedNeverLoses(Next(w, steps[0]), steps[1..]);
    }
  }

  // No wake-up is lost in such a run: a row that is due and idle in the table has an
  // enqueuer that is yet to call Wake, or became due only after that call.
  lemma NoLostWakeup(w: World, steps: seq<Step>, id: int)
    requires Init(w) && Legal(w, steps) && Undisturbed(w, steps)
    requires id in Exec(w, steps).rows && Exec(w, steps).rows[id].queued
    ensures
      var v := Exec(w, steps);
      || v.pending || !v.phase.Waiting?
      || v.rows[id].woken.None? || v.rows[id].woken.value < v.rows[id].runAt
  {
    RunKeepsInv(w, steps);
    UndisturbedNeverLoses(w, steps);
  }

  // Once the worker waits again with an empty channel, and not for a lost claim, no row that
  // was due when woken is left.
  lemma QuietMeansServed(w: World, steps: seq<Step>, id: int)
    requires Init(w) && Legal(w, steps)
    requires id in Exec(w, steps).rows && !Exec(w, steps).pending && !Exec(w, steps).beaten
    requires
      var v := Exec(w, steps);
      v.phase.Waiting? || (v.phase.Looking? && v.phase.now < v.rows[id].runAt)
    ensures !WokenDue(Exec(w, steps).rows[id])
  {
    RunKeepsInv(w, steps);
  }

  /// ### What a drain does

  ghost function Claims(w: World, steps: seq<Step>, id: int): nat
    requires Legal(w, steps)
    decreases |steps|
  {
    if steps == [] then 0 else
      (if steps[0].Claim? && w.phase == Picked(id) then 1 else 0) + Claims(Next(w, steps[0]), steps[1..], id)
  }

  // How often the row is put into the queue: by its insert, and by each retry.
  ghost function Queueings(w: World, steps: seq<Step>, id: int): nat
    requires Legal(w, steps)
    decreases |steps|
  {
    if steps == [] then 0 else
      (if (steps[0].Insert? && steps[0].id == id) || (steps[0].Retry? && w.phase == Running(id)) then 1 else 0)
      + Queueings(Next(w, steps[0]), steps[1..], id)
  }

  ghost function Waits(w: World, id: int): nat { if id in w.rows && w.rows[id].queued then 1 else 0 }

  // Every claim of a row uses up one insert or retry of it.
  lemma {:induction false} ClaimsUseUpQueueings(w: World, steps: seq<Step>, id: int)
    requires Legal(w, steps)
    ensures Claims(w, steps, id) + Waits(Exec(w, steps), id) <= Queueings(w, steps, id) + Waits(w, id)
    decreases |steps|
  {
    if steps != [] { ClaimsUseUpQueueings(Next(w, steps[0]), steps[1..], id); }
  }

  // A retry puts the row that was running back for the given time, and the drain goes on.
  lemma RetryPutsBack(w: World, runAt: int)
    requires Enabled(w, Retry(runAt))
    ensures
      var v, id := Next(w, Retry(runAt)), w.phase.id;
      && v.phase.Draining? && v.rows == w.rows[id := Row(runAt, true, w.rows[id].woken)]
      && (runAt <= v.clock ==> Due(v, id, v.clock))
  {
  }

  ghost function DueRows(w: World): set<int> { set id | id in w.rows && Due(w, id, w.clock) }

  ghost function Served(w: World): World {
    w.(phase := Waiting,
       rows := map id | id in w.rows :: if Due(w, id, w.clock) then w.rows[id].(queued := false) else w.rows[id])
  }

  // A drain left to itself claims the due rows, one after another, and then waits again; the
  // other rows it leaves alone.
  lemma {:induction false} DrainServes(w: World) returns (steps: seq<Step>)
    requires w.phase.Draining?
    ensures Legal(w, steps) && Exec(w, steps) == Served(w)
    decreases DueRows(w)
  {
    var looking := Next(w, ReadClock);
    if id :| id in DueRows(w) {
      var next := OneServed(w, id);
      steps := DrainServes(next);
      var running := Next(Next(looking, Pick(id)), Claim);
      assert Next(running, Finish) == next;
      Prepend(running, Finish, steps);
      Prepend(Next(looking, Pick(id)), Claim, [Finish] + steps);
      Prepend(looking, Pick(id), [Claim] + ([Finish] + steps));
      steps := [Pick(id)] + ([Claim] + ([Finish] + steps));
    } else {
      forall id | id in w.rows ensures !Due(looking, id, w.clock) { assert id !in DueRows(w); }
      Prepend(looking, FindNothing, []);
      steps := [FindNothing] + [];
      assert Served(w).rows == w.rows;
    }
    Prepend(w, ReadClock, steps);
    steps := [ReadClock] + steps;
  }

  lemma OneServed(w: World, id: int) returns (v: World)
    requires w.phase.Draining? && id in DueRows(w)
    ensures v == w.(rows := w.rows[id := w.rows[id].(queued := false)])
    ensures DueRows(v) < DueRows(w) && Served(v) == Served(w)
  {
    v := w.(rows := w.rows[id := w.rows[id].(queued := false)]);
    assert id !in DueRows(v);
    assert Served(v).rows == Served(w).rows;
  }

  /// ### Where the guarantee ends

  lemma Prepend(w: World, step: Step, rest: seq<Step>)
    requires Enabled(w, step) && Legal(Next(w, step), rest)
    ensures Legal(w, [step] + rest) && Exec(w, [step] + rest) == Exec(Next(w, step), rest)
  {
  }

  lemma {:induction false} Concat(w: World, steps: seq<Step>, rest: seq<Step>)
    requires Legal(w, steps) && Legal(Exec(w, steps), rest)
    ensures Legal(w, steps + rest) && Exec(w, steps + rest) == Exec(Exec(w, steps), rest)
    decreases |steps|
  {
    if steps == [] {
      assert steps + rest == rest;
    } else {
      Concat(Next(w, steps[0]), steps[1..], rest);
      assert (steps + rest)[1..] == steps[1..] + rest;
    }
  }

  // One drain that finds nothing.
  lemma EmptyDrain(w: World) returns (steps: seq<Step>)
    requires w.phase.Waiting? && w.pending && forall id :: id in w.rows ==> !Due(w, id, w.clock)
    ensures Legal(w, steps) && Exec(w, steps) == w.(pending := false, beaten := false)
  {
    var received := Next(w, ReceiveWake);
    var looking := Next(received, ReadClock);
    Prepend(looking, FindNothing, []);
    Prepend(received, ReadClock, [FindNothing] + []);
    Prepend(w, ReceiveWake, [ReadClock] + ([FindNothing] + []));
    steps := [ReceiveWake] + ([ReadClock] + ([FindNothing] + []));
  }

  // A row for later is not kept by its wake, which the worker consumes before the row is
  // due; the ticker has to find it.
  lemma LaterRowOutlivesItsWake(w: World, id: int, runAt: int) returns (steps: seq<Step>)
    requires Init(w) && w.clock < runAt
    ensures Legal(w, steps)
    ensures
      var v := Exec(w, steps);
      Due(v, id, v.clock) && v.rows[id].woken.Some? && !v.pending && v.phase.Waiting?
  {
    var inserted := Next(w, Insert(id, runAt));
    var woken := Next(inserted, Wake(id));
    var drain := EmptyDrain(woken);
    var quiet := Exec(woken, drain);
    Prepend(quiet, Advance(runAt), []);
    Concat(woken, drain, [Advance(runAt)] + []);
    steps := drain + ([Advance(runAt)] + []);
    Prepend(inserted, Wake(id), steps);
    steps := [Wake(id)] + steps;
    Prepend(w, Insert(id, runAt), steps);
    steps := [Insert(id, runAt)] + steps;
  }

  // A drain that selects `picked`, which is cancelled before its claim.
  lemma BeatenDrain(w: World, picked: int) returns (steps: seq<Step>)
    requires w.phase.Waiting? && w.pending && Due(w, picked, w.clock)
    ensures Legal(w, steps)
    ensures Exec(w, steps) ==
      w.(rows := w.rows[picked := w.rows[picked].(queued := false)], pending := false, beaten := true)
  {
    var received := Next(w, ReceiveWake);
    var looking := Next(received, ReadClock);
    var chosen := Next(looking, Pick(picked));
    var cancelled := Next(chosen, Cancel(picked));
    Prepend(cancelled, LoseClaim, []);
    steps := [LoseClaim] + [];
    Prepend(chosen, Cancel(picked), steps);
    steps := [Cancel(picked)] + steps;
    Prepend(looking, Pick(picked), steps);
    steps := [Pick(picked)] + steps;
    Prepend(received, ReadClock, steps);
    steps := [ReadClock] + steps;
    Prepend(w, ReceiveWake, steps);
    steps := [ReceiveWake] + steps;
  }

  // The condition on cancels is needed. Of two due rows the worker selects one, which a save
  // or a destroy cancels; the lost claim ends the drain, and the other row, whose wake the
  // drain consumed, is left to the ticker.
  lemma LostClaimLosesWakeup(w: World, picked: int, left: int, runAt: int) returns (steps: seq<Step>)
    requires Init(w) && picked != left && runAt <= w.clock
    ensures Legal(w, steps)
    ensures
      var v := Exec(w, steps);
      left in v.rows && WokenDue(v.rows[left]) && Due(v, left, v.clock) && !v.pending && v.phase.Waiting?
  {
    var first := Next(w, Insert(picked, runAt));
    var second := Next(first, Insert(left, runAt));
    var woken := Next(second, Wake(left));
    steps := BeatenDrain(woken, picked);
    Prepend(second, Wake(left), steps);
    steps := [Wake(left)] + steps;
    Prepend(first, Insert(left, runAt), steps);
    steps := [Insert(left, runAt)] + steps;
    Prepend(w, Insert(picked, runAt), steps);
    steps := [Insert(picked, runAt)] + steps;
  }
}
