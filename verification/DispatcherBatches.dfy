/** What a batch takes up, and how long a delivery that failed has to wait. */
module DispatcherBatches {
  import opened Common
  import opened PickupModel
  import opened PickupSpec
  import opened PickupRuns
  import opened PickupConservation
  import opened Dispatcher
  import opened DispatcherSafety
  import opened DispatcherRuns
  import opened DispatcherStory

  // ---------------------------------------------------------------- listing

  /** A row to be taken up: it waits or has failed, is due, and nobody has locked it lately. */
  function DueRow(now: Time, lease: nat): OutboxRow -> bool {
    (r: OutboxRow) => r.status in {Pending, Failed} && r.availableAt <= now && (r.lockedAt == None || r.lockedAt.value + lease <= now)
  }

  function FirstOf<T>(xs: seq<T>, limit: nat): seq<T> { if |xs| <= limit then xs else xs[..limit] }

  /** Listing gives the first rows to be taken up, in store order, as many as the limit allows. */
  lemma {:induction false} ListsDueRows(rows: seq<OutboxRow>, now: Time, lease: nat, limit: nat)
    ensures ListOutbox(rows, now, now - lease, limit) == FirstOf(Select(rows, DueRow(now, lease)), limit)
  {
    if rows != [] {
      var init, row := rows[..|rows| - 1], rows[|rows| - 1];
      assert rows == init + [row];
      ListsDueRows(init, now, lease, limit);
      SelectOneMore(init, row, DueRow(now, lease));
      var due := Select(init, DueRow(now, lease));
      if DueRow(now, lease)(row) && |due| >= limit { assert (due + [row])[..limit] == due[..limit]; }
    }
  }

  // --------------------------------------------------------------- one batch

  /** Worker `w` lists rows at action `i` and has not been idle since. */
  ghost predicate BatchFrom(workers: nat, actions: seq<Action>, i: nat, w: nat) {
    && i < |actions| && actions[i].Work? && actions[i].worker == w
    && IsIdle(At(workers, actions, i), w)
    && forall j | i < j <= |actions| :: !IsIdle(At(workers, actions, j), w)
  }

  ghost predicate IsIdle(g: Global, w: nat) { w < |g.workers| && g.workers[w].Idle? }

  ghost function Taken(workers: nat, actions: seq<Action>, i: nat): seq<OutboxRow>
    requires i < |actions| && actions[i].Work?
  {
    FirstOf(Select(At(workers, actions, i).store.outbox, DueRow(actions[i].world.now, actions[i].world.lease)), 100)
  }

  /** At action `j` worker `w` turns to the row and, unless it is gone, claims it. */
  ghost predicate TriesAt(workers: nat, actions: seq<Action>, j: nat, w: nat, row: OutboxRow) {
    j < |actions| && actions[j].Work? && actions[j].worker == w &&
    var g := At(workers, actions, j);
    && w < |g.workers| && g.workers[w].Batch? && g.workers[w].queue != [] && g.workers[w].queue[0] == row && !actions[j].world.cancelled
  }

  /** Of the rows listed at action `i`, those no longer in the queue have been tried. */
  ghost predicate Working(workers: nat, actions: seq<Action>, i: nat, w: nat, queue: seq<OutboxRow>) {
    BatchFrom(workers, actions, i, w) &&
    var rows := Taken(workers, actions, i);
    && |queue| <= |rows| && queue == rows[|rows| - |queue|..]
    && forall q | 0 <= q < |rows| - |queue| :: Tried(workers, actions, i, w, rows[q])
  }

  ghost predicate Tried(workers: nat, actions: seq<Action>, i: nat, w: nat, row: OutboxRow) {
    exists j :: i < j && TriesAt(workers, actions, j, w, row)
  }

  ghost predicate AllWorking(workers: nat, actions: seq<Action>) {
    var g := After(Start(workers), actions);
    forall w | 0 <= w < |g.workers| && !g.workers[w].Idle? :: exists i :: Working(workers, actions, i, w, QueueOf(g.workers[w]))
  }

  lemma BatchGoesOn(workers: nat, init: seq<Action>, a: Action, i: nat, w: nat)
    requires BatchFrom(workers, init, i, w) && !IsIdle(At(workers, init + [a], |init| + 1), w)
    ensures BatchFrom(workers, init + [a], i, w) && Taken(workers, init + [a], i) == Taken(workers, init, i)
  {
    PrefixAt(workers, init, a, i);
    forall j | i < j <= |init| + 1 ensures !IsIdle(At(workers, init + [a], j), w) {
      if j <= |init| { PrefixAt(workers, init, a, j); }
    }
  }

  lemma AtTheEnd(workers: nat, init: seq<Action>, a: Action)
    ensures At(workers, init + [a], |init| + 1) == Next(After(Start(workers), init), a)
    ensures At(workers, init + [a], |init|) == After(Start(workers), init)
  {
    assert (init + [a])[..|init| + 1] == init + [a] && (init + [a])[..|init|] == init;
    AfterOneMore(Start(workers), init, a);
  }

  lemma TriedBefore(workers: nat, init: seq<Action>, a: Action, i: nat, w: nat, row: OutboxRow)
    requires Tried(workers, init, i, w, row)
    ensures Tried(workers, init + [a], i, w, row)
  {
    var j :| i < j && TriesAt(workers, init, j, w, row);
    PrefixAt(workers, init, a, j);
    assert TriesAt(workers, init + [a], j, w, row);
  }

  lemma StillWorking(workers: nat, init: seq<Action>, a: Action, i: nat, w: nat, queue: seq<OutboxRow>)
    requires Working(workers, init, i, w, queue) && !IsIdle(At(workers, init + [a], |init| + 1), w)
    ensures Working(workers, init + [a], i, w, queue)
  {
    BatchGoesOn(workers, init, a, i, w);
    var rows := Taken(workers, init, i);
    forall q | 0 <= q < |rows| - |queue| ensures Tried(workers, init + [a], i, w, rows[q]) { TriedBefore(workers, init, a, i, w, rows[q]); }
  }

  lemma TakesUpOne(workers: nat, init: seq<Action>, i: nat, w: nat, x: World)
    requires var g := After(Start(workers), init);
             w < |g.workers| && g.workers[w].Batch? && g.workers[w].queue != [] && !x.cancelled && Working(workers, init, i, w, g.workers[w].queue)
    ensures Working(workers, init + [Work(w, x)], i, w, After(Start(workers), init).workers[w].queue[1..])
  {
    var g, a := After(Start(workers), init), Work(w, x);
    var actions, queue, rows := init + [a], g.workers[w].queue, Taken(workers, init, i);
    AtTheEnd(workers, init, a);
    BatchGoesOn(workers, init, a, i, w);
    assert TriesAt(workers, actions, |init|, w, queue[0]);
    assert rows[|rows| - |queue|] == queue[0];
    forall q | 0 <= q < |rows| - |queue[1..]| ensures Tried(workers, actions, i, w, rows[q]) {
      if q < |rows| - |queue| { TriedBefore(workers, init, a, i, w, rows[q]); }
    }
  }

  lemma StartsBatch(workers: nat, init: seq<Action>, w: nat, x: World)
    requires IsIdle(After(Start(workers), init), w)
    ensures var g' := Next(After(Start(workers), init), Work(w, x));
            w < |g'.workers| && !g'.workers[w].Idle? && Working(workers, init + [Work(w, x)], |init|, w, QueueOf(g'.workers[w]))
  {
    var g := After(Start(workers), init);
    AtTheEnd(workers, init, Work(w, x));
    IdleLists(g, w, x);
    BeginsWorking(workers, init + [Work(w, x)], |init|, w, QueueOf(Next(g, Work(w, x)).workers[w]));
  }

  lemma IdleLists(g: Global, w: nat, x: World)
    requires IsIdle(g, w)
    ensures var g' := Next(g, Work(w, x));
            && w < |g'.workers| && g'.workers[w].Batch? && !IsIdle(g', w)
            && QueueOf(g'.workers[w]) == FirstOf(Select(g.store.outbox, DueRow(x.now, x.lease)), 100)
  {
    ListsDueRows(g.store.outbox, x.now, x.lease, 100);
  }

  lemma BeginsWorking(workers: nat, actions: seq<Action>, i: nat, w: nat, queue: seq<OutboxRow>)
    requires i + 1 == |actions| && actions[i].Work? && actions[i].worker == w && IsIdle(At(workers, actions, i), w)
    requires !IsIdle(At(workers, actions, |actions|), w) && queue == Taken(workers, actions, i)
    ensures Working(workers, actions, i, w, queue)
  {
    forall j | i < j <= |actions| ensures !IsIdle(At(workers, actions, j), w) { assert j == |actions|; }
    assert queue[|queue| - |queue|..] == queue;
  }

  lemma StepWorks(workers: nat, init: seq<Action>, a: Action, w: nat) returns (i: nat)
    requires AllWorking(workers, init)
    requires var g' := Next(After(Start(workers), init), a); w < |g'.workers| && !g'.workers[w].Idle?
    ensures Working(workers, init + [a], i, w, QueueOf(Next(After(Start(workers), init), a).workers[w]))
  {
    var g := After(Start(workers), init);
    AtTheEnd(workers, init, a);
    SameOrStepped(g, a, w);
    if g.workers[w].Idle? {
      StartsBatch(workers, init, w, a.world);
      i := |init|;
    } else {
      i :| Working(workers, init, i, w, QueueOf(g.workers[w]));
      if QueueOf(Next(g, a).workers[w]) == QueueOf(g.workers[w]) {
        StillWorking(workers, init, a, i, w, QueueOf(g.workers[w]));
      } else {
        TakesUpOne(workers, init, i, w, a.world);
      }
    }
  }

  lemma {:induction false} RunWorks(workers: nat, actions: seq<Action>)
    ensures AllWorking(workers, actions)
  {
    if actions != [] {
      var init, a := actions[..|actions| - 1], actions[|actions| - 1];
      assert actions == init + [a];
      RunWorks(workers, init);
      AfterOneMore(Start(workers), init, a);
      var g' := Next(After(Start(workers), init), a);
      forall w | 0 <= w < |g'.workers| && !g'.workers[w].Idle? ensures exists i :: Working(workers, actions, i, w, QueueOf(g'.workers[w])) {
        var i := StepWorks(workers, init, a, w);
      }
    }
  }

  /** In every interleaving, a worker that comes to the end of a batch without
      being cancelled has turned to every row that was to be taken up when it
      listed them, up to a hundred, in store order. */
  lemma {:induction false} EveryDueRowIsTried(workers: nat, actions: seq<Action>, w: nat, x: World) returns (i: nat)
    requires var g := After(Start(workers), actions);
             w < |g.workers| && !g.workers[w].Idle? && Next(g, Work(w, x)).workers[w].Idle? && !x.cancelled
    ensures BatchFrom(workers, actions, i, w)
    ensures forall row | row in Taken(workers, actions, i) :: Tried(workers, actions, i, w, row)
  {
    var g := After(Start(workers), actions);
    RunWorks(workers, actions);
    EndsEmpty(g, w, x);
    i :| Working(workers, actions, i, w, QueueOf(g.workers[w]));
    NothingLeft(workers, actions, i, w);
  }

  /** Only an empty queue or a cancellation ends a batch. */
  lemma EndsEmpty(g: Global, w: nat, x: World)
    requires w < |g.workers| && !g.workers[w].Idle? && Next(g, Work(w, x)).workers[w].Idle? && !x.cancelled
    ensures QueueOf(g.workers[w]) == []
  {
  }

  lemma NothingLeft(workers: nat, actions: seq<Action>, i: nat, w: nat)
    requires Working(workers, actions, i, w, [])
    ensures forall row | row in Taken(workers, actions, i) :: Tried(workers, actions, i, w, row)
  {
    var rows := Taken(workers, actions, i);
    forall row | row in rows ensures Tried(workers, actions, i, w, row) {
      var q :| 0 <= q < |rows| && rows[q] == row;
      assert Tried(workers, actions, i, w, rows[q]);
    }
  }

  /** Turning to a row claims it exactly when it still waits or has failed. */
  lemma TryingClaims(g: Global, w: nat, x: World)
    requires w < |g.workers| && g.workers[w].Batch? && g.workers[w].queue != [] && !x.cancelled
    ensures var row, after := g.workers[w].queue[0], Next(g, Work(w, x)).workers[w];
            && (after.Busy? <==> exists k | 0 <= k < |g.store.outbox| ::
                  g.store.outbox[k].org == row.org && g.store.outbox[k].id == row.id && g.store.outbox[k].status in {Pending, Failed})
            && (after.Busy? ==> after.event == row)
  {
    var row := g.workers[w].queue[0];
    if k :| 0 <= k < |g.store.outbox| && g.store.outbox[k].org == row.org && g.store.outbox[k].id == row.id && g.store.outbox[k].status in {Pending, Failed} {
      assert ClaimableKey(row.org, row.id)(g.store.outbox[k]);
    }
  }

  // ---------------------------------------------------- failed deliveries

  /** Action `j` is a step of worker `w` while it holds that row. */
  ghost predicate HoldsAt(workers: nat, actions: seq<Action>, j: nat, w: nat, e: OutboxRow) {
    j < |actions| && actions[j].Work? && actions[j].worker == w &&
    var g := At(workers, actions, j); w < |g.workers| && g.workers[w].Busy? && g.workers[w].event == e
  }

  /** One more attempt would have been allowed, or not. */
  ghost predicate Judged(workers: nat, actions: seq<Action>, w: nat, e: OutboxRow, again: bool) {
    exists j: nat :: HoldsAt(workers, actions, j, w, e) && (e.attempts + 1 < actions[j].world.maxAttempts <==> again)
  }

  /** Five seconds times the square of the attempts. */
  function Backoff(attempts: nat): nat { if attempts <= 1 then 5 else 5 * (attempts * attempts) }

  /** The time the row is next due: five seconds times the square of the attempts made, at least one, after the failure. */
  ghost predicate DueAfter(workers: nat, actions: seq<Action>, w: nat, e: OutboxRow, due: Time) {
    exists j: nat :: HoldsAt(workers, actions, j, w, e)
                && due == actions[j].world.now + Backoff(e.attempts)
  }

  ghost predicate VerdictTold(workers: nat, actions: seq<Action>, wi: nat, w: Worker) {
    w.Busy? && (w.job.Settle? || w.job.Close?) && !w.job.verdict.Delivered? ==>
      && Judged(workers, actions, wi, w.event, w.job.verdict.Postponed?)
      && (w.job.Close? && w.job.verdict.Postponed? ==> DueAfter(workers, actions, wi, w.event, w.job.availableAt))
  }

  ghost predicate VerdictsTold(workers: nat, actions: seq<Action>) {
    var g := After(Start(workers), actions);
    forall w | 0 <= w < |g.workers| :: VerdictTold(workers, actions, w, g.workers[w])
  }

  lemma JudgedBefore(workers: nat, init: seq<Action>, a: Action, w: nat, e: OutboxRow, again: bool)
    requires Judged(workers, init, w, e, again)
    ensures Judged(workers, init + [a], w, e, again)
  {
    var j: nat :| HoldsAt(workers, init, j, w, e) && (e.attempts + 1 < init[j].world.maxAttempts <==> again);
    PrefixAt(workers, init, a, j);
    assert HoldsAt(workers, init + [a], j, w, e);
  }

  lemma DueBefore(workers: nat, init: seq<Action>, a: Action, w: nat, e: OutboxRow, due: Time)
    requires DueAfter(workers, init, w, e, due)
    ensures DueAfter(workers, init + [a], w, e, due)
  {
    var j: nat :| HoldsAt(workers, init, j, w, e) && due == init[j].world.now + Backoff(e.attempts);
    PrefixAt(workers, init, a, j);
    assert HoldsAt(workers, init + [a], j, w, e);
  }

  lemma HoldsNow(workers: nat, init: seq<Action>, w: nat, x: World)
    requires var g := After(Start(workers), init); w < |g.workers| && g.workers[w].Busy?
    ensures HoldsAt(workers, init + [Work(w, x)], |init|, w, After(Start(workers), init).workers[w].event)
  {
    assert (init + [Work(w, x)])[..|init|] == init;
  }

  /** A failed verdict is passed by counting attempts, and stays. */
  lemma VerdictsPass(s: State, e: OutboxRow, job: Job, x: World)
    requires Keyed(s) && Holding(s, e) && InRound(job)
    ensures var r := JobStep(s, e, job, x);
            r.job.Some? && r.job.value.Settle? && !r.job.value.verdict.Delivered? ==>
              !job.Settle? && (r.job.value.verdict.Postponed? <==> e.attempts + 1 < x.maxAttempts)
  {
    match job
    case Find =>
      var k :| 0 <= k < |s.outbox| && SameRow(s.outbox[k], e) && s.outbox[k].status == Processing;
      Located(s, e, k);
    case Decide(r, log) => DecideGoesOn(s, r, log, x);
    case Report(r, log, accepted, at, error) =>
    case _ =>
  }

  lemma WaitsAsLong(attempts: nat)
    ensures RetryBackoff(attempts) == Backoff(attempts)
  {
  }

  lemma VerdictsClose(s: State, e: OutboxRow, job: Job, x: World)
    requires InRound(job)
    ensures var r := JobStep(s, e, job, x);
            r.job.Some? && r.job.value.Close? ==>
              && job.Settle? && r.job.value.verdict == job.verdict
              && (job.verdict.Postponed? ==> r.job.value.availableAt == x.now + Backoff(e.attempts))
  {
    WaitsAsLong(e.attempts);
    match job
    case Decide(r, log) => DecideGoesOn(s, r, log, x);
    case _ =>
  }

  lemma MovedVerdict(workers: nat, init: seq<Action>, g: Global, v: nat, x: World)
    requires g == After(Start(workers), init) && Inv(g) && v < |g.workers| && VerdictTold(workers, init, v, g.workers[v])
    ensures VerdictTold(workers, init + [Work(v, x)], v, WorkerStep(g.store, g.workers[v], x).worker)
  {
    var w, t := g.workers[v], WorkerStep(g.store, g.workers[v], x).worker;
    if w.Busy? && t.Busy? {
      assert WorkerOk(g.store, w);
      HoldsNow(workers, init, v, x);
      VerdictsPass(g.store, w.event, w.job, x);
      VerdictsClose(g.store, w.event, w.job, x);
      assert t == Busy(w.queue, w.listedAt, w.event, JobStep(g.store, w.event, w.job, x).job.value);
      NextVerdict(workers, init, v, x, w, t);
    }
  }

  lemma NextVerdict(workers: nat, init: seq<Action>, v: nat, x: World, w: Worker, t: Worker)
    requires w.Busy? && t.Busy? && t.event == w.event && VerdictTold(workers, init, v, w)
    requires HoldsAt(workers, init + [Work(v, x)], |init|, v, w.event)
    requires t.job.Settle? && !t.job.verdict.Delivered? ==> (t.job.verdict.Postponed? <==> w.event.attempts + 1 < x.maxAttempts)
    requires t.job.Close? ==> w.job.Settle? && t.job.verdict == w.job.verdict
                              && (t.job.verdict.Postponed? ==> t.job.availableAt == x.now + Backoff(w.event.attempts))
    ensures VerdictTold(workers, init + [Work(v, x)], v, t)
  {
    if t.job.Close? && !t.job.verdict.Delivered? { JudgedBefore(workers, init, Work(v, x), v, w.event, w.job.verdict.Postponed?); }
  }

  lemma UnmovedVerdict(workers: nat, init: seq<Action>, a: Action, v: nat, w: Worker)
    requires VerdictTold(workers, init, v, w)
    ensures VerdictTold(workers, init + [a], v, w)
  {
    if w.Busy? && (w.job.Settle? || w.job.Close?) && !w.job.verdict.Delivered? {
      JudgedBefore(workers, init, a, v, w.event, w.job.verdict.Postponed?);
      if w.job.Close? && w.job.verdict.Postponed? { DueBefore(workers, init, a, v, w.event, w.job.availableAt); }
    }
  }

  lemma {:induction false} RunJudges(workers: nat, actions: seq<Action>)
    ensures VerdictsTold(workers, actions)
  {
    if actions != [] {
      var init, a := actions[..|actions| - 1], actions[|actions| - 1];
      assert actions == init + [a];
      RunJudges(workers, init);
      RunIsSafe(workers, init);
      AfterOneMore(Start(workers), init, a);
      var g := After(Start(workers), init);
      forall v | 0 <= v < |Next(g, a).workers| ensures VerdictTold(workers, actions, v, Next(g, a).workers[v]) {
        SameOrStepped(g, a, v);
        if a.Work? && a.worker == v { MovedVerdict(workers, init, g, v, a.world); } else { UnmovedVerdict(workers, init, a, v, g.workers[v]); }
      }
    }
  }

  /** In every interleaving, when a row stops being processed it was its holder
      that closed it: as processed, or as waiting again, since another attempt
      was left, due after five seconds times the square of the attempts made
      before, or as failed, since none was left. */
  lemma {:induction false} FailedDeliveriesWaitOrEnd(workers: nat, actions: seq<Action>, a: Action, k: nat)
    requires var g := After(Start(workers), actions);
             k < |g.store.outbox| && g.store.outbox[k].status == Processing && k < |Next(g, a).store.outbox|
             && Next(g, a).store.outbox[k].status != Processing
    ensures a.Work? && a.worker < |After(Start(workers), actions).workers| && After(Start(workers), actions).workers[a.worker].Busy?
    ensures var g := After(Start(workers), actions); var row, e := Next(g, a).store.outbox[k], g.workers[a.worker].event;
            && e.id == row.id
            && (row.status == Pending ==> Judged(workers, actions, a.worker, e, true) && DueAfter(workers, actions, a.worker, e, row.availableAt))
            && (row.status == Failed ==> Judged(workers, actions, a.worker, e, false))
  {
    var g := After(Start(workers), actions);
    RunIsSafe(workers, actions);
    RunJudges(workers, actions);
    ClosedByHolder(g, a, k);
    assert VerdictTold(workers, actions, a.worker, g.workers[a.worker]);
  }

  lemma ClosedByHolder(g: Global, a: Action, k: nat)
    requires Inv(g) && k < |g.store.outbox| && g.store.outbox[k].status == Processing && k < |Next(g, a).store.outbox|
    requires Next(g, a).store.outbox[k].status != Processing
    ensures a.Work? && a.worker < |g.workers| && g.workers[a.worker].Busy? && g.workers[a.worker].job.Close?
    ensures var row, w := Next(g, a).store.outbox[k], g.workers[a.worker];
            w.event.id == row.id && row.status == RowOutcome(w.job.verdict) && row.availableAt == w.job.availableAt
  {
    match a
    case Business(c) => if !Internal(c.command) { BusinessIsAround(g.store, c.org, c.command, c.now); }
    case Work(w, x) =>
      if w < |g.workers| && g.workers[w].Busy? {
        var next := BusyStepOk(g, w, x);
        if next.None? { ClosedRowAt(g, w, x, k); }
      }
  }

  lemma ClosedRowAt(g: Global, w: nat, x: World, k: nat)
    requires Inv(g) && w < |g.workers| && g.workers[w].Busy? && g.workers[w].job.Close? && k < |g.store.outbox|
    requires k < |Next(g, Work(w, x)).store.outbox| && Next(g, Work(w, x)).store.outbox[k] != g.store.outbox[k]
    ensures var row, v := Next(g, Work(w, x)).store.outbox[k], g.workers[w];
            v.event.id == row.id && row.status == RowOutcome(v.job.verdict) && row.availableAt == v.job.availableAt
  {
    var e, v := g.workers[w].event, g.workers[w].job.verdict;
    assert WorkerOk(g.store, g.workers[w]);
    var i := HeldIsAt(g.store, e);
    ClosesOnly(g.store, e, v, g.workers[w].job.availableAt, x, i, k);
  }

  lemma HeldIsAt(s: State, e: OutboxRow) returns (i: nat)
    requires Keyed(s) && Holding(s, e)
    ensures FirstIndex(s.outbox, RowKey(e.org, e.id)) == Some(i)
  {
    i :| 0 <= i < |s.outbox| && SameRow(s.outbox[i], e) && s.outbox[i].status == Processing;
    Located(s, e, i);
  }

  lemma ClosesOnly(s: State, e: OutboxRow, v: Verdict, availableAt: Time, x: World, i: nat, k: nat)
    requires FirstIndex(s.outbox, RowKey(e.org, e.id)) == Some(i) && k < |s.outbox|
    ensures var t := CloseStep(s, e, v, availableAt, x).state;
            && |t.outbox| == |s.outbox|
            && if k == i then t.outbox[k].id == e.id && t.outbox[k].status == RowOutcome(v) && t.outbox[k].availableAt == availableAt
               else t.outbox[k] == s.outbox[k]
  {
  }
}
