/** What every interleaving of dispatchers, new notifications and staff retries keeps. */
module DispatcherSafety {
  import opened Common
  import opened PickupModel
  import opened PickupSpec
  import opened PickupRuns
  import opened PickupHistory
  import opened PickupLedger
  import opened PickupConservation
  import opened Dispatcher

  // ------------------------------------------------------------ the protocol

  type Hand = w: Worker | Ready(w) witness Idle

  /** A row that was marked processed, and the round of accounts it was marked for. */
  datatype Ending = Ending(rowId: nat, round: Round)

  /** The shared store, the workers, every message accepted so far, and every delivery finished. */
  datatype Global = Global(store: State, workers: seq<Hand>, sends: seq<Send>, finished: seq<Ending>)

  datatype Action = Business(call: Call) | Work(worker: nat, world: World)

  /** The calls that only the dispatchers make. */
  predicate Internal(c: Command) { c.CmdClaim? || c.CmdComplete? || c.CmdOpenLog? || c.CmdSetLog? || c.CmdSetNotice? }

  function FinishedBy(w: Worker): seq<Ending> {
    if w.Busy? && w.job.Close? && w.job.verdict.Delivered? then [Ending(w.event.id, w.job.verdict.round)] else []
  }

  function Next(g: Global, a: Action): Global {
    match a
    case Business(c) => if Internal(c.command) then g else g.(store := Step(g.store, c.org, c.command, c.now))
    case Work(w, x) =>
      if w >= |g.workers| then g
      else
        var turn := WorkerStep(g.store, g.workers[w], x);
        Global(turn.state, g.workers[w := turn.worker], g.sends + SentBy(g.workers[w], x), g.finished + FinishedBy(g.workers[w]))
  }

  function After(g: Global, actions: seq<Action>): Global {
    if actions == [] then g else Next(After(g, actions[..|actions| - 1]), actions[|actions| - 1])
  }

  /** An empty store and any number of workers. */
  function Start(workers: nat): Global { Global(INIT, seq(workers, _ => Idle), [], []) }

  // ---------------------------------------------------------- what is kept

  predicate LogIs(l: DeliveryLog, d: Send) {
    l.org == d.org && l.notificationId == d.notificationId && l.accountId == d.accountId && l.messageKind == d.kind && l.templateId == d.template
  }

  function KeyOf(l: DeliveryLog): Send { Send(l.org, l.notificationId, l.accountId, l.messageKind, l.templateId) }

  function SendAt(r: Round, k: nat): Send
    requires k < |r.accounts|
  {
    Send(r.notice.org, r.notice.id, r.accounts[k].id, r.kind, r.template)
  }

  predicate Settled(status: LogStatus) { status == LogSent || status == LogSkipped }

  ghost predicate Done(s: State, d: Send) { exists i | 0 <= i < |s.logs| :: LogIs(s.logs[i], d) && Settled(s.logs[i].status) }

  ghost predicate LogKeysUnique(logs: seq<DeliveryLog>) {
    forall i, j | 0 <= i < j < |logs| :: KeyOf(logs[i]) != KeyOf(logs[j])
  }

  ghost predicate Sound(s: State) { History(s) && TidyState(s) && Conserved(s) && LogKeysUnique(s.logs) }

  /** What `Sound` says of ids and keys. */
  ghost predicate Keyed(s: State) {
    && Paired(s.notifications, s.outbox)
    && (forall i, j | 0 <= i < j < |s.outbox| :: s.outbox[i].id != s.outbox[j].id)
    && (forall i, j | 0 <= i < j < |s.notifications| :: s.notifications[i].id != s.notifications[j].id)
    && (forall i, j | 0 <= i < j < |s.logs| :: s.logs[i].id != s.logs[j].id)
    && (forall k | 0 <= k < |s.notifications| :: Trimmed(s.notifications[k].kind))
    && LogKeysUnique(s.logs)
  }

  lemma SoundIsKeyed(s: State)
    requires Sound(s)
    ensures Keyed(s)
  {
    var l := LedgerOf(s);
    assert Rising(l.lists[ROWS], l.next) && Rising(l.lists[NOTICES], l.next) && Rising(l.lists[LOGS], l.next);
    forall i, j | 0 <= i < j < |s.outbox| ensures s.outbox[i].id != s.outbox[j].id {
      assert l.lists[ROWS][i] < l.lists[ROWS][j];
    }
    forall i, j | 0 <= i < j < |s.notifications| ensures s.notifications[i].id != s.notifications[j].id {
      assert l.lists[NOTICES][i] < l.lists[NOTICES][j];
    }
    forall i, j | 0 <= i < j < |s.logs| ensures s.logs[i].id != s.logs[j].id {
      assert l.lists[LOGS][i] < l.lists[LOGS][j];
    }
  }

  ghost predicate KnownRow(s: State, e: OutboxRow) { exists k | 0 <= k < |s.outbox| :: SameRow(s.outbox[k], e) }

  ghost predicate Holding(s: State, e: OutboxRow) {
    exists k | 0 <= k < |s.outbox| :: SameRow(s.outbox[k], e) && s.outbox[k].status == Processing
  }

  ghost predicate RoundOk(s: State, e: OutboxRow, r: Round) {
    && r.notice.id == e.notificationId && r.notice.org == e.org && Trimmed(r.kind) && Trimmed(r.template)
    && r.next <= |r.accounts|
    && (r.firstErr.None? ==> forall k | 0 <= k < r.next :: Done(s, SendAt(r, k)))
  }

  /** A log of the current account with that status. */
  ghost predicate OpenedLog(s: State, r: Round, id: nat, status: LogStatus) {
    r.next < |r.accounts| && exists i | 0 <= i < |s.logs| :: s.logs[i].id == id && LogIs(s.logs[i], SendAt(r, r.next)) && s.logs[i].status == status
  }

  ghost predicate NoticeHas(s: State, id: nat, status: NoticeStatus) {
    exists k | 0 <= k < |s.notifications| :: s.notifications[k].id == id && s.notifications[k].status == status
  }

  ghost predicate VerdictOk(s: State, e: OutboxRow, v: Verdict) {
    v.Delivered? ==> RoundOk(s, e, v.round) && v.round.firstErr.None? && v.round.next == |v.round.accounts|
  }

  ghost predicate JobOk(s: State, e: OutboxRow, job: Job) {
    match job
    case Find => true
    case List(n) => n.id == e.notificationId && n.org == e.org && Trimmed(n.kind)
    case Deliver(r) => RoundOk(s, e, r)
    case Decide(r, log) => RoundOk(s, e, r) && OpenedLog(s, r, log.id, log.status)
    case Transmit(r, log, _) => RoundOk(s, e, r) && OpenedLog(s, r, log.id, LogPending)
    case Report(r, log, _, _, _) => RoundOk(s, e, r) && OpenedLog(s, r, log.id, LogPending)
    case Settle(v) => VerdictOk(s, e, v)
    case Close(v, _) => VerdictOk(s, e, v) && NoticeHas(s, e.notificationId, NoticeOutcome(v))
  }

  function QueueOf(w: Worker): seq<OutboxRow> { if w.Idle? then [] else w.queue }

  ghost predicate WorkerOk(s: State, w: Worker) {
    && (forall q | 0 <= q < |QueueOf(w)| :: KnownRow(s, QueueOf(w)[q]))
    && (w.Busy? ==> Holding(s, w.event) && JobOk(s, w.event, w.job))
  }

  predicate Holds(w: Worker, rowId: nat) { w.Busy? && w.event.id == rowId }

  ghost predicate Apart(ws: seq<Hand>) {
    forall v, w | 0 <= v < w < |ws| && ws[v].Busy? && ws[w].Busy? :: ws[v].event.id != ws[w].event.id
  }

  ghost predicate AllHeld(s: State, ws: seq<Hand>) {
    forall k | 0 <= k < |s.outbox| && s.outbox[k].status == Processing :: exists w | 0 <= w < |ws| :: Holds(ws[w], s.outbox[k].id)
  }

  /** At rest a row and its notification tell the same story. */
  predicate Agree(n: Notification, r: OutboxRow) {
    match r.status
    case Pending => n.status == NoticePending
    case Processed => n.status == NoticeSent
    case Failed => n.status == NoticeFailed
    case Processing => true
  }

  ghost predicate Agreed(s: State) {
    |s.notifications| == |s.outbox| && forall k | 0 <= k < |s.outbox| :: Agree(s.notifications[k], s.outbox[k])
  }

  ghost predicate Logged(s: State, d: Send) { exists i | 0 <= i < |s.logs| :: LogIs(s.logs[i], d) && s.logs[i].status == LogSent }

  predicate Reporting(w: Worker, d: Send) { Ready(w) && w.Busy? && w.job.Report? && w.job.accepted && SendOf(w.job.round) == d }

  ghost predicate SomeoneReports(ws: seq<Hand>, d: Send) { exists w | 0 <= w < |ws| :: Reporting(ws[w], d) }

  ghost predicate SendsOk(s: State, ws: seq<Hand>, sends: seq<Send>) {
    && (forall i, j | 0 <= i < j < |sends| :: sends[i] != sends[j])
    && (forall i | 0 <= i < |sends| :: Logged(s, sends[i]) || SomeoneReports(ws, sends[i]))
  }

  ghost predicate RoundDone(s: State, r: Round) { forall k | 0 <= k < |r.accounts| :: Done(s, SendAt(r, k)) }

  predicate FinishedFor(f: Ending, row: OutboxRow) {
    f.rowId == row.id && f.round.notice.id == row.notificationId && f.round.notice.org == row.org
  }

  ghost predicate HasFinished(finished: seq<Ending>, row: OutboxRow) {
    exists m | 0 <= m < |finished| :: FinishedFor(finished[m], row)
  }

  ghost predicate FinishedOk(s: State, finished: seq<Ending>) {
    && (forall m | 0 <= m < |finished| :: RoundDone(s, finished[m].round))
    && (forall k | 0 <= k < |s.outbox| && s.outbox[k].status == Processed :: HasFinished(finished, s.outbox[k]))
  }

  ghost predicate AllOk(s: State, ws: seq<Hand>) { forall w | 0 <= w < |ws| :: WorkerOk(s, ws[w]) }

  ghost predicate Steady(g: Global) {
    && Keyed(g.store) && AllOk(g.store, g.workers) && Apart(g.workers) && AllHeld(g.store, g.workers)
    && Agreed(g.store) && SendsOk(g.store, g.workers, g.sends) && FinishedOk(g.store, g.finished)
  }

  ghost predicate Inv(g: Global) { Sound(g.store) && Steady(g) }

  // ------------------------------------------------- what one call disturbs

  /** Settled logs stay as they are. */
  ghost predicate SettledKept(s: State, t: State) {
    && |s.logs| <= |t.logs|
    && forall i | 0 <= i < |s.logs| && Settled(s.logs[i].status) :: t.logs[i] == s.logs[i]
  }

  /** Logs keep their keys. */
  ghost predicate LogsFaced(s: State, t: State) {
    |s.logs| <= |t.logs| && forall i | 0 <= i < |s.logs| :: t.logs[i].id == s.logs[i].id && KeyOf(t.logs[i]) == KeyOf(s.logs[i])
  }

  /** Only the row, the notification and the logs of `e` may differ, and a settled log does not. */
  ghost predicate Private(s: State, t: State, e: OutboxRow) {
    && SettledKept(s, t) && LogsFaced(s, t)
    && (forall i | 0 <= i < |s.logs| && s.logs[i].notificationId != e.notificationId :: t.logs[i] == s.logs[i])
    && |t.outbox| == |s.outbox| && |t.notifications| == |s.notifications|
    && (forall k | 0 <= k < |s.outbox| :: SameRow(s.outbox[k], t.outbox[k]) && (s.outbox[k].id != e.id ==> t.outbox[k] == s.outbox[k]))
    && (forall k | 0 <= k < |s.notifications| ::
          t.notifications[k].id == s.notifications[k].id && (s.notifications[k].id != e.notificationId ==> t.notifications[k] == s.notifications[k]))
  }

  /** Nothing about `e` differs. */
  ghost predicate Undisturbed(s: State, t: State, e: OutboxRow) {
    && SettledKept(s, t)
    && (forall i | 0 <= i < |s.logs| && s.logs[i].notificationId == e.notificationId :: t.logs[i] == s.logs[i])
    && |s.outbox| <= |t.outbox| && |s.notifications| <= |t.notifications|
    && (forall k | 0 <= k < |s.outbox| && s.outbox[k].id == e.id :: t.outbox[k] == s.outbox[k])
    && (forall k | 0 <= k < |s.notifications| && s.notifications[k].id == e.notificationId ::
          t.notifications[k].id == s.notifications[k].id && t.notifications[k].status == s.notifications[k].status)
  }

  ghost predicate RowsKnown(s: State, t: State) {
    |s.outbox| <= |t.outbox| && forall k | 0 <= k < |s.outbox| :: SameRow(s.outbox[k], t.outbox[k])
  }

  lemma DoneKept(s: State, t: State, d: Send)
    requires SettledKept(s, t) && Done(s, d)
    ensures Done(t, d)
  {
    var i :| 0 <= i < |s.logs| && LogIs(s.logs[i], d) && Settled(s.logs[i].status);
    assert LogIs(t.logs[i], d);
  }

  lemma RoundKept(s: State, t: State, e: OutboxRow, r: Round)
    requires SettledKept(s, t) && RoundOk(s, e, r)
    ensures RoundOk(t, e, r)
  {
    if r.firstErr.None? {
      forall k | 0 <= k < r.next ensures Done(t, SendAt(r, k)) { DoneKept(s, t, SendAt(r, k)); }
    }
  }

  lemma OpenedKept(s: State, t: State, e: OutboxRow, r: Round, id: nat, status: LogStatus)
    requires Undisturbed(s, t, e) && OpenedLog(s, r, id, status) && r.notice.id == e.notificationId
    ensures OpenedLog(t, r, id, status)
  {
    var i :| 0 <= i < |s.logs| && s.logs[i].id == id && LogIs(s.logs[i], SendAt(r, r.next)) && s.logs[i].status == status;
    assert t.logs[i] == s.logs[i];
  }

  lemma JobKept(s: State, t: State, e: OutboxRow, job: Job)
    requires Undisturbed(s, t, e) && JobOk(s, e, job)
    ensures JobOk(t, e, job)
  {
    match job
    case Find =>
    case List(_) =>
    case Deliver(r) => RoundKept(s, t, e, r);
    case Decide(r, log) => RoundKept(s, t, e, r); OpenedKept(s, t, e, r, log.id, log.status);
    case Transmit(r, log, _) => RoundKept(s, t, e, r); OpenedKept(s, t, e, r, log.id, LogPending);
    case Report(r, log, _, _, _) => RoundKept(s, t, e, r); OpenedKept(s, t, e, r, log.id, LogPending);
    case Settle(v) => if v.Delivered? { RoundKept(s, t, e, v.round); }
    case Close(v, _) => if v.Delivered? { RoundKept(s, t, e, v.round); }
  }

  lemma QueueKept(s: State, t: State, w: Worker)
    requires RowsKnown(s, t) && forall q | 0 <= q < |QueueOf(w)| :: KnownRow(s, QueueOf(w)[q])
    ensures forall q | 0 <= q < |QueueOf(w)| :: KnownRow(t, QueueOf(w)[q])
  {
    forall q | 0 <= q < |QueueOf(w)| ensures KnownRow(t, QueueOf(w)[q]) {
      var k :| 0 <= k < |s.outbox| && SameRow(s.outbox[k], QueueOf(w)[q]);
      assert SameRow(s.outbox[k], t.outbox[k]) && SameRow(t.outbox[k], QueueOf(w)[q]);
    }
  }

  lemma WorkerKept(s: State, t: State, w: Worker)
    requires WorkerOk(s, w) && RowsKnown(s, t) && (w.Busy? ==> Undisturbed(s, t, w.event))
    ensures WorkerOk(t, w)
  {
    QueueKept(s, t, w);
    if w.Busy? {
      var k :| 0 <= k < |s.outbox| && SameRow(s.outbox[k], w.event) && s.outbox[k].status == Processing;
      assert t.outbox[k] == s.outbox[k];
      JobKept(s, t, w.event, w.job);
    }
  }

  /** Work on one row leaves the others alone. */
  lemma PrivateIsApart(s: State, t: State, e: OutboxRow, f: OutboxRow)
    requires Keyed(s) && Private(s, t, e) && KnownRow(s, e) && KnownRow(s, f) && e.id != f.id
    ensures Undisturbed(s, t, f) && e.notificationId != f.notificationId
  {
    var i :| 0 <= i < |s.outbox| && SameRow(s.outbox[i], e);
    var j :| 0 <= j < |s.outbox| && SameRow(s.outbox[j], f);
    assert RowOf(s.notifications[i], s.outbox[i]) && RowOf(s.notifications[j], s.outbox[j]);
  }

  lemma HoldingIsKnown(s: State, e: OutboxRow)
    requires Holding(s, e)
    ensures KnownRow(s, e)
  {
  }

  // ------------------------------------------------------- a worker's steps

  /** `e`'s row and its notification are both at position `k`. */
  lemma Located(s: State, e: OutboxRow, k: nat)
    requires Keyed(s) && k < |s.outbox| && SameRow(s.outbox[k], e)
    ensures FirstIndex(s.outbox, RowKey(e.org, e.id)) == Some(k)
    ensures FirstIndex(s.notifications, NoticeKey(e.org, e.notificationId)) == Some(k)
  {
    assert RowOf(s.notifications[k], s.outbox[k]);
    FirstIsOnly(s.outbox, RowKey(e.org, e.id), k);
    FirstIsOnly(s.notifications, NoticeKey(e.org, e.notificationId), k);
  }

  /** After a step of the holder: only its row was touched, and it is still held and consistent. */
  ghost predicate StepOk(s: State, e: OutboxRow, turn: JobTurn) {
    && Private(s, turn.state, e)
    && (turn.job.Some? ==> turn.state.outbox == s.outbox && JobOk(turn.state, e, turn.job.value))
  }

  lemma FindOk(s: State, e: OutboxRow, x: World)
    requires Keyed(s) && Holding(s, e)
    ensures StepOk(s, e, FindStep(s, e, x))
  {
    var k :| 0 <= k < |s.outbox| && SameRow(s.outbox[k], e) && s.outbox[k].status == Processing;
    Located(s, e, k);
  }

  lemma TemplateKindTrimmed(kind: string)
    requires Trimmed(kind)
    ensures Trimmed(TemplateKind(kind))
  {
  }

  lemma ListOk(s: State, e: OutboxRow, n: Notification, x: World)
    requires JobOk(s, e, List(n))
    ensures StepOk(s, e, ListStep(s, e, n, x))
  {
    var kind := TemplateKind(n.kind);
    TemplateKindTrimmed(n.kind);
    TrimIsTrimmed(x.config.fallback);
    if Trim(kind) in x.config.templates { TrimIsTrimmed(x.config.templates[Trim(kind)]); }
  }

  lemma {:induction false} DeliverOk(s: State, e: OutboxRow, r: Round, x: World)
    requires JobOk(s, e, Deliver(r))
    ensures StepOk(s, e, DeliverStep(s, e, r, x))
  {
    if r.next < |r.accounts| {
      var turn := DeliverStep(s, e, r, x);
      TrimIsTrimmed(r.kind);
      TrimIsTrimmed(r.template);
      RoundKept(s, turn.state, e, r);
      var found := FirstIndex(s.logs, LogKey(r.notice.org, r.notice.id, r.accounts[r.next].id, r.kind, r.template));
      var i := if found.Some? then found.value else |s.logs|;
      assert LogIs(turn.state.logs[i], SendAt(r, r.next));
    }
  }

  /** Writing a new status to the open log of the current account. */
  lemma SetLogOk(s: State, e: OutboxRow, r: Round, i: nat, status: LogStatus, attempts: nat, last: Option<Time>, sent: Option<Time>,
                 error: string)
    requires Keyed(s) && RoundOk(s, e, r) && r.next < |r.accounts| && i < |s.logs|
    requires LogIs(s.logs[i], SendAt(r, r.next)) && !Settled(s.logs[i].status)
    ensures var t := SetLog(s, r.notice.org, s.logs[i].id, status, attempts, last, sent, None, error).state;
            Private(s, t, e) && RoundOk(t, e, r) && t.outbox == s.outbox && OpenedLog(t, r, s.logs[i].id, status)
            && (Settled(status) ==> Done(t, SendAt(r, r.next)))
            && (status == LogSent ==> Logged(t, SendAt(r, r.next)))
  {
    var t := SetLog(s, r.notice.org, s.logs[i].id, status, attempts, last, sent, None, error).state;
    FirstIsOnly(s.logs, LogById(r.notice.org, s.logs[i].id), i);
    assert LogIs(t.logs[i], SendAt(r, r.next)) && t.logs[i].id == s.logs[i].id && t.logs[i].status == status;
    RoundKept(s, t, e, r);
  }

  lemma AdvancedOk(s: State, e: OutboxRow, r: Round, error: Option<string>)
    requires RoundOk(s, e, r) && r.next < |r.accounts| && (error.Some? || Done(s, SendAt(r, r.next)))
    ensures JobOk(s, e, Advanced(r, error))
  {
    var r' := Advanced(r, error).round;
    if r'.firstErr.None? {
      forall k | 0 <= k < r'.next ensures Done(s, SendAt(r', k)) { assert SendAt(r', k) == SendAt(r, k); }
    }
  }

  lemma SkipOk(s: State, e: OutboxRow, r: Round, log: DeliveryLog, i: nat, why: string)
    requires Keyed(s) && RoundOk(s, e, r) && r.next < |r.accounts| && i < |s.logs|
    requires s.logs[i].id == log.id && LogIs(s.logs[i], SendAt(r, r.next)) && !Settled(s.logs[i].status)
    ensures StepOk(s, e, Skip(s, r, log, why))
  {
    SetLogOk(s, e, r, i, LogSkipped, log.attempts, None, None, why);
    AdvancedOk(Skip(s, r, log, why).state, e, r, None);
  }

  lemma {:induction false} DecideOk(s: State, e: OutboxRow, r: Round, log: DeliveryLog, x: World)
    requires Keyed(s) && JobOk(s, e, Decide(r, log))
    ensures StepOk(s, e, DecideStep(s, r, log, x))
  {
    var i :| 0 <= i < |s.logs| && s.logs[i].id == log.id && LogIs(s.logs[i], SendAt(r, r.next)) && s.logs[i].status == log.status;
    if Settled(log.status) {
      AdvancedOk(s, e, r, None);
    } else if Trim(r.accounts[r.next].openId) == "" || x.subscription.Unauthorized? {
      SkipOk(s, e, r, log, i, if Trim(r.accounts[r.next].openId) == "" then NOT_BOUND else NOT_AUTHORIZED);
    } else if x.subscription.LookupFailed? {
      AdvancedOk(s, e, r, Some(x.error));
    } else {
      SetLogOk(s, e, r, i, LogPending, log.attempts + 1, Some(x.now), None, "");
    }
  }

  lemma {:induction false} ReportOk(s: State, e: OutboxRow, r: Round, log: DeliveryLog, accepted: bool, at: Time, error: string, x: World)
    requires Keyed(s) && JobOk(s, e, Report(r, log, accepted, at, error))
    ensures var turn := ReportStep(s, r, log, accepted, at, error, x);
            StepOk(s, e, turn) && (accepted ==> Logged(turn.state, SendAt(r, r.next)))
  {
    var i :| 0 <= i < |s.logs| && s.logs[i].id == log.id && LogIs(s.logs[i], SendAt(r, r.next)) && s.logs[i].status == LogPending;
    SetLogOk(s, e, r, i, if accepted then LogSent else LogFailed, log.attempts + 1, Some(at), if accepted then Some(x.now) else None,
            if accepted then "" else TruncateValue(error, 500));
    AdvancedOk(ReportStep(s, r, log, accepted, at, error, x).state, e, r, if accepted then None else Some(error));
  }

  lemma SettleOk(s: State, e: OutboxRow, v: Verdict, x: World)
    requires Keyed(s) && Holding(s, e) && JobOk(s, e, Settle(v))
    ensures StepOk(s, e, SettleStep(s, e, v, x))
  {
    var k :| 0 <= k < |s.outbox| && SameRow(s.outbox[k], e) && s.outbox[k].status == Processing;
    Located(s, e, k);
    var t := SettleStep(s, e, v, x).state;
    assert t.notifications[k].id == e.notificationId && t.notifications[k].status == NoticeOutcome(v);
    if v.Delivered? { RoundKept(s, t, e, v.round); }
  }

  /** The row of `e` has been given its final status, which its notification shows too. */
  ghost predicate ClosedRow(t: State, e: OutboxRow, v: Verdict) {
    exists k | 0 <= k < |t.outbox| :: SameRow(t.outbox[k], e) && t.outbox[k].status == RowOutcome(v)
                                      && k < |t.notifications| && Agree(t.notifications[k], t.outbox[k])
  }

  lemma CloseIsPrivate(s: State, e: OutboxRow, v: Verdict, availableAt: Time, x: World, k: nat)
    requires Keyed(s) && k < |s.outbox| && SameRow(s.outbox[k], e)
    ensures Private(s, CloseStep(s, e, v, availableAt, x).state, e)
    ensures var t := CloseStep(s, e, v, availableAt, x).state;
            SameRow(t.outbox[k], e) && t.outbox[k].status == RowOutcome(v) && t.notifications == s.notifications
  {
    Located(s, e, k);
  }

  lemma CloseOk(s: State, e: OutboxRow, v: Verdict, availableAt: Time, x: World)
    requires Keyed(s) && Holding(s, e) && JobOk(s, e, Close(v, availableAt))
    ensures var turn := CloseStep(s, e, v, availableAt, x); StepOk(s, e, turn) && ClosedRow(turn.state, e, v)
  {
    var k :| 0 <= k < |s.outbox| && SameRow(s.outbox[k], e) && s.outbox[k].status == Processing;
    CloseIsPrivate(s, e, v, availableAt, x, k);
    OutcomesAgree(s, e, v, CloseStep(s, e, v, availableAt, x).state.outbox[k], k);
  }

  lemma OutcomesAgree(s: State, e: OutboxRow, v: Verdict, row: OutboxRow, k: nat)
    requires Keyed(s) && k < |s.outbox| && SameRow(s.outbox[k], e) && NoticeHas(s, e.notificationId, NoticeOutcome(v))
    requires row.status == RowOutcome(v)
    ensures k < |s.notifications| && Agree(s.notifications[k], row)
  {
    assert RowOf(s.notifications[k], s.outbox[k]);
  }

  lemma {:induction false} JobStepOk(s: State, e: OutboxRow, job: Job, x: World)
    requires Keyed(s) && Holding(s, e) && InRound(job) && JobOk(s, e, job)
    ensures var turn := JobStep(s, e, job, x);
            && StepOk(s, e, turn) && (turn.job.None? <==> job.Close?)
            && (job.Close? ==> ClosedRow(turn.state, e, job.verdict))
            && (job.Report? && job.accepted ==> Logged(turn.state, SendOf(job.round)))
  {
    match job
    case Find => FindOk(s, e, x);
    case List(n) => ListOk(s, e, n, x);
    case Deliver(r) => DeliverOk(s, e, r, x);
    case Decide(r, log) => DecideOk(s, e, r, log, x);
    case Transmit(r, log, _) =>
    case Report(r, log, accepted, at, error) => ReportOk(s, e, r, log, accepted, at, error, x);
    case Settle(v) => SettleOk(s, e, v, x);
    case Close(v, availableAt) => CloseOk(s, e, v, availableAt, x);
  }
}
