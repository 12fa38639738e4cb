/** The dispatcher protocol over whole runs: claims are exclusive, no message is
    accepted twice, and a row's status says what became of its notification. */
module DispatcherRuns {
  import opened Common
  import opened PickupModel
  import opened PickupSpec
  import opened PickupBatch
  import opened PickupRuns
  import opened PickupHistory
  import opened PickupLedger
  import opened PickupConservation
  import opened Dispatcher
  import opened DispatcherSafety

  // -------------------------------------------------- the store stays sound

  lemma CallKeepsSound(s: State, org: nat, c: Command, now: Time)
    requires Sound(s) && LogKeysUnique(Step(s, org, c, now).logs)
    ensures Sound(Step(s, org, c, now))
  {
    StepKeepsHistory(s, org, c, now);
    StepKeepsTidy(s, org, c, now);
    StepConserves(s, org, c, now, 0);
  }

  lemma OpenLogKeepsKeys(s: State, org: nat, notificationId: nat, accountId: nat, kind: string, template: string)
    requires LogKeysUnique(s.logs) && Trim(kind) == kind && Trim(template) == template
    ensures LogKeysUnique(OpenLog(s, org, notificationId, accountId, kind, template).state.logs)
  {
    var logs := OpenLog(s, org, notificationId, accountId, kind, template).state.logs;
    if FirstIndex(s.logs, LogKey(org, notificationId, accountId, kind, template)).None? {
      assert KeyOf(logs[|s.logs|]) == Send(org, notificationId, accountId, kind, template);
      forall i | 0 <= i < |s.logs| ensures KeyOf(logs[i]) != KeyOf(logs[|s.logs|]) {
        assert !LogKey(org, notificationId, accountId, kind, template)(s.logs[i]);
      }
    }
  }

  lemma OpenLogKeepsSound(s: State, org: nat, notificationId: nat, accountId: nat, kind: string, template: string)
    requires Sound(s) && Trimmed(kind) && Trimmed(template)
    ensures Sound(OpenLog(s, org, notificationId, accountId, kind, template).state)
  {
    TrimIsTrimmed(kind);
    TrimIsTrimmed(template);
    OpenLogKeepsKeys(s, org, notificationId, accountId, kind, template);
    CallKeepsSound(s, org, CmdOpenLog(notificationId, accountId, kind, template), 0);
  }

  lemma SetLogKeepsSound(s: State, org: nat, id: nat, status: LogStatus, attempts: nat, last: Option<Time>, sent: Option<Time>, error: string)
    requires Sound(s)
    ensures Sound(SetLog(s, org, id, status, attempts, last, sent, None, error).state)
  {
    CallKeepsSound(s, org, CmdSetLog(id, status, attempts, last, sent, None, error), 0);
  }

  lemma ClaimKeepsSound(s: State, org: nat, id: nat, at: Time)
    requires Sound(s)
    ensures Sound(Claim(s, org, id, at).state)
  {
    CallKeepsSound(s, org, CmdClaim(id), at);
  }

  lemma SetNoticeKeepsSound(s: State, org: nat, id: nat, status: NoticeStatus, attempts: nat, sent: Option<Time>, last: Option<Time>,
                            next: Option<Time>, error: string)
    requires Sound(s)
    ensures Sound(SetNotice(s, org, id, status, attempts, sent, last, next, error).state)
  {
    CallKeepsSound(s, org, CmdSetNotice(id, status, attempts, sent, last, next, error), 0);
  }

  lemma CloseKeepsSound(s: State, e: OutboxRow, v: Verdict, availableAt: Time, x: World)
    requires Sound(s)
    ensures Sound(CloseStep(s, e, v, availableAt, x).state)
  {
    CallKeepsSound(s, e.org, CmdComplete(e.id, RowOutcome(v), Some(availableAt), ErrorOf(v)), x.now);
  }

  lemma SkipKeepsSound(s: State, r: Round, log: DeliveryLog, why: string)
    requires Sound(s)
    ensures Sound(Skip(s, r, log, why).state)
  {
    SetLogKeepsSound(s, r.notice.org, log.id, LogSkipped, log.attempts, None, None, why);
  }

  lemma DecideKeepsSound(s: State, r: Round, log: DeliveryLog, x: World)
    requires Sound(s) && r.next < |r.accounts|
    ensures Sound(DecideStep(s, r, log, x).state)
  {
    var t := DecideStep(s, r, log, x).state;
    if Settled(log.status) {
      assert t == s;
    } else if Trim(r.accounts[r.next].openId) == "" {
      SkipKeepsSound(s, r, log, NOT_BOUND);
    } else {
      match x.subscription
      case LookupFailed => assert t == s;
      case Unauthorized => SkipKeepsSound(s, r, log, NOT_AUTHORIZED);
      case Authorized =>
        SetLogKeepsSound(s, r.notice.org, log.id, LogPending, log.attempts + 1, Some(x.now), None, "");
        assert t == SetLog(s, r.notice.org, log.id, LogPending, log.attempts + 1, Some(x.now), None, None, "").state;
    }
  }

  lemma ReportKeepsSound(s: State, r: Round, log: DeliveryLog, accepted: bool, at: Time, error: string, x: World)
    requires Sound(s)
    ensures Sound(ReportStep(s, r, log, accepted, at, error, x).state)
  {
    var status, sent := if accepted then LogSent else LogFailed, if accepted then Some(x.now) else None;
    var text := if accepted then "" else TruncateValue(error, 500);
    SetLogKeepsSound(s, r.notice.org, log.id, status, log.attempts + 1, Some(at), sent, text);
    assert ReportStep(s, r, log, accepted, at, error, x).state
        == SetLog(s, r.notice.org, log.id, status, log.attempts + 1, Some(at), sent, None, text).state;
  }

  lemma SettleKeepsSound(s: State, e: OutboxRow, v: Verdict, x: World)
    requires Sound(s)
    ensures Sound(SettleStep(s, e, v, x).state)
  {
    var next := NextDue(v, e.attempts, x.now);
    var sent, retry, error := SentAt(v, x.now), RetryAt(v, next), ErrorOf(v);
    SetNoticeKeepsSound(s, e.org, e.notificationId, NoticeOutcome(v), e.attempts + 1, sent, Some(x.now), retry, error);
    assert SettleStep(s, e, v, x).state
        == SetNotice(s, e.org, e.notificationId, NoticeOutcome(v), e.attempts + 1, sent, Some(x.now), retry, error).state;
  }

  lemma JobStepKeepsSound(s: State, e: OutboxRow, job: Job, x: World)
    requires Sound(s) && InRound(job) && JobOk(s, e, job)
    ensures Sound(JobStep(s, e, job, x).state)
  {
    match job
    case Deliver(r) =>
      if r.next < |r.accounts| { OpenLogKeepsSound(s, r.notice.org, r.notice.id, r.accounts[r.next].id, r.kind, r.template); }
    case Decide(r, log) => DecideKeepsSound(s, r, log, x);
    case Report(r, log, accepted, at, error) => ReportKeepsSound(s, r, log, accepted, at, error, x);
    case Settle(v) => SettleKeepsSound(s, e, v, x);
    case Close(v, availableAt) => CloseKeepsSound(s, e, v, availableAt, x);
    case _ =>
  }

  // --------------------------------------------------- the holder of a row

  /** Worker `w` of `g` holds a row and takes a step, after which it is at `next`. */
  ghost predicate HolderStep(g: Global, g': Global, w: nat, next: Option<Job>) {
    && w < |g.workers| && g.workers[w].Busy? && |g'.workers| == |g.workers|
    && (forall v | 0 <= v < |g.workers| && v != w :: g'.workers[v] == g.workers[v])
    && var e, job := g.workers[w].event, g.workers[w].job;
    && Private(g.store, g'.store, e) && (next.None? <==> job.Close?)
    && match next
       case None => ClosedRow(g'.store, e, job.verdict) && g'.workers[w] == Batch(g.workers[w].queue, g.workers[w].listedAt)
       case Some(j) =>
         && g'.store.outbox == g.store.outbox && JobOk(g'.store, e, j)
         && g'.workers[w] == Busy(g.workers[w].queue, g.workers[w].listedAt, e, j)
  }

  /** What it says about messages. */
  ghost predicate SendStep(g: Global, g': Global, w: nat)
    requires w < |g.workers| && g.workers[w].Busy? && w < |g'.workers|
  {
    var job := g.workers[w].job;
    && (job.Report? && job.accepted ==> Logged(g'.store, SendOf(job.round)))
    && (g'.sends == g.sends
        || (job.Transmit? && g'.sends == g.sends + [SendOf(job.round)] && Reporting(g'.workers[w], SendOf(job.round))))
  }

  lemma BusyStepOk(g: Global, w: nat, x: World) returns (next: Option<Job>)
    requires Inv(g) && w < |g.workers| && g.workers[w].Busy?
    ensures var g' := Next(g, Work(w, x));
            HolderStep(g, g', w, next) && SendStep(g, g', w) && g'.finished == g.finished + FinishedBy(g.workers[w]) && Sound(g'.store)
  {
    var s, e, job := g.store, g.workers[w].event, g.workers[w].job;
    assert WorkerOk(s, g.workers[w]);
    JobStepOk(s, e, job, x);
    JobStepKeepsSound(s, e, job, x);
    next := JobStep(s, e, job, x).job;
    TurnIsHolderStep(g, w, x, JobStep(s, e, job, x));
  }

  lemma TurnIsHolderStep(g: Global, w: nat, x: World, turn: JobTurn)
    requires w < |g.workers| && g.workers[w].Busy? && turn == JobStep(g.store, g.workers[w].event, g.workers[w].job, x)
    requires StepOk(g.store, g.workers[w].event, turn) && (turn.job.None? <==> g.workers[w].job.Close?)
    requires g.workers[w].job.Close? ==> ClosedRow(turn.state, g.workers[w].event, g.workers[w].job.verdict)
    requires g.workers[w].job.Report? && g.workers[w].job.accepted ==> Logged(turn.state, SendOf(g.workers[w].job.round))
    ensures var g' := Next(g, Work(w, x)); HolderStep(g, g', w, turn.job) && SendStep(g, g', w) && g'.store == turn.state
  {
    assert g.sends + [] == g.sends;
  }

  /** Every other holder has another row, about another notification. */
  lemma OthersApart(s: State, ws: seq<Hand>, w: nat, v: nat)
    requires Keyed(s) && AllOk(s, ws) && Apart(ws)
    requires w < |ws| && ws[w].Busy? && v < |ws| && v != w && ws[v].Busy?
    ensures ws[v].event.id != ws[w].event.id && ws[v].event.notificationId != ws[w].event.notificationId
    ensures KnownRow(s, ws[v].event) && KnownRow(s, ws[w].event)
  {
    assert WorkerOk(s, ws[v]) && WorkerOk(s, ws[w]);
    HoldingIsKnown(s, ws[w].event);
    HoldingIsKnown(s, ws[v].event);
    PrivateIsApart(s, s, ws[w].event, ws[v].event);
  }

  lemma BusyWorkers(g: Global, g': Global, w: nat, next: Option<Job>)
    requires Keyed(g.store) && AllOk(g.store, g.workers) && Apart(g.workers) && HolderStep(g, g', w, next)
    ensures AllOk(g'.store, g'.workers) && Apart(g'.workers)
  {
    var s, t, e := g.store, g'.store, g.workers[w].event;
    forall v | 0 <= v < |g'.workers| ensures WorkerOk(t, g'.workers[v]) {
      assert WorkerOk(s, g.workers[v]);
      if v != w {
        if g.workers[v].Busy? {
          OthersApart(s, g.workers, w, v);
          PrivateIsApart(s, t, e, g.workers[v].event);
        }
        WorkerKept(s, t, g.workers[v]);
      } else {
        QueueKept(s, t, g.workers[w]);
        assert QueueOf(g'.workers[w]) == QueueOf(g.workers[w]);
      }
    }
  }

  lemma BusyHeld(g: Global, g': Global, w: nat, next: Option<Job>)
    requires Keyed(g.store) && AllHeld(g.store, g.workers) && HolderStep(g, g', w, next)
    ensures AllHeld(g'.store, g'.workers)
  {
    if next.None? {
      forall j | 0 <= j < |g'.store.outbox| && g'.store.outbox[j].id == g.workers[w].event.id
        ensures g'.store.outbox[j].status != Processing
      {
        ClosedIsUnheld(g, g', w, j);
      }
    }
    forall j | 0 <= j < |g'.store.outbox| && g'.store.outbox[j].status == Processing
      ensures exists v | 0 <= v < |g'.workers| :: Holds(g'.workers[v], g'.store.outbox[j].id)
    {
      assert SameRow(g.store.outbox[j], g'.store.outbox[j]);
      assert g.store.outbox[j].status == Processing;
      var v :| 0 <= v < |g.workers| && Holds(g.workers[v], g.store.outbox[j].id);
      assert Holds(g'.workers[v], g'.store.outbox[j].id);
    }
  }

  /** The closed row itself is no longer processing. */
  lemma ClosedIsUnheld(g: Global, g': Global, w: nat, j: nat)
    requires Keyed(g.store) && HolderStep(g, g', w, None) && j < |g'.store.outbox| && g'.store.outbox[j].id == g.workers[w].event.id
    ensures g'.store.outbox[j].status == RowOutcome(g.workers[w].job.verdict)
    ensures j < |g'.store.notifications| && Agree(g'.store.notifications[j], g'.store.outbox[j])
    ensures SameRow(g'.store.outbox[j], g.workers[w].event)
  {
    var t, e, v := g'.store, g.workers[w].event, g.workers[w].job.verdict;
    var k :| 0 <= k < |t.outbox| && SameRow(t.outbox[k], e) && t.outbox[k].status == RowOutcome(v)
             && k < |t.notifications| && Agree(t.notifications[k], t.outbox[k]);
    assert SameRow(g.store.outbox[k], t.outbox[k]) && SameRow(g.store.outbox[j], t.outbox[j]);
  }

  lemma BusyAgreed(g: Global, g': Global, w: nat, next: Option<Job>)
    requires Keyed(g.store) && Agreed(g.store) && AllOk(g.store, g.workers) && HolderStep(g, g', w, next)
    ensures Agreed(g'.store)
  {
    var s, t, e := g.store, g'.store, g.workers[w].event;
    assert WorkerOk(s, g.workers[w]);
    var k :| 0 <= k < |s.outbox| && SameRow(s.outbox[k], e) && s.outbox[k].status == Processing;
    forall j | 0 <= j < |t.outbox| ensures Agree(t.notifications[j], t.outbox[j]) {
      if j == k {
        assert SameRow(s.outbox[k], t.outbox[k]);
        if next.None? { ClosedIsUnheld(g, g', w, j); }
      } else {
        assert RowOf(s.notifications[j], s.outbox[j]) && RowOf(s.notifications[k], s.outbox[k]);
        assert Agree(s.notifications[j], s.outbox[j]);
      }
    }
  }

  lemma KeyIs(l: DeliveryLog, d: Send)
    requires LogIs(l, d)
    ensures KeyOf(l) == d
  {
  }

  /** The message about to be sent has not been accepted before. */
  lemma {:induction false} TransmitIsFirst(s: State, ws: seq<Hand>, w: nat, d: Send)
    requires Keyed(s) && AllOk(s, ws) && Apart(ws) && w < |ws| && ws[w].Busy? && ws[w].job.Transmit? && d == SendOf(ws[w].job.round)
    ensures !Logged(s, d) && !SomeoneReports(ws, d)
  {
    var r := ws[w].job.round;
    assert WorkerOk(s, ws[w]);
    assert SendAt(r, r.next) == d;
    var j :| 0 <= j < |s.logs| && LogIs(s.logs[j], d) && s.logs[j].status == LogPending;
    forall l | 0 <= l < |s.logs| && LogIs(s.logs[l], d) ensures l == j {
      KeyIs(s.logs[l], d);
      KeyIs(s.logs[j], d);
    }
    forall v | 0 <= v < |ws| && Reporting(ws[v], d) ensures false {
      assert WorkerOk(s, ws[v]);
      OthersApart(s, ws, w, v);
    }
  }

  lemma LoggedKept(s: State, t: State, d: Send)
    requires SettledKept(s, t) && Logged(s, d)
    ensures Logged(t, d)
  {
    var i :| 0 <= i < |s.logs| && LogIs(s.logs[i], d) && s.logs[i].status == LogSent;
    assert LogIs(t.logs[i], d);
  }

  lemma BusySends(g: Global, g': Global, w: nat, next: Option<Job>)
    requires Keyed(g.store) && AllOk(g.store, g.workers) && Apart(g.workers) && SendsOk(g.store, g.workers, g.sends)
    requires HolderStep(g, g', w, next) && SendStep(g, g', w)
    ensures SendsOk(g'.store, g'.workers, g'.sends)
  {
    var s, t, job := g.store, g'.store, g.workers[w].job;
    if job.Transmit? { TransmitIsFirst(s, g.workers, w, SendOf(job.round)); }
    forall i | 0 <= i < |g.sends| ensures Logged(t, g.sends[i]) || SomeoneReports(g'.workers, g.sends[i]) {
      if Logged(s, g.sends[i]) {
        LoggedKept(s, t, g.sends[i]);
      } else {
        var v :| 0 <= v < |g.workers| && Reporting(g.workers[v], g.sends[i]);
        assert v != w ==> Reporting(g'.workers[v], g.sends[i]);
      }
    }
  }

  lemma EndingsKept(s: State, t: State, finished: seq<Ending>)
    requires SettledKept(s, t) && forall m | 0 <= m < |finished| :: RoundDone(s, finished[m].round)
    ensures forall m | 0 <= m < |finished| :: RoundDone(t, finished[m].round)
  {
    forall m, k | 0 <= m < |finished| && 0 <= k < |finished[m].round.accounts| ensures Done(t, SendAt(finished[m].round, k)) {
      assert RoundDone(s, finished[m].round);
      DoneKept(s, t, SendAt(finished[m].round, k));
    }
  }

  lemma HasMore(finished: seq<Ending>, more: seq<Ending>, row: OutboxRow)
    requires HasFinished(finished, row)
    ensures HasFinished(finished + more, row)
  {
    var m :| 0 <= m < |finished| && FinishedFor(finished[m], row);
    assert FinishedFor((finished + more)[m], row);
  }

  lemma BusyEndings(g: Global, g': Global, w: nat, next: Option<Job>)
    requires Keyed(g.store) && AllOk(g.store, g.workers) && FinishedOk(g.store, g.finished)
    requires HolderStep(g, g', w, next) && g'.finished == g.finished + FinishedBy(g.workers[w])
    ensures FinishedOk(g'.store, g'.finished)
  {
    var s, t, e, job := g.store, g'.store, g.workers[w].event, g.workers[w].job;
    assert WorkerOk(s, g.workers[w]);
    if job.Close? && job.verdict.Delivered? { assert RoundDone(s, job.verdict.round); }
    EndingsKept(s, t, g'.finished);
    forall j | 0 <= j < |t.outbox| && t.outbox[j].status == Processed ensures HasFinished(g'.finished, t.outbox[j]) {
      assert SameRow(s.outbox[j], t.outbox[j]);
      if t.outbox[j].id != e.id || next.Some? {
        HasMore(g.finished, FinishedBy(g.workers[w]), s.outbox[j]);
      } else {
        ClosedIsUnheld(g, g', w, j);
        assert FinishedFor(g'.finished[|g.finished|], t.outbox[j]);
      }
    }
  }

  lemma BusyKeeps(g: Global, w: nat, x: World)
    requires Inv(g) && w < |g.workers| && g.workers[w].Busy?
    ensures Inv(Next(g, Work(w, x)))
  {
    var next := BusyStepOk(g, w, x);
    BusyKeepsSteady(g, Next(g, Work(w, x)), w, next);
  }

  lemma BusyKeepsSteady(g: Global, g': Global, w: nat, next: Option<Job>)
    requires Steady(g) && Sound(g'.store)
    requires HolderStep(g, g', w, next) && SendStep(g, g', w) && g'.finished == g.finished + FinishedBy(g.workers[w])
    ensures Steady(g')
  {
    SoundIsKeyed(g'.store);
    BusyWorkers(g, g', w, next);
    BusyHeld(g, g', w, next);
    BusyAgreed(g, g', w, next);
    BusySends(g, g', w, next);
    BusyEndings(g, g', w, next);
  }

  // --------------------------------------------- listing and claiming rows

  /** Worker `w` takes a step without a row in hand; nothing is sent or finished. */
  ghost predicate FreeStep(g: Global, g': Global, w: nat) {
    && w < |g.workers| && !g.workers[w].Busy? && |g'.workers| == |g.workers|
    && (forall v | 0 <= v < |g.workers| && v != w :: g'.workers[v] == g.workers[v])
    && g'.sends == g.sends && g'.finished == g.finished && g'.store.logs == g.store.logs
  }

  lemma FreeSends(g: Global, g': Global, w: nat)
    requires SendsOk(g.store, g.workers, g.sends) && FreeStep(g, g', w)
    ensures SendsOk(g'.store, g'.workers, g'.sends)
  {
    forall i | 0 <= i < |g.sends| ensures Logged(g'.store, g.sends[i]) || SomeoneReports(g'.workers, g.sends[i]) {
      if Logged(g.store, g.sends[i]) {
        LoggedKept(g.store, g'.store, g.sends[i]);
      } else {
        var v :| 0 <= v < |g.workers| && Reporting(g.workers[v], g.sends[i]);
        assert Reporting(g'.workers[v], g.sends[i]);
      }
    }
  }

  /** Listing rows, giving one up, or stopping. */
  lemma UnclaimedKeeps(g: Global, g': Global, w: nat)
    requires Steady(g) && FreeStep(g, g', w) && g'.store == g.store && !g'.workers[w].Busy? && WorkerOk(g'.store, g'.workers[w])
    ensures Steady(g')
  {
    FreeSends(g, g', w);
    forall v | 0 <= v < |g'.workers| ensures WorkerOk(g'.store, g'.workers[v]) {
      assert WorkerOk(g.store, g.workers[v]);
    }
    forall k | 0 <= k < |g.store.outbox| && g.store.outbox[k].status == Processing
      ensures exists v | 0 <= v < |g'.workers| :: Holds(g'.workers[v], g.store.outbox[k].id)
    {
      var v :| 0 <= v < |g.workers| && Holds(g.workers[v], g.store.outbox[k].id);
      assert Holds(g'.workers[v], g.store.outbox[k].id);
    }
  }

  lemma ListedKnown(s: State, rows: seq<OutboxRow>)
    requires forall r | r in rows :: r in s.outbox
    ensures forall q | 0 <= q < |rows| :: KnownRow(s, rows[q])
  {
    forall q | 0 <= q < |rows| ensures KnownRow(s, rows[q]) {
      assert rows[q] in rows;
      var k :| 0 <= k < |s.outbox| && s.outbox[k] == rows[q];
      assert SameRow(s.outbox[k], rows[q]);
    }
  }

  lemma IdleKeeps(g: Global, w: nat, x: World)
    requires Inv(g) && w < |g.workers| && g.workers[w].Idle?
    ensures Inv(Next(g, Work(w, x)))
  {
    ListedKnown(g.store, ListOutbox(g.store.outbox, x.now, x.now - x.lease, 100));
    UnclaimedKeeps(g, Next(g, Work(w, x)), w);
  }

  lemma BatchKeeps(g: Global, w: nat, x: World)
    requires Inv(g) && w < |g.workers| && g.workers[w].Batch?
    ensures Inv(Next(g, Work(w, x)))
  {
    var g', queue := Next(g, Work(w, x)), g.workers[w].queue;
    assert WorkerOk(g.store, g.workers[w]) && QueueOf(g.workers[w]) == queue;
    if queue == [] || x.cancelled {
      UnclaimedKeeps(g, g', w);
    } else {
      RestKnown(g.store, queue);
      TryKeeps(g, w, x);
    }
  }

  lemma RestKnown(s: State, queue: seq<OutboxRow>)
    requires queue != [] && forall q | 0 <= q < |queue| :: KnownRow(s, queue[q])
    ensures forall q | 0 <= q < |queue[1..]| :: KnownRow(s, queue[1..][q])
  {
    forall q | 0 <= q < |queue[1..]| ensures KnownRow(s, queue[1..][q]) { assert queue[1..][q] == queue[q + 1]; }
  }

  lemma TryKeeps(g: Global, w: nat, x: World)
    requires Inv(g) && w < |g.workers| && g.workers[w].Batch? && g.workers[w].queue != [] && !x.cancelled
    requires var rest := g.workers[w].queue[1..]; forall q | 0 <= q < |rest| :: KnownRow(g.store, rest[q])
    ensures Inv(Next(g, Work(w, x)))
  {
    var g', row := Next(g, Work(w, x)), g.workers[w].queue[0];
    var k := FirstIndex(g.store.outbox, ClaimableKey(row.org, row.id));
    if k.None? {
      UnclaimedKeeps(g, g', w);
    } else {
      ClaimKeepsSound(g.store, row.org, row.id, g.workers[w].listedAt);
      ClaimedKeeps(g, g', w, k.value);
    }
  }

  /** Worker `w` has claimed the first row of its queue, at position `k`. */
  ghost predicate ClaimStep(g: Global, g': Global, w: nat, k: nat) {
    && FreeStep(g, g', w) && g.workers[w].Batch? && g.workers[w].queue != []
    && k < |g.store.outbox| && ClaimableKey(g.workers[w].queue[0].org, g.workers[w].queue[0].id)(g.store.outbox[k])
    && g'.workers[w] == Busy(g.workers[w].queue[1..], g.workers[w].listedAt, g.workers[w].queue[0], Find)
    && g'.store.notifications == g.store.notifications && |g'.store.outbox| == |g.store.outbox|
    && (forall j | 0 <= j < |g.store.outbox| && j != k :: g'.store.outbox[j] == g.store.outbox[j])
    && SameRow(g.store.outbox[k], g'.store.outbox[k]) && g'.store.outbox[k].status == Processing
  }

  /** It was pending or failed, so nobody's. */
  lemma ClaimTakes(g: Global, g': Global, w: nat, k: nat)
    requires Keyed(g.store) && AllOk(g.store, g.workers) && ClaimStep(g, g', w, k)
    ensures SameRow(g.store.outbox[k], g.workers[w].queue[0])
    ensures forall v | 0 <= v < |g.workers| && g.workers[v].Busy? :: g.workers[v].event.id != g.store.outbox[k].id
  {
    var s, queue := g.store, QueueOf(g.workers[w]);
    assert WorkerOk(s, g.workers[w]);
    assert KnownRow(s, queue[0]);
    var j :| 0 <= j < |s.outbox| && SameRow(s.outbox[j], queue[0]);
    assert j == k;
    forall v | 0 <= v < |g.workers| && g.workers[v].Busy? ensures g.workers[v].event.id != s.outbox[k].id {
      assert WorkerOk(s, g.workers[v]);
      var i :| 0 <= i < |s.outbox| && SameRow(s.outbox[i], g.workers[v].event) && s.outbox[i].status == Processing;
      assert i != k;
    }
  }

  lemma ClaimedWorkers(g: Global, g': Global, w: nat, k: nat)
    requires Keyed(g.store) && AllOk(g.store, g.workers) && Apart(g.workers) && ClaimStep(g, g', w, k)
    ensures AllOk(g'.store, g'.workers) && Apart(g'.workers)
  {
    ClaimTakes(g, g', w, k);
    var s, t := g.store, g'.store;
    forall v | 0 <= v < |g'.workers| ensures WorkerOk(t, g'.workers[v]) {
      assert WorkerOk(s, g.workers[v]);
      if v != w {
        WorkerKept(s, t, g.workers[v]);
      } else {
        QueueKept(s, t, g.workers[w]);
        assert SameRow(t.outbox[k], g'.workers[w].event) && t.outbox[k].status == Processing;
        forall q | 0 <= q < |QueueOf(g'.workers[w])| ensures KnownRow(t, QueueOf(g'.workers[w])[q]) {
          assert QueueOf(g'.workers[w])[q] == QueueOf(g.workers[w])[q + 1];
        }
      }
    }
  }

  lemma ClaimedKeeps(g: Global, g': Global, w: nat, k: nat)
    requires Steady(g) && Sound(g'.store) && ClaimStep(g, g', w, k)
    ensures Steady(g')
  {
    SoundIsKeyed(g'.store);
    ClaimedWorkers(g, g', w, k);
    ClaimedRows(g, g', w, k);
    FreeSends(g, g', w);
  }

  lemma ClaimedRows(g: Global, g': Global, w: nat, k: nat)
    requires Keyed(g.store) && AllOk(g.store, g.workers) && AllHeld(g.store, g.workers) && Agreed(g.store) && FinishedOk(g.store, g.finished)
    requires ClaimStep(g, g', w, k)
    ensures AllHeld(g'.store, g'.workers) && Agreed(g'.store) && FinishedOk(g'.store, g'.finished)
  {
    ClaimTakes(g, g', w, k);
    var s, t := g.store, g'.store;
    forall j | 0 <= j < |t.outbox| && t.outbox[j].status == Processing
      ensures exists v | 0 <= v < |g'.workers| :: Holds(g'.workers[v], t.outbox[j].id)
    {
      if j == k { assert Holds(g'.workers[w], t.outbox[j].id); }
      else {
        var v :| 0 <= v < |g.workers| && Holds(g.workers[v], s.outbox[j].id);
        assert Holds(g'.workers[v], t.outbox[j].id);
      }
    }
    forall j | 0 <= j < |t.outbox| ensures Agree(t.notifications[j], t.outbox[j]) { assert Agree(s.notifications[j], s.outbox[j]); }
    EndingsKept(s, t, g.finished);
  }

  // --------------------------------------------------------- business calls

  predicate Taken(status: RowStatus) { status == Processing || status == Processed }

  /** Calls from outside: rows that are claimed or processed stay as they are, and rest agrees. */
  ghost predicate Around(s: State, t: State) {
    && t.logs == s.logs && |s.outbox| <= |t.outbox| && |s.notifications| == |s.outbox| && Agreed(t)
    && (forall k | 0 <= k < |s.outbox| ::
          SameRow(s.outbox[k], t.outbox[k]) && t.notifications[k].id == s.notifications[k].id)
    && (forall k | 0 <= k < |s.outbox| && (Taken(s.outbox[k].status) || Taken(t.outbox[k].status)) ::
          t.outbox[k] == s.outbox[k] && t.notifications[k].status == s.notifications[k].status)
    && (forall k | |s.outbox| <= k < |t.outbox| :: t.outbox[k].status == Pending)
  }

  /** Notifications and rows are only appended, pending. */
  ghost predicate Extended(s: State, t: State) {
    && t.logs == s.logs && |s.outbox| <= |t.outbox| && |s.notifications| <= |t.notifications|
    && |t.outbox| - |s.outbox| == |t.notifications| - |s.notifications|
    && t.outbox[..|s.outbox|] == s.outbox && t.notifications[..|s.notifications|] == s.notifications
    && (forall k | |s.outbox| <= k < |t.outbox| :: t.outbox[k].status == Pending)
    && (forall k | |s.notifications| <= k < |t.notifications| :: t.notifications[k].status == NoticePending)
  }

  lemma ExtendedIsAround(s: State, t: State)
    requires Agreed(s) && Extended(s, t)
    ensures Around(s, t)
  {
    forall k | 0 <= k < |s.outbox| ensures t.outbox[k] == s.outbox[k] && t.notifications[k] == s.notifications[k] {
      assert t.outbox[..|s.outbox|][k] == s.outbox[k] && t.notifications[..|s.notifications|][k] == s.notifications[k];
    }
    forall k | 0 <= k < |t.outbox| ensures Agree(t.notifications[k], t.outbox[k]) {
      if k < |s.outbox| { assert Agree(s.notifications[k], s.outbox[k]); }
    }
  }

  lemma ExtendedTwice(s: State, m: State, t: State)
    requires Extended(s, m) && Extended(m, t)
    ensures Extended(s, t)
  {
    assert t.outbox[..|s.outbox|] == t.outbox[..|m.outbox|][..|s.outbox|];
    assert t.notifications[..|s.notifications|] == t.notifications[..|m.notifications|][..|s.notifications|];
    forall k | |s.outbox| <= k < |t.outbox| ensures t.outbox[k].status == Pending {
      if k < |m.outbox| { assert t.outbox[..|m.outbox|][k] == m.outbox[k]; }
    }
    forall k | |s.notifications| <= k < |t.notifications| ensures t.notifications[k].status == NoticePending {
      if k < |m.notifications| { assert t.notifications[..|m.notifications|][k] == m.notifications[k]; }
    }
  }

  lemma {:induction false} ArriveAllExtends(s: State, org: nat, operationId: nat, ids: seq<nat>, operator: string, note: string, now: Time)
    ensures Extended(s, ArriveAll(s, org, operationId, ids, operator, note, now))
  {
    if ids != [] {
      var init, id := ids[..|ids| - 1], ids[|ids| - 1];
      var mid := ArriveAll(s, org, operationId, init, operator, note, now);
      ArriveAllExtends(s, org, operationId, init, operator, note, now);
      ExtendedTwice(s, mid, ArriveOne(mid, s.members, org, operationId, id, operator, note, now));
    }
  }

  lemma {:induction false} NotifyAllExtends(s: State, org: nat, params: seq<NoticeParams>, now: Time)
    ensures Extended(s, NotifyAll(s, org, params, now))
  {
    if params != [] {
      NotifyAllExtends(s, org, params[..|params| - 1], now);
      ExtendedTwice(s, NotifyAll(s, org, params[..|params| - 1], now), NotifyAll(s, org, params, now));
    }
  }

  lemma ChangeExtends(s: State, i: nat, status: MemberStatus, photo: string, operator: string, note: string, now: Time)
    requires i < |s.members|
    ensures Extended(s, Change(s, i, status, photo, operator, note, now))
  {
  }

  lemma MarkExtends(s: State, org: nat, operationId: nat, studentId: nat, status: MemberStatus, photo: string,
                    operator: string, note: string, now: Time)
    ensures Extended(s, MarkStudent(s, org, operationId, studentId, status, photo, operator, note, now).state)
  {
    var f := FirstIndex(s.members, MemberKey(org, operationId, studentId));
    if f.Some? { ChangeExtends(s, f.value, status, photo, operator, note, now); }
  }

  lemma CorrectMemberExtends(s: State, i: nat, eventId: nat, target: MemberStatus, operator: string, reason: string, now: Time)
    requires i < |s.members|
    ensures Extended(s, Correct(s, i, eventId, target, operator, reason, now))
  {
  }

  lemma CorrectExtends(s: State, org: nat, operationId: nat, eventId: nat, target: MemberStatus, operator: string, reason: string, now: Time)
    ensures Extended(s, CorrectEvent(s, org, operationId, eventId, target, operator, reason, now).state)
  {
    var k := FirstIndex(s.events, EventKey(org, operationId, eventId));
    if k.Some? {
      var i := FirstIndex(s.members, MemberKey(org, operationId, s.events[k.value].studentId));
      if i.Some? { CorrectMemberExtends(s, i.value, eventId, target, operator, reason, now); }
    }
  }

  lemma RetryIsAround(s: State, org: nat, id: nat, now: Time)
    requires Keyed(s) && Agreed(s)
    ensures Around(s, Retry(s, org, id, now).state)
  {
    var t := Retry(s, org, id, now).state;
    if Retry(s, org, id, now).result.Ok? {
      var n, i := FirstIndex(s.notifications, NoticeKey(org, id)).value, FirstIndex(s.outbox, RowOfNotice(org, id)).value;
      assert RowOf(s.notifications[i], s.outbox[i]) && n == i;
      forall k | 0 <= k < |t.outbox| ensures Agree(t.notifications[k], t.outbox[k]) { assert Agree(s.notifications[k], s.outbox[k]); }
    }
  }

  lemma MarkReadIsAround(s: State, org: nat, id: nat, now: Time)
    requires Agreed(s)
    ensures Around(s, MarkRead(s, org, id, now).state)
  {
    var t := MarkRead(s, org, id, now).state;
    forall k | 0 <= k < |t.outbox| ensures Agree(t.notifications[k], t.outbox[k]) { assert Agree(s.notifications[k], s.outbox[k]); }
  }

  lemma QuietIsAround(s: State, org: nat, c: Command, now: Time)
    requires Agreed(s) && !Internal(c) && !Announcing(c) && !c.CmdMarkRead? && !c.CmdRetry?
    ensures Around(s, Step(s, org, c, now))
  {
    OtherStepEdits(s, org, c, now);
    QuietKeepsLogs(s, org, c, now);
  }

  lemma QuietKeepsLogs(s: State, org: nat, c: Command, now: Time)
    requires !Internal(c) && !Announcing(c) && !c.CmdMarkRead? && !c.CmdRetry?
    ensures Step(s, org, c, now).logs == s.logs
  {
  }

  predicate Announcing(c: Command) { c.CmdMark? || c.CmdBulkArrive? || c.CmdCorrect? || c.CmdNotify? }

  lemma AnnouncingExtends(s: State, org: nat, c: Command, now: Time)
    requires Announcing(c)
    ensures Extended(s, Step(s, org, c, now))
  {
    match c
    case CmdMark(op, student, status, photo, operator, note) => MarkExtends(s, org, op, student, status, photo, operator, note, now);
    case CmdBulkArrive(op, ids, operator, note) => ArriveAllExtends(s, org, op, DistinctBy(ids, Same()), operator, note, now);
    case CmdCorrect(op, event, target, operator, reason) => CorrectExtends(s, org, op, event, target, operator, reason, now);
    case CmdNotify(params) => NotifyAllExtends(s, org, params, now);
  }

  lemma BusinessIsAround(s: State, org: nat, c: Command, now: Time)
    requires Keyed(s) && Agreed(s) && !Internal(c)
    ensures Around(s, Step(s, org, c, now))
  {
    if Announcing(c) {
      AnnouncingExtends(s, org, c, now);
      ExtendedIsAround(s, Step(s, org, c, now));
    } else {
      PlainIsAround(s, org, c, now);
    }
  }

  lemma PlainIsAround(s: State, org: nat, c: Command, now: Time)
    requires Keyed(s) && Agreed(s) && !Internal(c) && !Announcing(c)
    ensures Around(s, Step(s, org, c, now))
  {
    match c
    case CmdMarkRead(id) => MarkReadIsAround(s, org, id, now);
    case CmdRetry(id) => RetryIsAround(s, org, id, now);
    case _ => QuietIsAround(s, org, c, now);
  }

  lemma AroundIsUndisturbed(s: State, t: State, e: OutboxRow)
    requires Keyed(s) && Around(s, t) && Holding(s, e)
    ensures Undisturbed(s, t, e)
  {
    var k :| 0 <= k < |s.outbox| && SameRow(s.outbox[k], e) && s.outbox[k].status == Processing;
    assert RowOf(s.notifications[k], s.outbox[k]);
  }

  lemma BusinessKeeps(g: Global, c: Call)
    requires Inv(g) && !Internal(c.command)
    ensures Inv(Next(g, Business(c)))
  {
    BusinessIsAround(g.store, c.org, c.command, c.now);
    QuietOrNot(g.store, c.org, c.command, c.now);
    CallKeepsSound(g.store, c.org, c.command, c.now);
    AroundKeeps(g, Step(g.store, c.org, c.command, c.now));
  }

  lemma QuietOrNot(s: State, org: nat, c: Command, now: Time)
    requires LogKeysUnique(s.logs) && Around(s, Step(s, org, c, now))
    ensures LogKeysUnique(Step(s, org, c, now).logs)
  {
  }

  lemma AroundKeeps(g: Global, t: State)
    requires Steady(g) && Around(g.store, t) && Sound(t)
    ensures Steady(g.(store := t))
  {
    SoundIsKeyed(t);
    var s, ws := g.store, g.workers;
    forall w | 0 <= w < |ws| ensures WorkerOk(t, ws[w]) {
      assert WorkerOk(s, ws[w]);
      if ws[w].Busy? { AroundIsUndisturbed(s, t, ws[w].event); }
      WorkerKept(s, t, ws[w]);
    }
    AroundRows(g, t);
    forall i | 0 <= i < |g.sends| ensures Logged(t, g.sends[i]) || SomeoneReports(ws, g.sends[i]) {
      if Logged(s, g.sends[i]) { LoggedKept(s, t, g.sends[i]); }
    }
  }

  lemma AroundRows(g: Global, t: State)
    requires AllHeld(g.store, g.workers) && FinishedOk(g.store, g.finished) && Around(g.store, t)
    ensures AllHeld(t, g.workers) && FinishedOk(t, g.finished)
  {
    forall k | 0 <= k < |t.outbox| && t.outbox[k].status == Processing
      ensures exists w | 0 <= w < |g.workers| :: Holds(g.workers[w], t.outbox[k].id)
    {
      assert t.outbox[k] == g.store.outbox[k];
    }
    EndingsKept(g.store, t, g.finished);
    forall k | 0 <= k < |t.outbox| && t.outbox[k].status == Processed ensures HasFinished(g.finished, t.outbox[k]) {
      assert t.outbox[k] == g.store.outbox[k];
    }
  }

  // ------------------------------------------------------------------- runs

  lemma NextKeeps(g: Global, a: Action)
    requires Inv(g)
    ensures Inv(Next(g, a))
  {
    match a
    case Business(c) => if !Internal(c.command) { BusinessKeeps(g, c); }
    case Work(w, x) =>
      if w < |g.workers| {
        match g.workers[w]
        case Idle => IdleKeeps(g, w, x);
        case Batch(_, _) => BatchKeeps(g, w, x);
        case Busy(_, _, _, _) => BusyKeeps(g, w, x);
      }
  }

  lemma StartIsOk(workers: nat)
    ensures Inv(Start(workers))
  {
    EmptyIsSound();
    SoundIsKeyed(INIT);
  }

  lemma EmptyIsSound()
    ensures Sound(INIT)
  {
    EveryIdOnce([]);
    RunConserves([], 0);
    RunKeepsHistory(INIT, []);
  }

  lemma {:induction false} AfterKeeps(g: Global, actions: seq<Action>)
    requires Inv(g)
    ensures Inv(After(g, actions))
  {
    if actions != [] {
      AfterKeeps(g, actions[..|actions| - 1]);
      NextKeeps(After(g, actions[..|actions| - 1]), actions[|actions| - 1]);
    }
  }

  /** Worker `w` and nobody else, `n` times. */
  function Turns(w: nat, world: nat -> World, n: nat): seq<Action> {
    if n == 0 then [] else Turns(w, world, n - 1) + [Work(w, world(n - 1))]
  }

  ghost predicate Reached(g: Global, w: nat, g': Global, a: Solo)
    requires w < |g.workers| && Ready(a.worker)
  {
    g'.store == a.state && g'.workers == g.workers[w := a.worker] && g'.sends == g.sends + a.sends
  }

  lemma TurnReaches(g: Global, w: nat, mid: Global, a: Solo, x: World)
    requires w < |g.workers| && Ready(a.worker) && Reached(g, w, mid, a)
    ensures var turn := WorkerStep(a.state, a.worker, x);
            Reached(g, w, Next(mid, Work(w, x)), Solo(turn.state, turn.worker, a.sends + SentBy(a.worker, x),
                                                      a.batches + Ended(turn.worker)))
  {
  }

  lemma AfterOneMore(g: Global, actions: seq<Action>, a: Action)
    ensures After(g, actions + [a]) == Next(After(g, actions), a)
  {
    assert (actions + [a])[..|actions|] == actions;
  }

  /** The loops of NotificationDispatcher are the protocol with no other action in between. */
  lemma {:induction false} AloneIsARun(g: Global, w: nat, world: nat -> World, n: nat)
    requires w < |g.workers|
    ensures Reached(g, w, After(g, Turns(w, world, n)), Alone(g.store, g.workers[w], world, n))
  {
    if n == 0 {
      assert g.workers[w := g.workers[w]] == g.workers && g.sends + [] == g.sends;
    } else {
      AloneIsARun(g, w, world, n - 1);
      OneMoreTurn(g, w, world, n - 1, After(g, Turns(w, world, n - 1)), Alone(g.store, g.workers[w], world, n - 1));
    }
  }

  lemma OneMoreTurn(g: Global, w: nat, world: nat -> World, n: nat, mid: Global, a: Solo)
    requires w < |g.workers| && Ready(a.worker) && Reached(g, w, mid, a)
    requires mid == After(g, Turns(w, world, n)) && a == Alone(g.store, g.workers[w], world, n)
    ensures Reached(g, w, After(g, Turns(w, world, n + 1)), Alone(g.store, g.workers[w], world, n + 1))
  {
    TurnReaches(g, w, mid, a, world(n));
    AfterOneMore(g, Turns(w, world, n), Work(w, world(n)));
    OneMore(g.store, g.workers[w], world, n, a, WorkerStep(a.state, a.worker, world(n)), SentBy(a.worker, world(n)));
  }

  // ----------------------------------------------------------- main results

  /** However many workers run and whatever they are interleaved with, no
      (notification, account, kind, template) is accepted twice. */
  lemma {:induction false} AtMostOneAcceptedSend(workers: nat, actions: seq<Action>)
    ensures var sends := After(Start(workers), actions).sends;
            forall i, j | 0 <= i < j < |sends| :: sends[i] != sends[j]
  {
    StartIsOk(workers);
    AfterKeeps(Start(workers), actions);
  }

  ghost predicate HeldByOne(ws: seq<Hand>, rowId: nat) {
    && (exists w | 0 <= w < |ws| :: Holds(ws[w], rowId))
    && (forall v, w | 0 <= v < |ws| && 0 <= w < |ws| && Holds(ws[v], rowId) && Holds(ws[w], rowId) :: v == w)
  }

  ghost predicate HeldByNone(ws: seq<Hand>, rowId: nat) { forall w | 0 <= w < |ws| :: !Holds(ws[w], rowId) }

  /** A row is processing exactly while one worker, and only one, holds it; otherwise none does. */
  lemma {:induction false} ClaimsAreExclusive(workers: nat, actions: seq<Action>)
    ensures var g := After(Start(workers), actions);
            forall k | 0 <= k < |g.store.outbox| ::
              if g.store.outbox[k].status == Processing then HeldByOne(g.workers, g.store.outbox[k].id)
              else HeldByNone(g.workers, g.store.outbox[k].id)
  {
    StartIsOk(workers);
    AfterKeeps(Start(workers), actions);
    var g := After(Start(workers), actions);
    forall k, w | 0 <= k < |g.store.outbox| && 0 <= w < |g.workers| && Holds(g.workers[w], g.store.outbox[k].id)
      ensures g.store.outbox[k].status == Processing
    {
      assert WorkerOk(g.store, g.workers[w]);
      var i :| 0 <= i < |g.store.outbox| && SameRow(g.store.outbox[i], g.workers[w].event) && g.store.outbox[i].status == Processing;
      assert i == k;
    }
  }

  predicate SameStory(n: Notification, r: OutboxRow) {
    && RowOf(n, r)
    && (r.status == Pending <==> n.status == NoticePending)
    && (r.status == Processed <==> n.status == NoticeSent)
    && (r.status == Failed <==> n.status == NoticeFailed)
  }

  /** At rest, a row is pending, processed or failed exactly as its notification is pending, sent or failed. */
  lemma {:induction false} RestingRowsAgree(workers: nat, actions: seq<Action>)
    ensures var s := After(Start(workers), actions).store;
            && |s.notifications| == |s.outbox|
            && forall k | 0 <= k < |s.outbox| && s.outbox[k].status != Processing :: SameStory(s.notifications[k], s.outbox[k])
  {
    StartIsOk(workers);
    AfterKeeps(Start(workers), actions);
    var s := After(Start(workers), actions).store;
    forall k | 0 <= k < |s.outbox| && s.outbox[k].status != Processing ensures SameStory(s.notifications[k], s.outbox[k]) {
      assert Agree(s.notifications[k], s.outbox[k]) && RowOf(s.notifications[k], s.outbox[k]);
    }
  }

  /** A finished delivery of the row in which every account listed has a sent or skipped log. */
  ghost predicate ServedInFull(s: State, finished: seq<Ending>, row: OutboxRow) {
    exists m | 0 <= m < |finished| :: FinishedFor(finished[m], row) && RoundDone(s, finished[m].round)
  }

  /** A row is only ever marked processed for a round in which every account
      listed has a log, for this notification, that says sent or skipped. */
  lemma {:induction false} ProcessedMeansServed(workers: nat, actions: seq<Action>)
    ensures var g := After(Start(workers), actions);
            forall k | 0 <= k < |g.store.outbox| && g.store.outbox[k].status == Processed ::
              ServedInFull(g.store, g.finished, g.store.outbox[k])
  {
    StartIsOk(workers);
    AfterKeeps(Start(workers), actions);
    var g := After(Start(workers), actions);
    forall k | 0 <= k < |g.store.outbox| && g.store.outbox[k].status == Processed
      ensures ServedInFull(g.store, g.finished, g.store.outbox[k])
    {
      var m :| 0 <= m < |g.finished| && FinishedFor(g.finished[m], g.store.outbox[k]);
      assert RoundDone(g.store, g.finished[m].round);
    }
  }

  lemma ProcessedStays(g: Global, a: Action, k: nat)
    requires Inv(g) && k < |g.store.outbox| && g.store.outbox[k].status == Processed
    ensures k < |Next(g, a).store.outbox| && Next(g, a).store.outbox[k] == g.store.outbox[k]
  {
    match a
    case Business(c) => BusinessLeavesProcessed(g.store, c, k);
    case Work(w, x) =>
      if w < |g.workers| && g.workers[w].Busy? {
        var next := BusyStepOk(g, w, x);
        HolderLeavesProcessed(g, Next(g, a), w, next, k);
      }
  }

  lemma BusinessLeavesProcessed(s: State, c: Call, k: nat)
    requires Keyed(s) && Agreed(s) && k < |s.outbox| && s.outbox[k].status == Processed
    ensures Internal(c.command) || (var t := Step(s, c.org, c.command, c.now); k < |t.outbox| && t.outbox[k] == s.outbox[k])
  {
    if !Internal(c.command) { BusinessIsAround(s, c.org, c.command, c.now); }
  }

  /** The row a worker holds is processing, so it is not the processed one. */
  lemma HolderLeavesProcessed(g: Global, g': Global, w: nat, next: Option<Job>, k: nat)
    requires AllOk(g.store, g.workers) && HolderStep(g, g', w, next)
    requires Keyed(g.store) && k < |g.store.outbox| && g.store.outbox[k].status == Processed
    ensures k < |g'.store.outbox| && g'.store.outbox[k] == g.store.outbox[k]
  {
    assert WorkerOk(g.store, g.workers[w]);
    var i :| 0 <= i < |g.store.outbox| && SameRow(g.store.outbox[i], g.workers[w].event) && g.store.outbox[i].status == Processing;
    assert i != k;
  }

  ghost predicate ProcessedKept(s: State, t: State) {
    forall k | 0 <= k < |s.outbox| && s.outbox[k].status == Processed :: k < |t.outbox| && t.outbox[k] == s.outbox[k]
  }

  lemma {:induction false} ProcessedFrom(g: Global, after: seq<Action>)
    requires Inv(g)
    ensures ProcessedKept(g.store, After(g, after).store)
  {
    if after != [] {
      var mid := After(g, after[..|after| - 1]);
      ProcessedFrom(g, after[..|after| - 1]);
      AfterKeeps(g, after[..|after| - 1]);
      forall k | 0 <= k < |g.store.outbox| && g.store.outbox[k].status == Processed
        ensures k < |After(g, after).store.outbox| && After(g, after).store.outbox[k] == g.store.outbox[k]
      {
        ProcessedStays(mid, after[|after| - 1], k);
      }
    }
  }

  /** Once processed, a row never changes again. */
  lemma {:induction false} ProcessedIsTerminal(workers: nat, before: seq<Action>, after: seq<Action>)
    ensures var g := After(Start(workers), before); ProcessedKept(g.store, After(g, after).store)
  {
    StartIsOk(workers);
    AfterKeeps(Start(workers), before);
    ProcessedFrom(After(Start(workers), before), after);
  }
}
