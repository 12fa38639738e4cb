/** The outbox dispatchers.  A worker's work between two calls on a store is one
    step, so that the steps of any number of workers may interleave; the methods
    at the end are the loops as the server runs them, proved to take exactly
    these steps. */
module Dispatcher {
  import opened Common
  import opened PickupModel
  import opened PickupSpec
  import opened PickupStore

  // ----------------------------------------------------- what a worker sees

  datatype Config = Config(templates: map<string, string>, fallback: string)

  datatype Account = Account(id: nat, openId: string)

  /** What ListMessageSubscriptions says of one parent and template kind. */
  datatype Subscription = Authorized | Unauthorized | LookupFailed

  /** What the world outside the pickup store answers at one step of a worker; `error` is the text of a call that fails. */
  datatype World = World(
    now: Time, cancelled: bool, lease: nat, maxAttempts: nat, config: Config, accounts: Option<seq<Account>>,
    subscription: Subscription, delivered: bool, error: string)

  function TemplateKind(kind: string): string {
    if kind in {"pickup_status", "pickup_plan_confirmed", "pickup_change_review"} then "pickup"
    else if kind in {"meal_updated", "meal_diet_note_review"} then "meal"
    else if kind in {"homework_published", "homework_review"} then "homework"
    else if kind in {"leave_review", "child_application_approved"} then "leave"
    else if kind == "daily_summary_published" then "summary"
    else kind
  }

  function TemplateForKind(c: Config, kind: string): string {
    var own := if Trim(kind) in c.templates then Trim(c.templates[Trim(kind)]) else "";
    if own != "" then own else Trim(c.fallback)
  }

  /** Seconds to wait after that many attempts. */
  function RetryBackoff(attempts: nat): Time {
    var a := if attempts < 1 then 1 else attempts;
    Square(a) * 5
  }

  function TruncateValue(value: string, max: nat): string {
    var v := Trim(value);
    if max == 0 || |v| <= max then v
    else if max == 1 then v[..max]
    else v[..max - 1] + "…"
  }

  function Square(n: nat): nat { n * n }

  // ------------------------------------------------------ where a worker is

  /** One delivery of a notification: the accounts listed, how many are done, the first thing that went wrong. */
  datatype Round = Round(notice: Notification, kind: string, template: string, accounts: seq<Account>, next: nat, firstErr: Option<string>)

  datatype Verdict = Delivered(round: Round) | Postponed(error: string) | Abandoned(error: string)

  datatype Job =
    | Find                                                    // the row has been claimed
    | List(notice: Notification)                              // the notification has been read
    | Deliver(round: Round)                                   // before the next account
    | Decide(round: Round, log: DeliveryLog)                  // its delivery log has been opened
    | Transmit(round: Round, log: DeliveryLog, at: Time)      // the log says pending; the send is next
    | Report(round: Round, log: DeliveryLog, accepted: bool, at: Time, error: string)  // the send has been answered
    | Settle(verdict: Verdict)
    | Close(verdict: Verdict, availableAt: Time)              // the notification has its status; the row is next

  datatype Worker =
    | Idle
    | Batch(queue: seq<OutboxRow>, listedAt: Time)
    | Busy(queue: seq<OutboxRow>, listedAt: Time, event: OutboxRow, job: Job)

  /** A message the WeChat client accepted. */
  datatype Send = Send(org: nat, notificationId: nat, accountId: nat, kind: string, template: string)

  function SendOf(r: Round): Send
    requires r.next < |r.accounts|
  {
    Send(r.notice.org, r.notice.id, r.accounts[r.next].id, r.kind, r.template)
  }

  // ------------------------------------------------------------ single steps

  function FailureVerdict(event: OutboxRow, maxAttempts: nat, error: string): Verdict {
    if event.attempts + 1 >= maxAttempts then Abandoned(error) else Postponed(error)
  }

  datatype JobTurn = JobTurn(state: State, job: Option<Job>)

  /** On to the next account; only the first error is kept. */
  function Advanced(r: Round, error: Option<string>): Job {
    Deliver(r.(next := r.next + 1, firstErr := if r.firstErr.Some? then r.firstErr else error))
  }

  const NOT_BOUND := "家长未绑定微信"

  const NOT_AUTHORIZED := "家长未授权此类订阅消息"

  function FindStep(s: State, event: OutboxRow, x: World): JobTurn {
    match FirstIndex(s.notifications, NoticeKey(event.org, event.notificationId))
    case None => JobTurn(s, Some(Settle(Abandoned(x.error))))
    case Some(i) => JobTurn(s, Some(List(s.notifications[i])))
  }

  function NoTemplate(kind: string): string { "wechat subscribe template is not configured for " + kind }

  function ListStep(s: State, event: OutboxRow, n: Notification, x: World): JobTurn {
    var kind := TemplateKind(n.kind);
    var template := TemplateForKind(x.config, kind);
    if template == "" || x.accounts.None? then
      JobTurn(s, Some(Settle(FailureVerdict(event, x.maxAttempts, if template == "" then NoTemplate(kind) else x.error))))
    else JobTurn(s, Some(Deliver(Round(n, kind, template, x.accounts.value, 0, None))))
  }

  function DeliverStep(s: State, event: OutboxRow, r: Round, x: World): JobTurn {
    if r.next >= |r.accounts| then
      JobTurn(s, Some(Settle(if r.firstErr.Some? then FailureVerdict(event, x.maxAttempts, r.firstErr.value) else Delivered(r))))
    else
      var entry := OpenLog(s, r.notice.org, r.notice.id, r.accounts[r.next].id, r.kind, r.template);
      JobTurn(entry.state, Some(Decide(r, entry.result.value)))
  }

  function DecideStep(s: State, r: Round, log: DeliveryLog, x: World): JobTurn
    requires r.next < |r.accounts|
  {
    if log.status in {LogSent, LogSkipped} then JobTurn(s, Some(Advanced(r, None)))
    else if Trim(r.accounts[r.next].openId) == "" then Skip(s, r, log, NOT_BOUND)
    else
      match x.subscription
      case LookupFailed => JobTurn(s, Some(Advanced(r, Some(x.error))))
      case Unauthorized => Skip(s, r, log, NOT_AUTHORIZED)
      case Authorized =>
        JobTurn(SetLog(s, r.notice.org, log.id, LogPending, log.attempts + 1, Some(x.now), None, None, "").state, Some(Transmit(r, log, x.now)))
  }

  function Skip(s: State, r: Round, log: DeliveryLog, why: string): JobTurn {
    JobTurn(SetLog(s, r.notice.org, log.id, LogSkipped, log.attempts, None, None, None, why).state, Some(Advanced(r, None)))
  }

  function ReportStep(s: State, r: Round, log: DeliveryLog, accepted: bool, at: Time, error: string, x: World): JobTurn {
    if accepted then
      JobTurn(SetLog(s, r.notice.org, log.id, LogSent, log.attempts + 1, Some(at), Some(x.now), None, "").state, Some(Advanced(r, None)))
    else
      JobTurn(SetLog(s, r.notice.org, log.id, LogFailed, log.attempts + 1, Some(at), None, None, TruncateValue(error, 500)).state,
              Some(Advanced(r, Some(error))))
  }

  function NoticeOutcome(v: Verdict): NoticeStatus {
    match v case Delivered(_) => NoticeSent case Postponed(_) => NoticePending case Abandoned(_) => NoticeFailed
  }

  function RowOutcome(v: Verdict): RowStatus {
    match v case Delivered(_) => Processed case Postponed(_) => Pending case Abandoned(_) => Failed
  }

  function ErrorOf(v: Verdict): string { if v.Delivered? then "" else TruncateValue(v.error, 500) }

  function SentAt(v: Verdict, now: Time): Option<Time> { if v.Delivered? then Some(now) else None }

  function NextDue(v: Verdict, attempts: nat, now: Time): Time { if v.Postponed? then now + RetryBackoff(attempts) else now }

  function RetryAt(v: Verdict, next: Time): Option<Time> { if v.Postponed? then Some(next) else None }

  function SettleStep(s: State, event: OutboxRow, v: Verdict, x: World): JobTurn {
    var next := NextDue(v, event.attempts, x.now);
    var t := SetNotice(s, event.org, event.notificationId, NoticeOutcome(v), event.attempts + 1, SentAt(v, x.now), Some(x.now),
                       RetryAt(v, next), ErrorOf(v)).state;
    JobTurn(t, Some(Close(v, next)))
  }

  function CloseStep(s: State, event: OutboxRow, v: Verdict, availableAt: Time, x: World): JobTurn {
    JobTurn(CompleteRow(s, event.org, event.id, RowOutcome(v), Some(availableAt), ErrorOf(v), x.now).state, None)
  }

  /** Jobs that name an account name one of the round's. */
  predicate InRound(j: Job) { (j.Decide? || j.Transmit? || j.Report?) ==> j.round.next < |j.round.accounts| }

  function JobStep(s: State, event: OutboxRow, job: Job, x: World): (r: JobTurn)
    requires InRound(job)
    ensures r.job.Some? ==> InRound(r.job.value)
  {
    match job
    case Find => FindStep(s, event, x)
    case List(n) => ListStep(s, event, n, x)
    case Deliver(r) => DeliverStep(s, event, r, x)
    case Decide(r, log) => DecideStep(s, r, log, x)
    case Transmit(r, log, at) => JobTurn(s, Some(Report(r, log, x.delivered, at, x.error)))
    case Report(r, log, accepted, at, error) => ReportStep(s, r, log, accepted, at, error, x)
    case Settle(v) => SettleStep(s, event, v, x)
    case Close(v, availableAt) => CloseStep(s, event, v, availableAt, x)
  }

  predicate Ready(w: Worker) { w.Busy? ==> InRound(w.job) }

  datatype Turn = Turn(state: State, worker: Worker)

  function WorkerStep(s: State, w: Worker, x: World): (r: Turn)
    requires Ready(w)
    ensures Ready(r.worker)
  {
    match w
    case Idle => Turn(s, Batch(ListOutbox(s.outbox, x.now, x.now - x.lease, 100), x.now))
    case Batch(queue, at) =>
      if queue == [] || x.cancelled then Turn(s, Idle)
      else
        var claimed := Claim(s, queue[0].org, queue[0].id, at);
        if claimed.result == Ok(true) then Turn(claimed.state, Busy(queue[1..], at, queue[0], Find))
        else Turn(claimed.state, Batch(queue[1..], at))
    case Busy(queue, at, event, job) =>
      var turn := JobStep(s, event, job, x);
      match turn.job
      case None => Turn(turn.state, Batch(queue, at))
      case Some(next) => Turn(turn.state, Busy(queue, at, event, next))
  }

  /** The message this step gets accepted, if any. */
  function SentBy(w: Worker, x: World): seq<Send>
    requires Ready(w)
  {
    if w.Busy? && w.job.Transmit? && x.delivered then [SendOf(w.job.round)] else []
  }

  // ------------------------------------------- the server's loops, in place

  /** One worker taking `n` steps by itself, with what it sent and how many batches it brought to an end. */
  datatype Solo = Solo(state: State, worker: Worker, sends: seq<Send>, batches: nat)

  /** Only the end of a batch makes a worker idle. */
  function Ended(w: Worker): nat { if w.Idle? then 1 else 0 }

  function Alone(s: State, w: Worker, world: nat -> World, n: nat): (r: Solo)
    requires Ready(w)
    ensures Ready(r.worker)
  {
    if n == 0 then Solo(s, w, [], 0)
    else
      var before := Alone(s, w, world, n - 1);
      var turn := WorkerStep(before.state, before.worker, world(n - 1));
      Solo(turn.state, turn.worker, before.sends + SentBy(before.worker, world(n - 1)), before.batches + Ended(turn.worker))
  }

  lemma OneMore(s: State, w: Worker, world: nat -> World, n: nat, at: Solo, turn: Turn, message: seq<Send>)
    requires Ready(w) && Ready(at.worker) && at == Alone(s, w, world, n)
    requires turn == WorkerStep(at.state, at.worker, world(n)) && message == SentBy(at.worker, world(n))
    ensures Alone(s, w, world, n + 1) == Solo(turn.state, turn.worker, at.sends + message, at.batches + Ended(turn.worker))
  {
  }

  class NotificationDispatcher {
    const store: MemoryStore
    const world: nat -> World
    var steps: nat
    var sends: seq<Send>
    ghost var batches: nat
    ghost const origin: State

    constructor (store: MemoryStore, world: nat -> World)
      ensures this.store == store && this.world == world && origin == store.View() && At(Idle) && steps == 0
    {
      this.store, this.world, steps, sends, batches, origin := store, world, 0, [], 0, store.View();
    }

    /** All that happened since the start is what `steps` steps of a worker do, and it is now at `w`. */
    ghost predicate At(w: Worker)
      reads this, store
    {
      Solo(store.View(), w, sends, batches) == Alone(origin, Idle, world, steps)
    }

    /** Ends a step; its effect on the store has happened. */
    method Tick(ghost w: Worker, ghost next: Worker, ghost before: State, message: seq<Send>)
      requires Solo(before, w, sends, batches) == Alone(origin, Idle, world, steps) && Ready(w)
      requires WorkerStep(before, w, world(steps)) == Turn(store.View(), next)
      requires message == SentBy(w, world(steps))
      modifies this
      ensures At(next) && steps == old(steps) + 1 && batches == old(batches) + Ended(next)
    {
      OneMore(origin, Idle, world, steps, Solo(before, w, sends, batches), Turn(store.View(), next), message);
      steps, sends, batches := steps + 1, sends + message, batches + Ended(next);
    }

    /** A step of the worker that holds `event`. */
    method TickJob(event: OutboxRow, ghost queue: seq<OutboxRow>, ghost now: Time, ghost job: Job, ghost next: Option<Job>,
                   ghost before: State, message: seq<Send>)
      requires Solo(before, Busy(queue, now, event, job), sends, batches) == Alone(origin, Idle, world, steps) && InRound(job)
      requires JobStep(before, event, job, world(steps)) == JobTurn(store.View(), next)
      requires message == if job.Transmit? && world(steps).delivered then [SendOf(job.round)] else []
      modifies this
      ensures At(if next.Some? then Busy(queue, now, event, next.value) else Batch(queue, now)) && steps == old(steps) + 1 && batches == old(batches)
    {
      Tick(Busy(queue, now, event, job), if next.Some? then Busy(queue, now, event, next.value) else Batch(queue, now), before, message);
    }

    /** One batch, from listing to the end of the list (or a cancellation), and no more. */
    method DispatchBatch()
      requires At(Idle)
      modifies this, store
      ensures At(Idle) && batches == old(batches) + 1
    {
      var now := world(steps).now;
      var events := ListRows(now);
      var i := 0;
      while i < |events|
        invariant i <= |events| && At(Batch(events[i..], now)) && batches == old(batches)
        decreases |events| - i
      {
        if world(steps).cancelled {
          Tick(Batch(events[i..], now), Idle, store.View(), []);
          return;
        }
        assert events[i..] == [events[i]] + events[i + 1..];
        i := i + 1;
        TryRow(events[i - 1], events[i..], now);
      }
      assert events[i..] == [];
      Tick(Batch([], now), Idle, store.View(), []);
    }

    method ListRows(now: Time) returns (events: seq<OutboxRow>)
      requires At(Idle) && now == world(steps).now
      modifies this
      ensures At(Batch(events, now)) && batches == old(batches)
    {
      events := store.ListOutbox(now, now - world(steps).lease, 100);
      Tick(Idle, Batch(events, now), store.View(), []);
    }

    /** The body of the loop: claim the row and, unless it is gone, deliver it. */
    method TryRow(event: OutboxRow, ghost queue: seq<OutboxRow>, now: Time)
      requires At(Batch([event] + queue, now)) && !world(steps).cancelled
      modifies this, store
      ensures At(Batch(queue, now)) && batches == old(batches)
    {
      ghost var before := store.View();
      assert ([event] + queue)[1..] == queue;
      var claimed := store.Claim(event.org, event.id, now);
      Tick(Batch([event] + queue, now), if claimed == Ok(true) then Busy(queue, now, event, Find) else Batch(queue, now), before, []);
      if claimed == Ok(true) {
        DispatchOne(event, queue, now);
      }
    }

    method DispatchOne(event: OutboxRow, ghost queue: seq<OutboxRow>, ghost now: Time)
      requires At(Busy(queue, now, event, Find))
      modifies this, store
      ensures At(Batch(queue, now)) && batches == old(batches)
    {
      var i := Scan(store.notifications, NoticeKey(event.org, event.notificationId));
      if i.None? {
        var error := world(steps).error;
        TickJob(event, queue, now, Find, Some(Settle(Abandoned(error))), store.View(), []);
        Complete(event, Abandoned(error), queue, now);
        return;
      }
      var notification := store.notifications[i.value];
      TickJob(event, queue, now, Find, Some(List(notification)), store.View(), []);
      var verdict := DeliverNotice(event, notification, queue, now);
      Complete(event, verdict, queue, now);
    }

    method Complete(event: OutboxRow, verdict: Verdict, ghost queue: seq<OutboxRow>, ghost now: Time)
      requires At(Busy(queue, now, event, Settle(verdict)))
      modifies this, store
      ensures At(Batch(queue, now)) && batches == old(batches)
    {
      var availableAt := SetOutcome(event, verdict, queue, now);
      CloseRow(event, verdict, availableAt, queue, now);
    }

    method SetOutcome(event: OutboxRow, verdict: Verdict, ghost queue: seq<OutboxRow>, ghost now: Time) returns (next: Time)
      requires At(Busy(queue, now, event, Settle(verdict)))
      modifies this, store
      ensures At(Busy(queue, now, event, Close(verdict, next))) && batches == old(batches)
    {
      ghost var before := store.View();
      var at := world(steps).now;
      next := NextDue(verdict, event.attempts, at);
      var _ := store.SetNotice(event.org, event.notificationId, NoticeOutcome(verdict), event.attempts + 1,
                               SentAt(verdict, at), Some(at), RetryAt(verdict, next), ErrorOf(verdict));
      assert SettleStep(before, event, verdict, world(steps)) == JobTurn(store.View(), Some(Close(verdict, next)));
      TickJob(event, queue, now, Settle(verdict), Some(Close(verdict, next)), before, []);
    }

    method CloseRow(event: OutboxRow, verdict: Verdict, availableAt: Time, ghost queue: seq<OutboxRow>, ghost now: Time)
      requires At(Busy(queue, now, event, Close(verdict, availableAt)))
      modifies this, store
      ensures At(Batch(queue, now)) && batches == old(batches)
    {
      ghost var before := store.View();
      var _ := store.CompleteRow(event.org, event.id, RowOutcome(verdict), Some(availableAt), ErrorOf(verdict), world(steps).now);
      TickJob(event, queue, now, Close(verdict, availableAt), None, before, []);
    }

    method DeliverNotice(event: OutboxRow, notification: Notification, ghost queue: seq<OutboxRow>, ghost now: Time)
      returns (verdict: Verdict)
      requires At(Busy(queue, now, event, List(notification)))
      modifies this, store
      ensures At(Busy(queue, now, event, Settle(verdict))) && batches == old(batches)
    {
      var kind := TemplateKind(notification.kind);
      var template := TemplateForKind(world(steps).config, kind);
      var listed := world(steps).accounts;
      if template == "" || listed.None? {
        verdict := FailureVerdict(event, world(steps).maxAttempts, if template == "" then NoTemplate(kind) else world(steps).error);
        TickJob(event, queue, now, List(notification), Some(Settle(verdict)), store.View(), []);
        return;
      }
      var round := Round(notification, kind, template, listed.value, 0, None);
      TickJob(event, queue, now, List(notification), Some(Deliver(round)), store.View(), []);
      while round.next < |round.accounts|
        invariant At(Busy(queue, now, event, Deliver(round))) && batches == old(batches)
        invariant round.next <= |round.accounts|
        decreases |round.accounts| - round.next
      {
        round := ServeAccount(event, round, queue, now);
      }
      verdict := if round.firstErr.Some? then FailureVerdict(event, world(steps).maxAttempts, round.firstErr.value) else Delivered(round);
      TickJob(event, queue, now, Deliver(round), Some(Settle(verdict)), store.View(), []);
    }

    /** The body of the loop over the accounts. */
    method ServeAccount(event: OutboxRow, round: Round, ghost queue: seq<OutboxRow>, ghost now: Time) returns (after: Round)
      requires At(Busy(queue, now, event, Deliver(round))) && round.next < |round.accounts|
      modifies this, store
      ensures At(Busy(queue, now, event, Deliver(after))) && batches == old(batches)
      ensures after.next == round.next + 1 && after.accounts == round.accounts
    {
      ghost var before := store.View();
      var account := round.accounts[round.next];
      var entry := store.OpenLog(round.notice.org, round.notice.id, account.id, round.kind, round.template);
      var log := entry.value;
      TickJob(event, queue, now, Deliver(round), Some(Decide(round, log)), before, []);
      after := Advanced(round, None).round;
      before := store.View();
      if log.status == LogSent || log.status == LogSkipped {
        TickJob(event, queue, now, Decide(round, log), Some(Deliver(after)), before, []);
        return;
      }
      if Trim(account.openId) == "" || world(steps).subscription == Unauthorized {
        var _ := store.SetLog(round.notice.org, log.id, LogSkipped, log.attempts, None, None, None,
                              if Trim(account.openId) == "" then NOT_BOUND else NOT_AUTHORIZED);
        TickJob(event, queue, now, Decide(round, log), Some(Deliver(after)), before, []);
        return;
      }
      if world(steps).subscription == LookupFailed {
        after := Advanced(round, Some(world(steps).error)).round;
        TickJob(event, queue, now, Decide(round, log), Some(Deliver(after)), before, []);
        return;
      }
      after := SendTo(event, round, log, queue, now);
    }

    /** The log is set to pending, then the message sent. */
    method SendTo(event: OutboxRow, round: Round, log: DeliveryLog, ghost queue: seq<OutboxRow>, ghost now: Time) returns (after: Round)
      requires At(Busy(queue, now, event, Decide(round, log))) && round.next < |round.accounts|
      requires log.status !in {LogSent, LogSkipped} && Trim(round.accounts[round.next].openId) != "" && world(steps).subscription == Authorized
      modifies this, store
      ensures At(Busy(queue, now, event, Deliver(after))) && batches == old(batches)
      ensures after.next == round.next + 1 && after.accounts == round.accounts
    {
      ghost var before := store.View();
      var at := world(steps).now;
      var _ := store.SetLog(round.notice.org, log.id, LogPending, log.attempts + 1, Some(at), None, None, "");
      TickJob(event, queue, now, Decide(round, log), Some(Transmit(round, log, at)), before, []);
      var accepted, error := world(steps).delivered, world(steps).error;
      TickJob(event, queue, now, Transmit(round, log, at), Some(Report(round, log, accepted, at, error)), store.View(),
              if accepted then [SendOf(round)] else []);
      after := ReportSend(event, round, log, accepted, at, error, queue, now);
    }

    /** The answer is written to the log. */
    method ReportSend(event: OutboxRow, round: Round, log: DeliveryLog, accepted: bool, at: Time, error: string, ghost queue: seq<OutboxRow>, ghost now: Time)
      returns (after: Round)
      requires At(Busy(queue, now, event, Report(round, log, accepted, at, error))) && round.next < |round.accounts|
      modifies this, store
      ensures At(Busy(queue, now, event, Deliver(after))) && batches == old(batches)
      ensures after.next == round.next + 1 && after.accounts == round.accounts
    {
      ghost var before := store.View();
      after := Advanced(round, if accepted then None else Some(error)).round;
      if accepted {
        var _ := store.SetLog(round.notice.org, log.id, LogSent, log.attempts + 1, Some(at), Some(world(steps).now), None, "");
      } else {
        var _ := store.SetLog(round.notice.org, log.id, LogFailed, log.attempts + 1, Some(at), None, None, TruncateValue(error, 500));
      }
      TickJob(event, queue, now, Report(round, log, accepted, at, error), Some(Deliver(after)), before, []);
    }
  }
}
