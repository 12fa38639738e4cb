/** What became of each parent: told from the actions of a run, whom a processed
    row's notification reached, and why it did not reach the others. */
module DispatcherStory {
  import opened Common
  import opened PickupModel
  import opened PickupSpec
  import opened PickupRuns
  import opened PickupConservation
  import opened Dispatcher
  import opened DispatcherSafety
  import opened DispatcherRuns
  import Paging

  // --------------------------------------------------------- reading a run

  /** Where everything stands before action `i`. */
  ghost function At(workers: nat, actions: seq<Action>, i: nat): Global
    requires i <= |actions|
  {
    After(Start(workers), actions[..i])
  }

  /** Worker `w` holds the row and is about to ask who the child's parents are. */
  ghost predicate Asking(g: Global, w: nat, rowId: nat) {
    w < |g.workers| && g.workers[w].Busy? && g.workers[w].event.id == rowId && g.workers[w].job.List?
  }

  ghost predicate AsksAt(workers: nat, actions: seq<Action>, i: nat, rowId: nat)
    requires i < |actions|
  {
    actions[i].Work? && Asking(At(workers, actions, i), actions[i].worker, rowId)
  }

  /** Action `i` is the holder's asking, and `listed` the answer. */
  ghost predicate Lists(workers: nat, actions: seq<Action>, i: nat, rowId: nat, listed: seq<Account>) {
    i < |actions| && AsksAt(workers, actions, i, rowId) && actions[i].world.accounts == Some(listed)
  }

  /** ... and the last time anybody asked for that row. */
  ghost predicate ListsLast(workers: nat, actions: seq<Action>, i: nat, rowId: nat, listed: seq<Account>) {
    Lists(workers, actions, i, rowId, listed) && forall j | i < j < |actions| :: !AsksAt(workers, actions, j, rowId)
  }

  /** What the asker of action `i` was to announce. */
  ghost predicate AskedAbout(workers: nat, actions: seq<Action>, i: nat, noticeId: nat) {
    i < |actions| && actions[i].Work? &&
    var g := At(workers, actions, i); var w := actions[i].worker;
    w < |g.workers| && g.workers[w].Busy? && g.workers[w].event.notificationId == noticeId
  }

  lemma PrefixAt(workers: nat, init: seq<Action>, a: Action, i: nat)
    requires i <= |init|
    ensures At(workers, init + [a], i) == At(workers, init, i)
  {
    assert (init + [a])[..i] == init[..i];
  }

  lemma AskedBefore(workers: nat, init: seq<Action>, a: Action, rowId: nat)
    ensures forall i | 0 <= i < |init| :: AsksAt(workers, init + [a], i, rowId) <==> AsksAt(workers, init, i, rowId)
    ensures AsksAt(workers, init + [a], |init|, rowId) <==> a.Work? && Asking(After(Start(workers), init), a.worker, rowId)
  {
    forall i | 0 <= i < |init| ensures AsksAt(workers, init + [a], i, rowId) <==> AsksAt(workers, init, i, rowId) {
      PrefixAt(workers, init, a, i);
    }
    assert (init + [a])[..|init|] == init;
  }

  lemma ListsBefore(workers: nat, init: seq<Action>, a: Action, i: nat, rowId: nat, listed: seq<Account>)
    requires Lists(workers, init, i, rowId, listed)
    ensures Lists(workers, init + [a], i, rowId, listed)
  {
    AskedBefore(workers, init, a, rowId);
  }

  /** An action that does not ask for the row leaves the last asking the last. */
  lemma StillLast(workers: nat, init: seq<Action>, a: Action, i: nat, rowId: nat, listed: seq<Account>)
    requires ListsLast(workers, init, i, rowId, listed)
    requires !(a.Work? && Asking(After(Start(workers), init), a.worker, rowId))
    ensures ListsLast(workers, init + [a], i, rowId, listed)
  {
    AskedBefore(workers, init, a, rowId);
  }

  lemma NowLast(workers: nat, init: seq<Action>, a: Action, rowId: nat, listed: seq<Account>)
    requires a.Work? && Asking(After(Start(workers), init), a.worker, rowId) && a.world.accounts == Some(listed)
    ensures ListsLast(workers, init + [a], |init|, rowId, listed)
  {
    AskedBefore(workers, init, a, rowId);
  }

  // ----------------------------------------------------- kind and template

  /** The five kinds of message parents subscribe to, by kind of notification. */
  const GROUPS: map<string, string> := map[
    "pickup_status" := "pickup", "pickup_plan_confirmed" := "pickup", "pickup_change_review" := "pickup",
    "meal_updated" := "meal", "meal_diet_note_review" := "meal",
    "homework_published" := "homework", "homework_review" := "homework",
    "leave_review" := "leave", "child_application_approved" := "leave",
    "daily_summary_published" := "summary"]

  function GroupOf(kind: string): string { if kind in GROUPS then GROUPS[kind] else kind }

  /** The template configured for the group, or the common one. */
  ghost predicate Chosen(c: Config, group: string, template: string) {
    template != "" &&
    if Trim(group) in c.templates && Trim(c.templates[Trim(group)]) != "" then template == Trim(c.templates[Trim(group)])
    else template == Trim(c.fallback)
  }

  /** The notification's kind belongs to that group. */
  ghost predicate KindIs(s: State, noticeId: nat, group: string) {
    exists k | 0 <= k < |s.notifications| :: s.notifications[k].id == noticeId && GroupOf(s.notifications[k].kind) == group
  }

  ghost predicate Stored(s: State, n: Notification) {
    exists k | 0 <= k < |s.notifications| :: s.notifications[k].id == n.id && s.notifications[k].kind == n.kind
  }

  lemma KindKept(s: State, t: State, noticeId: nat, group: string)
    requires Paging.Continues(s.notifications, t.notifications) && KindIs(s, noticeId, group)
    ensures KindIs(t, noticeId, group)
  {
    var k :| 0 <= k < |s.notifications| && s.notifications[k].id == noticeId && GroupOf(s.notifications[k].kind) == group;
    assert SameFace(s.notifications[k], t.notifications[k]);
  }

  lemma StoredKept(s: State, t: State, n: Notification)
    requires Paging.Continues(s.notifications, t.notifications) && Stored(s, n)
    ensures Stored(t, n)
  {
    var k :| 0 <= k < |s.notifications| && s.notifications[k].id == n.id && s.notifications[k].kind == n.kind;
    assert SameFace(s.notifications[k], t.notifications[k]);
  }

  // -------------------------------------------------- one step of a holder

  /** The round a job is about, if any. */
  ghost function RoundOf(job: Job): Option<Round> {
    match job
    case Deliver(r) => Some(r)
    case Decide(r, _) => Some(r)
    case Transmit(r, _, _) => Some(r)
    case Report(r, _, _, _, _) => Some(r)
    case Settle(v) => if v.Delivered? then Some(v.round) else None
    case Close(v, _) => if v.Delivered? then Some(v.round) else None
    case _ => None
  }

  /** The log that is open is that of the parent whose turn it is. */
  ghost predicate OpensFor(job: Job)
    requires job.Decide?
  {
    var r := job.round;
    r.next < |r.accounts| && job.log.accountId == r.accounts[r.next].id && job.log.notificationId == r.notice.id
  }

  lemma OpenedIsRight(s: State, e: OutboxRow, job: Job, x: World)
    requires InRound(job) && JobStep(s, e, job, x).job.Some? && JobStep(s, e, job, x).job.value.Decide?
    ensures OpensFor(JobStep(s, e, job, x).job.value)
  {
    match job
    case Deliver(r) => LogIsOpened(s, e, r, x);
    case _ =>
  }

  lemma LogIsOpened(s: State, e: OutboxRow, r: Round, x: World)
    requires r.next < |r.accounts|
    ensures DeliverStep(s, e, r, x).job.value.Decide? && OpensFor(DeliverStep(s, e, r, x).job.value)
  {
  }

  predicate SameRound(a: Round, b: Round) {
    a.notice == b.notice && a.kind == b.kind && a.template == b.template && a.accounts == b.accounts
  }

  /** A round begins with the accounts listed and the template chosen, and keeps both. */
  lemma RoundsBegin(s: State, e: OutboxRow, job: Job, x: World)
    requires InRound(job) && JobStep(s, e, job, x).job.Some? && RoundOf(JobStep(s, e, job, x).job.value).Some?
    ensures var r := RoundOf(JobStep(s, e, job, x).job.value).value;
            if job.List? then x.accounts == Some(r.accounts) && r.notice == job.notice && r.kind == GroupOf(job.notice.kind) && Chosen(x.config, r.kind, r.template)
            else RoundOf(job).Some? && SameRound(RoundOf(job).value, r)
  {
    match job
    case List(n) => RoundBegins(s, e, n, x);
    case Decide(r, log) => DecideGoesOn(s, r, log, x);
    case Find =>
    case Deliver(r) =>
    case _ =>
  }

  lemma RoundBegins(s: State, e: OutboxRow, n: Notification, x: World)
    requires RoundOf(ListStep(s, e, n, x).job.value).Some?
    ensures var r := RoundOf(ListStep(s, e, n, x).job.value).value;
            x.accounts == Some(r.accounts) && r.notice == n && r.kind == GroupOf(n.kind) && Chosen(x.config, r.kind, r.template)
  {
    GroupIsKind(n.kind);
  }

  lemma GroupIsKind(kind: string)
    ensures TemplateKind(kind) == GroupOf(kind)
  {
  }

  lemma DecideGoesOn(s: State, r: Round, log: DeliveryLog, x: World)
    requires r.next < |r.accounts|
    ensures var job := DecideStep(s, r, log, x).job; job.Some? && RoundOf(job.value).Some? && SameRound(r, RoundOf(job.value).value)
  {
  }

  lemma FoundIsStored(s: State, e: OutboxRow, job: Job, x: World)
    requires InRound(job) && JobStep(s, e, job, x).job.Some? && JobStep(s, e, job, x).job.value.List?
    ensures job.Find? && Stored(s, JobStep(s, e, job, x).job.value.notice)
  {
  }

  /** A log says sent because the message was accepted, and skipped because the
      parent has no account bound or has not agreed to such messages. */
  ghost predicate SettledBy(s: State, t: State, job: Job, x: World, l: nat)
    requires InRound(job) && l < |t.logs|
  {
    && (t.logs[l].status == LogSent ==>
          || (l < |s.logs| && s.logs[l] == t.logs[l])
          || (job.Report? && job.accepted && KeyOf(t.logs[l]) == SendOf(job.round)))
    && (t.logs[l].status == LogSkipped ==>
          || (l < |s.logs| && s.logs[l] == t.logs[l])
          || (job.Decide? && job.log.id == t.logs[l].id && SkipsFor(job.round, t.logs[l], x)))
  }

  ghost predicate SkipsFor(r: Round, l: DeliveryLog, x: World)
    requires r.next < |r.accounts|
  {
    r.accounts[r.next].id == l.accountId && r.notice.id == l.notificationId && (x.subscription == Unauthorized || Trim(r.accounts[r.next].openId) == "")
  }

  lemma SetLogIsOnly(s: State, r: Round, i: nat, status: LogStatus, attempts: nat, last: Option<Time>, sent: Option<Time>, error: string)
    requires Keyed(s) && r.next < |r.accounts| && i < |s.logs| && LogIs(s.logs[i], SendAt(r, r.next))
    ensures var t := SetLog(s, r.notice.org, s.logs[i].id, status, attempts, last, sent, None, error).state;
            && |t.logs| == |s.logs| && (forall l | 0 <= l < |s.logs| && l != i :: t.logs[l] == s.logs[l])
            && t.logs[i].id == s.logs[i].id && LogIs(t.logs[i], SendAt(r, r.next)) && t.logs[i].status == status
  {
    FirstIsOnly(s.logs, LogById(r.notice.org, s.logs[i].id), i);
  }

  lemma DecideSettles(s: State, e: OutboxRow, r: Round, log: DeliveryLog, x: World, l: nat)
    requires Keyed(s) && JobOk(s, e, Decide(r, log)) && l < |DecideStep(s, r, log, x).state.logs|
    ensures SettledBy(s, DecideStep(s, r, log, x).state, Decide(r, log), x, l)
  {
    var i :| 0 <= i < |s.logs| && s.logs[i].id == log.id && LogIs(s.logs[i], SendAt(r, r.next)) && s.logs[i].status == log.status;
    if !Settled(log.status) {
      if Trim(r.accounts[r.next].openId) == "" || x.subscription.Unauthorized? {
        SetLogIsOnly(s, r, i, LogSkipped, log.attempts, None, None, if Trim(r.accounts[r.next].openId) == "" then NOT_BOUND else NOT_AUTHORIZED);
      } else if x.subscription.Authorized? {
        SetLogIsOnly(s, r, i, LogPending, log.attempts + 1, Some(x.now), None, "");
      }
    }
  }

  lemma ReportSettles(s: State, e: OutboxRow, r: Round, log: DeliveryLog, accepted: bool, at: Time, error: string, x: World, l: nat)
    requires Keyed(s) && JobOk(s, e, Report(r, log, accepted, at, error)) && l < |ReportStep(s, r, log, accepted, at, error, x).state.logs|
    ensures SettledBy(s, ReportStep(s, r, log, accepted, at, error, x).state, Report(r, log, accepted, at, error), x, l)
  {
    var i :| 0 <= i < |s.logs| && s.logs[i].id == log.id && LogIs(s.logs[i], SendAt(r, r.next)) && s.logs[i].status == LogPending;
    SetLogIsOnly(s, r, i, if accepted then LogSent else LogFailed, log.attempts + 1, Some(at), if accepted then Some(x.now) else None,
                 if accepted then "" else TruncateValue(error, 500));
  }

  lemma JobSettles(s: State, e: OutboxRow, job: Job, x: World, l: nat)
    requires Keyed(s) && InRound(job) && JobOk(s, e, job) && l < |JobStep(s, e, job, x).state.logs|
    ensures SettledBy(s, JobStep(s, e, job, x).state, job, x, l)
  {
    match job
    case Decide(r, log) => DecideSettles(s, e, r, log, x, l);
    case Report(r, log, accepted, at, error) => ReportSettles(s, e, r, log, accepted, at, error, x, l);
    case _ =>
  }

  // ----------------------------------------------- one step of everything

  lemma JobContinues(s: State, e: OutboxRow, job: Job, x: World)
    requires InRound(job)
    ensures Paging.Continues(s.notifications, JobStep(s, e, job, x).state.notifications)
  {
  }

  lemma NextContinues(g: Global, a: Action)
    ensures Paging.Continues(g.store.notifications, Next(g, a).store.notifications)
  {
    match a
    case Business(c) => Paging.StepContinues(g.store, c.org, c.command, c.now);
    case Work(w, x) => if w < |g.workers| && g.workers[w].Busy? { JobContinues(g.store, g.workers[w].event, g.workers[w].job, x); }
  }

  lemma NextKeepsSettled(g: Global, a: Action)
    requires Inv(g)
    ensures SettledKept(g.store, Next(g, a).store)
  {
    match a
    case Business(c) => if !Internal(c.command) { BusinessIsAround(g.store, c.org, c.command, c.now); }
    case Work(w, x) => if w < |g.workers| && g.workers[w].Busy? { var next := BusyStepOk(g, w, x); }
  }

  /** A worker of `g'` has come here by this action, or is where it was. */
  lemma SameOrStepped(g: Global, a: Action, v: nat)
    requires v < |Next(g, a).workers|
    ensures |Next(g, a).workers| == |g.workers|
    ensures Next(g, a).workers[v] == g.workers[v] || (a.Work? && a.worker == v && Next(g, a).workers[v] == WorkerStep(g.store, g.workers[v], a.world).worker)
  {
  }

  /** Nobody else asks about a row that a worker holds. */
  lemma OthersAskElsewhere(g: Global, a: Action, v: nat)
    requires Apart(g.workers) && v < |g.workers| && g.workers[v].Busy? && !(a.Work? && a.worker == v)
    ensures !(a.Work? && Asking(g, a.worker, g.workers[v].event.id))
  {
  }

  /** Nobody asks about a row that is processed. */
  lemma ProcessedUnasked(g: Global, a: Action, k: nat)
    requires Inv(g) && k < |g.store.outbox| && g.store.outbox[k].status == Processed
    ensures !(a.Work? && Asking(g, a.worker, g.store.outbox[k].id))
  {
  }

  // --------------------------------------------------------------- rounds

  /** The round of a row goes through the accounts listed last for it, under the right template. */
  ghost predicate Begun(workers: nat, actions: seq<Action>, s: State, rowId: nat, r: Round) {
    KindIs(s, r.notice.id, r.kind) && exists i :: Origin(workers, actions, i, rowId, r)
  }

  ghost predicate Origin(workers: nat, actions: seq<Action>, i: nat, rowId: nat, r: Round) {
    ListsLast(workers, actions, i, rowId, r.accounts) && AskedAbout(workers, actions, i, r.notice.id)
    && Chosen(actions[i].world.config, r.kind, r.template)
  }

  ghost predicate WorkerTold(workers: nat, actions: seq<Action>, s: State, w: Worker) {
    w.Busy? ==>
      && (w.job.List? ==> Stored(s, w.job.notice))
      && (w.job.Decide? ==> OpensFor(w.job))
      && (RoundOf(w.job).Some? ==> Begun(workers, actions, s, w.event.id, RoundOf(w.job).value))
  }

  ghost predicate AllTold(workers: nat, actions: seq<Action>) {
    var g := After(Start(workers), actions);
    forall w | 0 <= w < |g.workers| :: WorkerTold(workers, actions, g.store, g.workers[w])
  }

  lemma BegunKept(workers: nat, init: seq<Action>, a: Action, s: State, t: State, rowId: nat, r: Round)
    requires Begun(workers, init, s, rowId, r) && Paging.Continues(s.notifications, t.notifications)
    requires !(a.Work? && Asking(After(Start(workers), init), a.worker, rowId))
    ensures Begun(workers, init + [a], t, rowId, r)
  {
    KindKept(s, t, r.notice.id, r.kind);
    var i :| Origin(workers, init, i, rowId, r);
    StillLast(workers, init, a, i, rowId, r.accounts);
    PrefixAt(workers, init, a, i);
    assert Origin(workers, init + [a], i, rowId, r);
  }

  lemma UnmovedTold(workers: nat, init: seq<Action>, a: Action, g: Global, v: nat)
    requires g == After(Start(workers), init) && Inv(g) && v < |g.workers| && WorkerTold(workers, init, g.store, g.workers[v])
    requires !(a.Work? && a.worker == v)
    ensures WorkerTold(workers, init + [a], Next(g, a).store, g.workers[v])
  {
    NextContinues(g, a);
    var w := g.workers[v];
    if w.Busy? {
      OthersAskElsewhere(g, a, v);
      if w.job.List? { StoredKept(g.store, Next(g, a).store, w.job.notice); }
      if RoundOf(w.job).Some? { BegunKept(workers, init, a, g.store, Next(g, a).store, w.event.id, RoundOf(w.job).value); }
    }
  }

  lemma MovedTold(workers: nat, init: seq<Action>, g: Global, v: nat, x: World)
    requires g == After(Start(workers), init) && Inv(g) && v < |g.workers| && WorkerTold(workers, init, g.store, g.workers[v])
    ensures var turn := WorkerStep(g.store, g.workers[v], x); WorkerTold(workers, init + [Work(v, x)], turn.state, turn.worker)
  {
    var w, turn, a := g.workers[v], WorkerStep(g.store, g.workers[v], x), Work(v, x);
    if w.Busy? && turn.worker.Busy? {
      NextContinues(g, a);
      assert WorkerOk(g.store, w);
      MovedJob(workers, init, g, v, x, JobStep(g.store, w.event, w.job, x).job.value);
    }
  }

  lemma MovedJob(workers: nat, init: seq<Action>, g: Global, v: nat, x: World, job: Job)
    requires g == After(Start(workers), init) && v < |g.workers| && g.workers[v].Busy? && WorkerTold(workers, init, g.store, g.workers[v])
    requires WorkerOk(g.store, g.workers[v]) && JobStep(g.store, g.workers[v].event, g.workers[v].job, x).job == Some(job)
    requires Paging.Continues(g.store.notifications, Next(g, Work(v, x)).store.notifications)
    ensures job.List? ==> Stored(Next(g, Work(v, x)).store, job.notice)
    ensures job.Decide? ==> OpensFor(job)
    ensures RoundOf(job).Some? ==> Begun(workers, init + [Work(v, x)], Next(g, Work(v, x)).store, g.workers[v].event.id, RoundOf(job).value)
  {
    var w := g.workers[v];
    if job.List? {
      FoundIsStored(g.store, w.event, w.job, x);
      StoredKept(g.store, Next(g, Work(v, x)).store, job.notice);
    } else if RoundOf(job).Some? {
      RoundsBegin(g.store, w.event, w.job, x);
      MovedRound(workers, init, g, v, x, RoundOf(job).value);
      if job.Decide? { OpenedIsRight(g.store, w.event, w.job, x); }
    }
  }

  lemma MovedRound(workers: nat, init: seq<Action>, g: Global, v: nat, x: World, r: Round)
    requires g == After(Start(workers), init) && v < |g.workers| && g.workers[v].Busy? && WorkerTold(workers, init, g.store, g.workers[v])
    requires WorkerOk(g.store, g.workers[v])
    requires Paging.Continues(g.store.notifications, Next(g, Work(v, x)).store.notifications)
    requires var job := g.workers[v].job;
             if job.List? then x.accounts == Some(r.accounts) && r.notice == job.notice && r.kind == GroupOf(job.notice.kind) && Chosen(x.config, r.kind, r.template)
             else RoundOf(job).Some? && SameRound(RoundOf(job).value, r)
    ensures Begun(workers, init + [Work(v, x)], Next(g, Work(v, x)).store, g.workers[v].event.id, r)
  {
    var w, a, t := g.workers[v], Work(v, x), Next(g, Work(v, x)).store;
    if w.job.List? {
      NowLast(workers, init, a, w.event.id, r.accounts);
      assert (init + [a])[..|init|] == init;
      assert Origin(workers, init + [a], |init|, w.event.id, r);
      var k :| 0 <= k < |g.store.notifications| && g.store.notifications[k].id == w.job.notice.id && g.store.notifications[k].kind == w.job.notice.kind;
      assert KindIs(g.store, r.notice.id, r.kind);
      KindKept(g.store, t, r.notice.id, r.kind);
    } else {
      BegunKept(workers, init, a, g.store, t, w.event.id, RoundOf(w.job).value);
      var i :| Origin(workers, init + [a], i, w.event.id, RoundOf(w.job).value);
      assert Origin(workers, init + [a], i, w.event.id, r);
    }
  }

  lemma StepTold(workers: nat, init: seq<Action>, a: Action, g: Global)
    requires g == After(Start(workers), init) && Inv(g) && AllTold(workers, init)
    ensures AllTold(workers, init + [a])
  {
    AfterOneMore(Start(workers), init, a);
    var g' := Next(g, a);
    forall v | 0 <= v < |g'.workers| ensures WorkerTold(workers, init + [a], g'.store, g'.workers[v]) {
      SameOrStepped(g, a, v);
      assert WorkerTold(workers, init, g.store, g.workers[v]);
      if a.Work? && a.worker == v { MovedTold(workers, init, g, v, a.world); } else { UnmovedTold(workers, init, a, g, v); }
    }
  }

  lemma RunIsSafe(workers: nat, actions: seq<Action>)
    ensures Inv(After(Start(workers), actions))
  {
    StartIsOk(workers);
    AfterKeeps(Start(workers), actions);
  }

  lemma {:induction false} RunTold(workers: nat, actions: seq<Action>)
    ensures AllTold(workers, actions)
  {
    if actions != [] {
      var init, a := actions[..|actions| - 1], actions[|actions| - 1];
      assert actions == init + [a];
      RunTold(workers, init);
      RunIsSafe(workers, init);
      StepTold(workers, init, a, After(Start(workers), init));
    }
  }

  // --------------------------------------------------------- processed rows

  /** How the delivery that processed a row began, and that everybody listed is settled. */
  ghost predicate Served(workers: nat, actions: seq<Action>, s: State, row: OutboxRow) {
    exists r: Round :: ServedIn(workers, actions, s, row, r)
  }

  ghost predicate ServedIn(workers: nat, actions: seq<Action>, s: State, row: OutboxRow, r: Round) {
    r.notice.id == row.notificationId && r.notice.org == row.org && Begun(workers, actions, s, row.id, r) && RoundDone(s, r)
  }

  ghost predicate AllServed(workers: nat, actions: seq<Action>) {
    var s := After(Start(workers), actions).store;
    forall k | 0 <= k < |s.outbox| && s.outbox[k].status == Processed :: Served(workers, actions, s, s.outbox[k])
  }

  lemma DoneRoundKept(s: State, t: State, r: Round)
    requires SettledKept(s, t) && RoundDone(s, r)
    ensures RoundDone(t, r)
  {
    forall k | 0 <= k < |r.accounts| ensures Done(t, SendAt(r, k)) { DoneKept(s, t, SendAt(r, k)); }
  }

  lemma ServedKept(workers: nat, init: seq<Action>, a: Action, g: Global, k: nat)
    requires g == After(Start(workers), init) && Inv(g) && k < |g.store.outbox| && g.store.outbox[k].status == Processed
    requires Served(workers, init, g.store, g.store.outbox[k])
    ensures k < |Next(g, a).store.outbox| && Next(g, a).store.outbox[k] == g.store.outbox[k]
    ensures Served(workers, init + [a], Next(g, a).store, g.store.outbox[k])
  {
    var row, t := g.store.outbox[k], Next(g, a).store;
    ProcessedStays(g, a, k);
    ProcessedUnasked(g, a, k);
    NextKeepsSettled(g, a);
    NextContinues(g, a);
    var r: Round :| ServedIn(workers, init, g.store, row, r);
    BegunKept(workers, init, a, g.store, t, row.id, r);
    DoneRoundKept(g.store, t, r);
    assert ServedIn(workers, init + [a], t, row, r);
  }

  /** A row becomes processed only by its holder's closing it after a full delivery. */
  lemma NewlyProcessed(g: Global, a: Action, k: nat)
    requires Inv(g) && k < |Next(g, a).store.outbox| && Next(g, a).store.outbox[k].status == Processed
    requires !(k < |g.store.outbox| && g.store.outbox[k].status == Processed)
    ensures a.Work? && a.worker < |g.workers| && g.workers[a.worker].Busy?
    ensures var w := g.workers[a.worker]; w.job.Close? && w.job.verdict.Delivered? && SameRow(Next(g, a).store.outbox[k], w.event)
  {
    var s, t := g.store, Next(g, a).store;
    match a
    case Business(c) => if !Internal(c.command) { BusinessIsAround(s, c.org, c.command, c.now); }
    case Work(w, x) =>
      if w < |g.workers| && g.workers[w].Busy? {
        var next := BusyStepOk(g, w, x);
        HolderProcesses(g, Next(g, a), w, next, k);
      }
  }

  lemma HolderProcesses(g: Global, g': Global, w: nat, next: Option<Job>, k: nat)
    requires Keyed(g.store) && HolderStep(g, g', w, next) && k < |g'.store.outbox| && g'.store.outbox[k].status == Processed
    requires !(k < |g.store.outbox| && g.store.outbox[k].status == Processed)
    ensures g.workers[w].job.Close? && g.workers[w].job.verdict.Delivered? && SameRow(g'.store.outbox[k], g.workers[w].event)
  {
    if next.None? && g'.store.outbox[k].id == g.workers[w].event.id { ClosedIsUnheld(g, g', w, k); }
  }

  lemma NewlyServed(workers: nat, init: seq<Action>, a: Action, g: Global, k: nat)
    requires g == After(Start(workers), init) && Inv(g) && AllTold(workers, init)
    requires k < |Next(g, a).store.outbox| && Next(g, a).store.outbox[k].status == Processed
    requires !(k < |g.store.outbox| && g.store.outbox[k].status == Processed)
    ensures Served(workers, init + [a], Next(g, a).store, Next(g, a).store.outbox[k])
  {
    var t := Next(g, a).store;
    NewlyProcessed(g, a, k);
    var w := g.workers[a.worker];
    var r := w.job.verdict.round;
    assert WorkerOk(g.store, w) && WorkerTold(workers, init, g.store, w);
    assert RoundDone(g.store, r);
    NextKeepsSettled(g, a);
    NextContinues(g, a);
    DoneRoundKept(g.store, t, r);
    BegunKept(workers, init, a, g.store, t, w.event.id, r);
    assert ServedIn(workers, init + [a], t, t.outbox[k], r);
  }

  lemma {:induction false} RunServes(workers: nat, actions: seq<Action>)
    ensures AllServed(workers, actions)
  {
    if actions != [] {
      var init, a := actions[..|actions| - 1], actions[|actions| - 1];
      assert actions == init + [a];
      RunServes(workers, init);
      RunTold(workers, init);
      RunIsSafe(workers, init);
      var g := After(Start(workers), init);
      AfterOneMore(Start(workers), init, a);
      var t := Next(g, a).store;
      forall k | 0 <= k < |t.outbox| && t.outbox[k].status == Processed ensures Served(workers, actions, t, t.outbox[k]) {
        if k < |g.store.outbox| && g.store.outbox[k].status == Processed { ServedKept(workers, init, a, g, k); }
        else { NewlyServed(workers, init, a, g, k); }
      }
    }
  }

  // -------------------------------------------------- sent, or why skipped

  /** Every log that says sent has its message among those accepted. */
  ghost predicate SentWereAccepted(g: Global) {
    && (forall l | 0 <= l < |g.store.logs| && g.store.logs[l].status == LogSent :: KeyOf(g.store.logs[l]) in g.sends)
    && (forall w | 0 <= w < |g.workers| && g.workers[w].Busy? && g.workers[w].job.Report? && g.workers[w].job.accepted ::
          SendOf(g.workers[w].job.round) in g.sends)
  }

  lemma NextAccepts(g: Global, a: Action)
    requires Inv(g) && SentWereAccepted(g)
    ensures SentWereAccepted(Next(g, a))
  {
    match a
    case Business(c) => if !Internal(c.command) { BusinessIsAround(g.store, c.org, c.command, c.now); }
    case Work(v, x) => if v < |g.workers| && g.workers[v].Busy? { BusyAccepts(g, v, x); }
  }

  lemma BusyAccepts(g: Global, v: nat, x: World)
    requires Inv(g) && SentWereAccepted(g) && v < |g.workers| && g.workers[v].Busy?
    ensures SentWereAccepted(Next(g, Work(v, x)))
  {
    var g', w := Next(g, Work(v, x)), g.workers[v];
    assert WorkerOk(g.store, w) && g'.store == JobStep(g.store, w.event, w.job, x).state;
    forall l | 0 <= l < |g'.store.logs| && g'.store.logs[l].status == LogSent ensures KeyOf(g'.store.logs[l]) in g'.sends {
      JobSettles(g.store, w.event, w.job, x, l);
    }
    ReportsWereAccepted(g, v, x);
  }

  lemma ReportsWereAccepted(g: Global, v: nat, x: World)
    requires SentWereAccepted(g) && v < |g.workers| && g.workers[v].Busy?
    ensures var g' := Next(g, Work(v, x));
            forall w | 0 <= w < |g'.workers| && g'.workers[w].Busy? && g'.workers[w].job.Report? && g'.workers[w].job.accepted ::
              SendOf(g'.workers[w].job.round) in g'.sends
  {
    var g' := Next(g, Work(v, x));
    forall w | 0 <= w < |g'.workers| && g'.workers[w].Busy? && g'.workers[w].job.Report? && g'.workers[w].job.accepted
      ensures SendOf(g'.workers[w].job.round) in g'.sends
    {
      if w == v { OnlySendingReports(g.store, g.workers[v], x); } else { assert g'.workers[w] == g.workers[w]; }
    }
  }

  /** Whoever now reports an acceptance has just had it. */
  lemma OnlySendingReports(s: State, w: Worker, x: World)
    requires Ready(w) && w.Busy?
    ensures var t := WorkerStep(s, w, x).worker;
            t.Busy? && t.job.Report? && t.job.accepted ==> SentBy(w, x) == [SendOf(t.job.round)]
  {
    if w.job.Decide? { DecideGoesOn(s, w.job.round, w.job.log, x); }
  }

  /** The parent was listed for the notification without an account to send to. */
  ghost predicate ListedUnbound(workers: nat, actions: seq<Action>, before: nat, noticeId: nat, accountId: nat) {
    exists i: nat, rowId, listed :: i < before && UnboundAt(workers, actions, i, rowId, listed, noticeId, accountId)
  }

  ghost predicate UnboundAt(workers: nat, actions: seq<Action>, i: nat, rowId: nat, listed: seq<Account>, noticeId: nat, accountId: nat) {
    Lists(workers, actions, i, rowId, listed) && AskedAbout(workers, actions, i, noticeId) && HasUnbound(listed, accountId)
  }

  ghost predicate HasUnbound(listed: seq<Account>, accountId: nat) {
    exists a | a in listed :: a.id == accountId && Trim(a.openId) == ""
  }

  /** At action `j` a worker has the parent's log for the notification open. */
  ghost predicate DecidesAt(workers: nat, actions: seq<Action>, j: nat, noticeId: nat, accountId: nat) {
    j < |actions| && actions[j].Work? &&
    var g := At(workers, actions, j); var w := actions[j].worker;
    && w < |g.workers| && g.workers[w].Busy? && g.workers[w].job.Decide?
    && g.workers[w].job.log.notificationId == noticeId && g.workers[w].job.log.accountId == accountId
  }

  /** The parent turned out not to be bound or not to have agreed. */
  ghost predicate Excused(workers: nat, actions: seq<Action>, j: nat, noticeId: nat, accountId: nat) {
    DecidesAt(workers, actions, j, noticeId, accountId)
    && (actions[j].world.subscription == Unauthorized || ListedUnbound(workers, actions, j, noticeId, accountId))
  }

  ghost predicate SkippedRightly(workers: nat, actions: seq<Action>) {
    var s := After(Start(workers), actions).store;
    forall l | 0 <= l < |s.logs| && s.logs[l].status == LogSkipped :: exists j :: Excused(workers, actions, j, s.logs[l].notificationId, s.logs[l].accountId)
  }

  lemma UnboundBefore(workers: nat, init: seq<Action>, a: Action, before: nat, noticeId: nat, accountId: nat)
    requires ListedUnbound(workers, init, before, noticeId, accountId)
    ensures ListedUnbound(workers, init + [a], before, noticeId, accountId)
  {
    var i: nat, rowId, listed :| i < before && UnboundAt(workers, init, i, rowId, listed, noticeId, accountId);
    ListsBefore(workers, init, a, i, rowId, listed);
    PrefixAt(workers, init, a, i);
    assert UnboundAt(workers, init + [a], i, rowId, listed, noticeId, accountId);
  }

  lemma ExcusedBefore(workers: nat, init: seq<Action>, a: Action, j: nat, noticeId: nat, accountId: nat)
    requires Excused(workers, init, j, noticeId, accountId)
    ensures Excused(workers, init + [a], j, noticeId, accountId)
  {
    PrefixAt(workers, init, a, j);
    if ListedUnbound(workers, init, j, noticeId, accountId) { UnboundBefore(workers, init, a, j, noticeId, accountId); }
  }

  /** A skipping made by the last action. */
  lemma ExcusedNow(workers: nat, init: seq<Action>, v: nat, x: World, g: Global, l: DeliveryLog)
    requires g == After(Start(workers), init) && v < |g.workers| && g.workers[v].Busy? && g.workers[v].job.Decide?
    requires SkipsFor(g.workers[v].job.round, l, x) && WorkerTold(workers, init, g.store, g.workers[v])
    ensures Excused(workers, init + [Work(v, x)], |init|, l.notificationId, l.accountId)
  {
    var actions := init + [Work(v, x)];
    assert actions[..|init|] == init;
    if x.subscription != Unauthorized { UnboundNow(workers, init, v, x, g, l); }
  }

  lemma UnboundNow(workers: nat, init: seq<Action>, v: nat, x: World, g: Global, l: DeliveryLog)
    requires g == After(Start(workers), init) && v < |g.workers| && g.workers[v].Busy? && g.workers[v].job.Decide?
    requires SkipsFor(g.workers[v].job.round, l, x) && WorkerTold(workers, init, g.store, g.workers[v]) && x.subscription != Unauthorized
    ensures ListedUnbound(workers, init + [Work(v, x)], |init|, l.notificationId, l.accountId)
  {
    var r, rowId := g.workers[v].job.round, g.workers[v].event.id;
    var i :| Origin(workers, init, i, rowId, r);
    assert r.accounts[r.next] in r.accounts;
    assert HasUnbound(r.accounts, l.accountId);
    assert UnboundAt(workers, init, i, rowId, r.accounts, l.notificationId, l.accountId);
    UnboundBefore(workers, init, Work(v, x), |init|, l.notificationId, l.accountId);
  }

  lemma {:induction false} RunSkips(workers: nat, actions: seq<Action>)
    ensures SkippedRightly(workers, actions)
  {
    if actions != [] {
      var init, a := actions[..|actions| - 1], actions[|actions| - 1];
      assert actions == init + [a];
      RunSkips(workers, init);
      RunTold(workers, init);
      RunIsSafe(workers, init);
      AfterOneMore(Start(workers), init, a);
      var g := After(Start(workers), init);
      var t := Next(g, a).store;
      forall l | 0 <= l < |t.logs| && t.logs[l].status == LogSkipped ensures exists j :: Excused(workers, actions, j, t.logs[l].notificationId, t.logs[l].accountId) {
        var j := StepSkips(workers, init, a, g, l);
      }
    }
  }

  lemma StepSkips(workers: nat, init: seq<Action>, a: Action, g: Global, l: nat) returns (j: nat)
    requires g == After(Start(workers), init) && Inv(g) && AllTold(workers, init) && SkippedRightly(workers, init)
    requires l < |Next(g, a).store.logs| && Next(g, a).store.logs[l].status == LogSkipped
    ensures var log := Next(g, a).store.logs[l]; Excused(workers, init + [a], j, log.notificationId, log.accountId)
  {
    var t := Next(g, a).store;
    if l < |g.store.logs| && t.logs[l] == g.store.logs[l] {
      j :| Excused(workers, init, j, g.store.logs[l].notificationId, g.store.logs[l].accountId);
      ExcusedBefore(workers, init, a, j, g.store.logs[l].notificationId, g.store.logs[l].accountId);
    } else {
      NewSkipIsWork(g, a, l);
      var w := g.workers[a.worker];
      assert WorkerOk(g.store, w) && WorkerTold(workers, init, g.store, w);
      JobSettles(g.store, w.event, w.job, a.world, l);
      j := |init|;
      ExcusedNow(workers, init, a.worker, a.world, g, t.logs[l]);
    }
  }

  lemma NewSkipIsWork(g: Global, a: Action, l: nat)
    requires Inv(g) && l < |Next(g, a).store.logs| && !(l < |g.store.logs| && Next(g, a).store.logs[l] == g.store.logs[l])
    ensures a.Work? && a.worker < |g.workers| && g.workers[a.worker].Busy?
    ensures var w := g.workers[a.worker]; Next(g, a).store == JobStep(g.store, w.event, w.job, a.world).state
  {
    match a
    case Business(c) => if !Internal(c.command) { BusinessIsAround(g.store, c.org, c.command, c.now); }
    case Work(v, x) =>
  }

  lemma {:induction false} RunAccepts(workers: nat, actions: seq<Action>)
    ensures SentWereAccepted(After(Start(workers), actions))
  {
    if actions != [] {
      var init, a := actions[..|actions| - 1], actions[|actions| - 1];
      RunAccepts(workers, init);
      RunTold(workers, init);
      RunIsSafe(workers, init);
      NextAccepts(After(Start(workers), init), a);
    }
  }

  // ----------------------------------------------------------- main results

  /** The log of one parent about one notification. */
  predicate IsLogOf(l: DeliveryLog, row: OutboxRow, account: Account) {
    l.org == row.org && l.notificationId == row.notificationId && l.accountId == account.id
  }

  /** The parent got the message, or there is an excuse: it had no account bound
      when it was listed, or had not agreed to such messages when it was asked. */
  ghost predicate Reached(workers: nat, actions: seq<Action>, config: Config, row: OutboxRow, account: Account) {
    var g := After(Start(workers), actions);
    exists l | 0 <= l < |g.store.logs| ::
      var log := g.store.logs[l];
      && IsLogOf(log, row, account)
      && KindIs(g.store, row.notificationId, log.messageKind) && Chosen(config, log.messageKind, log.templateId)
      && if log.status == LogSent then Send(row.org, row.notificationId, account.id, log.messageKind, log.templateId) in g.sends
         else log.status == LogSkipped && exists j :: Excused(workers, actions, j, row.notificationId, account.id)
  }

  /** In every interleaving, for every processed row: the last time its holder
      asked for the child's parents it was given a list, and every parent on it
      has a log for that notification, of the notification's kind and under the
      template chosen then, which says sent, and the message was accepted, or
      skipped, and for a reason. */
  lemma {:induction false} EveryListedParentIsReached(workers: nat, actions: seq<Action>, k: nat) returns (i: nat, listed: seq<Account>)
    requires k < |After(Start(workers), actions).store.outbox| && After(Start(workers), actions).store.outbox[k].status == Processed
    ensures var row := After(Start(workers), actions).store.outbox[k];
            && ListsLast(workers, actions, i, row.id, listed)
            && forall a | a in listed :: Reached(workers, actions, actions[i].world.config, row, a)
  {
    var g := After(Start(workers), actions);
    var row := g.store.outbox[k];
    RunServes(workers, actions);
    RunSkips(workers, actions);
    RunAccepts(workers, actions);
    assert Served(workers, actions, g.store, row);
    var r: Round :| ServedIn(workers, actions, g.store, row, r);
    i :| Origin(workers, actions, i, row.id, r);
    listed := r.accounts;
    forall a | a in listed ensures Reached(workers, actions, actions[i].world.config, row, a) {
      var n :| 0 <= n < |listed| && listed[n] == a;
      LoggedIsReached(workers, actions, i, row, r, n);
    }
  }

  lemma LoggedIsReached(workers: nat, actions: seq<Action>, i: nat, row: OutboxRow, r: Round, n: nat)
    requires SkippedRightly(workers, actions) && SentWereAccepted(After(Start(workers), actions))
    requires ServedIn(workers, actions, After(Start(workers), actions).store, row, r) && Origin(workers, actions, i, row.id, r) && n < |r.accounts|
    ensures Reached(workers, actions, actions[i].world.config, row, r.accounts[n])
  {
    var g := After(Start(workers), actions);
    assert Done(g.store, SendAt(r, n));
    var l :| 0 <= l < |g.store.logs| && LogIs(g.store.logs[l], SendAt(r, n)) && Settled(g.store.logs[l].status);
    KeyIs(g.store.logs[l], SendAt(r, n));
    assert IsLogOf(g.store.logs[l], row, r.accounts[n]);
  }

  /** The parent was never listed unbound for the notification, and whenever it was asked for it had agreed. */
  ghost predicate Willing(workers: nat, actions: seq<Action>, noticeId: nat, accountId: nat) {
    && (forall i, rowId, listed | Lists(workers, actions, i, rowId, listed) && AskedAbout(workers, actions, i, noticeId) ::
          !HasUnbound(listed, accountId))
    && (forall j: nat | DecidesAt(workers, actions, j, noticeId, accountId) :: actions[j].world.subscription != Unauthorized)
  }

  /** So every willing parent on the list has been sent the message. */
  lemma {:induction false} WillingParentsGetTheMessage(workers: nat, actions: seq<Action>, k: nat) returns (i: nat, listed: seq<Account>)
    requires k < |After(Start(workers), actions).store.outbox| && After(Start(workers), actions).store.outbox[k].status == Processed
    ensures var row := After(Start(workers), actions).store.outbox[k];
            && ListsLast(workers, actions, i, row.id, listed)
            && forall a | a in listed && Willing(workers, actions, row.notificationId, a.id) :: SentTo(After(Start(workers), actions), row, a)
  {
    var row := After(Start(workers), actions).store.outbox[k];
    i, listed := EveryListedParentIsReached(workers, actions, k);
    forall a | a in listed && Willing(workers, actions, row.notificationId, a.id) ensures SentTo(After(Start(workers), actions), row, a) {
      assert Reached(workers, actions, actions[i].world.config, row, a);
      WillingIsSent(workers, actions, actions[i].world.config, row, a);
    }
  }

  ghost predicate SentTo(g: Global, row: OutboxRow, account: Account) {
    exists m | m in g.sends :: m.org == row.org && m.notificationId == row.notificationId && m.accountId == account.id
  }

  lemma WillingIsSent(workers: nat, actions: seq<Action>, config: Config, row: OutboxRow, account: Account)
    requires Reached(workers, actions, config, row, account) && Willing(workers, actions, row.notificationId, account.id)
    ensures SentTo(After(Start(workers), actions), row, account)
  {
    forall j: nat ensures !Excused(workers, actions, j, row.notificationId, account.id) {}
  }
}
