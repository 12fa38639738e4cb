/** Status changes, notifications and outbox rows stay in step. */
module PickupConservation {
  import opened Common
  import opened PickupModel
  import opened PickupSpec
  import opened PickupBatch
  import opened PickupRuns
  import opened PickupHistory
  import opened PickupLedger

  /** Every event but a late photo is announced to the parents. */
  predicate Announced(e: Event) { e.note != LatePhoto }

  /** How many notifications name event `id`. */
  function Mentions(ns: seq<Notification>, id: nat): nat {
    if ns == [] then 0
    else Mentions(ns[..|ns| - 1], id) + if ns[|ns| - 1].eventId == Some(id) then 1 else 0
  }

  /** How many announced events have that id. */
  function Announcements(es: seq<Event>, id: nat): nat {
    if es == [] then 0
    else Announcements(es[..|es| - 1], id) + if es[|es| - 1].id == id && Announced(es[|es| - 1]) then 1 else 0
  }

  /** How often a batch of custom notifications names event `id`. */
  function MentionsIn(params: seq<NoticeParams>, id: nat): nat {
    if params == [] then 0
    else MentionsIn(params[..|params| - 1], id) + if params[|params| - 1].eventId == Some(id) then 1 else 0
  }

  function Foreign(calls: seq<Call>, id: nat): nat {
    if calls == [] then 0
    else
      Foreign(calls[..|calls| - 1], id) + NamedBy(calls[|calls| - 1].command, id)
  }

  function NamedBy(c: Command, id: nat): nat { if c.CmdNotify? then MentionsIn(c.params, id) else 0 }

  function Balance(s: State, id: nat): int { Mentions(s.notifications, id) - Announcements(s.events, id) }

  // -------------------------------------------------------------- invariant

  /** The k-th outbox row is the row of the k-th notification. */
  ghost predicate Paired(ns: seq<Notification>, rows: seq<OutboxRow>) {
    |ns| == |rows| && forall k | 0 <= k < |ns| :: RowOf(ns[k], rows[k])
  }

  predicate RowOf(n: Notification, r: OutboxRow) { r.notificationId == n.id && r.org == n.org }

  predicate Announces(n: Notification, e: Event) {
    n.eventId == Some(e.id) && n.studentId == e.studentId && n.operationId == Some(e.operationId) && n.org == e.org
    && n.kind == "pickup_status" && Says(n.message, e)
  }

  /** The message names the status the event records, and a correction its reason. */
  predicate Says(message: Message, e: Event) {
    match e.kind
    case Marked(status) => message.StatusChanged? && message.status == status
    case Correction(status) =>
      message.Corrected? && message.status == status && e.note.CorrectionOf? && message.reason == e.note.reason
  }

  ghost predicate NoticeFor(ns: seq<Notification>, e: Event) { exists n | 0 <= n < |ns| :: Announces(ns[n], e) }

  /** A late photo is a mark that leaves the replayed status as it was; every other mark changes it. */
  ghost predicate NoteTells(es: seq<Event>, k: nat)
    requires k < |es|
  {
    var r := Replay(es[..k], es[k].memberId);
    r.Some? && (Announced(es[k]) <==> es[k].kind.Correction? || es[k].kind.status != r.value.status)
  }

  ghost predicate Conserved(s: State) {
    && Paired(s.notifications, s.outbox)
    && (forall k | 0 <= k < |s.events| && Announced(s.events[k]) :: NoticeFor(s.notifications, s.events[k]))
    && (forall k | 0 <= k < |s.events| :: NoteTells(s.events, k))
    && (forall k | 0 <= k < |s.notifications| :: Trimmed(s.notifications[k].kind))
  }

  /** Edits that leave who a notification is about, and which row is whose. */
  predicate SameFace(a: Notification, b: Notification) {
    a.id == b.id && a.org == b.org && a.studentId == b.studentId && a.operationId == b.operationId && a.eventId == b.eventId
    && a.kind == b.kind && a.message == b.message
  }

  predicate SameRow(a: OutboxRow, b: OutboxRow) { a.id == b.id && a.org == b.org && a.notificationId == b.notificationId }

  ghost predicate NoticesEdited(s: State, t: State) {
    && t.events == s.events
    && |t.notifications| == |s.notifications| && (forall k | 0 <= k < |s.notifications| :: SameFace(s.notifications[k], t.notifications[k]))
    && |t.outbox| == |s.outbox| && (forall k | 0 <= k < |s.outbox| :: SameRow(s.outbox[k], t.outbox[k]))
  }

  lemma {:induction false} MentionsByFace(a: seq<Notification>, b: seq<Notification>, id: nat)
    requires |a| == |b| && forall k | 0 <= k < |a| :: SameFace(a[k], b[k])
    ensures Mentions(a, id) == Mentions(b, id)
  {
    if a != [] {
      assert SameFace(a[|a| - 1], b[|b| - 1]);
      MentionsByFace(a[..|a| - 1], b[..|b| - 1], id);
    }
  }

  lemma EditConserves(s: State, t: State, id: nat)
    requires Conserved(s) && NoticesEdited(s, t)
    ensures Conserved(t) && Balance(t, id) == Balance(s, id)
  {
    MentionsByFace(s.notifications, t.notifications, id);
    forall k | 0 <= k < |t.events| && Announced(t.events[k]) ensures NoticeFor(t.notifications, t.events[k]) {
      assert NoticeFor(s.notifications, s.events[k]);
      var n :| 0 <= n < |s.notifications| && Announces(s.notifications[n], s.events[k]);
      assert SameFace(s.notifications[n], t.notifications[n]);
      assert Announces(t.notifications[n], t.events[k]);
    }
    forall k | 0 <= k < |t.notifications| ensures RowOf(t.notifications[k], t.outbox[k]) && Trimmed(t.notifications[k].kind) {
      assert RowOf(s.notifications[k], s.outbox[k]) && SameFace(s.notifications[k], t.notifications[k]) && SameRow(s.outbox[k], t.outbox[k]);
    }
  }

  lemma NoticeForKept(ns: seq<Notification>, n: Notification, e: Event)
    requires NoticeFor(ns, e)
    ensures NoticeFor(ns + [n], e)
  {
    var k :| 0 <= k < |ns| && Announces(ns[k], e);
    assert Announces((ns + [n])[k], e);
  }

  lemma MentionsAppend(ns: seq<Notification>, n: Notification, id: nat)
    ensures Mentions(ns + [n], id) == Mentions(ns, id) + if n.eventId == Some(id) then 1 else 0
  {
    assert (ns + [n])[..|ns|] == ns;
  }

  lemma NotifyConserves(s: State, org: nat, student: nat, op: Option<nat>, event: Option<nat>, kind: string, message: Message, now: Time, id: nat)
    requires Conserved(s) && Trimmed(kind)
    ensures var t := Notify(s, org, student, op, event, kind, message, now);
            Conserved(t) && Balance(t, id) == Balance(s, id) + if event == Some(id) then 1 else 0
  {
    var t := Notify(s, org, student, op, event, kind, message, now);
    var n := t.notifications[|s.notifications|];
    MentionsAppend(s.notifications, n, id);
    forall k | 0 <= k < |t.events| && Announced(t.events[k]) ensures NoticeFor(t.notifications, t.events[k]) {
      NoticeForKept(s.notifications, n, s.events[k]);
    }
    forall k | 0 <= k < |t.notifications| ensures RowOf(t.notifications[k], t.outbox[k]) && Trimmed(t.notifications[k].kind) {
      if k < |s.notifications| { assert RowOf(s.notifications[k], s.outbox[k]); }
    }
  }

  lemma EventAppended(es: seq<Event>, e: Event, id: nat)
    requires forall k | 0 <= k < |es| :: NoteTells(es, k)
    requires var r := Replay(es, e.memberId);
             r.Some? && (Announced(e) <==> e.kind.Correction? || e.kind.status != r.value.status)
    ensures forall k | 0 <= k <= |es| :: NoteTells(es + [e], k)
    ensures Announcements(es + [e], id) == Announcements(es, id) + if e.id == id && Announced(e) then 1 else 0
  {
    assert (es + [e])[..|es|] == es;
    forall k | 0 <= k < |es| ensures NoteTells(es + [e], k) {
      assert (es + [e])[..k] == es[..k] && (es + [e])[k] == es[k];
      assert NoteTells(es, k);
    }
  }

  /** A late photo: one event more, nothing announced. */
  lemma AttachConserves(s: State, i: nat, photo: string, operator: string, now: Time, id: nat)
    requires Conserved(s) && History(s) && i < |s.members|
    ensures var t := AttachPhoto(s, i, photo, operator, now); Conserved(t) && Balance(t, id) == Balance(s, id)
  {
    var t := AttachPhoto(s, i, photo, operator, now);
    assert Explained(s.members[i], s.events);
    EventAppended(s.events, t.events[|s.events|], id);
    forall k | 0 <= k < |t.events| && Announced(t.events[k]) ensures NoticeFor(t.notifications, t.events[k]) {
      assert t.events[k] == s.events[k];
    }
  }

  /** One announced event and, right after it, the notification that names it. */
  lemma AnnounceConserves(s: State, t: State, e: Event, n: Notification, row: OutboxRow, id: nat)
    requires Conserved(s)
    requires t.events == s.events + [e] && t.notifications == s.notifications + [n] && t.outbox == s.outbox + [row]
    requires Announced(e) && Announces(n, e) && RowOf(n, row) && Trimmed(n.kind)
    requires var r := Replay(s.events, e.memberId); r.Some? && (e.kind.Correction? || e.kind.status != r.value.status)
    ensures Conserved(t) && Balance(t, id) == Balance(s, id)
  {
    EventAppended(s.events, e, id);
    MentionsAppend(s.notifications, n, id);
    PairAppended(s.notifications, s.outbox, n, row);
    AllAnnounced(s.events, s.notifications, e, n);
  }

  lemma PairAppended(ns: seq<Notification>, rows: seq<OutboxRow>, n: Notification, row: OutboxRow)
    requires Paired(ns, rows) && RowOf(n, row) && Trimmed(n.kind) && forall k | 0 <= k < |ns| :: Trimmed(ns[k].kind)
    ensures Paired(ns + [n], rows + [row]) && forall k | 0 <= k <= |ns| :: Trimmed((ns + [n])[k].kind)
  {
    forall k | 0 <= k <= |ns| ensures RowOf((ns + [n])[k], (rows + [row])[k]) {
      if k < |ns| { assert RowOf(ns[k], rows[k]); }
    }
  }

  lemma AllAnnounced(es: seq<Event>, ns: seq<Notification>, e: Event, n: Notification)
    requires Announces(n, e) && forall k | 0 <= k < |es| && Announced(es[k]) :: NoticeFor(ns, es[k])
    ensures forall k | 0 <= k <= |es| && Announced((es + [e])[k]) :: NoticeFor(ns + [n], (es + [e])[k])
  {
    forall k | 0 <= k <= |es| && Announced((es + [e])[k]) ensures NoticeFor(ns + [n], (es + [e])[k]) {
      if k < |es| { NoticeForKept(ns, n, es[k]); } else { assert Announces((ns + [n])[|ns|], e); }
    }
  }

  lemma ChangeConserves(s: State, i: nat, status: MemberStatus, photo: string, operator: string, note: string, now: Time, id: nat)
    requires Conserved(s) && History(s) && i < |s.members| && s.members[i].status != status
    ensures var t := Change(s, i, status, photo, operator, note, now); Conserved(t) && Balance(t, id) == Balance(s, id)
  {
    var t := Change(s, i, status, photo, operator, note, now);
    assert Explained(s.members[i], s.events);
    AnnounceConserves(s, t, t.events[|s.events|], t.notifications[|s.notifications|], t.outbox[|s.outbox|], id);
  }

  lemma CorrectConserves(s: State, i: nat, eventId: nat, status: MemberStatus, operator: string, reason: string, now: Time, id: nat)
    requires Conserved(s) && History(s) && i < |s.members|
    ensures var t := Correct(s, i, eventId, status, operator, reason, now); Conserved(t) && Balance(t, id) == Balance(s, id)
  {
    var t := Correct(s, i, eventId, status, operator, reason, now);
    assert Explained(s.members[i], s.events);
    AnnounceConserves(s, t, t.events[|s.events|], t.notifications[|s.notifications|], t.outbox[|s.outbox|], id);
  }

  lemma MarkConserves(s: State, org: nat, operationId: nat, studentId: nat, status: MemberStatus, photo: string,
                      operator: string, note: string, now: Time, id: nat)
    requires Conserved(s) && History(s)
    ensures var t := MarkStudent(s, org, operationId, studentId, status, photo, operator, note, now).state;
            Conserved(t) && Balance(t, id) == Balance(s, id)
  {
    var f := FirstIndex(s.members, MemberKey(org, operationId, studentId));
    if f.Some? {
      if s.members[f.value].status == status {
        AttachConserves(s, f.value, Trim(photo), operator, now, id);
      } else {
        ChangeConserves(s, f.value, status, photo, operator, note, now, id);
      }
    }
  }

  lemma CorrectEventConserves(s: State, org: nat, operationId: nat, eventId: nat, target: MemberStatus, operator: string, reason: string, now: Time, id: nat)
    requires Conserved(s) && History(s)
    ensures var t := CorrectEvent(s, org, operationId, eventId, target, operator, reason, now).state;
            Conserved(t) && Balance(t, id) == Balance(s, id)
  {
    var r := CorrectEvent(s, org, operationId, eventId, target, operator, reason, now);
    if r.result.Ok? {
      var k := FirstIndex(s.events, EventKey(org, operationId, eventId)).value;
      var i := FirstIndex(s.members, MemberKey(org, operationId, s.events[k].studentId)).value;
      assert r.state == Correct(s, i, eventId, target, operator, reason, now);
      CorrectConserves(s, i, eventId, target, operator, reason, now, id);
    } else {
      assert r.state == s;
    }
  }

  lemma {:induction false} MarksConserve(s: State, org: nat, operationId: nat, ids: seq<nat>, operator: string, note: string, now: Time, id: nat)
    requires Conserved(s) && History(s)
    ensures var t := MarkEach(s, org, operationId, ids, operator, note, now).state; Conserved(t) && Balance(t, id) == Balance(s, id)
  {
    if ids != [] {
      var init := ids[..|ids| - 1];
      MarksConserve(s, org, operationId, init, operator, note, now, id);
      MarksKeepHistory(s, org, operationId, init, operator, note, now);
      MarkConserves(MarkEach(s, org, operationId, init, operator, note, now).state, org, operationId, ids[|ids| - 1],
                    Arrived, "", operator, note, now, id);
    }
  }

  lemma BulkConserves(s: State, org: nat, operationId: nat, ids: seq<nat>, operator: string, note: string, now: Time, id: nat)
    requires Conserved(s) && History(s)
    ensures var t := BulkArrive(s, org, operationId, ids, operator, note, now).state; Conserved(t) && Balance(t, id) == Balance(s, id)
  {
    BulkArriveRefinesMarks(s, org, operationId, ids, operator, note, now);
    MarksConserve(s, org, operationId, DistinctBy(ids, Same()), operator, note, now, id);
  }

  lemma {:induction false} NotifyAllConserves(s: State, org: nat, params: seq<NoticeParams>, now: Time, id: nat)
    requires Conserved(s)
    ensures var t := NotifyAll(s, org, params, now); Conserved(t) && Balance(t, id) == Balance(s, id) + MentionsIn(params, id)
  {
    if params != [] {
      NotifyAllConserves(s, org, params[..|params| - 1], now, id);
      var p, mid := params[|params| - 1], NotifyAll(s, org, params[..|params| - 1], now);
      TrimIsTrimmed(p.kind);
      NotifyConserves(mid, org, p.studentId, p.operationId, p.eventId, Trim(p.kind), Custom(Trim(p.title), Trim(p.content)), now, id);
    }
  }

  lemma DeliveryStepEdits(s: State, org: nat, c: Command, now: Time)
    requires c.CmdMarkRead? || c.CmdRetry? || c.CmdClaim? || c.CmdComplete? || c.CmdSetNotice?
    ensures NoticesEdited(s, Step(s, org, c, now))
  {
    if c.CmdClaim? || c.CmdComplete? { RowStepEdits(s, org, c, now); } else { NoticeStepEdits(s, org, c, now); }
  }

  lemma RowStepEdits(s: State, org: nat, c: Command, now: Time)
    requires c.CmdClaim? || c.CmdComplete?
    ensures NoticesEdited(s, Step(s, org, c, now))
  {
  }

  lemma NoticeStepEdits(s: State, org: nat, c: Command, now: Time)
    requires c.CmdMarkRead? || c.CmdRetry? || c.CmdSetNotice?
    ensures NoticesEdited(s, Step(s, org, c, now))
  {
  }

  lemma OtherStepEdits(s: State, org: nat, c: Command, now: Time)
    requires !c.CmdMark? && !c.CmdBulkArrive? && !c.CmdCorrect? && !c.CmdNotify?
    requires !c.CmdMarkRead? && !c.CmdRetry? && !c.CmdClaim? && !c.CmdComplete? && !c.CmdSetNotice?
    ensures var t := Step(s, org, c, now); t.events == s.events && t.notifications == s.notifications && t.outbox == s.outbox
  {
  }

  lemma PlainStepConserves(s: State, org: nat, c: Command, now: Time, id: nat)
    requires Conserved(s) && !c.CmdMark? && !c.CmdBulkArrive? && !c.CmdCorrect? && !c.CmdNotify?
    ensures var t := Step(s, org, c, now); Conserved(t) && Balance(t, id) == Balance(s, id)
  {
    if c.CmdMarkRead? || c.CmdRetry? || c.CmdClaim? || c.CmdComplete? || c.CmdSetNotice? {
      DeliveryStepEdits(s, org, c, now);
      EditConserves(s, Step(s, org, c, now), id);
    } else {
      OtherStepEdits(s, org, c, now);
    }
  }

  lemma StepConserves(s: State, org: nat, c: Command, now: Time, id: nat)
    requires Conserved(s) && History(s)
    ensures var t := Step(s, org, c, now);
            Conserved(t) && Balance(t, id) == Balance(s, id) + NamedBy(c, id)
  {
    if c.CmdMark? || c.CmdBulkArrive? || c.CmdCorrect? || c.CmdNotify? { LoggedStepConserves(s, org, c, now, id); }
    else { PlainStepConserves(s, org, c, now, id); }
  }

  lemma LoggedStepConserves(s: State, org: nat, c: Command, now: Time, id: nat)
    requires Conserved(s) && History(s) && (c.CmdMark? || c.CmdBulkArrive? || c.CmdCorrect? || c.CmdNotify?)
    ensures var t := Step(s, org, c, now);
            Conserved(t) && Balance(t, id) == Balance(s, id) + NamedBy(c, id)
  {
    match c
    case CmdMark(op, student, status, photo, operator, note) => MarkConserves(s, org, op, student, status, photo, operator, note, now, id);
    case CmdBulkArrive(op, ids, operator, note) => BulkConserves(s, org, op, ids, operator, note, now, id);
    case CmdCorrect(op, event, target, operator, reason) => CorrectEventConserves(s, org, op, event, target, operator, reason, now, id);
    case CmdNotify(params) => NotifyAllConserves(s, org, params, now, id);
  }

  /** In every run the notifications naming an id are the announced events with
      that id plus what callers of CreateNotifications named themselves. */
  lemma {:induction false} RunConserves(calls: seq<Call>, id: nat)
    ensures var s := Run(INIT, calls);
            Conserved(s) && Mentions(s.notifications, id) == Announcements(s.events, id) + Foreign(calls, id)
  {
    if calls != [] {
      var init, c := calls[..|calls| - 1], calls[|calls| - 1];
      RunConserves(init, id);
      RunKeepsHistory(INIT, init);
      StepConserves(Run(INIT, init), c.org, c.command, c.now, id);
    }
  }

  // ---------------------------------------------------------- main results

  lemma {:induction false} AnnouncedOnce(es: seq<Event>, k: nat)
    requires k < |es| && forall i, j | 0 <= i < j < |es| :: es[i].id < es[j].id
    ensures Announcements(es, es[k].id) == if Announced(es[k]) then 1 else 0
    decreases |es|
  {
    var last := |es| - 1;
    if k < last {
      AnnouncedOnce(es[..last], k);
    } else {
      NotAnnounced(es[..last], es[k].id);
    }
  }

  lemma {:induction false} NotAnnounced(es: seq<Event>, id: nat)
    requires forall i | 0 <= i < |es| :: es[i].id != id
    ensures Announcements(es, id) == 0
  {
    if es != [] { NotAnnounced(es[..|es| - 1], id); }
  }

  /** A status change or correction is named by exactly one notification, of the
      same child and operation, and a same-status photo event by none, in every
      run whose other notifications name no event (no caller's does). */
  lemma {:induction false} EventsAreAnnouncedOnce(calls: seq<Call>, k: nat)
    requires k < |Run(INIT, calls).events| && Foreign(calls, Run(INIT, calls).events[k].id) == 0
    ensures var s := Run(INIT, calls); var e := s.events[k]; var before := Replay(s.events[..k], e.memberId);
            && before.Some?
            && (if e.kind.Correction? || e.kind.status != before.value.status
                then Mentions(s.notifications, e.id) == 1 && NoticeFor(s.notifications, e)
                else Mentions(s.notifications, e.id) == 0)
  {
    var s := Run(INIT, calls);
    RunConserves(calls, s.events[k].id);
    EveryIdOnce(calls);
    assert Rising(LedgerOf(s).lists[EVENTS], s.nextId);
    forall i, j | 0 <= i < j < |s.events| ensures s.events[i].id < s.events[j].id {
      assert LedgerOf(s).lists[EVENTS][i] == s.events[i].id && LedgerOf(s).lists[EVENTS][j] == s.events[j].id;
    }
    AnnouncedOnce(s.events, k);
    assert NoteTells(s.events, k);
  }

  /** In every run a notification has exactly one outbox row: the one at its own
      position names it, in its organization, and no other row does. */
  lemma {:induction false} NoticesHaveOneRow(calls: seq<Call>, k: nat)
    requires k < |Run(INIT, calls).notifications|
    ensures var s := Run(INIT, calls);
            && |s.outbox| == |s.notifications|
            && s.outbox[k].notificationId == s.notifications[k].id && s.outbox[k].org == s.notifications[k].org
            && forall r | 0 <= r < |s.outbox| && r != k :: s.outbox[r].notificationId != s.notifications[k].id
  {
    var s := Run(INIT, calls);
    RunConserves(calls, 0);
    EveryIdOnce(calls);
    assert Rising(LedgerOf(s).lists[NOTICES], s.nextId);
    assert RowOf(s.notifications[k], s.outbox[k]);
    forall r | 0 <= r < |s.outbox| && r != k ensures s.outbox[r].notificationId != s.notifications[k].id {
      assert LedgerOf(s).lists[NOTICES][k] == s.notifications[k].id && LedgerOf(s).lists[NOTICES][r] == s.notifications[r].id;
      assert RowOf(s.notifications[r], s.outbox[r]);
    }
  }
}
