/** What the parents are told is what was recorded, about their own child by name. */
module PickupMessages {
  import opened Common
  import opened PickupModel
  import opened PickupSpec
  import opened PickupBatch
  import opened PickupRuns
  import opened PickupHistory
  import opened PickupFinish
  import opened PickupStart
  import opened PickupLedger
  import opened PickupConservation

  /** A message about a status is about this member. */
  predicate IsAbout(n: Notification, m: Member) {
    n.org == m.org && n.operationId == Some(m.operationId) && n.studentId == m.studentId
    && (n.message.Custom? || n.message.studentName == m.studentName)
  }

  ghost predicate Named(ms: seq<Member>, n: Notification) { n.message.Custom? || exists i | 0 <= i < |ms| :: IsAbout(n, ms[i]) }

  ghost predicate AllNamed(s: State) { forall k | 0 <= k < |s.notifications| :: Named(s.members, s.notifications[k]) }

  lemma NamedKept(s: State, t: State, a: Notification, b: Notification)
    requires Grown(s, t) && Named(s.members, a) && SameFace(a, b)
    ensures Named(t.members, b)
  {
    if !a.message.Custom? {
      var i :| 0 <= i < |s.members| && IsAbout(a, s.members[i]);
      assert SameKey(s.members[i], t.members[i]) && IsAbout(b, t.members[i]);
    }
  }

  lemma EditKeepsNames(s: State, t: State)
    requires AllNamed(s) && Grown(s, t) && |t.notifications| == |s.notifications|
    requires forall k | 0 <= k < |s.notifications| :: SameFace(s.notifications[k], t.notifications[k])
    ensures AllNamed(t)
  {
    forall k | 0 <= k < |t.notifications| ensures Named(t.members, t.notifications[k]) {
      NamedKept(s, t, s.notifications[k], t.notifications[k]);
    }
  }

  /** One notification more, about a member that is there. */
  lemma NoticeKeepsNames(s: State, t: State, n: Notification)
    requires AllNamed(s) && Grown(s, t) && t.notifications == s.notifications + [n] && Named(t.members, n)
    ensures AllNamed(t)
  {
    forall k | 0 <= k < |t.notifications| ensures Named(t.members, t.notifications[k]) {
      if k < |s.notifications| { NamedKept(s, t, s.notifications[k], t.notifications[k]); }
    }
  }

  lemma ChangeKeepsNames(s: State, i: nat, status: MemberStatus, photo: string, operator: string, note: string, now: Time)
    requires AllNamed(s) && i < |s.members|
    ensures AllNamed(Change(s, i, status, photo, operator, note, now))
  {
    var t := Change(s, i, status, photo, operator, note, now);
    assert IsAbout(t.notifications[|s.notifications|], t.members[i]);
    NoticeKeepsNames(s, t, t.notifications[|s.notifications|]);
  }

  lemma CorrectKeepsNames(s: State, i: nat, eventId: nat, status: MemberStatus, operator: string, reason: string, now: Time)
    requires AllNamed(s) && i < |s.members|
    ensures AllNamed(Correct(s, i, eventId, status, operator, reason, now))
  {
    var t := Correct(s, i, eventId, status, operator, reason, now);
    assert IsAbout(t.notifications[|s.notifications|], t.members[i]);
    NoticeKeepsNames(s, t, t.notifications[|s.notifications|]);
  }

  lemma MarkKeepsNames(s: State, org: nat, operationId: nat, studentId: nat, status: MemberStatus, photo: string,
                       operator: string, note: string, now: Time)
    requires AllNamed(s)
    ensures AllNamed(MarkStudent(s, org, operationId, studentId, status, photo, operator, note, now).state)
  {
    var f := FirstIndex(s.members, MemberKey(org, operationId, studentId));
    GrownMark(s, org, operationId, studentId, status, photo, operator, note, now);
    if f.Some? {
      if s.members[f.value].status == status {
        EditKeepsNames(s, MarkStudent(s, org, operationId, studentId, status, photo, operator, note, now).state);
      } else {
        ChangeKeepsNames(s, f.value, status, photo, operator, note, now);
      }
    }
  }

  lemma CorrectEventKeepsNames(s: State, org: nat, operationId: nat, eventId: nat, target: MemberStatus, operator: string, reason: string, now: Time)
    requires AllNamed(s)
    ensures AllNamed(CorrectEvent(s, org, operationId, eventId, target, operator, reason, now).state)
  {
    var k := FirstIndex(s.events, EventKey(org, operationId, eventId));
    if k.Some? {
      var i := FirstIndex(s.members, MemberKey(org, operationId, s.events[k.value].studentId));
      if i.Some? { CorrectKeepsNames(s, i.value, eventId, target, operator, reason, now); }
    }
  }

  lemma {:induction false} MarksKeepNames(s: State, org: nat, operationId: nat, ids: seq<nat>, operator: string, note: string, now: Time)
    requires AllNamed(s)
    ensures AllNamed(MarkEach(s, org, operationId, ids, operator, note, now).state)
  {
    if ids != [] {
      var init := ids[..|ids| - 1];
      MarksKeepNames(s, org, operationId, init, operator, note, now);
      MarkKeepsNames(MarkEach(s, org, operationId, init, operator, note, now).state, org, operationId, ids[|ids| - 1],
                     Arrived, "", operator, note, now);
    }
  }

  lemma {:induction false} NotifyAllKeepsNames(s: State, org: nat, params: seq<NoticeParams>, now: Time)
    requires AllNamed(s)
    ensures AllNamed(NotifyAll(s, org, params, now))
  {
    if params != [] {
      var mid, t := NotifyAll(s, org, params[..|params| - 1], now), NotifyAll(s, org, params, now);
      NotifyAllKeepsNames(s, org, params[..|params| - 1], now);
      NoticeKeepsNames(mid, t, t.notifications[|mid.notifications|]);
    }
  }

  lemma PlainStepKeepsNames(s: State, org: nat, c: Command, now: Time)
    requires AllNamed(s) && !c.CmdMark? && !c.CmdBulkArrive? && !c.CmdCorrect? && !c.CmdNotify?
    ensures AllNamed(Step(s, org, c, now))
  {
    GrownStep(s, org, c, now);
    if c.CmdMarkRead? || c.CmdRetry? || c.CmdClaim? || c.CmdComplete? || c.CmdSetNotice? {
      DeliveryStepEdits(s, org, c, now);
    } else {
      OtherStepEdits(s, org, c, now);
    }
    EditKeepsNames(s, Step(s, org, c, now));
  }

  lemma StepKeepsNames(s: State, org: nat, c: Command, now: Time)
    requires AllNamed(s) && MembersUnique(s.members)
    ensures AllNamed(Step(s, org, c, now))
  {
    match c
    case CmdMark(op, student, status, photo, operator, note) => MarkKeepsNames(s, org, op, student, status, photo, operator, note, now);
    case CmdBulkArrive(op, ids, operator, note) =>
      BulkArriveRefinesMarks(s, org, op, ids, operator, note, now);
      MarksKeepNames(s, org, op, DistinctBy(ids, Same()), operator, note, now);
    case CmdCorrect(op, event, target, operator, reason) => CorrectEventKeepsNames(s, org, op, event, target, operator, reason, now);
    case CmdNotify(params) => NotifyAllKeepsNames(s, org, params, now);
    case _ => PlainStepKeepsNames(s, org, c, now);
  }

  lemma {:induction false} RunKeepsNames(calls: seq<Call>)
    ensures AllNamed(Run(INIT, calls))
  {
    if calls != [] {
      var init, c := calls[..|calls| - 1], calls[|calls| - 1];
      RunKeepsNames(init);
      RunKeepsHistory(INIT, init);
      StepKeepsNames(Run(INIT, init), c.org, c.command, c.now);
    }
  }

  lemma {:induction false} OneMention(ns: seq<Notification>, id: nat, n: nat, other: nat)
    requires n < |ns| && other < |ns| && n != other && ns[n].eventId == Some(id) && ns[other].eventId == Some(id)
    ensures Mentions(ns, id) >= 2
    decreases |ns|
  {
    var last := |ns| - 1;
    if n < last && other < last {
      OneMention(ns[..last], id, n, other);
    } else {
      SomeMention(ns[..last], id, if n < last then n else other);
    }
  }

  lemma {:induction false} SomeMention(ns: seq<Notification>, id: nat, n: nat)
    requires n < |ns| && ns[n].eventId == Some(id)
    ensures Mentions(ns, id) >= 1
  {
    if n < |ns| - 1 { SomeMention(ns[..|ns| - 1], id, n); }
  }

  lemma OnlyMention(ns: seq<Notification>, id: nat, n: nat)
    requires Mentions(ns, id) == 1 && n < |ns| && ns[n].eventId == Some(id)
    ensures forall j | 0 <= j < |ns| && j != n :: ns[j].eventId != Some(id)
  {
    forall j | 0 <= j < |ns| && j != n ensures ns[j].eventId != Some(id) {
      if ns[j].eventId == Some(id) { OneMention(ns, id, n, j); }
    }
  }

  /** The event the k-th member's log holds is that member's, and somebody is told of it. */
  lemma OwnedAndAnnounced(calls: seq<Call>, k: nat, i: nat)
    requires var s := Run(INIT, calls); k < |s.events| && i < |s.members| && s.members[i].id == s.events[k].memberId
    requires var e := Run(INIT, calls).events[k]; Foreign(calls, e.id) == 0 && e.note != LatePhoto
    ensures var s := Run(INIT, calls); var e := s.events[k];
            Owns(s.members[i], e) && NoticeFor(s.notifications, e) && Mentions(s.notifications, e.id) == 1
  {
    var s := Run(INIT, calls);
    var e := s.events[k];
    RunKeepsHistory(INIT, calls);
    EventsAreAnnouncedOnce(calls, k);
    RunConserves(calls, e.id);
    assert NoteTells(s.events, k) && Announced(e);
    assert MemberIn(s.members, e);
    var o :| 0 <= o < |s.members| && Owns(s.members[o], e);
    assert o == i;
  }

  /** The message parents get of an event of a child of that name. */
  function MessageOf(e: Event, name: string): Message {
    match e.kind
    case Marked(status) => StatusChanged(name, status)
    case Correction(status) => Corrected(name, status, if e.note.CorrectionOf? then e.note.reason else "")
  }

  /** In every run a status change or correction of a child is told to its parents
      by one notification and no other: about that child in that operation, under
      its own name, with the status that was recorded and, of a correction, its
      reason (supposing no caller names the event in a notification of its own). */
  lemma {:induction false} ParentsAreToldWhatWasRecorded(calls: seq<Call>, k: nat, i: nat) returns (n: nat)
    requires var s := Run(INIT, calls); k < |s.events| && i < |s.members| && s.members[i].id == s.events[k].memberId
    requires var e := Run(INIT, calls).events[k]; Foreign(calls, e.id) == 0 && e.note != LatePhoto
    ensures var s := Run(INIT, calls); var e, m := s.events[k], s.members[i];
            && n < |s.notifications| && s.notifications[n].message == MessageOf(e, m.studentName)
            && s.notifications[n].eventId == Some(e.id) && s.notifications[n].operationId == Some(m.operationId)
            && s.notifications[n].studentId == m.studentId && s.notifications[n].org == m.org
            && s.notifications[n].kind == "pickup_status"
            && forall j | 0 <= j < |s.notifications| && j != n :: s.notifications[j].eventId != Some(e.id)
  {
    var s := Run(INIT, calls);
    var e := s.events[k];
    OwnedAndAnnounced(calls, k, i);
    n :| 0 <= n < |s.notifications| && Announces(s.notifications[n], e);
    NameIsRight(calls, n, i);
    OnlyMention(s.notifications, e.id, n);
  }

  /** The name in a message is that of the one member it can be about. */
  lemma NameIsRight(calls: seq<Call>, n: nat, i: nat)
    requires var s := Run(INIT, calls); n < |s.notifications| && i < |s.members| && !s.notifications[n].message.Custom?
    requires var s := Run(INIT, calls);
             s.notifications[n].operationId == Some(s.members[i].operationId) && s.notifications[n].studentId == s.members[i].studentId
    ensures Run(INIT, calls).notifications[n].message.studentName == Run(INIT, calls).members[i].studentName
  {
    var s := Run(INIT, calls);
    RunKeepsNames(calls);
    RunKeepsHistory(INIT, calls);
    assert Named(s.members, s.notifications[n]);
    var j :| 0 <= j < |s.members| && IsAbout(s.notifications[n], s.members[j]);
    assert j == i;
  }
}
