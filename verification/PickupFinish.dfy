/** When an operation may be finished, and what finishing guarantees. */
module PickupFinish {
  import opened Common
  import opened PickupModel
  import opened PickupSpec
  import opened PickupBatch
  import opened PickupRuns
  import opened PickupHistory
  import opened PickupStore

  // ------------------------------------------------------------ close check

  datatype AlertKind =
    | TaskNotStarted | TaskFinished | TaskCancelled | StudentPending | PhotoPending | ProfilePending | Exceptional(status: MemberStatus)

  datatype Alert = Alert(kind: AlertKind, studentId: nat)

  datatype CloseView = CloseView(
    canFinish: bool, pending: seq<Member>, exceptions: seq<Alert>, blockers: seq<Alert>, warnings: seq<Alert>,
    pendingPhotos: nat, pendingProfiles: nat)

  // Who the parts of the view are about.

  function NotReady(): Member -> bool { (m: Member) => !IsReadyToFinish(m.status) }

  function PhotoMissing(): Member -> bool { (m: Member) => m.status == PickedUp && Trim(m.photo) == "" }

  function ProfileMissing(): Member -> bool { (m: Member) => m.profilePending }

  function HasException(): Member -> bool { (m: Member) => m.status in {NotArrived, Abnormal, Absent} }

  /** One alert per member, in order. */
  function AlertsFor(ms: seq<Member>, kind: Member -> AlertKind): (r: seq<Alert>)
    ensures |r| == |ms| && forall i | 0 <= i < |ms| :: r[i] == Alert(kind(ms[i]), ms[i].studentId)
  {
    seq(|ms|, i requires 0 <= i < |ms| => Alert(kind(ms[i]), ms[i].studentId))
  }

  function AsException(): Member -> AlertKind { (m: Member) => Exceptional(m.status) }

  /** The alerts each member gives rise to, member by member. */
  function Gather(ms: seq<Member>, alerts: Member -> seq<Alert>): seq<Alert> {
    if ms == [] then [] else Gather(ms[..|ms| - 1], alerts) + alerts(ms[|ms| - 1])
  }

  function BlockersOf(): Member -> seq<Alert> {
    (m: Member) =>
      (if NotReady()(m) then [Alert(StudentPending, m.studentId)] else [])
      + if PhotoMissing()(m) then [Alert(PhotoPending, m.studentId)] else []
  }

  function WarningsOf(): Member -> seq<Alert> {
    (m: Member) =>
      (if m.profilePending then [Alert(ProfilePending, m.studentId)] else [])
      + if m.status == Absent then [Alert(Exceptional(Absent), m.studentId)] else []
  }

  function TaskBlockers(status: OperationStatus): seq<Alert> {
    match status
    case Started => []
    case Finished => [Alert(TaskFinished, 0)]
    case Cancelled => [Alert(TaskCancelled, 0)]
    case _ => [Alert(TaskNotStarted, 0)]
  }

  /** What the check has to show: the unready children are pending, each
      exception and each warning is listed, the counters count, and the
      operation can be finished when it is started and nobody is pending. */
  function CloseViewOf(status: OperationStatus, ms: seq<Member>): CloseView {
    CloseView(
      status == Started && Select(ms, NotReady()) == [],
      Select(ms, NotReady()),
      AlertsFor(Select(ms, HasException()), AsException()),
      TaskBlockers(status) + Gather(ms, BlockersOf()),
      Gather(ms, WarningsOf()),
      |Select(ms, PhotoMissing())|,
      |Select(ms, ProfileMissing())|)
  }

  function OfOperation(org: nat, id: nat): Member -> bool { (m: Member) => m.org == org && m.operationId == id }

  function CloseCheck(s: State, org: nat, id: nat): Result<CloseView> {
    match FirstIndex(s.operations, OperationKey(org, id))
    case None => Err(NotFound)
    case Some(o) => Ok(CloseViewOf(s.operations[o].status, Select(s.members, OfOperation(org, id))))
  }

  /** The view before any child has been looked at. */
  method OpenView(status: OperationStatus) returns (view: CloseView)
    ensures view == CloseViewOf(status, [])
  {
    view := CloseView(status == Started, [], [], [], [], 0, 0);
    if status != Started {
      var kind := TaskNotStarted;
      if status == Finished {
        kind := TaskFinished;
      } else if status == Cancelled {
        kind := TaskCancelled;
      }
      view := view.(blockers := view.blockers + [Alert(kind, 0)]);
    }
  }

  /** One turn of the handler's loop: the view of the children so far becomes that of one more. */
  method InspectStudent(ghost status: OperationStatus, ghost ms: seq<Member>, v: CloseView, m: Member) returns (view: CloseView)
    requires v == CloseViewOf(status, ms)
    ensures view == CloseViewOf(status, ms + [m])
  {
    view := AddBlockers(v, m);
    view := AddNotes(view, m);
    OneMoreChild(status, ms, m);
    assert view == WithChild(v, m);
  }

  method AddBlockers(v: CloseView, m: Member) returns (view: CloseView)
    ensures view == v.(canFinish := v.canFinish && IsReadyToFinish(m.status), pending := v.pending + if NotReady()(m) then [m] else [],
                       blockers := v.blockers + BlockersOf()(m), pendingPhotos := v.pendingPhotos + if PhotoMissing()(m) then 1 else 0)
  {
    view := v;
    if !IsReadyToFinish(m.status) {
      view := view.(canFinish := false, pending := view.pending + [m], blockers := view.blockers + [Alert(StudentPending, m.studentId)]);
    }
    if m.status == PickedUp && Trim(m.photo) == "" {
      view := view.(pendingPhotos := view.pendingPhotos + 1, canFinish := false);
      view := view.(blockers := view.blockers + [Alert(PhotoPending, m.studentId)]);
    }
  }

  method AddNotes(v: CloseView, m: Member) returns (view: CloseView)
    ensures view == v.(exceptions := v.exceptions + if HasException()(m) then [Alert(Exceptional(m.status), m.studentId)] else [],
                       warnings := v.warnings + WarningsOf()(m), pendingProfiles := v.pendingProfiles + if m.profilePending then 1 else 0)
  {
    view := v;
    if m.profilePending {
      view := view.(pendingProfiles := view.pendingProfiles + 1, warnings := view.warnings + [Alert(ProfilePending, m.studentId)]);
    }
    if m.status == NotArrived || m.status == Abnormal || m.status == Absent {
      view := view.(exceptions := view.exceptions + [Alert(Exceptional(m.status), m.studentId)]);
      if m.status == Absent {
        view := view.(warnings := view.warnings + [Alert(Exceptional(m.status), m.studentId)]);
      }
    }
  }

  lemma GatherOneMore(ms: seq<Member>, m: Member, alerts: Member -> seq<Alert>)
    ensures Gather(ms + [m], alerts) == Gather(ms, alerts) + alerts(m)
  {
    assert (ms + [m])[..|ms|] == ms;
  }

  lemma AlertsOneMore(ms: seq<Member>, m: Member, kind: Member -> AlertKind)
    ensures AlertsFor(ms + [m], kind) == AlertsFor(ms, kind) + [Alert(kind(m), m.studentId)]
  {
  }

  lemma ExceptionsOneMore(ms: seq<Member>, m: Member)
    ensures AlertsFor(Select(ms + [m], HasException()), AsException())
         == AlertsFor(Select(ms, HasException()), AsException()) + if HasException()(m) then [Alert(Exceptional(m.status), m.studentId)] else []
  {
    var before := Select(ms, HasException());
    SelectOneMore(ms, m, HasException());
    if HasException()(m) { AlertsOneMore(before, m, AsException()); } else { assert before + [] == before; }
  }

  /** What one more child adds to each part of the view. */
  function WithChild(v: CloseView, m: Member): CloseView {
    CloseView(
      v.canFinish && IsReadyToFinish(m.status),
      v.pending + if NotReady()(m) then [m] else [],
      v.exceptions + if HasException()(m) then [Alert(Exceptional(m.status), m.studentId)] else [],
      v.blockers + BlockersOf()(m),
      v.warnings + WarningsOf()(m),
      v.pendingPhotos + if PhotoMissing()(m) then 1 else 0,
      v.pendingProfiles + if m.profilePending then 1 else 0)
  }

  lemma OneMoreChild(status: OperationStatus, ms: seq<Member>, m: Member)
    ensures CloseViewOf(status, ms + [m]) == WithChild(CloseViewOf(status, ms), m)
  {
    ExceptionsOneMore(ms, m);
    BlockersOneMore(status, ms, m);
    SelectOneMore(ms, m, NotReady());
    SelectOneMore(ms, m, PhotoMissing());
    SelectOneMore(ms, m, ProfileMissing());
    GatherOneMore(ms, m, WarningsOf());
  }

  lemma BlockersOneMore(status: OperationStatus, ms: seq<Member>, m: Member)
    ensures TaskBlockers(status) + Gather(ms + [m], BlockersOf()) == TaskBlockers(status) + Gather(ms, BlockersOf()) + BlockersOf()(m)
  {
    GatherOneMore(ms, m, BlockersOf());
  }

  /** A child of the operation of whom it is not settled where it is. */
  function Awaited(org: nat, id: nat): Member -> bool {
    (m: Member) => m.org == org && m.operationId == id
                   && m.status !in {SelfArrived, ParentPickedUp, Leave, Absent, Arrived, Left, MidwayLeft}
  }

  lemma PendingIsAwaited(ms: seq<Member>, org: nat, id: nat)
    ensures Select(Select(ms, OfOperation(org, id)), NotReady()) == Select(ms, Awaited(org, id))
  {
    SelectTwice(ms, OfOperation(org, id), NotReady(), Awaited(org, id));
  }

  lemma PrefixOneMore(ms: seq<Member>, k: nat)
    requires k < |ms|
    ensures ms[..k + 1] == ms[..k] + [ms[k]]
  {
  }

  method BuildCloseView(store: MemoryStore, org: nat, id: nat) returns (result: Result<CloseView>)
    ensures result == CloseCheck(store.View(), org, id)
    ensures result.Ok? ==> result.value.pending == Select(store.members, Awaited(org, id))
  {
    var found := Scan(store.operations, OperationKey(org, id));
    if found.None? {
      return Err(NotFound);
    }
    ghost var status := store.operations[found.value].status;
    var students := Filter(store.members, OfOperation(org, id));
    var view := OpenView(store.operations[found.value].status);
    for k := 0 to |students|
      invariant view == CloseViewOf(status, students[..k])
    {
      PrefixOneMore(students, k);
      view := InspectStudent(status, students[..k], view, students[k]);
    }
    assert students[..|students|] == students;
    PendingIsAwaited(store.members, org, id);
    result := Ok(view);
  }

  ghost predicate AllReady(ms: seq<Member>) { forall i | 0 <= i < |ms| :: IsReadyToFinish(ms[i].status) }

  /** Only an unready child or a task that is not going on blocks: a missing photo is an unready child's. */
  lemma {:induction false} NothingGathered(ms: seq<Member>)
    ensures Gather(ms, BlockersOf()) == [] <==> AllReady(ms)
    ensures Select(ms, NotReady()) == [] <==> AllReady(ms)
  {
    if ms != [] {
      var init, m := ms[..|ms| - 1], ms[|ms| - 1];
      NothingGathered(init);
      assert ms == init + [m];
      AllReadyOneMore(init, m);
    }
  }

  lemma AllReadyOneMore(init: seq<Member>, m: Member)
    ensures AllReady(init + [m]) <==> AllReady(init) && IsReadyToFinish(m.status)
  {
    var ms := init + [m];
    assert ms[|init|] == m;
    if AllReady(ms) {
      forall i | 0 <= i < |init| ensures IsReadyToFinish(init[i].status) { assert ms[i] == init[i]; }
    }
  }

  lemma CanFinishMeans(status: OperationStatus, ms: seq<Member>)
    ensures var v := CloseViewOf(status, ms);
            && (v.canFinish <==> v.blockers == [])
            && (v.canFinish <==> status == Started && AllReady(ms))
  {
    NothingGathered(ms);
  }

  /** Every member of the operation is ready. */
  ghost predicate MembersReady(s: State, id: nat) {
    forall i | 0 <= i < |s.members| && s.members[i].operationId == id :: IsReadyToFinish(s.members[i].status)
  }

  lemma SelectedReady(s: State, org: nat, id: nat)
    requires History(s) && FirstIndex(s.operations, OperationKey(org, id)).Some?
    ensures AllReady(Select(s.members, OfOperation(org, id))) <==> MembersReady(s, id)
  {
    var ms := Select(s.members, OfOperation(org, id));
    forall i | 0 <= i < |s.members| && s.members[i].operationId == id ensures s.members[i] in ms {
      assert OperationIn(s.operations, s.members[i].org, id);
      assert OfOperation(org, id)(s.members[i]);
    }
    if AllReady(ms) {
      forall i | 0 <= i < |s.members| && s.members[i].operationId == id ensures IsReadyToFinish(s.members[i].status) {
        var j :| 0 <= j < |ms| && ms[j] == s.members[i];
      }
    }
    if MembersReady(s, id) {
      forall j | 0 <= j < |ms| ensures IsReadyToFinish(ms[j].status) {
        assert ms[j] in ms && OfOperation(org, id)(ms[j]);
        var i :| 0 <= i < |s.members| && s.members[i] == ms[j];
      }
    }
  }

  lemma FinishIffChecked(s: State, org: nat, id: nat, now: Time)
    requires History(s)
    ensures var check := CloseCheck(s, org, id);
            && (check.Ok? ==> (check.value.canFinish <==> check.value.blockers == []))
            && (SetOperationStatus(s, org, id, Finished, now).result.Ok? <==> check.Ok? && check.value.canFinish)
  {
    var o := FirstIndex(s.operations, OperationKey(org, id));
    if o.Some? {
      CanFinishMeans(s.operations[o.value].status, Select(s.members, OfOperation(org, id)));
      SelectedReady(s, org, id);
      var u := FirstIndex(s.members, UnreadyKey(id));
      if u.None? {
        forall i | 0 <= i < |s.members| && s.members[i].operationId == id ensures IsReadyToFinish(s.members[i].status) {
          assert !UnreadyKey(id)(s.members[i]);
        }
      }
    }
  }

  /** The children of an operation that are still out: not yet fetched, on the
      way, expected in vain, or in trouble. */
  function StillOut(org: nat, id: nat): Member -> bool {
    (m: Member) => m.org == org && m.operationId == id && m.status in {Planned, PickedUp, NotArrived, Abnormal}
  }

  lemma OutOrReady(s: State, i: nat)
    requires History(s) && i < |s.members|
    ensures s.members[i].status in {Planned, PickedUp, NotArrived, Abnormal} <==> !IsReadyToFinish(s.members[i].status)
  {
    assert !s.members[i].status.Unknown?;
  }

  /** In every run the children listed as pending are exactly those still out, in store order. */
  lemma {:induction false} PendingAreStillOut(calls: seq<Call>, org: nat, id: nat)
    requires CloseCheck(Run(INIT, calls), org, id).Ok?
    ensures CloseCheck(Run(INIT, calls), org, id).value.pending == Select(Run(INIT, calls).members, StillOut(org, id))
  {
    var s := Run(INIT, calls);
    RunKeepsHistory(INIT, calls);
    forall m | m in s.members ensures StillOut(org, id)(m) <==> OfOperation(org, id)(m) && NotReady()(m) {
      var i :| 0 <= i < |s.members| && s.members[i] == m;
      OutOrReady(s, i);
    }
    SelectTwice(s.members, OfOperation(org, id), NotReady(), StillOut(org, id));
  }

  /** A child of the operation. */
  ghost predicate ChildOf(s: State, m: Member, org: nat, id: nat) { m in s.members && m.org == org && m.operationId == id }

  /** The member gives rise to the warning. */
  predicate Warns(m: Member, a: Alert) {
    m.studentId == a.studentId && ((a.kind == ProfilePending && m.profilePending) || (a.kind == Exceptional(Absent) && m.status == Absent))
  }

  /** The member keeps the operation from being finished. */
  predicate Blocks(m: Member, a: Alert) {
    m.studentId == a.studentId
    && ((a.kind == StudentPending && m.status !in {SelfArrived, ParentPickedUp, Leave, Absent, Arrived, Left, MidwayLeft})
        || (a.kind == PhotoPending && m.status == PickedUp && Trim(m.photo) == ""))
  }

  lemma {:induction false} GatheredAre(ms: seq<Member>, alerts: Member -> seq<Alert>, a: Alert)
    ensures a in Gather(ms, alerts) <==> exists m | m in ms :: a in alerts(m)
  {
    if ms != [] {
      assert ms == ms[..|ms| - 1] + [ms[|ms| - 1]];
      GatheredAre(ms[..|ms| - 1], alerts, a);
    }
  }

  lemma WarningsAre(ms: seq<Member>, a: Alert)
    ensures a in Gather(ms, WarningsOf()) <==> exists m | m in ms :: Warns(m, a)
  {
    GatheredAre(ms, WarningsOf(), a);
    forall m: Member ensures a in WarningsOf()(m) <==> Warns(m, a) {}
  }

  lemma BlockersAre(ms: seq<Member>, a: Alert)
    ensures a in Gather(ms, BlockersOf()) <==> exists m | m in ms :: Blocks(m, a)
  {
    GatheredAre(ms, BlockersOf(), a);
    forall m: Member ensures a in BlockersOf()(m) <==> Blocks(m, a) { BlockedBy(m, a); }
  }

  lemma BlockedBy(m: Member, a: Alert)
    ensures a in BlockersOf()(m) <==> Blocks(m, a)
  {
    var pending := if NotReady()(m) then [Alert(StudentPending, m.studentId)] else [];
    var photo := if PhotoMissing()(m) then [Alert(PhotoPending, m.studentId)] else [];
    assert BlockersOf()(m) == pending + photo;
    assert a in pending <==> m.studentId == a.studentId && a.kind == StudentPending && NotReady()(m);
    assert a in photo <==> m.studentId == a.studentId && a.kind == PhotoPending && PhotoMissing()(m);
  }

  lemma ExceptionsAre(ms: seq<Member>, a: Alert)
    ensures a in AlertsFor(Select(ms, HasException()), AsException()) <==>
            exists m | m in ms :: m.status in {NotArrived, Abnormal, Absent} && a == Alert(Exceptional(m.status), m.studentId)
  {
    var chosen := Select(ms, HasException());
    var alerts := AlertsFor(chosen, AsException());
    if m :| m in ms && m.status in {NotArrived, Abnormal, Absent} && a == Alert(Exceptional(m.status), m.studentId) {
      assert m in chosen;
      var i :| 0 <= i < |chosen| && chosen[i] == m;
      assert alerts[i] == a;
    }
    if i :| 0 <= i < |alerts| && alerts[i] == a { assert chosen[i] in chosen; }
  }

  lemma CountedAre(s: State, org: nat, id: nat, p: Member -> bool, places: set<nat>)
    requires forall k: nat :: k in places <==> k < |s.members| && s.members[k].org == org && s.members[k].operationId == id && p(s.members[k])
    ensures |Select(Select(s.members, OfOperation(org, id)), p)| == |places|
  {
    var both := (m: Member) => m.org == org && m.operationId == id && p(m);
    SelectTwice(s.members, OfOperation(org, id), p, both);
    SelectCounts(s.members, both);
    assert Places(s.members, both) == places;
  }

  /** What the check lists about children, told from the members. */
  lemma CheckTells(s: State, org: nat, id: nat, a: Alert)
    requires CloseCheck(s, org, id).Ok?
    ensures var v := CloseCheck(s, org, id).value;
            && (a in v.exceptions <==> exists m | ChildOf(s, m, org, id) ::
                  m.status in {NotArrived, Abnormal, Absent} && a == Alert(Exceptional(m.status), m.studentId))
            && (a in v.warnings <==> exists m | ChildOf(s, m, org, id) :: Warns(m, a))
            && (a.kind in {StudentPending, PhotoPending} ==> (a in v.blockers <==> exists m | ChildOf(s, m, org, id) :: Blocks(m, a)))
  {
    var ms := Select(s.members, OfOperation(org, id));
    assert forall m :: m in ms <==> ChildOf(s, m, org, id);
    ExceptionsAre(ms, a);
    WarningsAre(ms, a);
    BlockersAre(ms, a);
  }

  /** The places of the children fetched without a photo, and of those whose profile is not complete. */
  ghost function PhotosDue(s: State, org: nat, id: nat): set<nat> {
    set k: nat | k < |s.members| && s.members[k].org == org && s.members[k].operationId == id
                 && s.members[k].status == PickedUp && Trim(s.members[k].photo) == ""
  }

  ghost function ProfilesDue(s: State, org: nat, id: nat): set<nat> {
    set k: nat | k < |s.members| && s.members[k].org == org && s.members[k].operationId == id && s.members[k].profilePending
  }

  /** Those are what the check counts. */
  lemma CheckCounts(s: State, org: nat, id: nat)
    requires CloseCheck(s, org, id).Ok?
    ensures var v := CloseCheck(s, org, id).value; v.pendingPhotos == |PhotosDue(s, org, id)| && v.pendingProfiles == |ProfilesDue(s, org, id)|
  {
    CountedAre(s, org, id, PhotoMissing(), PhotosDue(s, org, id));
    CountedAre(s, org, id, ProfileMissing(), ProfilesDue(s, org, id));
  }

  /** In every run finishing succeeds exactly when the close check says so, which is
      exactly when it lists no blocker, and exactly when the operation is going on
      and none of its children is planned, picked up, not arrived or abnormal. */
  lemma {:induction false} FinishIffCanFinish(calls: seq<Call>, org: nat, id: nat, now: Time)
    ensures var s := Run(INIT, calls); var check := CloseCheck(s, org, id);
            && (check.Ok? ==> (check.value.canFinish <==> check.value.blockers == []))
            && (SetOperationStatus(s, org, id, Finished, now).result.Ok? <==> check.Ok? && check.value.canFinish)
    ensures var s := Run(INIT, calls);
            SetOperationStatus(s, org, id, Finished, now).result.Ok?
            <==> && (exists o | 0 <= o < |s.operations| :: s.operations[o].org == org && s.operations[o].id == id && s.operations[o].status == Started)
                 && (forall i | 0 <= i < |s.members| && s.members[i].operationId == id ::
                       s.members[i].status !in {Planned, PickedUp, NotArrived, Abnormal})
  {
    RunKeepsHistory(INIT, calls);
    FinishIffChecked(Run(INIT, calls), org, id, now);
    FinishedIfNobodyIsOut(Run(INIT, calls), org, id, now);
  }

  lemma FinishedIfNobodyIsOut(s: State, org: nat, id: nat, now: Time)
    requires History(s)
    ensures SetOperationStatus(s, org, id, Finished, now).result.Ok?
            <==> && (exists o | 0 <= o < |s.operations| :: s.operations[o].org == org && s.operations[o].id == id && s.operations[o].status == Started)
                 && (forall i | 0 <= i < |s.members| && s.members[i].operationId == id ::
                       s.members[i].status !in {Planned, PickedUp, NotArrived, Abnormal})
  {
    forall i | 0 <= i < |s.members|
      ensures s.members[i].status in {Planned, PickedUp, NotArrived, Abnormal} <==> !IsReadyToFinish(s.members[i].status)
    {
      OutOrReady(s, i);
    }
    var u := FirstIndex(s.members, UnreadyKey(id));
    if u.None? {
      forall i | 0 <= i < |s.members| && s.members[i].operationId == id ensures IsReadyToFinish(s.members[i].status) {
        assert !UnreadyKey(id)(s.members[i]);
      }
    }
    if o :| 0 <= o < |s.operations| && s.operations[o].org == org && s.operations[o].id == id {
      FirstIsOnly(s.operations, OperationKey(org, id), o);
    }
    FinishedIf(s, org, id, now);
  }

  lemma FinishedIf(s: State, org: nat, id: nat, now: Time)
    ensures var o := FirstIndex(s.operations, OperationKey(org, id));
            SetOperationStatus(s, org, id, Finished, now).result.Ok?
            <==> o.Some? && s.operations[o.value].status == Started && FirstIndex(s.members, UnreadyKey(s.operations[o.value].id)).None?
  {
  }

  // ------------------------------------------------------------ reachability

  /** A status one mark away that lets the operation finish. */
  function ReadyNext(status: MemberStatus): MemberStatus { if status == Planned then Absent else Arrived }

  function UnreadyCount(ms: seq<Member>, id: nat): nat {
    if ms == [] then 0
    else UnreadyCount(ms[..|ms| - 1], id) + if UnreadyKey(id)(ms[|ms| - 1]) then 1 else 0
  }

  /** `t` is `s` with the first `n` members of the operation made ready and nothing after them touched. */
  ghost predicate ReadyUpTo(s: State, t: State, id: nat, n: nat) {
    && t.operations == s.operations && SameKeys(s.members, t.members) && n <= |s.members|
    && (forall i | n <= i < |s.members| :: t.members[i] == s.members[i])
    && (forall i | 0 <= i < n && s.members[i].operationId == id :: IsReadyToFinish(t.members[i].status))
  }

  lemma MarkOneReady(s: State, t: State, org: nat, id: nat, o: nat, n: nat, now: Time)
    requires History(s) && ReadyUpTo(s, t, id, n) && n < |s.members| && UnreadyKey(id)(s.members[n])
    requires FirstIndex(s.operations, OperationKey(org, id)) == Some(o) && s.operations[o].status == Started
    ensures var m := s.members[n];
            ReadyUpTo(s, MarkStudent(t, org, id, m.studentId, ReadyNext(m.status), "", "", "", now).state, id, n + 1)
  {
    var m := s.members[n];
    assert OperationIn(s.operations, m.org, id);
    assert m.org == org;
    LookupsAgree(s.members, t.members, org, id, m.studentId);
    assert MemberKey(org, id, m.studentId)(m);
    FirstIsOnly(t.members, MemberKey(org, id, m.studentId), n) by {
      assert forall j | 0 <= j < |s.members| :: SameKey(s.members[j], t.members[j]);
    }
    assert IsValidMemberTransition(m.status, ReadyNext(m.status));
  }

  lemma RunMark(s: State, calls: seq<Call>, org: nat, id: nat, studentId: nat, status: MemberStatus, now: Time)
    ensures Run(s, calls + [Call(org, CmdMark(id, studentId, status, "", "", ""), now)])
         == MarkStudent(Run(s, calls), org, id, studentId, status, "", "", "", now).state
  {
    RunAppend(s, calls, Call(org, CmdMark(id, studentId, status, "", "", ""), now));
  }

  ghost predicate MarksOnly(calls: seq<Call>, id: nat) {
    forall c | c in calls :: c.command.CmdMark? && c.command.operationId == id
  }

  lemma SkipReady(s: State, t: State, id: nat, n: nat)
    requires ReadyUpTo(s, t, id, n) && n < |s.members| && !UnreadyKey(id)(s.members[n])
    ensures ReadyUpTo(s, t, id, n + 1)
  {
  }

  /** One mark for each unready member among the first `n`. */
  lemma {:induction false} ReadyPlan(s: State, org: nat, id: nat, o: nat, n: nat, now: Time) returns (calls: seq<Call>)
    requires History(s) && FirstIndex(s.operations, OperationKey(org, id)) == Some(o) && s.operations[o].status == Started
    requires n <= |s.members|
    ensures |calls| == UnreadyCount(s.members[..n], id) && MarksOnly(calls, id) && ReadyUpTo(s, Run(s, calls), id, n)
  {
    if n == 0 {
      calls := [];
    } else {
      var before := ReadyPlan(s, org, id, o, n - 1, now);
      assert s.members[..n][..n - 1] == s.members[..n - 1];
      if UnreadyKey(id)(s.members[n - 1]) {
        calls := ReadyCall(s, before, org, id, o, n - 1, now);
      } else {
        SkipReady(s, Run(s, before), id, n - 1);
        calls := before;
      }
    }
  }

  lemma ReadyCall(s: State, before: seq<Call>, org: nat, id: nat, o: nat, n: nat, now: Time) returns (calls: seq<Call>)
    requires History(s) && ReadyUpTo(s, Run(s, before), id, n) && n < |s.members| && UnreadyKey(id)(s.members[n])
    requires FirstIndex(s.operations, OperationKey(org, id)) == Some(o) && s.operations[o].status == Started && MarksOnly(before, id)
    ensures |calls| == |before| + 1 && MarksOnly(calls, id) && ReadyUpTo(s, Run(s, calls), id, n + 1)
  {
    var m := s.members[n];
    MarkOneReady(s, Run(s, before), org, id, o, n, now);
    RunMark(s, before, org, id, m.studentId, ReadyNext(m.status), now);
    calls := before + [Call(org, CmdMark(id, m.studentId, ReadyNext(m.status), "", "", ""), now)];
  }

  /** From any started state of any run, one mark per unready member is enough to finish. */
  lemma {:induction false} FinishReachable(past: seq<Call>, org: nat, id: nat, o: nat, now: Time) returns (calls: seq<Call>)
    requires var s := Run(INIT, past); FirstIndex(s.operations, OperationKey(org, id)) == Some(o) && s.operations[o].status == Started
    ensures |calls| == UnreadyCount(Run(INIT, past).members, id) && MarksOnly(calls, id)
    ensures SetOperationStatus(Run(Run(INIT, past), calls), org, id, Finished, now).result.Ok?
  {
    var s := Run(INIT, past);
    RunKeepsHistory(INIT, past);
    calls := ReadyPlan(s, org, id, o, |s.members|, now);
    assert s.members[..|s.members|] == s.members;
    assert SameKeys(s.members, Run(s, calls).members);
  }

  // ------------------------------------------------------- after finishing

  ghost predicate Closed(s: State, o: nat) {
    o < |s.operations| && s.operations[o].status == Finished && MembersReady(s, s.operations[o].id)
  }

  lemma FoundIsThis(s: State, o: nat, org: nat)
    requires History(s) && o < |s.operations|
    ensures var f := FirstIndex(s.operations, OperationKey(org, s.operations[o].id)); f.Some? ==> f.value == o
  {
  }

  lemma MarkStaysClosed(s: State, o: nat, org: nat, operationId: nat, studentId: nat, status: MemberStatus, photo: string,
                        operator: string, note: string, now: Time)
    requires History(s) && Closed(s, o)
    ensures Closed(MarkStudent(s, org, operationId, studentId, status, photo, operator, note, now).state, o)
  {
    FoundIsThis(s, o, org);
    MarkFrame(s, org, operationId, studentId, status, photo, operator, note, now);
  }

  lemma {:induction false} MarksStayClosed(s: State, o: nat, org: nat, operationId: nat, ids: seq<nat>, operator: string, note: string, now: Time)
    requires History(s) && Closed(s, o)
    ensures Closed(MarkEach(s, org, operationId, ids, operator, note, now).state, o)
  {
    if ids != [] {
      var init := ids[..|ids| - 1];
      MarksStayClosed(s, o, org, operationId, init, operator, note, now);
      MarksKeepHistory(s, org, operationId, init, operator, note, now);
      MarkStaysClosed(MarkEach(s, org, operationId, init, operator, note, now).state, o, org, operationId, ids[|ids| - 1], Arrived, "", operator, note, now);
    }
  }

  lemma CorrectElsewhereStaysClosed(s: State, o: nat, org: nat, operationId: nat, eventId: nat, target: MemberStatus,
                                    operator: string, reason: string, now: Time)
    requires History(s) && Closed(s, o) && operationId != s.operations[o].id
    ensures Closed(CorrectEvent(s, org, operationId, eventId, target, operator, reason, now).state, o)
  {
  }

  lemma {:induction false} NotifyAllFrame(s: State, org: nat, params: seq<NoticeParams>, now: Time)
    ensures var t := NotifyAll(s, org, params, now);
            t.operations == s.operations && t.members == s.members && t.events == s.events && t.handoffs == s.handoffs
            && t.requests == s.requests && t.logs == s.logs
  {
    if params != [] { NotifyAllFrame(s, org, params[..|params| - 1], now); }
  }

  lemma CreateStaysClosed(s: State, o: nat, org: nat, date: Day, details: Details, classId: nat, roster: seq<StudentRef>, now: Time)
    requires History(s) && Closed(s, o)
    ensures Closed(CreateOperation(s, org, date, details, classId, roster, now).state, o)
  {
  }

  lemma BulkStaysClosed(s: State, o: nat, org: nat, operationId: nat, ids: seq<nat>, operator: string, note: string, now: Time)
    requires History(s) && Closed(s, o)
    ensures var t := BulkArrive(s, org, operationId, ids, operator, note, now).state;
            Closed(t, o) && t.operations == s.operations
  {
    BulkArriveRefinesMarks(s, org, operationId, ids, operator, note, now);
    MarksStayClosed(s, o, org, operationId, DistinctBy(ids, Same()), operator, note, now);
    ArriveAllFrame(s, org, operationId, DistinctBy(ids, Same()), operator, note, now);
  }

  lemma AsideStaysClosed(s: State, o: nat, org: nat, c: Command, now: Time)
    requires Closed(s, o) && Aside(c)
    ensures Closed(Step(s, org, c, now), o) && Step(s, org, c, now).operations == s.operations
  {
    AsideFrame(s, org, c, now);
  }

  lemma OperationStepStaysClosed(s: State, o: nat, org: nat, c: Command, now: Time)
    requires History(s) && Closed(s, o) && (c.CmdSetStatus? || c.CmdConfirm? || c.CmdHandoff?)
    ensures Closed(Step(s, org, c, now), o) && Step(s, org, c, now).operations[o].id == s.operations[o].id
  {
    FoundIsThis(s, o, org);
    FinishedIsLeft(s, o, org, c, now);
  }

  /** None of the calls on operations touches a finished one. */
  lemma FinishedIsLeft(s: State, o: nat, org: nat, c: Command, now: Time)
    requires o < |s.operations| && s.operations[o].status == Finished && (c.CmdSetStatus? || c.CmdConfirm? || c.CmdHandoff?)
    requires var f := FirstIndex(s.operations, OperationKey(org, s.operations[o].id)); f.Some? ==> f.value == o
    ensures var t := Step(s, org, c, now);
            t.members == s.members && o < |t.operations| && t.operations[o] == s.operations[o]
  {
  }

  lemma AddStaysClosed(s: State, o: nat, org: nat, operationId: nat, studentId: nat, name: string, temporary: bool, pending: bool,
                       mode: string, note: string, now: Time)
    requires History(s) && Closed(s, o)
    ensures var t := AddOperationStudent(s, org, operationId, studentId, name, temporary, pending, mode, note, now).state;
            Closed(t, o) && t.operations == s.operations
  {
    FoundIsThis(s, o, org);
  }

  lemma ProfileStaysClosed(s: State, o: nat, org: nat, operationId: nat, studentId: nat, now: Time)
    requires Closed(s, o)
    ensures var t := CompleteProfile(s, org, operationId, studentId, now).state; Closed(t, o) && t.operations == s.operations
  {
  }

  lemma QuietStepStaysClosed(s: State, o: nat, org: nat, c: Command, now: Time)
    requires History(s) && Closed(s, o)
    requires !c.CmdCreate? && !c.CmdMark? && !c.CmdBulkArrive? && !c.CmdCorrect? && !c.CmdNotify?
    ensures Closed(Step(s, org, c, now), o) && Step(s, org, c, now).operations[o].id == s.operations[o].id
  {
    match c
    case CmdAddStudent(op, student, name, temporary, pending, mode, note) =>
      AddStaysClosed(s, o, org, op, student, name, temporary, pending, mode, note, now);
    case CmdCompleteProfile(op, student) => ProfileStaysClosed(s, o, org, op, student, now);
    case _ => if Aside(c) { AsideStaysClosed(s, o, org, c, now); } else { OperationStepStaysClosed(s, o, org, c, now); }
  }

  /** No call but a correction in that operation reopens the question of readiness. */
  lemma StepStaysClosed(s: State, o: nat, org: nat, c: Command, now: Time)
    requires History(s) && Closed(s, o) && !(c.CmdCorrect? && c.operationId == s.operations[o].id)
    ensures Closed(Step(s, org, c, now), o) && Step(s, org, c, now).operations[o].id == s.operations[o].id
  {
    if c.CmdMark? || c.CmdBulkArrive? || c.CmdCorrect? || c.CmdNotify? { LoggedStepStaysClosed(s, o, org, c, now); }
    else if c.CmdCreate? { CreateStaysClosed(s, o, org, c.date, c.details, c.classId, c.roster, now); }
    else { QuietStepStaysClosed(s, o, org, c, now); }
  }

  lemma LoggedStepStaysClosed(s: State, o: nat, org: nat, c: Command, now: Time)
    requires History(s) && Closed(s, o) && !(c.CmdCorrect? && c.operationId == s.operations[o].id)
    requires c.CmdMark? || c.CmdBulkArrive? || c.CmdCorrect? || c.CmdNotify?
    ensures Closed(Step(s, org, c, now), o) && Step(s, org, c, now).operations[o].id == s.operations[o].id
  {
    match c
    case CmdMark(op, student, status, photo, operator, note) => MarkStaysClosed(s, o, org, op, student, status, photo, operator, note, now);
    case CmdBulkArrive(op, ids, operator, note) => BulkStaysClosed(s, o, org, op, ids, operator, note, now);
    case CmdCorrect(op, event, target, operator, reason) => CorrectElsewhereStaysClosed(s, o, org, op, event, target, operator, reason, now);
    case CmdNotify(params) => NotifyAllFrame(s, org, params, now);
  }

  lemma {:induction false} ClosedUntilCorrected(s: State, o: nat, calls: seq<Call>)
    requires History(s) && Closed(s, o)
    requires forall c | c in calls :: !(c.command.CmdCorrect? && c.command.operationId == s.operations[o].id)
    ensures Closed(Run(s, calls), o) && Run(s, calls).operations[o].id == s.operations[o].id
  {
    if calls != [] {
      var init, c := calls[..|calls| - 1], calls[|calls| - 1];
      ClosedUntilCorrected(s, o, init);
      RunKeepsHistory(s, init);
      StepStaysClosed(Run(s, init), o, c.org, c.command, c.now);
    }
  }

  /** Finishing is what establishes it. */
  lemma FinishingCloses(s: State, org: nat, id: nat, o: nat, now: Time)
    requires History(s) && FirstIndex(s.operations, OperationKey(org, id)) == Some(o)
    requires SetOperationStatus(s, org, id, Finished, now).result.Ok?
    ensures Closed(SetOperationStatus(s, org, id, Finished, now).state, o)
  {
    forall i | 0 <= i < |s.members| && s.members[i].operationId == id ensures IsReadyToFinish(s.members[i].status) {
      assert !UnreadyKey(id)(s.members[i]);
    }
  }

  /** In every run, from the moment an operation is finished every member is
      ready, and stays so until an event of that operation is corrected. */
  lemma {:induction false} FinishedStaysReady(before: seq<Call>, org: nat, id: nat, o: nat, now: Time, after: seq<Call>)
    requires var s := Run(INIT, before);
             FirstIndex(s.operations, OperationKey(org, id)) == Some(o) && SetOperationStatus(s, org, id, Finished, now).result.Ok?
    requires forall c | c in after :: !(c.command.CmdCorrect? && c.command.operationId == id)
    ensures var t := Run(SetOperationStatus(Run(INIT, before), org, id, Finished, now).state, after);
            o < |t.operations| && t.operations[o].id == id && t.operations[o].status == Finished && MembersReady(t, id)
  {
    var s := Run(INIT, before);
    RunKeepsHistory(INIT, before);
    FinishingCloses(s, org, id, o, now);
    StepKeepsHistory(s, org, CmdSetStatus(id, Finished), now);
    ClosedUntilCorrected(SetOperationStatus(s, org, id, Finished, now).state, o, after);
  }
}
