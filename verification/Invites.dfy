/** Invitation codes: uses and registrations stay in balance. */
module Invites {
  import opened Common

  type Time = nat

  datatype InviteStatus = Active | Revoked | Exhausted

  function TextOf(s: InviteStatus): string { match s case Active => "active" case Revoked => "revoked" case Exhausted => "exhausted" }

  datatype Invite = Invite(
    id: nat, codeHash: string, codeHint: string, maxUses: nat, used: nat, expiresAt: Option<Time>, status: InviteStatus,
    note: string, createdBy: nat, createdAt: Time, updatedAt: Time)

  datatype RegistrationStatus = Waiting | Accepted | Rejected

  /** Who asks to be registered. */
  datatype Applicant = Applicant(
    organizationName: string, slug: string, contactName: string, contactPhone: string, adminUsername: string, passwordHash: string)

  function CleanedApplicant(a: Applicant): Applicant {
    a.(organizationName := Trim(a.organizationName), slug := Trim(a.slug), contactName := Trim(a.contactName),
       contactPhone := Trim(a.contactPhone), adminUsername := Trim(a.adminUsername))
  }

  datatype Registration = Registration(
    id: nat, inviteId: nat, applicant: Applicant, status: RegistrationStatus, organizationId: Option<nat>, reviewNote: string,
    reviewer: Option<nat>, reviewedAt: Option<Time>, createdAt: Time, updatedAt: Time)

  /** A decision about a registration; reviewer 0 stands for none. */
  datatype Review = Review(status: RegistrationStatus, organizationId: Option<nat>, note: string, reviewer: nat)

  function Reviewed(r: Registration, v: Review, now: Time): Registration {
    r.(status := v.status, organizationId := v.organizationId, reviewNote := Trim(v.note),
       reviewer := if v.reviewer == 0 then None else Some(v.reviewer), reviewedAt := Some(now), updatedAt := now)
  }

  datatype State = State(nextId: nat, invites: seq<Invite>, registrations: seq<Registration>)

  /** Id 1 is the first organization's. */
  const INIT := State(2, [], [])

  /** The two errors a registration can meet: the code is no good, or it is used up. */
  datatype Refusal = InvalidInvite | InviteExhausted

  datatype Answer = Registered(registration: Registration) | Refused(why: Refusal)

  datatype Outcome = Outcome(state: State, answer: Answer)

  predicate Past(i: Invite, now: Time) { i.expiresAt.Some? && i.expiresAt.value <= now }

  /** What listing does to an active invite whose time is over. */
  function Lapse(i: Invite, now: Time): Invite {
    if i.status == Active && Past(i, now) then i.(status := Revoked, updatedAt := now) else i
  }

  function LapseAll(invites: seq<Invite>, now: Time): (r: seq<Invite>)
    ensures |r| == |invites|
  {
    seq(|invites|, k requires 0 <= k < |invites| => Lapse(invites[k], now))
  }

  function StatusFilter(status: string): Invite -> bool { (i: Invite) => Trim(status) == "" || TextOf(i.status) == status }

  function HashKey(hash: string): Invite -> bool { (i: Invite) => i.codeHash == hash }

  function IdKey(id: nat): Invite -> bool { (i: Invite) => i.id == id }

  function RegistrationKey(id: nat): Registration -> bool { (r: Registration) => r.id == id }

  /** What is kept of a fresh code: its hash and its first eight characters. */
  datatype Code = Code(hash: string, hint: string)

  function AddInvite(s: State, code: Code, maxUses: nat, expiresAt: Option<Time>, note: string, creator: nat, now: Time): State {
    var i := Invite(s.nextId, code.hash, code.hint, if maxUses == 0 then 1 else maxUses, 0, expiresAt, Active, Trim(note), creator, now, now);
    s.(nextId := s.nextId + 1, invites := s.invites + [i])
  }

  function Revoke(s: State, id: nat, now: Time): (State, Result<()>) {
    match FirstIndex(s.invites, IdKey(id))
    case None => (s, Err(NotFound))
    case Some(k) =>
      if s.invites[k].status != Active then (s, Err(InvalidStatus))
      else (s.(invites := s.invites[k := s.invites[k].(status := Revoked, updatedAt := now)]), Ok(()))
  }

  function Register(s: State, hash: string, a: Applicant, now: Time): Outcome {
    match FirstIndex(s.invites, HashKey(hash))
    case None => Outcome(s, Refused(InvalidInvite))
    case Some(k) =>
      var i := s.invites[k];
      if i.status != Active || Past(i, now) then Outcome(s, Refused(InvalidInvite))
      else if i.used >= i.maxUses then Outcome(s.(invites := s.invites[k := i.(status := Exhausted)]), Refused(InviteExhausted))
      else
        var i' := i.(used := i.used + 1, status := if i.used + 1 >= i.maxUses then Exhausted else Active, updatedAt := now);
        var r := Registration(s.nextId, i.id, CleanedApplicant(a), Waiting, None, "", None, None, now, now);
        Outcome(State(s.nextId + 1, s.invites[k := i'], s.registrations + [r]), Registered(r))
  }

  function Settle(s: State, id: nat, v: Review, now: Time): (State, Result<()>) {
    match FirstIndex(s.registrations, RegistrationKey(id))
    case None => (s, Err(NotFound))
    case Some(k) => (s.(registrations := s.registrations[k := Reviewed(s.registrations[k], v, now)]), Ok(()))
  }

  class MemoryStore {
    var nextId: nat
    var invites: seq<Invite>
    var registrations: seq<Registration>

    ghost function View(): State
      reads this
    {
      State(nextId, invites, registrations)
    }

    constructor ()
      ensures View() == INIT
    {
      nextId, invites, registrations := 2, [], [];
    }

    /** Listing revokes what has expired. */
    method ListInvites(status: string, now: Time) returns (out: seq<Invite>)
      modifies this`invites
      ensures invites == LapseAll(old(invites), now) && out == Select(invites, StatusFilter(status))
    {
      out := [];
      ghost var lapsed := LapseAll(invites, now);
      for k := 0 to |invites|
        invariant |invites| == |lapsed|
        invariant forall j | 0 <= j < |invites| :: invites[j] == if j < k then lapsed[j] else old(invites)[j]
        invariant out == Select(lapsed[..k], StatusFilter(status))
      {
        assert lapsed[..k + 1][..k] == lapsed[..k];
        var item := Lapse(invites[k], now);
        invites := invites[k := item];
        if Trim(status) != "" && TextOf(item.status) != status {
          continue;
        }
        out := out + [item];
      }
      assert invites == lapsed && lapsed[..|lapsed|] == lapsed;
    }

    method CreateInvite(code: Code, maxUses: nat, expiresAt: Option<Time>, note: string, creator: nat, now: Time) returns (item: Invite)
      modifies this
      ensures View() == AddInvite(old(View()), code, maxUses, expiresAt, note, creator, now)
      ensures item == invites[|invites| - 1]
    {
      item := Invite(nextId, code.hash, code.hint, if maxUses == 0 then 1 else maxUses, 0, expiresAt, Active, Trim(note), creator, now, now);
      nextId, invites := nextId + 1, invites + [item];
    }

    method RevokeInvite(id: nat, now: Time) returns (result: Result<()>)
      modifies this`invites
      ensures (View(), result) == Revoke(old(View()), id, now)
    {
      var k := Scan(invites, IdKey(id));
      if k.None? {
        return Err(NotFound);
      }
      if invites[k.value].status != Active {
        return Err(InvalidStatus);
      }
      invites := invites[k.value := invites[k.value].(status := Revoked, updatedAt := now)];
      result := Ok(());
    }

    method CreateRegistration(hash: string, a: Applicant, now: Time) returns (answer: Answer)
      modifies this
      ensures Outcome(View(), answer) == Register(old(View()), hash, a, now)
    {
      var k := Scan(invites, HashKey(hash));
      if k.None? {
        return Refused(InvalidInvite);
      }
      var item := invites[k.value];
      if item.status != Active || Past(item, now) {
        return Refused(InvalidInvite);
      }
      if item.used >= item.maxUses {
        invites := invites[k.value := item.(status := Exhausted)];
        return Refused(InviteExhausted);
      }
      item := item.(used := item.used + 1);
      if item.used >= item.maxUses {
        item := item.(status := Exhausted);
      }
      invites := invites[k.value := item.(updatedAt := now)];
      var registration := Registration(nextId, item.id, CleanedApplicant(a), Waiting, None, "", None, None, now, now);
      nextId, registrations := nextId + 1, registrations + [registration];
      answer := Registered(registration);
    }

    method SetRegistrationStatus(id: nat, v: Review, now: Time) returns (result: Result<()>)
      modifies this`registrations
      ensures (View(), result) == Settle(old(View()), id, v, now)
    {
      var k := Scan(registrations, RegistrationKey(id));
      if k.None? {
        return Err(NotFound);
      }
      registrations := registrations[k.value := Reviewed(registrations[k.value], v, now)];
      result := Ok(());
    }
  }

  // ------------------------------------------------------------------- runs

  datatype Call =
    | CallList(now: Time)
    | CallCreate(code: Code, maxUses: nat, expiresAt: Option<Time>, note: string, creator: nat, now: Time)
    | CallRevoke(id: nat, now: Time)
    | CallRegister(hash: string, a: Applicant, now: Time)
    | CallSettle(id: nat, review: Review, now: Time)

  function Step(s: State, c: Call): State {
    match c
    case CallList(now) => s.(invites := LapseAll(s.invites, now))
    case CallCreate(code, maxUses, expiresAt, note, creator, now) => AddInvite(s, code, maxUses, expiresAt, note, creator, now)
    case CallRevoke(id, now) => Revoke(s, id, now).0
    case CallRegister(hash, a, now) => Register(s, hash, a, now).state
    case CallSettle(id, v, now) => Settle(s, id, v, now).0
  }

  function Run(s: State, calls: seq<Call>): State {
    if calls == [] then s else Step(Run(s, calls[..|calls| - 1]), calls[|calls| - 1])
  }

  /** How many registrations came in through an invite. */
  function UsesOf(rs: seq<Registration>, id: nat): nat {
    if rs == [] then 0 else UsesOf(rs[..|rs| - 1], id) + if rs[|rs| - 1].inviteId == id then 1 else 0
  }

  /** An invite's counter, limit and status tell the same story. */
  predicate Consistent(i: Invite) {
    && i.used <= i.maxUses && 1 <= i.maxUses
    && (i.status == Active ==> i.used < i.maxUses)
    && (i.status == Exhausted ==> i.used == i.maxUses)
    && (i.status == Revoked ==> i.used < i.maxUses)
  }

  ghost predicate Balanced(s: State) {
    && (forall k | 0 <= k < |s.invites| ::
          Consistent(s.invites[k]) && s.invites[k].id < s.nextId && s.invites[k].used == UsesOf(s.registrations, s.invites[k].id))
    && (forall j, k | 0 <= j < k < |s.invites| :: s.invites[j].id != s.invites[k].id)
    && (forall k | 0 <= k < |s.registrations| :: s.registrations[k].inviteId < s.nextId)
  }

  lemma UsesAppend(rs: seq<Registration>, r: Registration, id: nat)
    ensures UsesOf(rs + [r], id) == UsesOf(rs, id) + if r.inviteId == id then 1 else 0
  {
    assert (rs + [r])[..|rs|] == rs;
  }

  lemma {:induction false} NoUses(rs: seq<Registration>, id: nat)
    requires forall k | 0 <= k < |rs| :: rs[k].inviteId != id
    ensures UsesOf(rs, id) == 0
  {
    if rs != [] { NoUses(rs[..|rs| - 1], id); }
  }

  lemma {:induction false} UsesBySource(a: seq<Registration>, b: seq<Registration>, id: nat)
    requires |a| == |b| && forall k | 0 <= k < |a| :: a[k].inviteId == b[k].inviteId
    ensures UsesOf(a, id) == UsesOf(b, id)
  {
    if a != [] { UsesBySource(a[..|a| - 1], b[..|b| - 1], id); }
  }

  lemma RegisterKeeps(s: State, hash: string, a: Applicant, now: Time)
    requires Balanced(s)
    ensures Balanced(Register(s, hash, a, now).state)
    ensures Register(s, hash, a, now).answer != Refused(InviteExhausted)
  {
    var r := Register(s, hash, a, now);
    var k := FirstIndex(s.invites, HashKey(hash));
    if k.Some? { assert Consistent(s.invites[k.value]); }
    if r.answer.Registered? {
      var t := r.state;
      forall j | 0 <= j < |t.invites| ensures Consistent(t.invites[j]) && t.invites[j].used == UsesOf(t.registrations, t.invites[j].id) {
        UsesAppend(s.registrations, r.answer.registration, s.invites[j].id);
        assert Consistent(s.invites[j]);
      }
    }
  }

  lemma StepKeeps(s: State, c: Call)
    requires Balanced(s)
    ensures Balanced(Step(s, c))
  {
    match c
    case CallList(now) =>
    case CallCreate(code, maxUses, expiresAt, note, creator, now) => NoUses(s.registrations, s.nextId);
    case CallRevoke(id, now) =>
    case CallRegister(hash, a, now) => RegisterKeeps(s, hash, a, now);
    case CallSettle(id, v, now) =>
      var t := Settle(s, id, v, now).0;
      forall k | 0 <= k < |s.invites| ensures UsesOf(t.registrations, s.invites[k].id) == s.invites[k].used {
        UsesBySource(s.registrations, t.registrations, s.invites[k].id);
      }
  }

  lemma {:induction false} RunKeeps(s: State, calls: seq<Call>)
    requires Balanced(s)
    ensures Balanced(Run(s, calls))
  {
    if calls != [] {
      RunKeeps(s, calls[..|calls| - 1]);
      StepKeeps(Run(s, calls[..|calls| - 1]), calls[|calls| - 1]);
    }
  }

  /** In every run an invite's counter is its number of registrations and stays
      within its limit; it is exhausted exactly when no use remains. */
  lemma {:induction false} UsesAreRegistrations(calls: seq<Call>, k: nat)
    requires k < |Run(INIT, calls).invites|
    ensures var s := Run(INIT, calls); var i := s.invites[k];
            && i.used == UsesOf(s.registrations, i.id) && i.used <= i.maxUses
            && (i.status == Exhausted <==> i.used == i.maxUses)
  {
    RunKeeps(INIT, calls);
    assert Consistent(Run(INIT, calls).invites[k]);
  }

  /** No registration is ever told that the invite is used up: by then the
      invite has changed status and the answer is that it is not valid. */
  lemma {:induction false} ExhaustionIsNeverReported(calls: seq<Call>, hash: string, a: Applicant, now: Time)
    ensures Register(Run(INIT, calls), hash, a, now).answer != Refused(InviteExhausted)
  {
    RunKeeps(INIT, calls);
    RegisterKeeps(Run(INIT, calls), hash, a, now);
  }

  lemma {:induction false} SpentFrom(s: State, calls: seq<Call>, k: nat)
    requires Balanced(s) && k < |s.invites| && s.invites[k].status != Active
    ensures Balanced(Run(s, calls)) && k < |Run(s, calls).invites| && Run(s, calls).invites[k] == s.invites[k]
  {
    RunKeeps(s, calls);
    if calls != [] { SpentFrom(s, calls[..|calls| - 1], k); }
  }

  /** In every run, a revoked or exhausted invite never changes again and gains no registration. */
  lemma {:induction false} SpentInvitesStaySpent(before: seq<Call>, after: seq<Call>, k: nat)
    requires k < |Run(INIT, before).invites| && Run(INIT, before).invites[k].status != Active
    ensures var s := Run(INIT, before); var t := Run(s, after);
            && k < |t.invites| && t.invites[k] == s.invites[k]
            && UsesOf(t.registrations, s.invites[k].id) == UsesOf(s.registrations, s.invites[k].id)
  {
    RunKeeps(INIT, before);
    SpentFrom(Run(INIT, before), after, k);
  }

  /** The first invite with that code is active, and its time, if it has one, is not over. */
  ghost predicate Valid(invites: seq<Invite>, hash: string, now: Time) {
    exists k | 0 <= k < |invites| ::
      && invites[k].codeHash == hash && (forall j | 0 <= j < k :: invites[j].codeHash != hash)
      && invites[k].status == Active && (invites[k].expiresAt == None || now < invites[k].expiresAt.value)
  }

  /** In every run a code registers somebody exactly when it is that of an active
      invite that has not expired; the registration is the last one then, waiting,
      through that invite, for the applicant. */
  lemma {:induction false} RegistersWhen(calls: seq<Call>, hash: string, a: Applicant, now: Time)
    ensures var s := Run(INIT, calls); var r := Register(s, hash, a, now);
            && (r.answer.Registered? <==> Valid(s.invites, hash, now))
            && (if r.answer.Registered? then r.state.registrations == s.registrations + [r.answer.registration] && Admitted(s, r.answer.registration, hash, a)
                else r.state == s)
  {
    RunKeeps(INIT, calls);
    RegistersFrom(Run(INIT, calls), hash, a, now);
  }

  lemma RegistersFrom(s: State, hash: string, a: Applicant, now: Time)
    requires forall k | 0 <= k < |s.invites| :: Consistent(s.invites[k])
    ensures var r := Register(s, hash, a, now);
            && (r.answer.Registered? <==> Valid(s.invites, hash, now))
            && (if r.answer.Registered? then r.state.registrations == s.registrations + [r.answer.registration] && Admitted(s, r.answer.registration, hash, a)
                else r.state == s)
  {
    var f := FirstIndex(s.invites, HashKey(hash));
    FirstWithCode(s.invites, hash);
    if f.Some? { assert Consistent(s.invites[f.value]); }
  }

  lemma FirstWithCode(invites: seq<Invite>, hash: string)
    ensures var f := FirstIndex(invites, HashKey(hash));
            && (f.Some? ==> forall j | 0 <= j < f.value :: invites[j].codeHash != hash)
            && (forall k | 0 <= k < |invites| && invites[k].codeHash == hash && (forall j | 0 <= j < k :: invites[j].codeHash != hash) :: f == Some(k))
  {
    var f := FirstIndex(invites, HashKey(hash));
    forall j | 0 <= j < |invites| ensures HashKey(hash)(invites[j]) <==> invites[j].codeHash == hash {}
  }

  ghost predicate Admitted(s: State, r: Registration, hash: string, a: Applicant) {
    && r.status == Waiting && r.applicant.slug == Trim(a.slug) && r.applicant.adminUsername == Trim(a.adminUsername)
    && exists k | 0 <= k < |s.invites| :: s.invites[k].id == r.inviteId && s.invites[k].codeHash == hash
  }

  /** In every run listing leaves an invite active exactly when it was and has not expired, and revokes those that have. */
  lemma {:induction false} ListingRevokesExpired(calls: seq<Call>, now: Time, k: nat)
    requires k < |Run(INIT, calls).invites|
    ensures var i, l := Run(INIT, calls).invites[k], LapseAll(Run(INIT, calls).invites, now)[k];
            && l.id == i.id && l.used == i.used && l.codeHash == i.codeHash
            && l.status == if i.status == Active && i.expiresAt != None && i.expiresAt.value <= now then Revoked else i.status
  {
  }
}
