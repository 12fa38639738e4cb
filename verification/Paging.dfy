/** A parent's notification pages: following the cursor shows the first page's
    snapshot exactly, whatever arrives in between. */
module Paging {
  import opened Common
  import opened PickupModel
  import opened PickupSpec
  import opened PickupRuns
  import opened PickupHistory
  import opened PickupLedger
  import opened PickupConservation
  import opened PickupStore
  import opened DispatcherRuns

  // ----------------------------------------------------------- one request

  /** Whose notifications, and of which kind (any, when empty). */
  datatype Inbox = Inbox(org: nat, allowed: set<nat>, kind: string)

  datatype Page = Page(items: seq<Notification>, total: nat, unread: nat, next: nat)

  predicate IsMessageKind(kind: string) { kind in {"pickup", "meal", "homework", "leave", "summary"} }

  predicate Wanted(n: Notification, v: Inbox) { n.studentId in v.allowed && (v.kind == "" || n.kind == v.kind) }

  function OrgKey(org: nat): Notification -> bool { (n: Notification) => n.org == org }

  function UnreadKey(v: Inbox): Notification -> bool { (n: Notification) => Wanted(n, v) && n.readAt.None? }

  function BelowKey(v: Inbox, cursor: nat): Notification -> bool {
    (n: Notification) => Wanted(n, v) && (cursor == 0 || n.id < cursor)
  }

  function Reversed<T>(xs: seq<T>): (r: seq<T>)
    ensures |r| == |xs|
  {
    if xs == [] then [] else [xs[|xs| - 1]] + Reversed(xs[..|xs| - 1])
  }

  /** All of an organization's notifications, newest first. */
  function ListNotifications(ns: seq<Notification>, org: nat): seq<Notification> { Reversed(Select(ns, OrgKey(org))) }

  function PageOf(ns: seq<Notification>, v: Inbox, cursor: nat, limit: nat): Page
    requires limit > 0
  {
    var listed := ListNotifications(ns, v.org);
    var filtered := Select(listed, BelowKey(v, cursor));
    var items := if |filtered| < limit then filtered else filtered[..limit];
    Page(items, |filtered|, |Select(listed, UnreadKey(v))|, if |items| == limit then items[limit - 1].id else 0)
  }

  lemma ReversedAppend<T>(xs: seq<T>, x: T)
    ensures Reversed(xs + [x]) == [x] + Reversed(xs)
  {
    assert (xs + [x])[..|xs|] == xs;
  }

  /** What slices.Reverse leaves. */
  method ReverseAll(xs: seq<Notification>) returns (r: seq<Notification>)
    ensures r == Reversed(xs)
  {
    r := [];
    for i := 0 to |xs|
      invariant r == Reversed(xs[..i])
    {
      ReversedAppend(xs[..i], xs[i]);
      assert xs[..i + 1] == xs[..i] + [xs[i]];
      r := [xs[i]] + r;
    }
    assert xs[..|xs|] == xs;
  }

  /** The loop that fills the page. */
  method FirstOf(filtered: seq<Notification>, limit: nat) returns (out: seq<Notification>)
    ensures out == if |filtered| < limit then filtered else filtered[..limit]
  {
    out := [];
    for i := 0 to |filtered|
      invariant out == filtered[..i] && i <= limit
    {
      if |out| >= limit {
        break;
      }
      out := out + [filtered[i]];
    }
  }

  /** The loop that counts the unread and keeps what is below the cursor. */
  method Below(items: seq<Notification>, v: Inbox, cursor: nat) returns (filtered: seq<Notification>, unread: nat)
    ensures filtered == Select(items, BelowKey(v, cursor)) && unread == |Select(items, UnreadKey(v))|
  {
    unread := 0;
    filtered := [];
    for i := 0 to |items|
      invariant filtered == Select(items[..i], BelowKey(v, cursor))
      invariant unread == |Select(items[..i], UnreadKey(v))|
    {
      assert items[..i + 1][..i] == items[..i];
      var item := items[i];
      if !Wanted(item, v) {
        continue;
      }
      if item.readAt.None? {
        unread := unread + 1;
      }
      if cursor != 0 && item.id >= cursor {
        continue;
      }
      filtered := filtered + [item];
    }
    assert items[..|items|] == items;
  }

  /** The handler: count, filter and cut in one request. */
  method ListPage(store: MemoryStore, v: Inbox, cursor: nat, limit: int) returns (result: Result<Page>)
    ensures result == if (v.kind != "" && !IsMessageKind(v.kind)) || limit <= 0 || limit > 100 then Err(InvalidInput)
                      else Ok(PageOf(store.notifications, v, cursor, limit))
    ensures result.Err? <==> v.kind !in {"", "pickup", "meal", "homework", "leave", "summary"} || limit <= 0 || limit > 100
    ensures result.Ok? ==> PageTells(store.notifications, v, cursor, limit, result.value)
  {
    if (v.kind != "" && !IsMessageKind(v.kind)) || limit <= 0 || limit > 100 {
      return Err(InvalidInput);
    }
    var mine := Filter(store.notifications, OrgKey(v.org));
    var items := ReverseAll(mine);
    var filtered, unread := Below(items, v, cursor);
    var out := FirstOf(filtered, limit);
    var next := if |out| == limit then out[|out| - 1].id else 0;
    result := Ok(Page(out, |filtered|, unread, next));
    PageIsRight(store.notifications, v, cursor, limit);
  }

  // ------------------------------------------- what a page is to show

  /** A notification of the organization, for one of the parent's children, of the kind asked for. */
  ghost predicate ForInbox(n: Notification, v: Inbox) {
    n.org == v.org && n.studentId in v.allowed && (v.kind == "" || n.kind == v.kind)
  }

  ghost predicate Under(n: Notification, cursor: nat) { cursor == 0 || n.id < cursor }

  /** The page holds the inbox's notifications under the cursor and no others,
      all of them unless it is full, then the newest; the counters count. */
  ghost predicate PageTells(ns: seq<Notification>, v: Inbox, cursor: nat, limit: nat, page: Page) {
    && page.total == |set k: nat | k < |ns| && ForInbox(ns[k], v) && Under(ns[k], cursor)|
    && page.unread == |set k: nat | k < |ns| && ForInbox(ns[k], v) && ns[k].readAt.None?|
    && |page.items| == (if page.total < limit then page.total else limit)
    && (forall n | n in page.items :: n in ns && ForInbox(n, v) && Under(n, cursor))
    && (forall n | n in ns && ForInbox(n, v) && Under(n, cursor) && n !in page.items ::
          |page.items| == limit && (Ascending(ns) ==> forall x | x in page.items :: n.id < x.id))
    && (Ascending(ns) ==> forall i, j | 0 <= i < j < |page.items| :: page.items[i].id > page.items[j].id)
  }

  lemma {:induction false} ReversedHas<T>(xs: seq<T>, x: T)
    ensures x in Reversed(xs) <==> x in xs
  {
    if xs != [] {
      assert xs == xs[..|xs| - 1] + [xs[|xs| - 1]];
      ReversedHas(xs[..|xs| - 1], x);
    }
  }

  lemma {:induction false} ReversedSelects<T>(xs: seq<T>, p: T -> bool)
    ensures |Select(Reversed(xs), p)| == |Select(xs, p)|
  {
    if xs != [] {
      ReversedSelects(xs[..|xs| - 1], p);
      SelectPrepend(xs[|xs| - 1], Reversed(xs[..|xs| - 1]), p);
    }
  }

  /** Filtering the newest-first list twice counts the places that pass both filters. */
  lemma ListedCounts(ns: seq<Notification>, org: nat, p: Notification -> bool, all: set<nat>)
    requires forall k: nat :: k in all <==> k < |ns| && ns[k].org == org && p(ns[k])
    ensures |Select(ListNotifications(ns, org), p)| == |all|
  {
    var both := (n: Notification) => n.org == org && p(n);
    ReversedSelects(Select(ns, OrgKey(org)), p);
    SelectTwice(ns, OrgKey(org), p, both);
    SelectCounts(ns, both);
    assert Places(ns, both) == all;
  }

  lemma FilteredHas(ns: seq<Notification>, v: Inbox, cursor: nat, n: Notification)
    ensures n in Select(ListNotifications(ns, v.org), BelowKey(v, cursor)) <==> n in ns && ForInbox(n, v) && Under(n, cursor)
  {
    ReversedHas(Select(ns, OrgKey(v.org)), n);
    assert n in Select(ns, OrgKey(v.org)) <==> n in ns && OrgKey(v.org)(n);
  }

  /** The filtered list is newest first. */
  lemma FilteredDescends(ns: seq<Notification>, v: Inbox, cursor: nat)
    requires Ascending(ns)
    ensures var ids := IdsOf(Select(ListNotifications(ns, v.org), BelowKey(v, cursor)));
            forall i, j | 0 <= i < j < |ids| :: ids[i] > ids[j]
  {
    FilteredIsPicked(ns, v, cursor);
    PickedAscends(ns, v, cursor);
    ReversedAt(Picked(ns, v, cursor));
  }

  lemma PageIsRight(ns: seq<Notification>, v: Inbox, cursor: nat, limit: nat)
    requires limit > 0
    ensures PageTells(ns, v, cursor, limit, PageOf(ns, v, cursor, limit))
  {
    var filtered, page := Select(ListNotifications(ns, v.org), BelowKey(v, cursor)), PageOf(ns, v, cursor, limit);
    ListedCounts(ns, v.org, BelowKey(v, cursor), set k: nat | k < |ns| && ForInbox(ns[k], v) && Under(ns[k], cursor));
    ListedCounts(ns, v.org, UnreadKey(v), set k: nat | k < |ns| && ForInbox(ns[k], v) && ns[k].readAt.None?);
    if Ascending(ns) { FilteredDescends(ns, v, cursor); }
    forall n ensures n in filtered <==> n in ns && ForInbox(n, v) && Under(n, cursor) { FilteredHas(ns, v, cursor, n); }
    CutTells(ns, filtered, page.items, limit);
  }

  /** Cutting a newest-first list leaves out only what is older. */
  lemma CutTells(ns: seq<Notification>, filtered: seq<Notification>, items: seq<Notification>, limit: nat)
    requires items == if |filtered| < limit then filtered else filtered[..limit]
    requires Ascending(ns) ==> forall i, j | 0 <= i < j < |filtered| :: IdsOf(filtered)[i] > IdsOf(filtered)[j]
    ensures forall n | n in items :: n in filtered
    ensures forall n | n in filtered && n !in items :: |items| == limit && (Ascending(ns) ==> forall x | x in items :: n.id < x.id)
    ensures Ascending(ns) ==> forall i, j | 0 <= i < j < |items| :: items[i].id > items[j].id
  {
    forall n, x | n in filtered && n !in items && x in items && Ascending(ns) ensures n.id < x.id {
      var j :| 0 <= j < |filtered| && filtered[j] == n;
      var i :| 0 <= i < |items| && items[i] == x;
      assert items[i] == filtered[i];
      assert IdsOf(filtered)[i] > IdsOf(filtered)[j];
    }
    forall i, j | 0 <= i < j < |items| && Ascending(ns) ensures items[i].id > items[j].id {
      assert IdsOf(filtered)[i] > IdsOf(filtered)[j];
    }
  }

  // ------------------------------------------------------- pages, as ids

  function IdsOf(ns: seq<Notification>): (r: seq<nat>)
    ensures |r| == |ns| && forall k | 0 <= k < |ns| :: r[k] == ns[k].id
  {
    seq(|ns|, k requires 0 <= k < |ns| => ns[k].id)
  }

  /** The ids a page is cut from, oldest first: an independent reading of the filters. */
  ghost function Picked(ns: seq<Notification>, v: Inbox, cursor: nat): seq<nat> {
    if ns == [] then []
    else
      var n := ns[|ns| - 1];
      Picked(ns[..|ns| - 1], v, cursor) + if ForInbox(n, v) && Under(n, cursor) then [n.id] else []
  }

  /** One more notification at the end of the log is one more at the front of the list. */
  lemma FilteredAppend(init: seq<Notification>, n: Notification, v: Inbox, cursor: nat)
    ensures Select(ListNotifications(init + [n], v.org), BelowKey(v, cursor))
         == (if n.org == v.org && BelowKey(v, cursor)(n) then [n] else []) + Select(ListNotifications(init, v.org), BelowKey(v, cursor))
  {
    assert (init + [n])[..|init|] == init;
    if n.org == v.org {
      ReversedAppend(Select(init, OrgKey(v.org)), n);
      SelectPrepend(n, ListNotifications(init, v.org), BelowKey(v, cursor));
    }
  }

  lemma IdsPrepend(n: Notification, ns: seq<Notification>)
    ensures IdsOf([n] + ns) == [n.id] + IdsOf(ns)
  {
  }

  lemma PickedAppend(init: seq<Notification>, n: Notification, v: Inbox, cursor: nat)
    ensures Picked(init + [n], v, cursor) == Picked(init, v, cursor) + if ForInbox(n, v) && Under(n, cursor) then [n.id] else []
  {
    assert (init + [n])[..|init|] == init;
  }

  lemma {:induction false} FilteredIsPicked(ns: seq<Notification>, v: Inbox, cursor: nat)
    ensures IdsOf(Select(ListNotifications(ns, v.org), BelowKey(v, cursor))) == Reversed(Picked(ns, v, cursor))
  {
    if ns != [] {
      assert ns == ns[..|ns| - 1] + [ns[|ns| - 1]];
      FilteredIsPicked(ns[..|ns| - 1], v, cursor);
      FilteredStep(ns[..|ns| - 1], ns[|ns| - 1], v, cursor);
    }
  }

  lemma FilteredStep(init: seq<Notification>, n: Notification, v: Inbox, cursor: nat)
    requires IdsOf(Select(ListNotifications(init, v.org), BelowKey(v, cursor))) == Reversed(Picked(init, v, cursor))
    ensures IdsOf(Select(ListNotifications(init + [n], v.org), BelowKey(v, cursor))) == Reversed(Picked(init + [n], v, cursor))
  {
    var rest, picked := Select(ListNotifications(init, v.org), BelowKey(v, cursor)), Picked(init, v, cursor);
    FilteredAppend(init, n, v, cursor);
    PickedAppend(init, n, v, cursor);
    if n.org == v.org && BelowKey(v, cursor)(n) {
      ReversedAppend(picked, n.id);
      IdsPrepend(n, rest);
    } else {
      assert [] + rest == rest && picked + [] == picked;
    }
  }

  ghost predicate Ascending(ns: seq<Notification>) { forall i, j | 0 <= i < j < |ns| :: ns[i].id < ns[j].id }

  lemma {:induction false} CursorBeyond(ns: seq<Notification>, v: Inbox, cursor: nat, c: nat)
    requires c != 0 && (cursor == 0 || c <= cursor) && forall i | 0 <= i < |ns| :: ns[i].id < c
    ensures Picked(ns, v, c) == Picked(ns, v, cursor)
  {
    if ns != [] { CursorBeyond(ns[..|ns| - 1], v, cursor, c); }
  }

  lemma {:induction false} PickedBelow(ns: seq<Notification>, v: Inbox, cursor: nat)
    ensures forall k | 0 <= k < |Picked(ns, v, cursor)| ::
              (exists i :: 0 <= i < |ns| && ns[i].id == Picked(ns, v, cursor)[k]) && (cursor == 0 || Picked(ns, v, cursor)[k] < cursor)
  {
    if ns != [] {
      var init := ns[..|ns| - 1];
      PickedBelow(init, v, cursor);
      forall k | 0 <= k < |Picked(ns, v, cursor)| ensures exists i :: 0 <= i < |ns| && ns[i].id == Picked(ns, v, cursor)[k] {
        if k < |Picked(init, v, cursor)| {
          assert Picked(init, v, cursor)[k] == Picked(ns, v, cursor)[k];
          var i :| 0 <= i < |init| && init[i].id == Picked(init, v, cursor)[k];
          assert ns[i].id == Picked(ns, v, cursor)[k];
        } else {
          assert ns[|ns| - 1].id == Picked(ns, v, cursor)[k];
        }
      }
    }
  }

  /** Continuing below an id of the page leaves exactly what came before it. */
  lemma {:induction false} CursorCuts(ns: seq<Notification>, v: Inbox, cursor: nat, j: nat)
    requires Ascending(ns) && j < |Picked(ns, v, cursor)| && forall i | 0 <= i < |ns| :: ns[i].id != 0
    ensures var c := Picked(ns, v, cursor)[j]; c != 0 && Picked(ns, v, c) == Picked(ns, v, cursor)[..j]
  {
    if ns != [] {
      var init, n := ns[..|ns| - 1], ns[|ns| - 1];
      var c := Picked(ns, v, cursor)[j];
      PickedBelow(init, v, cursor);
      if j < |Picked(init, v, cursor)| {
        assert c == Picked(init, v, cursor)[j];
        var i :| 0 <= i < |init| && init[i].id == c;
        assert ns[i].id < n.id;
        CursorCuts(init, v, cursor, j);
      } else {
        assert c == n.id;
        forall i | 0 <= i < |init| ensures init[i].id < c { assert ns[i].id < n.id; }
        CursorBeyond(init, v, cursor, c);
      }
    }
  }

  // ------------------------------------------- between two pages of a parent

  /** Later notifications follow the earlier ones, which keep who and what they are for. */
  ghost predicate Continues(a: seq<Notification>, b: seq<Notification>) {
    |a| <= |b| && forall k | 0 <= k < |a| :: SameFace(a[k], b[k])
  }

  lemma StepContinues(s: State, org: nat, c: Command, now: Time)
    ensures Continues(s.notifications, Step(s, org, c, now).notifications)
  {
    if Announcing(c) {
      AnnouncingExtends(s, org, c, now);
      var t := Step(s, org, c, now);
      forall k | 0 <= k < |s.notifications| ensures t.notifications[k] == s.notifications[k] {
        assert t.notifications[..|s.notifications|][k] == s.notifications[k];
      }
    } else if c.CmdMarkRead? || c.CmdRetry? || c.CmdClaim? || c.CmdComplete? || c.CmdSetNotice? {
      DeliveryStepEdits(s, org, c, now);
    } else {
      OtherStepEdits(s, org, c, now);
    }
  }

  lemma ContinuesTwice(a: seq<Notification>, b: seq<Notification>, c: seq<Notification>)
    requires Continues(a, b) && Continues(b, c)
    ensures Continues(a, c)
  {
    forall k | 0 <= k < |a| ensures SameFace(a[k], c[k]) { assert SameFace(a[k], b[k]) && SameFace(b[k], c[k]); }
  }

  lemma {:induction false} RunContinues(s: State, calls: seq<Call>)
    ensures Continues(s.notifications, Run(s, calls).notifications)
  {
    if calls != [] {
      var init, c := calls[..|calls| - 1], calls[|calls| - 1];
      RunContinues(s, init);
      StepContinues(Run(s, init), c.org, c.command, c.now);
      ContinuesTwice(s.notifications, Run(s, init).notifications, Run(s, calls).notifications);
    }
  }

  /** New notifications have ids at or above the cursor, so they are not picked. */
  lemma {:induction false} NewerNotPicked(a: seq<Notification>, b: seq<Notification>, v: Inbox, cursor: nat)
    requires Continues(a, b) && cursor != 0 && forall k | |a| <= k < |b| :: b[k].id >= cursor
    ensures Picked(b, v, cursor) == Picked(a, v, cursor)
    decreases |b|
  {
    if |b| > |a| {
      NewerNotPicked(a, b[..|b| - 1], v, cursor);
    } else if a != [] {
      assert SameFace(a[|a| - 1], b[|b| - 1]);
      NewerNotPicked(a[..|a| - 1], b[..|b| - 1], v, cursor);
    }
  }

  ghost predicate Numbered(s: State) { Ascending(s.notifications) && forall i | 0 <= i < |s.notifications| :: s.notifications[i].id != 0 }

  lemma TidyIsNumbered(s: State)
    requires TidyState(s)
    ensures Numbered(s)
  {
    var ids := LedgerOf(s).lists[NOTICES];
    assert PickupLedger.Rising(ids, s.nextId);
    forall i, j | 0 <= i < j < |s.notifications| ensures s.notifications[i].id < s.notifications[j].id { assert ids[i] < ids[j]; }
    forall i | 0 <= i < |s.notifications| ensures s.notifications[i].id != 0 { assert ids[i] >= 1; }
  }

  // --------------------------------------------------- following the cursor

  /** What the store goes through before a page is asked for, and the page's limit. */
  datatype Visit = Visit(calls: seq<Call>, limit: nat)

  /** The pages a client sees that follows next_cursor until it is 0 or it stops asking. */
  function Follow(s: State, v: Inbox, cursor: nat, visits: seq<Visit>): (pages: seq<seq<nat>>)
    requires forall i | 0 <= i < |visits| :: visits[i].limit > 0
    decreases |visits|
  {
    if visits == [] then []
    else
      var t := Run(s, visits[0].calls);
      var page := PageOf(t.notifications, v, cursor, visits[0].limit);
      [IdsOf(page.items)] + if page.next == 0 then [] else Follow(t, v, page.next, visits[1..])
  }

  /** Whether it saw next_cursor 0. */
  function Reached(s: State, v: Inbox, cursor: nat, visits: seq<Visit>): bool
    requires forall i | 0 <= i < |visits| :: visits[i].limit > 0
    decreases |visits|
  {
    visits != [] &&
    var t := Run(s, visits[0].calls);
    var page := PageOf(t.notifications, v, cursor, visits[0].limit);
    page.next == 0 || Reached(t, v, page.next, visits[1..])
  }

  function Concat(pages: seq<seq<nat>>): seq<nat> { if pages == [] then [] else pages[0] + Concat(pages[1..]) }

  lemma {:induction false} ReversedCut(xs: seq<nat>, m: nat)
    requires m <= |xs|
    ensures Reversed(xs) == Reversed(xs[|xs| - m..]) + Reversed(xs[..|xs| - m]) && (m > 0 ==> Reversed(xs)[m - 1] == xs[|xs| - m])
  {
    if m == 0 {
      assert xs[..|xs|] == xs && xs[|xs|..] == [];
    } else {
      var init := xs[..|xs| - 1];
      ReversedCut(init, m - 1);
      assert xs[|xs| - m..][..m - 1] == init[|init| - (m - 1)..];
      assert xs[..|xs| - m] == init[..|init| - (m - 1)];
    }
  }

  /** One page: its ids, and the cursor that continues after it. */
  lemma PageCuts(s: State, v: Inbox, cursor: nat, limit: nat)
    requires Numbered(s) && limit > 0
    ensures var all := Reversed(Picked(s.notifications, v, cursor)); var page := PageOf(s.notifications, v, cursor, limit);
            if |all| < limit then IdsOf(page.items) == all && page.next == 0
            else page.next != 0 && IdsOf(page.items) == all[..limit]
                 && Reversed(Picked(s.notifications, v, page.next)) == all[limit..]
                 && exists i :: 0 <= i < |s.notifications| && s.notifications[i].id == page.next
  {
    var picked := Picked(s.notifications, v, cursor);
    FilteredIsPicked(s.notifications, v, cursor);
    PageOfIds(s.notifications, v, cursor, limit);
    if |picked| >= limit {
      ReversedHalves(picked, limit);
      CursorCuts(s.notifications, v, cursor, |picked| - limit);
      PickedBelow(s.notifications, v, cursor);
    }
  }

  /** A page in ids: the first of what the filters leave. */
  lemma PageOfIds(ns: seq<Notification>, v: Inbox, cursor: nat, limit: nat)
    requires limit > 0
    ensures var ids := IdsOf(Select(ListNotifications(ns, v.org), BelowKey(v, cursor))); var page := PageOf(ns, v, cursor, limit);
            if |ids| < limit then IdsOf(page.items) == ids && page.next == 0
            else IdsOf(page.items) == ids[..limit] && page.next == ids[limit - 1]
  {
    var filtered := Select(ListNotifications(ns, v.org), BelowKey(v, cursor));
    if |filtered| >= limit { assert IdsOf(filtered[..limit]) == IdsOf(filtered)[..limit]; }
  }

  lemma ReversedHalves(xs: seq<nat>, m: nat)
    requires 0 < m <= |xs|
    ensures Reversed(xs)[..m] == Reversed(xs[|xs| - m..]) && Reversed(xs)[m..] == Reversed(xs[..|xs| - m])
    ensures Reversed(xs)[m - 1] == xs[|xs| - m]
  {
    ReversedCut(xs, m);
  }

  lemma LaterPicksTheSame(s: State, calls: seq<Call>, v: Inbox, cursor: nat, i: nat)
    requires History(s) && TidyState(s) && i < |s.notifications| && s.notifications[i].id == cursor
    ensures History(Run(s, calls)) && TidyState(Run(s, calls))
    ensures Picked(Run(s, calls).notifications, v, cursor) == Picked(s.notifications, v, cursor)
  {
    var t := Run(s, calls);
    RunContinues(s, calls);
    RunKeepsTidy(s, calls);
    TidyIsNumbered(s);
    TidyIsNumbered(t);
    assert SameFace(s.notifications[i], t.notifications[i]);
    NewerNotPicked(s.notifications, t.notifications, v, cursor);
  }

  lemma {:induction false} RunKeepsTidy(s: State, calls: seq<Call>)
    requires History(s) && TidyState(s)
    ensures History(Run(s, calls)) && TidyState(Run(s, calls))
  {
    if calls != [] {
      var init, c := calls[..|calls| - 1], calls[|calls| - 1];
      RunKeepsTidy(s, init);
      StepKeepsHistory(Run(s, init), c.org, c.command, c.now);
      StepKeepsTidy(Run(s, init), c.org, c.command, c.now);
    }
  }

  /** What a traversal has shown is a prefix of what its first request could see, and all of it once it ends. */
  ghost predicate Shows(s: State, v: Inbox, cursor: nat, visits: seq<Visit>)
    requires visits != [] && forall i | 0 <= i < |visits| :: visits[i].limit > 0
  {
    Fits(Reversed(Picked(Run(s, visits[0].calls).notifications, v, cursor)), Concat(Follow(s, v, cursor, visits)),
         Reached(s, v, cursor, visits), |visits|)
  }

  /** After `asked` requests: what was seen of `all`, and whether that was the end. */
  predicate Fits(all: seq<nat>, seen: seq<nat>, reached: bool, asked: nat) {
    seen <= all && (reached ==> seen == all) && (asked > |all| ==> reached)
  }

  lemma FitsMore(all: seq<nat>, limit: nat, seen: seq<nat>, reached: bool, asked: nat)
    requires 0 < limit <= |all| && Fits(all[limit..], seen, reached, asked)
    ensures Fits(all, all[..limit] + seen, reached, asked + 1)
  {
    assert all == all[..limit] + all[limit..];
  }

  lemma {:induction false} FollowShows(s: State, v: Inbox, cursor: nat, visits: seq<Visit>)
    requires History(s) && TidyState(s) && visits != [] && forall i | 0 <= i < |visits| :: visits[i].limit > 0
    ensures Shows(s, v, cursor, visits)
    decreases |visits|
  {
    var t := Run(s, visits[0].calls);
    RunKeepsTidy(s, visits[0].calls);
    TidyIsNumbered(t);
    var page := PageOf(t.notifications, v, cursor, visits[0].limit);
    if page.next == 0 || visits[1..] == [] {
      LastPageShows(s, v, cursor, visits);
    } else {
      FollowShows(t, v, page.next, visits[1..]);
      PageCuts(t, v, cursor, visits[0].limit);
      var i :| 0 <= i < |t.notifications| && t.notifications[i].id == page.next;
      LaterPicksTheSame(t, visits[1].calls, v, page.next, i);
      NextPageShows(s, v, cursor, visits, page);
    }
  }

  lemma LastPageShows(s: State, v: Inbox, cursor: nat, visits: seq<Visit>)
    requires visits != [] && forall i | 0 <= i < |visits| :: visits[i].limit > 0
    requires Numbered(Run(s, visits[0].calls))
    requires PageOf(Run(s, visits[0].calls).notifications, v, cursor, visits[0].limit).next == 0 || visits[1..] == []
    ensures Shows(s, v, cursor, visits)
  {
    PageCuts(Run(s, visits[0].calls), v, cursor, visits[0].limit);
    OnePage(s, v, cursor, visits);
  }

  lemma OnePage(s: State, v: Inbox, cursor: nat, visits: seq<Visit>)
    requires visits != [] && forall i | 0 <= i < |visits| :: visits[i].limit > 0
    requires PageOf(Run(s, visits[0].calls).notifications, v, cursor, visits[0].limit).next == 0 || visits[1..] == []
    ensures var page := PageOf(Run(s, visits[0].calls).notifications, v, cursor, visits[0].limit);
            Concat(Follow(s, v, cursor, visits)) == IdsOf(page.items) && (Reached(s, v, cursor, visits) <==> page.next == 0)
  {
    var t := Run(s, visits[0].calls);
    var page := PageOf(t.notifications, v, cursor, visits[0].limit);
    if page.next != 0 { assert Follow(t, v, page.next, visits[1..]) == [] && !Reached(t, v, page.next, visits[1..]); }
    assert Follow(s, v, cursor, visits) == [IdsOf(page.items)] + [];
    ConcatFirst(IdsOf(page.items), []);
    assert IdsOf(page.items) + [] == IdsOf(page.items);
  }

  lemma NextPageShows(s: State, v: Inbox, cursor: nat, visits: seq<Visit>, page: Page)
    requires |visits| > 1 && forall i | 0 <= i < |visits| :: visits[i].limit > 0
    requires Numbered(Run(s, visits[0].calls))
    requires page == PageOf(Run(s, visits[0].calls).notifications, v, cursor, visits[0].limit) && page.next != 0
    requires var t := Run(s, visits[0].calls);
             Fits(Reversed(Picked(t.notifications, v, page.next)), Concat(Follow(t, v, page.next, visits[1..])),
                  Reached(t, v, page.next, visits[1..]), |visits| - 1)
    ensures Shows(s, v, cursor, visits)
  {
    var t := Run(s, visits[0].calls);
    PageCuts(t, v, cursor, visits[0].limit);
    FitsMore(Reversed(Picked(t.notifications, v, cursor)), visits[0].limit, Concat(Follow(t, v, page.next, visits[1..])),
             Reached(t, v, page.next, visits[1..]), |visits| - 1);
    MorePages(s, v, cursor, visits, page);
  }

  /** Going on after a page: its ids come first, and the end is reached when the rest reaches it. */
  lemma MorePages(s: State, v: Inbox, cursor: nat, visits: seq<Visit>, page: Page)
    requires visits != [] && forall i | 0 <= i < |visits| :: visits[i].limit > 0
    requires page == PageOf(Run(s, visits[0].calls).notifications, v, cursor, visits[0].limit) && page.next != 0
    ensures var t := Run(s, visits[0].calls);
            && Concat(Follow(s, v, cursor, visits)) == IdsOf(page.items) + Concat(Follow(t, v, page.next, visits[1..]))
            && (Reached(s, v, cursor, visits) <==> Reached(t, v, page.next, visits[1..]))
  {
    var t := Run(s, visits[0].calls);
    assert Follow(s, v, cursor, visits) == [IdsOf(page.items)] + Follow(t, v, page.next, visits[1..]);
    ConcatFirst(IdsOf(page.items), Follow(t, v, page.next, visits[1..]));
  }

  lemma ConcatFirst(first: seq<nat>, rest: seq<seq<nat>>)
    ensures Concat([first] + rest) == first + Concat(rest)
  {
    assert ([first] + rest)[1..] == rest;
  }

  /** Newest first, each once: the ids below a cursor are strictly descending. */
  lemma {:induction false} PickedAscends(ns: seq<Notification>, v: Inbox, cursor: nat)
    requires Ascending(ns)
    ensures forall i, j | 0 <= i < j < |Picked(ns, v, cursor)| :: Picked(ns, v, cursor)[i] < Picked(ns, v, cursor)[j]
  {
    if ns != [] {
      PickedAscends(ns[..|ns| - 1], v, cursor);
      PickedBelow(ns[..|ns| - 1], v, cursor);
    }
  }

  /** In every run: from cursor 0, whatever calls come before each page and
      whatever its limit, the pages in order are a prefix of the parent's
      notifications at the first request, newest first, each once; all of
      them when next_cursor comes back 0, which it does after at most one
      request more than there are notifications. */
  lemma {:induction false} PagesShowTheSnapshot(before: seq<Call>, v: Inbox, visits: seq<Visit>) returns (wanted: seq<nat>)
    requires visits != [] && forall i | 0 <= i < |visits| :: visits[i].limit > 0
    ensures var first := Run(Run(INIT, before), visits[0].calls);
            && (forall id :: id in wanted <==> exists k | 0 <= k < |first.notifications| ::
                  var n := first.notifications[k];
                  n.id == id && n.org == v.org && n.studentId in v.allowed && (v.kind == "" || n.kind == v.kind))
            && (forall i, j | 0 <= i < j < |wanted| :: wanted[i] > wanted[j])
    ensures var s := Run(INIT, before); var seen := Concat(Follow(s, v, 0, visits));
            seen <= wanted && (Reached(s, v, 0, visits) ==> seen == wanted) && (|visits| > |wanted| ==> Reached(s, v, 0, visits))
  {
    var s := Run(INIT, before);
    RunKeepsHistory(INIT, before);
    EveryIdOnce(before);
    FollowShows(s, v, 0, visits);
    var first := Run(s, visits[0].calls);
    RunKeepsTidy(s, visits[0].calls);
    TidyIsNumbered(first);
    wanted := Reversed(Picked(first.notifications, v, 0));
    SnapshotIs(first.notifications, v, wanted);
  }

  /** The snapshot, as ids: the inbox's notifications, newest first. */
  lemma SnapshotIs(ns: seq<Notification>, v: Inbox, wanted: seq<nat>)
    requires Ascending(ns) && wanted == Reversed(Picked(ns, v, 0))
    ensures forall id :: id in wanted <==> exists k | 0 <= k < |ns| ::
              ns[k].id == id && ns[k].org == v.org && ns[k].studentId in v.allowed && (v.kind == "" || ns[k].kind == v.kind)
    ensures forall i, j | 0 <= i < j < |wanted| :: wanted[i] > wanted[j]
  {
    var filtered := Select(ListNotifications(ns, v.org), BelowKey(v, 0));
    FilteredIsPicked(ns, v, 0);
    FilteredDescends(ns, v, 0);
    forall id ensures id in wanted <==> exists k | 0 <= k < |ns| ::
                ns[k].id == id && ns[k].org == v.org && ns[k].studentId in v.allowed && (v.kind == "" || ns[k].kind == v.kind)
    {
      if id in wanted {
        var i :| 0 <= i < |wanted| && wanted[i] == id;
        assert filtered[i].id == id && filtered[i] in filtered;
        FilteredHas(ns, v, 0, filtered[i]);
        var k :| 0 <= k < |ns| && ns[k] == filtered[i];
      }
      if k :| 0 <= k < |ns| && ns[k].id == id && ForInbox(ns[k], v) {
        FilteredHas(ns, v, 0, ns[k]);
        var i :| 0 <= i < |filtered| && filtered[i] == ns[k];
        assert IdsOf(filtered)[i] == id;
      }
    }
  }

  lemma {:induction false} ReversedAt(xs: seq<nat>)
    ensures forall k | 0 <= k < |xs| :: Reversed(xs)[k] == xs[|xs| - 1 - k]
  {
    if xs != [] { ReversedAt(xs[..|xs| - 1]); }
  }
}
