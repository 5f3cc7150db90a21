/** One whole scan, told from its own events: what it keeps, drops, takes up and reaps,
    and what becomes of the groups and of the schedules. */
module Accounts {
  import opened Process
  import opened Tracking
  import Coverage
  import opened Scans
  import Signals

  /** A root that has exited and leads its group was listed for that group. */
  ghost predicate RootListed(c: Config, before: map<nat, Record>, news: seq<Event>, processes: map<nat, Record>) {
    && (!c.adopt && c.rootPid in processes && processes[c.rootPid].exited && processes[c.rootPid].identity.Leads() ==>
          exists e :: e in news && e.InGroup?)
    && (forall e :: e in news && e.InGroup? ==>
          !c.adopt && exists r: Record :: RecordOf(before, news, c.rootPid, r) && r.exited && r.identity.pgid == c.rootPid)
  }

  /** The record of a process, from before the scan or from one of its reads. */
  ghost predicate RecordOf(before: map<nat, Record>, news: seq<Event>, pid: nat, r: Record) {
    r.identity.pid == pid && (Seen(news, r) || Find(before, pid) == Some(r))
  }

  /** What a scan says of the processes it leaves tracked. */
  ghost predicate Tracks(c: Config, before: map<nat, Record>, news: seq<Event>, after: map<nat, Record>) {
    && Coverage.Keyed(after)
    && (forall p :: p in after ==> RecordOf(before, news, p, after[p]))
    && (Missed(news) || Refuses(news) || forall p :: p in after && p != c.shim.pid ==> Seen(news, after[p]))
    && (forall p :: p in before && !Same(after, p, before[p]) ==>
          Lost(news, p, before[p].identity.start) || Reaped(p, true) in news)
    && (forall p :: p in after && !Same(before, p, after[p]) ==> Born(c, news, p, after[p].identity.start))
  }

  /** Where orphans are adopted, exited children of the shim are reaped, never the root; one
      that is not reaped stays tracked. */
  ghost predicate Reaps(c: Config, before: map<nat, Record>, news: seq<Event>, after: map<nat, Record>) {
    && (forall e :: e in news && e.Reaped? ==> c.adopt && e.pid != c.rootPid && ShownExited(c, before, news, e.pid))
    && (forall p :: Reaped(p, true) in news ==> p !in after && Reaped(p, false) !in news)
    && (forall p :: p in after && c.adopt && p != c.rootPid && after[p].exited && after[p].ppid == c.shim.pid ==>
          Reaped(p, false) in news)
    && ReapedOnce(news) && ReadFirst(news)
  }

  ghost predicate ReapedOnce(news: seq<Event>) {
    forall i, j :: 0 <= i < j < |news| && news[i].Reaped? && news[j].Reaped? ==> news[i].pid != news[j].pid
  }

  ghost predicate ReadFirst(news: seq<Event>) {
    forall i, j :: 0 <= i < j < |news| && news[i].Reaped? ==> !news[j].Read?
  }

  ghost predicate ShownExited(c: Config, before: map<nat, Record>, news: seq<Event>, pid: nat) {
    exists r: Record ::
      && RecordOf(before, news, pid, r) && r.exited && r.ppid == c.shim.pid
      && (Missed(news) || Refuses(news) || pid == c.shim.pid || Seen(news, r))
  }

  /** A group tracked before stays, with its schedule, as long as its leader's pid is not
      seen in another life and the leader as recorded, or anyone in the group, is tracked. */
  ghost predicate GroupsKept(st: Tracked, after: Tracked) {
    forall g :: g in st.groups ==>
      && (g in after.groups <==>
            && (g.pid in after.processes ==> after.processes[g.pid].identity.start == g.start)
            && ((g.pid in after.processes && after.processes[g.pid].identity == g)
                || exists p :: p in after.processes && after.processes[p].identity.pgid == g.pgid))
      && (g in after.groups ==>
            && after.groups[g] == st.groups[g]
            && Find(after.history, g) == Find(st.history, g) && Find(after.births, g) == Find(st.births, g))
  }

  /** A group is new to the inventory. */
  predicate Joins(st: Tracked, after: Tracked, g: Identity) {
    g in after.groups && g !in st.groups
  }

  ghost predicate Once<T>(q: seq<T>) {
    forall i, j :: 0 <= i < j < |q| ==> q[i] != q[j]
  }

  /** Each process that leads its group is in the inventory, up to the limit; the groups
      that join are led by a process as recorded and wait, once each, to be handed over. */
  ghost predicate GroupsJoin(c: Config, st: Tracked, news: seq<Event>, after: Tracked) {
    && st.pending <= after.pending
    && var joined := after.pending[|st.pending|..];
    && Once(joined) && (forall g :: g in joined <==> Joins(st, after, g))
    && (forall g :: g in joined ==>
          && g.Leads() && g.pid in after.processes && after.processes[g.pid].identity == g
          && after.groups[g].None? && Find(after.history, g) == Some([]))
    && (forall p :: p in after.processes && after.processes[p].identity.Leads() ==>
          after.processes[p].identity in after.groups || Refused(GroupLimit) in news)
    && (Refused(GroupLimit) in news ==> |after.groups| >= c.groupLimit)
  }

  /** A process keeps its own schedule as long as it is tracked alive and unchanged. */
  ghost predicate MembersKept(st: Tracked, after: Tracked) {
    && (forall m :: m in after.members ==> m in st.members)
    && (forall m :: m in st.members ==>
          && (m in after.members <==>
                m.pid in after.processes && !after.processes[m.pid].exited && after.processes[m.pid].identity == m)
          && (m in after.members ==> after.members[m] == st.members[m]))
  }

  /** A scan is complete unless it missed something, and counts what it missed. */
  ghost predicate Counted(st: Tracked, news: seq<Event>, after: Tracked) {
    && news != [] && news[|news| - 1] == Scanned(!Missed(news))
    && (after.incompleteScans == if !Missed(news) then 0 else if st.incompleteScans < 255 then st.incompleteScans + 1 else 255)
    && (after.unresolved <==> LeftOpen(news))
    && after.cleanup == st.cleanup
  }

  // ------------------------------------------------------------------ from walk to scan

  /** What follows the reads of a scan. */
  predicate Idle(e: Event) {
    e.Reaped? || e == Refused(GroupLimit) || e.Scanned?
  }

  lemma MoreTold(c: Config, before: map<nat, Record>, news: seq<Event>, more: seq<Event>, processes: map<nat, Record>)
    requires news <= more && forall k :: |news| <= k < |more| ==> Idle(more[k])
    ensures Missed(more) == Missed(news) && LeftOpen(more) == LeftOpen(news)
    ensures Refuses(news) ==> Refuses(more)
    ensures forall r: Record :: Seen(news, r) ==> Seen(more, r)
    ensures forall p, t :: Lost(news, p, t) ==> Lost(more, p, t)
    ensures forall p, t :: Born(c, news, p, t) ==> Born(c, more, p, t)
  {
    SameMisses(news, more);
    SameOpen(news, more);
    assert forall e :: e in news ==> e in more;
    forall p, t | Lost(news, p, t) ensures Lost(more, p, t) {
      var e :| e in news && LostAt(e, p, t);
      assert e in more;
    }
    forall p, t | Born(c, news, p, t) ensures Born(c, more, p, t) {
      BornStays(c, news, more, p, t);
    }
  }

  lemma SameMisses(news: seq<Event>, more: seq<Event>)
    requires news <= more && forall k :: |news| <= k < |more| ==> Idle(more[k])
    ensures Missed(more) == Missed(news)
  {
    if Missed(more) {
      var e :| e in more && Miss(e);
      var k :| 0 <= k < |more| && more[k] == e;
      assert k < |news| && news[k] == e;
    }
    if Missed(news) {
      var e :| e in news && Miss(e);
      assert e in more;
    }
  }

  lemma SameOpen(news: seq<Event>, more: seq<Event>)
    requires news <= more && forall k :: |news| <= k < |more| ==> Idle(more[k])
    ensures LeftOpen(more) == LeftOpen(news)
  {
    forall i: nat ensures OpenAt(more, i) == OpenAt(news, i) {
      if i < |news| {
        assert forall k :: i < k < |news| ==> more[k] == news[k];
        assert more[i] == news[i];
      }
    }
  }

  // ------------------------------------------------------------- leaders and members

  /** Where adding leaders stands, begun at `st` and now at `now`. */
  ghost predicate Adding(c: Config, st: Tracked, now: Tracked) {
    && now == st.(groups := now.groups, pending := now.pending, history := now.history, births := now.births, ledger := now.ledger)
    && st.ledger.trace <= now.ledger.trace && st.pending <= now.pending
    && Refusing(c, now.ledger.trace[|st.ledger.trace|..], now.groups)
    && Unmoved(st, now) && Joining(st, now, now.pending[|st.pending|..])
  }

  ghost predicate Refusing(c: Config, added: seq<Event>, groups: map<Identity, Option<Sequence>>) {
    && (forall k :: 0 <= k < |added| ==> added[k] == Refused(GroupLimit))
    && (added != [] ==> |groups| >= c.groupLimit)
  }

  ghost predicate Unmoved(st: Tracked, now: Tracked) {
    forall g :: g in st.groups ==>
      && g in now.groups && now.groups[g] == st.groups[g]
      && Find(now.history, g) == Find(st.history, g) && Find(now.births, g) == Find(st.births, g)
  }

  ghost predicate Joining(st: Tracked, now: Tracked, joined: seq<Identity>) {
    && Once(joined) && (forall g :: g in joined <==> Joins(st, now, g))
    && (forall g :: g in joined ==> Led(st, g) && now.groups[g].None? && Find(now.history, g) == Some([]))
  }

  predicate Led(st: Tracked, g: Identity) {
    g.Leads() && g.pid in st.processes && st.processes[g.pid].identity == g
  }

  lemma LeaderRefused(c: Config, st: Tracked, now: Tracked)
    requires Adding(c, st, now) && |now.groups| >= c.groupLimit
    ensures Adding(c, st, now.(ledger := now.ledger.Refuse(GroupLimit)))
  {
    hide Once, Led;
    var r := now.(ledger := now.ledger.Refuse(GroupLimit));
    assert r.ledger.trace[|st.ledger.trace|..] == now.ledger.trace[|st.ledger.trace|..] + [Refused(GroupLimit)];
  }

  lemma LeaderJoins(c: Config, st: Tracked, now: Tracked, id: Identity)
    requires Adding(c, st, now) && Led(st, id) && id !in now.groups && |now.groups| < c.groupLimit
    ensures Adding(c, st, Enrolled(now, id))
  {
    hide Led, Unmoved, Joining;
    var r := Enrolled(now, id);
    assert r.pending[|st.pending|..] == now.pending[|st.pending|..] + [id];
    assert now.ledger.trace[|st.ledger.trace|..] == [];
    UnmovedMore(st, now, id);
    JoiningMore(st, now, id, now.pending[|st.pending|..]);
  }

  lemma UnmovedMore(st: Tracked, now: Tracked, id: Identity)
    requires Unmoved(st, now) && id !in now.groups
    ensures Unmoved(st, Enrolled(now, id)) && id !in st.groups
  {
  }

  lemma JoiningMore(st: Tracked, now: Tracked, id: Identity, joined: seq<Identity>)
    requires Joining(st, now, joined) && id !in now.groups && id !in st.groups && Led(st, id)
    ensures Joining(st, Enrolled(now, id), joined + [id])
  {
    hide Led;
    assert id !in joined;
    assert forall g :: g in joined + [id] <==> g in joined || g == id;
  }

  /** A record that leads its group is in the inventory, or the inventory is full. */
  ghost predicate Placed(st: Tracked, now: Tracked, r: Record)
    requires |st.ledger.trace| <= |now.ledger.trace|
  {
    r.identity.Leads() ==> r.identity in now.groups || Refused(GroupLimit) in now.ledger.trace[|st.ledger.trace|..]
  }

  lemma {:induction false} LeadersJoin(c: Config, st: Tracked, now: Tracked, records: seq<Record>)
    requires Adding(c, st, now)
    requires forall r :: r in records ==> Find(st.processes, r.identity.pid) == Some(r)
    ensures var after := AddLeaders(c, now, records);
            && Adding(c, st, after) && Grown(now, after)
            && forall r :: r in records ==> Placed(st, after, r)
    decreases |records|
  {
    hide Adding, Placed, Grown;
    AddingGrows(c, st, now);
    if records != [] {
      var id, rest := records[0].identity, records[1..];
      assert records[0] in records && forall r :: r in records <==> r == records[0] || r in rest;
      var next :=
        if !id.Leads() || id in now.groups then now
        else if |now.groups| >= c.groupLimit then now.(ledger := now.ledger.Refuse(GroupLimit))
        else Enrolled(now, id);
      LeaderPlaced(c, st, now, records[0], next);
      LeadersJoin(c, st, next, rest);
      var after := AddLeaders(c, next, rest);
      PlacedLater(c, st, now, next, after, records[0]);
    }
  }

  ghost predicate Grown(now: Tracked, after: Tracked) {
    now.ledger.trace <= after.ledger.trace && now.groups.Keys <= after.groups.Keys
  }

  lemma AddingGrows(c: Config, st: Tracked, now: Tracked)
    requires Adding(c, st, now)
    ensures |st.ledger.trace| <= |now.ledger.trace| && Grown(now, now)
  {
    hide Unmoved, Joining;
  }

  lemma LeaderPlaced(c: Config, st: Tracked, now: Tracked, r: Record, next: Tracked)
    requires Adding(c, st, now) && Find(st.processes, r.identity.pid) == Some(r)
    requires next == if !r.identity.Leads() || r.identity in now.groups then now
                     else if |now.groups| >= c.groupLimit then now.(ledger := now.ledger.Refuse(GroupLimit))
                     else Enrolled(now, r.identity)
    ensures Adding(c, st, next) && Grown(now, next) && Grown(st, next) && Placed(st, next, r)
  {
    hide Adding;
    assert |st.ledger.trace| <= |now.ledger.trace| by { AddingGrows(c, st, now); }
    if r.identity.Leads() && r.identity !in now.groups {
      if |now.groups| >= c.groupLimit {
        LeaderRefused(c, st, now);
        var added := next.ledger.trace[|st.ledger.trace|..];
        assert added == now.ledger.trace[|st.ledger.trace|..] + [Refused(GroupLimit)];
        assert added[|added| - 1] == Refused(GroupLimit);
      } else {
        LeaderJoins(c, st, now, r.identity);
      }
    }
    AddingKeepsAll(c, st, next);
  }

  lemma AddingKeepsAll(c: Config, st: Tracked, now: Tracked)
    requires Adding(c, st, now)
    ensures Grown(st, now)
  {
    hide Joining, Refusing;
  }

  lemma PlacedLater(c: Config, st: Tracked, now: Tracked, next: Tracked, after: Tracked, r: Record)
    requires Grown(st, next) && Grown(now, next) && Grown(next, after) && Placed(st, next, r)
    ensures |st.ledger.trace| <= |after.ledger.trace| && Placed(st, after, r) && Grown(now, after)
  {
    var added, more := next.ledger.trace[|st.ledger.trace|..], after.ledger.trace[|st.ledger.trace|..];
    assert added <= more;
    if Refused(GroupLimit) in added {
      var k :| 0 <= k < |added| && added[k] == Refused(GroupLimit);
      assert more[k] == Refused(GroupLimit);
    }
  }

  // ---------------------------------------------------------------------- one scan

  lemma StartTold(c: Config, o: Oracle, st: Tracked)
    requires o.Lists() && Coverage.Keyed(st.processes)
    ensures Told(c, st.processes, st.ledger.trace, WalkStart(c, o, st), None)
  {
    var w, before := WalkStart(c, o, st), st.processes;
    var order := o.pids(st.ledger.Tick(), st.processes.Keys);
    var anchors := Identities(before, order);
    assert st.ledger.trace[|st.ledger.trace|..] == [];
    forall p | p in before ensures before[p].identity in w.queue {
      assert p in order;
      var i :| 0 <= i < |order| && order[i] == p;
      assert anchors[i] == before[p].identity;
    }
    forall e | e in w.queue ensures Known(c, before, [], e) {
      if e in anchors {
        var i :| 0 <= i < |anchors| && anchors[i] == e;
        assert order[i] in order;
      }
    }
  }

  lemma FoundTold(c: Config, o: Oracle, st: Tracked)
    requires o.Lists() && Coverage.Keyed(st.processes)
    ensures var (w, open) := Found(c, o, st);
            && GroupOver(c, st.processes, st.ledger.trace, w, open)
            && RootListed(c, st.processes, w.ledger.trace[|st.ledger.trace|..], w.processes)
  {
    hide Told, WalkAll, WalkStart, ScanRootGroup, GroupOver, Walked, RootListed;
    var before, base, w := st.processes, st.ledger.trace, WalkStart(c, o, st);
    StartTold(c, o, st);
    WalkTold(c, o, before, base, w);
    WalkEnds(c, before, base, WalkAll(c, o, w));
    RootGroupTold(c, o, before, base, WalkAll(c, o, w));
    RootIsListed(c, o, before, base, WalkAll(c, o, w));
  }

  /** The root is tracked, has exited and leads its group. */
  predicate RootLeft(c: Config, processes: map<nat, Record>) {
    && !c.adopt && c.rootPid in processes
    && processes[c.rootPid].exited && processes[c.rootPid].identity.Leads()
  }

  lemma ListingLogged(c: Config, o: Oracle, base: seq<Event>, w: Walk)
    requires base <= w.ledger.trace && Coverage.Keyed(w.processes)
    ensures var r := ScanRootGroup(c, o, w).0;
            if RootLeft(c, w.processes) then
              w.ledger.trace <= r.ledger.trace && exists e :: e in r.ledger.trace[|base|..] && e.InGroup?
            else r == w
  {
    hide EnlistGroup;
    var (r, open) := ScanRootGroup(c, o, w);
    if RootLeft(c, w.processes) {
      var e := InGroup(c.rootPid, o.inGroup(w.ledger.Tick(), c.rootPid));
      var w1 := w.Log(e);
      var w2 := w1.Log(Event.Read(c.rootPid, o.Look(w1.ledger.Tick(), c.rootPid)));
      if e.pids.Ok? {
        Signals.EnlistGroupQuiet(c, o, w2, c.rootPid, e.pids.value, false);
      }
      assert w1.ledger.trace <= r.ledger.trace;
      assert r.ledger.trace[|base|..][|w.ledger.trace| - |base|] == w1.ledger.trace[|w.ledger.trace|] == e;
    }
  }

  lemma RootIsListed(c: Config, o: Oracle, before: map<nat, Record>, base: seq<Event>, w: Walk)
    requires base <= w.ledger.trace && Walked(c, before, w.ledger.trace[|base|..], w) && NoGroup(w.ledger.trace[|base|..])
    ensures var r := ScanRootGroup(c, o, w).0;
            base <= r.ledger.trace && RootListed(c, before, r.ledger.trace[|base|..], r.processes)
  {
    hide ScanRootGroup, Walked, RecordOf;
    WalkedKeyed(c, before, w.ledger.trace[|base|..], w);
    ListingLogged(c, o, base, w);
    var r := ScanRootGroup(c, o, w).0;
    var news, more := w.ledger.trace[|base|..], r.ledger.trace[|base|..];
    if RootLeft(c, w.processes) {
      WalkedRecord(c, before, news, w, c.rootPid);
      SeenLater(before, news, more, c.rootPid, w.processes[c.rootPid]);
    }
  }

  lemma WalkedRecord(c: Config, before: map<nat, Record>, news: seq<Event>, w: Walk, pid: nat)
    requires Walked(c, before, news, w) && pid in w.processes
    ensures RecordOf(before, news, pid, w.processes[pid]) && w.processes[pid].identity.pid == pid
  {
    hide Born, Lost, Seen, Missed;
  }

  lemma SeenLater(before: map<nat, Record>, news: seq<Event>, more: seq<Event>, pid: nat, r: Record)
    requires news <= more && RecordOf(before, news, pid, r)
    ensures RecordOf(before, more, pid, r)
  {
    assert forall e :: e in news ==> e in more;
  }

  /** What was reaped of `all`, by the events that follow the walk. */
  ghost predicate Gathered(c: Config, all: map<nat, Record>, rest: seq<Event>, after: map<nat, Record>) {
    && (forall e :: e in rest && e.Reaped? ==> Zombie(c, all, e.pid))
    && (forall p :: p in after <==> p in all && Reaped(p, true) !in rest)
    && (forall p :: p in after ==> after[p] == all[p])
    && (forall p :: Zombie(c, all, p) ==> Reaped(p, true) in rest || Reaped(p, false) in rest)
    && (forall p :: Reaped(p, true) in rest ==> Reaped(p, false) !in rest)
    && ReapedOnce(rest)
  }

  lemma StillKeyed(c: Config, all: map<nat, Record>, reaped: seq<Event>, processes: map<nat, Record>)
    requires Reaping(c, all, reaped, processes, []) && Coverage.Keyed(all)
    ensures Coverage.Keyed(processes)
  {
  }

  lemma NoneAdded(c: Config, st: Tracked)
    ensures Adding(c, st, st)
  {
    assert st.ledger.trace[|st.ledger.trace|..] == [];
    assert st.pending[|st.pending|..] == [];
  }

  lemma AddedOnly(c: Config, st: Tracked, now: Tracked)
    requires Adding(c, st, now)
    ensures st.ledger.trace <= now.ledger.trace && now.processes == st.processes && now.members == st.members
    ensures forall e :: e in now.ledger.trace[|st.ledger.trace|..] ==> e == Refused(GroupLimit)
  {
    hide Unmoved, Joining;
  }

  lemma EventsGather(c: Config, all: map<nat, Record>, reaped: seq<Event>, refused: seq<Event>, last: Event, after: map<nat, Record>)
    requires Reaping(c, all, reaped, after, []) && last.Scanned? && forall e :: e in refused ==> e == Refused(GroupLimit)
    ensures var rest := reaped + refused + [last];
            && Gathered(c, all, rest, after) && (forall e :: e in rest ==> Idle(e))
            && (Refused(GroupLimit) in rest <==> Refused(GroupLimit) in refused)
  {
    hide Zombie;
    var rest := reaped + refused + [last];
    assert forall e :: e in rest <==> e in reaped || e in refused || e == last;
    assert forall p :: NotAmong([], p);
    OnlyThese(reaped, refused, last);
  }

  lemma OnlyThese(reaped: seq<Event>, refused: seq<Event>, last: Event)
    requires forall i, j :: 0 <= i < j < |reaped| && reaped[i].Reaped? && reaped[j].Reaped? ==> reaped[i].pid != reaped[j].pid
    requires forall e :: e in refused + [last] ==> !e.Reaped?
    ensures ReapedOnce(reaped + refused + [last])
  {
    var rest := reaped + (refused + [last]);
    assert rest == reaped + refused + [last];
    assert forall k :: |reaped| <= k < |rest| ==> rest[k] in refused + [last];
  }

  lemma WhoStays(c: Config, st: Tracked, st1: Tracked, st3: Tracked)
    requires st1 == st.(processes := st1.processes, ledger := st1.ledger) && Adding(c, PruneGroups(st1), st3)
    ensures forall g :: g in st.groups ==> (g in st3.groups <==> Retained(st1.processes, g))
    ensures forall g :: Joins(PruneGroups(st1), st3, g) <==> Joins(st, st3, g)
  {
    hide Retained;
    var st2 := PruneGroups(st1);
    assert forall g :: g in st2.groups <==> g in st.groups && Retained(st1.processes, g);
    forall g | Joins(st2, st3, g) ensures Retained(st1.processes, g) {
      assert g in st3.pending[|st2.pending|..];
      LedStays(st2, g);
    }
  }

  lemma LedStays(st: Tracked, g: Identity)
    requires Led(st, g)
    ensures Retained(st.processes, g)
  {
  }

  lemma SettledGroups(c: Config, st: Tracked, st1: Tracked, st3: Tracked, r: Tracked)
    requires st1 == st.(processes := st1.processes, ledger := st1.ledger) && Adding(c, PruneGroups(st1), st3)
    requires r == st3.(ledger := r.ledger, members := r.members, incompleteScans := r.incompleteScans)
    requires Coverage.Keyed(st1.processes)
    ensures GroupsKept(st, r)
  {
    hide Refusing, Joining;
    WhoStays(c, st, st1, st3);
  }

  lemma SettledJoins(c: Config, st: Tracked, st1: Tracked, st3: Tracked, rest: seq<Event>, r: Tracked)
    requires st1 == st.(processes := st1.processes, ledger := st1.ledger) && Adding(c, PruneGroups(st1), st3)
    requires r == st3.(ledger := r.ledger, members := r.members, incompleteScans := r.incompleteScans)
    requires forall p :: p in st1.processes ==> Placed(st1, st3, st1.processes[p])
    requires Refused(GroupLimit) in rest <==> Refused(GroupLimit) in st3.ledger.trace[|st1.ledger.trace|..]
    ensures GroupsJoin(c, st, rest, r)
  {
    hide Unmoved, Once, Retained;
    WhoStays(c, st, st1, st3);
  }

  lemma SettledMembers(st: Tracked, st3: Tracked, r: Tracked)
    requires st3.members == st.members && r.members == PruneMembers(st3).members && r.processes == st3.processes
    ensures MembersKept(st, r)
  {
  }

  lemma SettleLogs(c: Config, o: Oracle, st: Tracked, incomplete: bool)
    requires o.Lists() && Coverage.Keyed(st.processes)
    ensures var r := Settle(c, o, st, incomplete);
            && st.ledger.trace < r.ledger.trace
            && var rest := r.ledger.trace[|st.ledger.trace|..];
            && (forall e :: e in rest ==> Idle(e)) && rest[|rest| - 1] == Scanned(!incomplete)
            && Gathered(c, st.processes, rest, r.processes)
            && GroupsKept(st, r) && GroupsJoin(c, st, rest, r) && MembersKept(st, r)
  {
    hide ReapAll, AddLeaders, Snapshot, Reaping, Adding, Gathered, GroupsKept, GroupsJoin, MembersKept;
    var base := st.ledger.trace;
    SnapshotReaped(c, o, st);
    var (ledger, processes) := ReapAll(c, o, st.ledger, st.processes, Snapshot(o, st));
    var st1 := st.(ledger := ledger, processes := processes);
    var st2 := PruneGroups(st1);
    StillKeyed(c, st.processes, ledger.trace[|base|..], processes);
    Coverage.SnapshotHolds(o, st2);
    NoneAdded(c, st2);
    LeadersJoin(c, st2, st2, Snapshot(o, st2));
    var st3 := AddLeaders(c, st2, Snapshot(o, st2));
    var r := Settle(c, o, st, incomplete);
    AddedOnly(c, st2, st3);
    EventsGather(c, st.processes, ledger.trace[|base|..], st3.ledger.trace[|ledger.trace|..], Scanned(!incomplete), processes);
    assert r.ledger.trace[|base|..]
        == ledger.trace[|base|..] + st3.ledger.trace[|ledger.trace|..] + [Scanned(!incomplete)];
    SettledGroups(c, st, st1, st3, r);
    SettledJoins(c, st, st1, st3, r.ledger.trace[|base|..], r);
    SettledMembers(st, st3, r);
  }

  lemma MoreEvents(news: seq<Event>, rest: seq<Event>)
    requires (forall e :: e in news ==> Quietly(e)) && forall e :: e in rest ==> Idle(e)
    ensures var more := news + rest;
            && (forall k :: |news| <= k < |more| ==> Idle(more[k]))
            && (forall p, ok :: Reaped(p, ok) in more <==> Reaped(p, ok) in rest)
            && (forall e :: e in more && e.Reaped? ==> e in rest)
            && (forall e :: e in more && e.InGroup? ==> e in news) && (forall e :: e in news ==> e in more)
            && (Refused(GroupLimit) in more <==> Refused(GroupLimit) in rest)
  {
    var more := news + rest;
    assert forall e :: e in more <==> e in news || e in rest;
    forall k | |news| <= k < |more| ensures Idle(more[k]) {
      assert more[k] == rest[k - |news|];
    }
  }

  lemma ReachesTracks(c: Config, before: map<nat, Record>, news: seq<Event>, w: Walk, rest: seq<Event>, after: map<nat, Record>)
    requires Walked(c, before, news, w) && Gathered(c, w.processes, rest, after) && forall e :: e in rest ==> Idle(e)
    ensures Tracks(c, before, news + rest, after)
  {
    MoreEvents(news, rest);
    MoreTold(c, before, news, news + rest, w.processes);
    hide Born, Lost, Missed, Refuses, Idle, Quietly, Seen;
  }

  lemma ReapedLast(news: seq<Event>, rest: seq<Event>)
    requires (forall e :: e in news ==> Quietly(e)) && (forall e :: e in rest ==> Idle(e)) && ReapedOnce(rest)
    ensures ReapedOnce(news + rest) && ReadFirst(news + rest)
  {
    var more := news + rest;
    assert forall k :: 0 <= k < |news| ==> Quietly(more[k]) by {
      assert forall k :: 0 <= k < |news| ==> more[k] in news;
    }
    forall i, j | 0 <= i < j < |more| && more[i].Reaped?
      ensures !more[j].Read? && (more[j].Reaped? ==> more[i].pid != more[j].pid)
    {
      assert |news| <= i;
      assert more[j] == rest[j - |news|] && rest[j - |news|] in rest && more[i] == rest[i - |news|];
    }
  }

  lemma ReachesReaps(c: Config, before: map<nat, Record>, news: seq<Event>, w: Walk, rest: seq<Event>, after: map<nat, Record>)
    requires Walked(c, before, news, w) && Gathered(c, w.processes, rest, after) && forall e :: e in rest ==> Idle(e)
    ensures Reaps(c, before, news + rest, after)
  {
    MoreEvents(news, rest);
    WalkedTells(c, before, news, w);
    ReapedLast(news, rest);
    hide Born, Lost, Missed, Refuses, Idle, Quietly, Seen, ReapedOnce, ReadFirst;
    var more := news + rest;
    forall e | e in more && e.Reaped? ensures c.adopt && e.pid != c.rootPid && ShownExited(c, before, more, e.pid) {
      assert Zombie(c, w.processes, e.pid);
      WalkedRecord(c, before, news, w, e.pid);
      SeenLater(before, news, more, e.pid, w.processes[e.pid]);
    }
  }

  lemma ListedStill(c: Config, before: map<nat, Record>, news: seq<Event>, rest: seq<Event>, processes: map<nat, Record>,
                    after: map<nat, Record>)
    requires RootListed(c, before, news, processes) && (forall e :: e in news ==> Quietly(e)) && forall e :: e in rest ==> Idle(e)
    requires forall p :: p in after ==> p in processes && after[p] == processes[p]
    ensures RootListed(c, before, news + rest, after)
  {
    MoreEvents(news, rest);
    hide RecordOf, Idle, Quietly;
    var more := news + rest;
    forall e | e in more && e.InGroup?
      ensures !c.adopt && exists r: Record :: RecordOf(before, more, c.rootPid, r) && r.exited && r.identity.pgid == c.rootPid
    {
      var r: Record :| RecordOf(before, news, c.rootPid, r) && r.exited && r.identity.pgid == c.rootPid;
      SeenLater(before, news, more, c.rootPid, r);
    }
  }

  lemma JoinStill(c: Config, st: Tracked, rest: seq<Event>, more: seq<Event>, r: Tracked)
    requires GroupsJoin(c, st, rest, r) && (Refused(GroupLimit) in more <==> Refused(GroupLimit) in rest)
    ensures GroupsJoin(c, st, more, r)
  {
  }

  /** All that one scan does, by its own events. */
  ghost predicate OneScan(c: Config, st: Tracked, after: Tracked) {
    && st.ledger.trace <= after.ledger.trace
    && var news := after.ledger.trace[|st.ledger.trace|..];
    && Tracks(c, st.processes, news, after.processes) && Reaps(c, st.processes, news, after.processes)
    && RootListed(c, st.processes, news, after.processes) && Counted(st, news, after)
    && GroupsKept(st, after) && GroupsJoin(c, st, news, after) && MembersKept(st, after)
  }

  /** What was found, and then settled. */
  ghost predicate SettledFrom(c: Config, st: Tracked, st1: Tracked, incomplete: bool, rest: seq<Event>, r: Tracked) {
    && (forall e :: e in rest ==> Idle(e)) && rest != [] && rest[|rest| - 1] == Scanned(!incomplete)
    && Gathered(c, st1.processes, rest, r.processes)
    && GroupsKept(st1, r) && GroupsJoin(c, st1, rest, r) && MembersKept(st1, r)
    && (r.incompleteScans == if !incomplete then 0 else if st.incompleteScans < 255 then st.incompleteScans + 1 else 255)
    && r.unresolved == st1.unresolved && r.cleanup == st.cleanup
  }

  lemma PartsTell(c: Config, st: Tracked, st1: Tracked, w: Walk, news: seq<Event>, rest: seq<Event>, r: Tracked)
    requires st1 == st.(processes := w.processes, ledger := w.ledger, unresolved := LeftOpen(news))
    requires Walked(c, st.processes, news, w) && RootListed(c, st.processes, news, w.processes)
    requires SettledFrom(c, st, st1, w.incomplete, rest, r)
    requires r.ledger.trace == st.ledger.trace + (news + rest)
    ensures OneScan(c, st, r)
  {
    hide Gathered, Tracks, Reaps, RootListed, GroupsKept, GroupsJoin, MembersKept, Walked, Idle, Quietly, LeftOpen;
    assert r.ledger.trace[|st.ledger.trace|..] == news + rest;
    WalkedTells(c, st.processes, news, w);
    MoreEvents(news, rest);
    MoreTold(c, st.processes, news, news + rest, w.processes);
    ReachesTracks(c, st.processes, news, w, rest, r.processes);
    ReachesReaps(c, st.processes, news, w, rest, r.processes);
    GatheredPart(c, w.processes, rest, r.processes);
    ListedStill(c, st.processes, news, rest, w.processes, r.processes);
    JoinStill(c, st1, rest, news + rest, r);
    FromFound(c, st, st1, news + rest, r);
  }

  /** Whatever the system answers, a scan does just that. */
  lemma ScanTold(c: Config, o: Oracle, st: Tracked)
    requires o.Lists() && Coverage.Keyed(st.processes)
    ensures OneScan(c, st, Scan(c, o, st))
  {
    hide Found, Settle, Gathered, RootListed, GroupsKept, GroupsJoin, MembersKept, Walked, Idle, LeftOpen, OneScan;
    var base := st.ledger.trace;
    var (w, unresolved) := Found(c, o, st);
    FoundTold(c, o, st);
    var st1 := st.(processes := w.processes, ledger := w.ledger, unresolved := unresolved);
    var news := w.ledger.trace[|base|..];
    WalkedTells(c, st.processes, news, w);
    SettleLogs(c, o, st1, w.incomplete);
    SettleCounts(c, o, st1, w.incomplete);
    var r := Scan(c, o, st);
    var rest := r.ledger.trace[|w.ledger.trace|..];
    PartsTell(c, st, st1, w, news, rest, r);
  }

  lemma WalkedTells(c: Config, before: map<nat, Record>, news: seq<Event>, w: Walk)
    requires Walked(c, before, news, w)
    ensures (w.incomplete <==> Missed(news)) && Coverage.Keyed(w.processes) && forall e :: e in news ==> Quietly(e)
  {
    hide Born, Lost, Missed, Quietly, Seen;
  }

  lemma GatheredPart(c: Config, all: map<nat, Record>, rest: seq<Event>, after: map<nat, Record>)
    requires Gathered(c, all, rest, after)
    ensures forall p :: p in after ==> p in all && after[p] == all[p]
  {
    hide Zombie;
  }

  lemma SettleCounts(c: Config, o: Oracle, st: Tracked, incomplete: bool)
    requires o.Lists()
    ensures var r := Settle(c, o, st, incomplete);
            && (r.incompleteScans == if !incomplete then 0 else if st.incompleteScans < 255 then st.incompleteScans + 1 else 255)
            && r.unresolved == st.unresolved && r.cleanup == st.cleanup
  {
    hide ReapAll, AddLeaders, Snapshot, Retained;
    var (ledger, processes) := ReapAll(c, o, st.ledger, st.processes, Snapshot(o, st));
    var st2 := PruneGroups(st.(ledger := ledger, processes := processes));
    LeadersAlone(c, st2, Snapshot(o, st2));
  }

  lemma {:induction false} LeadersAlone(c: Config, st: Tracked, records: seq<Record>)
    ensures var r := AddLeaders(c, st, records);
            r == st.(groups := r.groups, pending := r.pending, history := r.history, births := r.births, ledger := r.ledger)
    decreases |records|
  {
    if records != [] {
      var id, rest := records[0].identity, records[1..];
      if !id.Leads() || id in st.groups {
        LeadersAlone(c, st, rest);
      } else if |st.groups| >= c.groupLimit {
        LeadersAlone(c, st.(ledger := st.ledger.Refuse(GroupLimit)), rest);
      } else {
        LeadersAlone(c, Enrolled(st, id), rest);
      }
    }
  }

  lemma FromFound(c: Config, st: Tracked, st1: Tracked, news: seq<Event>, r: Tracked)
    requires st1 == st.(processes := st1.processes, ledger := st1.ledger, unresolved := st1.unresolved)
    requires GroupsKept(st1, r) && GroupsJoin(c, st1, news, r) && MembersKept(st1, r)
    ensures GroupsKept(st, r) && GroupsJoin(c, st, news, r) && MembersKept(st, r)
  {
    hide Once, Led;
  }
}
