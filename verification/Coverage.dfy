/** The group inventory after every scan, and who is covered after every pass. */
module Coverage {
  import opened Process
  import opened Tracking
  import opened Safety

  // ------------------------------------------------------------ keyed processes

  /** Every record sits under its own pid. */
  predicate Keyed(processes: map<nat, Record>) {
    forall p :: p in processes ==> processes[p].identity.pid == p
  }

  lemma {:induction false} EnlistKeyed(c: Config, o: Oracle, w: Walk, parent: nat, kids: seq<nat>)
    requires Keyed(w.processes)
    ensures Keyed(Enlist(c, o, w, parent, kids).processes)
    decreases |kids|
  {
    if kids != [] {
      var pid, rest := kids[0], kids[1..];
      EnlistKeyed(c, o, w, parent, rest);
      var a := o.Look(w.ledger.Tick(), pid);
      var w1 := w.Log(Read(pid, a));
      if a.Err? {
        EnlistKeyed(c, o, w1.Missed(a.fault), parent, rest);
      } else {
        EnlistKeyed(c, o, w1, parent, rest);
        if a.value.Some? {
          EnlistKeyed(c, o, w1.Put(pid, a.value.value).(queue := w1.queue + [a.value.value.identity]), parent, rest);
        }
      }
    }
  }

  lemma ExpandKeyed(c: Config, o: Oracle, w: Walk, e: Identity)
    requires Keyed(w.processes)
    ensures Keyed(Expand(c, o, w, e).processes)
  {
    hide Enlist, Keyed;
    var kids := o.children(w.ledger.Tick(), e.pid);
    if kids.Ok? {
      var w1 := w.Log(Children(e.pid, kids));
      var w2 := w1.Log(Read(e.pid, o.Look(w1.ledger.Tick(), e.pid)));
      EnlistKeyed(c, o, w2, e.pid, kids.value);
    }
  }

  lemma StepKeyed(c: Config, o: Oracle, w: Walk)
    requires w.queue != [] && Keyed(w.processes)
    ensures Keyed(Step(c, o, w).processes)
  {
    hide Expand;
    var e := w.queue[0];
    var w1 := w.(queue := w.queue[1..], attempts := w.attempts + 1);
    var a := o.Look(w1.ledger.Tick(), e.pid);
    if a.Ok? && a.value.Some? {
      ExpandKeyed(c, o, Visit(c, w1.Log(Read(e.pid, a)), e, a.value.value), e);
    }
  }

  lemma {:induction false} WalkKeyed(c: Config, o: Oracle, w: Walk)
    requires w.attempts <= Cap(c) || w.halted
    requires Keyed(w.processes)
    ensures Keyed(WalkAll(c, o, w).processes)
    decreases if w.halted then 0 else 1, Cap(c) + 1 - w.attempts, |w.queue|
  {
    hide Step;
    if !w.halted && w.queue != [] {
      StepKeyed(c, o, w);
      assert Step(c, o, w).halted || Step(c, o, w).attempts <= Cap(c) by { StepAttempts(c, o, w); }
      WalkKeyed(c, o, Step(c, o, w));
    }
  }

  lemma StepAttempts(c: Config, o: Oracle, w: Walk)
    requires w.queue != [] && !w.halted && w.attempts <= Cap(c)
    ensures Step(c, o, w).halted || Step(c, o, w).attempts <= Cap(c)
  {
  }

  lemma {:induction false} EnlistGroupKeyed(c: Config, o: Oracle, w: Walk, pgid: nat, pids: seq<nat>, unresolved: bool)
    requires Keyed(w.processes)
    ensures Keyed(EnlistGroup(c, o, w, pgid, pids, unresolved).0.processes)
    decreases |pids|
  {
    if pids != [] {
      var pid, rest := pids[0], pids[1..];
      var a := o.Look(w.ledger.Tick(), pid);
      var w1 := w.Log(Read(pid, a));
      if a.Err? {
        EnlistGroupKeyed(c, o, w1.Missed(a.fault), pgid, rest, true);
      } else {
        EnlistGroupKeyed(c, o, w1, pgid, rest, unresolved);
        if a.value.Some? {
          EnlistGroupKeyed(c, o, w1.Put(pid, a.value.value), pgid, rest, unresolved);
        }
      }
    }
  }

  lemma RootGroupKeyed(c: Config, o: Oracle, w: Walk)
    requires Keyed(w.processes)
    ensures Keyed(ScanRootGroup(c, o, w).0.processes)
  {
    hide EnlistGroup;
    if !c.adopt && c.rootPid in w.processes {
      var root := w.processes[c.rootPid].identity;
      var pids := o.inGroup(w.ledger.Tick(), root.pgid);
      if pids.Ok? {
        var w1 := w.Log(InGroup(root.pgid, pids));
        var w2 := w1.Log(Read(root.pid, o.Look(w1.ledger.Tick(), root.pid)));
        EnlistGroupKeyed(c, o, w2, root.pgid, pids.value, false);
      }
    }
  }

  lemma {:induction false} ReapShrinks(c: Config, o: Oracle, l: Ledger, processes: map<nat, Record>, records: seq<Record>)
    ensures var r := ReapAll(c, o, l, processes, records).1;
            forall p :: p in r ==> p in processes && r[p] == processes[p]
    decreases |records|
  {
    if records != [] {
      var l1 := l.Log(Reaped(records[0].identity.pid, true));
      var l2 := l.Log(Reaped(records[0].identity.pid, false));
      ReapShrinks(c, o, l, processes, records[1..]);
      ReapShrinks(c, o, l1, processes - {records[0].identity.pid}, records[1..]);
      ReapShrinks(c, o, l2.Fail(), processes, records[1..]);
    }
  }

  // -------------------------------------------------------- the group inventory

  /** Every recorded group is named by the process that leads it, and no two of them
      share a group id. */
  ghost predicate OneEach(groups: set<Identity>) {
    && (forall g :: g in groups ==> g.Leads())
    && (forall g, h :: g in groups && h in groups && g.pgid == h.pgid ==> g == h)
  }

  /** What holds whatever the root is like: every other recorded group leads, and no two
      that lead share a group id. The root does lead (`Runs.InventoryBounded`). */
  ghost predicate Distinct(groups: set<Identity>, root: Identity) {
    && (forall g :: g in groups ==> g.Leads() || g == root)
    && (forall g, h :: g in groups && h in groups && g.Leads() && h.Leads() && g.pgid == h.pgid ==> g == h)
  }

  /** No recorded group names a leader that has been replaced. */
  ghost predicate NoneReplaced(st: Tracked) {
    forall g :: g in st.groups && g.pid in st.processes ==> st.processes[g.pid].identity.SameProcess(g)
  }

  ghost predicate LeadersKnown(st: Tracked) {
    forall p :: p in st.processes && st.processes[p].identity.Leads() ==>
                  st.processes[p].identity in st.groups || st.ledger.uncertain
  }

  /** A leader just read joins the inventory beside groups none of which it replaces. */
  lemma LeaderAdded(st: Tracked, st1: Tracked, id: Identity, root: Identity)
    requires Distinct(st.groups.Keys, root) && NoneReplaced(st) && id.Leads() && id !in st.groups
    requires id.pid in st.processes && st.processes[id.pid].identity == id
    requires st1.groups == st.groups[id := None] && st1.processes == st.processes
    ensures Distinct(st1.groups.Keys, root) && NoneReplaced(st1) && |st1.groups| == |st.groups| + 1
  {
    assert st1.groups.Keys == st.groups.Keys + {id};
    forall g | g in st.groups && g.Leads() && g.pgid == id.pgid ensures g == id {
      assert st.processes[id.pid].identity == id;
    }
    assert |st1.groups| == |st1.groups.Keys| && |st.groups| == |st.groups.Keys|;
  }

  lemma SameReplaced(st: Tracked, st1: Tracked)
    requires NoneReplaced(st) && st1.groups == st.groups && st1.processes == st.processes
    ensures NoneReplaced(st1)
  {
  }

  lemma {:induction false} AddLeadersTidy(c: Config, st: Tracked, records: seq<Record>, root: Identity)
    requires Keyed(st.processes) && Distinct(st.groups.Keys, root) && NoneReplaced(st) && |st.groups| <= c.groupLimit
    requires forall r :: r in records ==> r.identity.pid in st.processes && st.processes[r.identity.pid] == r
    ensures var r := AddLeaders(c, st, records);
            && Distinct(r.groups.Keys, root) && NoneReplaced(r) && |r.groups| <= c.groupLimit
            && r.processes == st.processes && (st.ledger.uncertain ==> r.ledger.uncertain)
            && (forall g :: g in st.groups ==> g in r.groups)
            && (forall i :: 0 <= i < |records| && records[i].identity.Leads() ==>
                  records[i].identity in r.groups || r.ledger.uncertain)
    decreases |records|
  {
    hide Distinct, Keyed, NoneReplaced;
    if records != [] {
      var id, rest := records[0].identity, records[1..];
      assert records[0] in records && forall r :: r in rest ==> r in records;
      var r := AddLeaders(c, st, records);
      if !id.Leads() || id in st.groups {
        AddLeadersTidy(c, st, rest, root);
      } else if |st.groups| >= c.groupLimit {
        var refused := st.(ledger := st.ledger.Refuse(GroupLimit));
        SameReplaced(st, refused);
        AddLeadersTidy(c, refused, rest, root);
      } else {
        var st1 := Enrolled(st, id);
        LeaderAdded(st, st1, id, root);
        AddLeadersTidy(c, st1, rest, root);
      }
      forall i | 0 <= i < |records| && records[i].identity.Leads()
        ensures records[i].identity in r.groups || r.ledger.uncertain
      {
        if i > 0 { assert records[i] == rest[i - 1]; }
      }
    }
  }

  lemma RootLeads(groups: set<Identity>, root: Identity)
    requires Distinct(groups, root) && root.Leads()
    ensures OneEach(groups)
  {
  }

  ghost predicate Inventoried(c: Config, root: Identity, st: Tracked) {
    && Keyed(st.processes)
    && Distinct(st.groups.Keys, root)
    && |st.groups| <= c.groupLimit
  }

  lemma Fewer<T>(a: set<T>, b: set<T>)
    requires a <= b
    ensures |a| <= |b|
    decreases b
  {
    if b != {} {
      var x :| x in b;
      Fewer(a - {x}, b - {x});
    }
  }

  lemma SnapshotHolds(o: Oracle, st: Tracked)
    requires o.Lists() && Keyed(st.processes)
    ensures forall r :: r in Snapshot(o, st) ==> r.identity.pid in st.processes && st.processes[r.identity.pid] == r
    ensures forall p :: p in st.processes ==> st.processes[p] in Snapshot(o, st)
  {
    var order := o.pids(st.ledger.Tick(), st.processes.Keys);
    forall p | p in st.processes ensures st.processes[p] in Snapshot(o, st) {
      assert p in order;
      var i :| 0 <= i < |order| && order[i] == p;
      assert Snapshot(o, st)[i] == st.processes[p];
    }
  }

  lemma {:induction false} LeadersUnmoved(c: Config, st: Tracked, records: seq<Record>)
    ensures AddLeaders(c, st, records).processes == st.processes
    decreases |records|
  {
    if records != [] {
      var id, rest := records[0].identity, records[1..];
      LeadersUnmoved(c, st, rest);
      LeadersUnmoved(c, st.(ledger := st.ledger.Refuse(GroupLimit)), rest);
      LeadersUnmoved(c, Enrolled(st, id), rest);
    }
  }

  /** After every scan no two recorded groups share a group id, no recorded leader has
      been replaced, every tracked leader has its group recorded or certainty is lost,
      and there are never more groups than the limit. */
  lemma ScanTidies(c: Config, o: Oracle, st: Tracked, root: Identity)
    requires o.Lists() && Inventoried(c, root, st)
    ensures var r := Scan(c, o, st); Inventoried(c, root, r) && NoneReplaced(r) && LeadersKnown(r)
    ensures root.Leads() ==> OneEach(Scan(c, o, st).groups.Keys)
  {
    hide WalkAll, WalkStart, ScanRootGroup, ReapAll, AddLeaders, Retained;
    WalkStartKeeps(c, o, st);
    WalkKeyed(c, o, WalkStart(c, o, st));
    RootGroupKeyed(c, o, WalkAll(c, o, WalkStart(c, o, st)));
    var (w, unresolved) := Found(c, o, st);
    var st1 := st.(processes := w.processes, ledger := w.ledger, unresolved := unresolved);
    var (ledger, processes) := ReapAll(c, o, st1.ledger, st1.processes, Snapshot(o, st1));
    ReapShrinks(c, o, st1.ledger, st1.processes, Snapshot(o, st1));
    var st2 := PruneGroups(st1.(ledger := ledger, processes := processes));
    Pruned(st1.(ledger := ledger, processes := processes));
    Fewer(st2.groups.Keys, st.groups.Keys);
    SnapshotHolds(o, st2);
    AddLeadersTidy(c, st2, Snapshot(o, st2), root);
    var st3 := AddLeaders(c, st2, Snapshot(o, st2));
    var r := Scan(c, o, st);
    assert r.groups == st3.groups && r.processes == st3.processes;
    if root.Leads() {
      RootLeads(r.groups.Keys, root);
    }
    forall p | p in r.processes && r.processes[p].identity.Leads()
      ensures r.processes[p].identity in r.groups || r.ledger.uncertain
    {
      assert r.processes[p] in Snapshot(o, st2);
      var i :| 0 <= i < |Snapshot(o, st2)| && Snapshot(o, st2)[i] == r.processes[p];
    }
  }

  lemma WalkStartKeeps(c: Config, o: Oracle, st: Tracked)
    requires o.Lists()
    ensures WalkStart(c, o, st).processes == st.processes
  {
  }

  lemma Pruned(st: Tracked)
    ensures PruneGroups(st).groups.Keys <= st.groups.Keys && NoneReplaced(PruneGroups(st))
    ensures PruneGroups(st).processes == st.processes
  {
  }

  // -------------------------------------------------------------- whole runs

  lemma AdvanceKeepsInventory(c: Config, o: Oracle, st: Tracked, now: nat)
    requires o.Lists()
    ensures var r := Advance(c, o, st, now).0; r.groups.Keys == st.groups.Keys && r.processes == st.processes
  {
    hide AdvanceGroups, AdvanceMembers;
    if st.cleanup.Some? {
      var cl := st.cleanup.value;
      var live := Live(o, st);
      var order := o.leaders(st.ledger.Tick(), st.groups.Keys);
      GroupsKeepInventory(c, o, cl, st, now, live, order, {});
      var (st1, covered) := AdvanceGroups(c, o, cl, st, now, live, order, {});
      MembersKeepInventory(c, o, cl, st1, now, live, covered);
    }
  }

  lemma GroupKeepsInventory(c: Config, o: Oracle, cl: Cleanup, st: Tracked, now: nat, live: seq<Identity>, g: Identity,
                            covered: set<nat>)
    requires g in st.groups
    ensures var r := AdvanceGroup(c, o, cl, st, now, live, g, covered).0;
            r.groups.Keys == st.groups.Keys && r.processes == st.processes
  {
    hide SendChecked, NextSignal, ReadClock;
  }

  lemma {:induction false} GroupsKeepInventory(c: Config, o: Oracle, cl: Cleanup, st: Tracked, now: nat,
                                               live: seq<Identity>, groups: seq<Identity>, covered: set<nat>)
    requires forall g :: g in groups ==> g in st.groups
    ensures var r := AdvanceGroups(c, o, cl, st, now, live, groups, covered).0;
            r.groups.Keys == st.groups.Keys && r.processes == st.processes
    decreases |groups|
  {
    hide AdvanceGroup;
    if groups != [] {
      GroupKeepsInventory(c, o, cl, st, now, live, groups[0], covered);
      var (st1, covered1) := AdvanceGroup(c, o, cl, st, now, live, groups[0], covered);
      GroupsKeepInventory(c, o, cl, st1, now, live, groups[1..], covered1);
    }
  }

  lemma MemberKeepsInventory(c: Config, o: Oracle, cl: Cleanup, st: Tracked, now: nat, m: Identity)
    ensures var r := AdvanceMember(c, o, cl, st, now, m); r.groups == st.groups && r.processes == st.processes
  {
    hide SendChecked, NextSignal, ReadClock, Expired, Grace, RecordMember;
    var (l1, at) := ReadClock(o, st.ledger, now);
    var (next, signal, shortened) := NextSignal(cl, Find(st.members, m), at, Expired(cl, at));
    if signal.Some? {
      RecordKeepsInventory(o, cl, st.(ledger := SendChecked(c, o, l1, m, false, signal.value).0), m, next.phase, at, shortened);
    }
  }

  lemma RecordKeepsInventory(o: Oracle, cl: Cleanup, st: Tracked, m: Identity, phase: Phase, at: nat, shortened: bool)
    ensures var r := RecordMember(o, cl, st, m, phase, at, shortened); r.groups == st.groups && r.processes == st.processes
  {
  }

  lemma {:induction false} MembersKeepInventory(c: Config, o: Oracle, cl: Cleanup, st: Tracked, now: nat,
                                                live: seq<Identity>, covered: set<nat>)
    ensures var r := AdvanceMembers(c, o, cl, st, now, live, covered);
            r.groups == st.groups && r.processes == st.processes
    decreases |live|
  {
    hide AdvanceMember;
    if live != [] {
      var st1 := if live[0].pid in covered then st else AdvanceMember(c, o, cl, st, now, live[0]);
      MemberKeepsInventory(c, o, cl, st, now, live[0]);
      MembersKeepInventory(c, o, cl, st1, now, live[1..], covered);
    }
  }

  // ---------------------------------------------------------------- coverage

  /** A check of this very process in the log says it is gone, replaced or exited. */
  ghost predicate SeenGone(trace: seq<Event>, from: nat, id: Identity) {
    exists k :: from <= k < |trace| && trace[k].Checked? && trace[k].pid == id.pid && trace[k].record.Ok?
                && (trace[k].record.value.Some? ==>
                      || !trace[k].record.value.value.identity.SameProcess(id)
                      || trace[k].record.value.value.exited)
  }

  ghost predicate Covered(st: Tracked, from: nat, id: Identity) {
    id in st.members || st.ledger.uncertain || SeenGone(st.ledger.trace, from, id)
  }

  /** Schedules are only added, the log only grows. */
  ghost predicate Onward(st: Tracked, r: Tracked) {
    && (forall id :: id in st.members ==> id in r.members)
    && st.ledger.trace <= r.ledger.trace
    && (st.ledger.uncertain ==> r.ledger.uncertain)
  }

  lemma StaysCovered(st: Tracked, r: Tracked, from: nat, id: Identity)
    requires Covered(st, from, id) && Onward(st, r)
    ensures Covered(r, from, id)
  {
    if SeenGone(st.ledger.trace, from, id) {
      var t := st.ledger.trace;
      var k :| from <= k < |t| && t[k].Checked? && t[k].pid == id.pid && t[k].record.Ok?
               && (t[k].record.value.Some? ==> !t[k].record.value.value.identity.SameProcess(id)
                                               || t[k].record.value.value.exited);
      assert r.ledger.trace[k] == t[k];
    }
  }

  lemma {:induction false} CoverAdds(members: map<Identity, Sequence>, mine: seq<Identity>, s: Sequence)
    ensures forall id :: id in Cover(members, mine, s) <==> id in members || id in mine
    decreases |mine|
  {
    if mine != [] {
      CoverAdds(members[mine[0] := s], mine[1..], s);
    }
  }

  lemma {:induction false} InGroupOfIn(live: seq<Identity>, pgid: nat)
    ensures forall id :: id in InGroupOf(live, pgid) ==> id in live
    decreases |live|
  {
    if live != [] {
      InGroupOfIn(live[1..], pgid);
    }
  }

  predicate UniquePids(live: seq<Identity>) {
    forall i, j :: 0 <= i < |live| && 0 <= j < |live| && live[i].pid == live[j].pid ==> live[i] == live[j]
  }

  lemma SendOnward(c: Config, o: Oracle, l: Ledger, expected: Identity, group: bool, signal: nat)
    ensures var l' := SendChecked(c, o, l, expected, group, signal).0;
            l.trace <= l'.trace && (l.uncertain ==> l'.uncertain)
  {
  }

  lemma AdvanceGroupCovers(c: Config, o: Oracle, cl: Cleanup, st: Tracked, now: nat, live: seq<Identity>, g: Identity,
                           covered: set<nat>)
    requires UniquePids(live)
    requires forall id :: id in live && id.pid in covered ==> id in st.members
    ensures var (r, covered') := AdvanceGroup(c, o, cl, st, now, live, g, covered);
            Onward(st, r) && (forall id :: id in live && id.pid in covered' ==> id in r.members)
  {
    hide SendChecked, NextSignal, InGroupOf, Expired, Scheduled, Adjust, RecordGroup;
    var mine := InGroupOf(live, g.pgid);
    InGroupOfIn(live, g.pgid);
    var (l1, at) := ReadClock(o, st.ledger, now);
    var (next, signal, shortened) := NextSignal(cl, Scheduled(st, g), at, Expired(cl, at));
    var number := if signal.Some? then signal.value else 0;
    SendOnward(c, o, l1, g, true, number);
    var (l2, sent) := SendChecked(c, o, l1, g, true, number);
    var st2 := st.(ledger := l2);
    RecordOnward(o, cl, st2, g, next.phase, at, |l1.trace| + 1);
    var (st3, later) := RecordGroup(o, cl, st2, g, next.phase, at, |l1.trace| + 1);
    AdjustOnward(st2, g, next, shortened, mine);
    AdjustOnward(st3, g, later, shortened, mine);
    forall id | id in live && id.pid in Pids(mine) ensures id in mine {
      var i :| 0 <= i < |mine| && mine[i].pid == id.pid;
      assert mine[i] in live;
    }
  }

  lemma AdjustOnward(st: Tracked, g: Identity, s: Sequence, shortened: bool, mine: seq<Identity>)
    ensures var r := Adjust(st, g, s, shortened, mine);
            Onward(st, r) && forall id :: id in mine ==> id in r.members
  {
    CoverAdds(st.members, mine, s);
    hide Cover;
  }

  lemma RecordOnward(o: Oracle, cl: Cleanup, st: Tracked, g: Identity, phase: Phase, at: nat, event: nat)
    ensures Onward(st, RecordGroup(o, cl, st, g, phase, at, event).0)
  {
  }

  lemma {:induction false} AdvanceGroupsCover(c: Config, o: Oracle, cl: Cleanup, st: Tracked, now: nat,
                                              live: seq<Identity>, groups: seq<Identity>, covered: set<nat>)
    requires UniquePids(live)
    requires forall id :: id in live && id.pid in covered ==> id in st.members
    ensures var (r, covered') := AdvanceGroups(c, o, cl, st, now, live, groups, covered);
            Onward(st, r) && (forall id :: id in live && id.pid in covered' ==> id in r.members)
    decreases |groups|
  {
    hide AdvanceGroup;
    if groups != [] {
      AdvanceGroupCovers(c, o, cl, st, now, live, groups[0], covered);
      var (st1, covered1) := AdvanceGroup(c, o, cl, st, now, live, groups[0], covered);
      AdvanceGroupsCover(c, o, cl, st1, now, live, groups[1..], covered1);
    }
  }

  lemma AdvanceMemberCovers(c: Config, o: Oracle, cl: Cleanup, st: Tracked, now: nat, id: Identity)
    ensures var r := AdvanceMember(c, o, cl, st, now, id);
            Onward(st, r) && Covered(r, |st.ledger.trace|, id)
  {
    hide NextSignal, SendChecked, Expired, Grace, SeenGone, Covered;
    AdvanceMemberOnward(c, o, cl, st, now, id);
    var (l1, at) := ReadClock(o, st.ledger, now);
    var (next, signal, _) := NextSignal(cl, Find(st.members, id), at, Expired(cl, at));
    var r := AdvanceMember(c, o, cl, st, now, id);
    if signal.None? {
      NoneScheduled(cl, Find(st.members, id), at, Expired(cl, at));
    } else {
      SendMisses(c, o, l1, id, signal.value);
      assert |l1.trace| == |st.ledger.trace| + 1;
    }
    if id in r.members {
      AlreadyCovered(r, id, |st.ledger.trace|);
    } else {
      Missed(r, id, |l1.trace|, |st.ledger.trace|);
    }
  }

  lemma AdvanceMemberOnward(c: Config, o: Oracle, cl: Cleanup, st: Tracked, now: nat, id: Identity)
    ensures Onward(st, AdvanceMember(c, o, cl, st, now, id))
  {
    hide NextSignal, SendChecked, Expired, Grace, RecordMember, Find;
    var (l1, at) := ReadClock(o, st.ledger, now);
    var (next, signal, shortened) := NextSignal(cl, Find(st.members, id), at, Expired(cl, at));
    if signal.Some? {
      SendOnward(c, o, l1, id, false, signal.value);
      var (l2, _) := SendChecked(c, o, l1, id, false, signal.value);
      RecordMemberOnward(o, cl, st.(ledger := l2), id, next.phase, at, shortened);
    }
  }

  lemma RecordMemberOnward(o: Oracle, cl: Cleanup, st: Tracked, id: Identity, phase: Phase, at: nat, shortened: bool)
    ensures var r := RecordMember(o, cl, st, id, phase, at, shortened); Onward(st, r) && id in r.members
  {
  }

  lemma Missed(r: Tracked, id: Identity, later: nat, from: nat)
    requires from <= later && (r.ledger.uncertain || SeenGone(r.ledger.trace, later, id))
    ensures Covered(r, from, id)
  {
  }

  lemma NoneScheduled(cl: Cleanup, s: Option<Sequence>, at: nat, force: bool)
    ensures NextSignal(cl, s, at, force).1.None? ==> s.Some?
  {
  }

  /** A process signal that is withheld has lost certainty or seen the process gone. */
  lemma SendMisses(c: Config, o: Oracle, l: Ledger, id: Identity, signal: nat)
    ensures var (l', sent) := SendChecked(c, o, l, id, false, signal);
            sent || l'.uncertain || SeenGone(l'.trace, |l.trace|, id)
  {
    var (l', sent) := SendChecked(c, o, l, id, false, signal);
    assert l'.trace[|l.trace|] == Checked(id.pid, o.Look(l.Tick(), id.pid));
  }

  lemma {:induction false} AdvanceMembersCover(c: Config, o: Oracle, cl: Cleanup, st: Tracked, now: nat,
                                               live: seq<Identity>, covered: set<nat>, from: nat)
    requires from <= |st.ledger.trace|
    requires forall id :: id in live && id.pid in covered ==> id in st.members
    ensures var r := AdvanceMembers(c, o, cl, st, now, live, covered);
            Onward(st, r) && (forall id :: id in live ==> Covered(r, from, id))
    decreases |live|
  {
    hide AdvanceMember, Covered;
    if live != [] {
      var id := live[0];
      AdvanceMemberCovers(c, o, cl, st, now, id);
      var st1 := if id.pid in covered then st else AdvanceMember(c, o, cl, st, now, id);
      AlreadyCovered(st, id, from);
      if id.pid !in covered {
        Later(st1, id, |st.ledger.trace|, from);
      }
      assert Covered(st1, from, id);
      assert forall d :: d in live[1..] ==> d in live;
      AdvanceMembersCover(c, o, cl, st1, now, live[1..], covered, from);
      var r := AdvanceMembers(c, o, cl, st1, now, live[1..], covered);
      StaysCovered(st1, r, from, id);
      assert forall d :: d in live ==> d == id || d in live[1..];
    }
  }

  lemma AlreadyCovered(st: Tracked, id: Identity, from: nat)
    ensures id in st.members ==> Covered(st, from, id)
  {
  }

  lemma Later(st: Tracked, id: Identity, later: nat, from: nat)
    requires Covered(st, later, id) && from <= later
    ensures Covered(st, from, id)
  {
  }

  lemma {:induction false} LiveUnique(records: seq<Record>)
    requires forall i, j :: 0 <= i < j < |records| ==> records[i].identity.pid != records[j].identity.pid
    ensures UniquePids(LiveOf(records))
    ensures forall id :: id in LiveOf(records) ==> exists i :: 0 <= i < |records| && records[i].identity == id
    decreases |records|
  {
    if records != [] {
      var rest := records[1..];
      LiveUnique(rest);
      forall id | id in LiveOf(records) ensures exists i :: 0 <= i < |records| && records[i].identity == id {
        if id in LiveOf(rest) {
          var i :| 0 <= i < |rest| && rest[i].identity == id;
          assert records[i + 1].identity == id;
        } else {
          assert records[0].identity == id;
        }
      }
      forall id | id in LiveOf(rest) ensures id.pid != records[0].identity.pid {
        var i :| 0 <= i < |rest| && rest[i].identity == id;
        assert records[i + 1].identity == id;
      }
      var live := LiveOf(records);
      forall i, j | 0 <= i < |live| && 0 <= j < |live| && live[i].pid == live[j].pid ensures live[i] == live[j] {
        if !records[0].exited {
          assert i > 0 ==> live[i] == LiveOf(rest)[i - 1];
          assert j > 0 ==> live[j] == LiveOf(rest)[j - 1];
        }
      }
    }
  }

  /** After every pass of a cleanup each live process has a schedule, or was itself
      seen gone, replaced or exited, or certainty is lost. */
  lemma AdvanceCovers(c: Config, o: Oracle, st: Tracked, now: nat)
    requires o.Lists() && Keyed(st.processes) && st.cleanup.Some?
    ensures var r := Advance(c, o, st, now).0;
            forall p :: p in st.processes && !st.processes[p].exited ==>
                          Covered(r, |st.ledger.trace|, st.processes[p].identity)
  {
    hide AdvanceGroups, AdvanceMembers, Covered;
    var cl := st.cleanup.value;
    var live := Live(o, st);
    var snapshot := Snapshot(o, st);
    LiveUnique(snapshot);
    var order := o.leaders(st.ledger.Tick(), st.groups.Keys);
    AdvanceGroupsCover(c, o, cl, st, now, live, order, {});
    var (st1, covered) := AdvanceGroups(c, o, cl, st, now, live, order, {});
    AdvanceMembersCover(c, o, cl, st1, now, live, covered, |st.ledger.trace|);
    var st2 := AdvanceMembers(c, o, cl, st1, now, live, covered);
    var r := Advance(c, o, st, now).0;
    assert Onward(st2, r);
    SnapshotHolds(o, st);
    forall p | p in st.processes && !st.processes[p].exited
      ensures Covered(r, |st.ledger.trace|, st.processes[p].identity)
    {
      var i :| 0 <= i < |snapshot| && snapshot[i] == st.processes[p];
      LiveIncludes(snapshot, i);
      StaysCovered(st2, r, |st.ledger.trace|, st.processes[p].identity);
    }
  }

  lemma {:induction false} LiveIncludes(records: seq<Record>, i: nat)
    requires i < |records| && !records[i].exited
    ensures records[i].identity in LiveOf(records)
    decreases |records|
  {
    if i > 0 {
      LiveIncludes(records[1..], i - 1);
    }
  }

  /** A process met alive in the last scan was read again and, unless it no longer read
      back as itself and alive, sent KILL. */
  ghost predicate LateServed(trace: seq<Event>, from: nat, id: Identity) {
    exists k :: from <= k < |trace| && trace[k].Checked? && trace[k].pid == id.pid
      && (trace[k].record.Ok? && trace[k].record.value.Some? && 1 <= id.pid <= MAX_PID
          && trace[k].record.value.value.identity.SameProcess(id) && !trace[k].record.value.value.exited ==>
            k + 1 < |trace| && trace[k + 1].Killed? && trace[k + 1].target == id.pid && trace[k + 1].signal == SIGKILL)
  }

  lemma SendServes(c: Config, o: Oracle, l: Ledger, id: Identity)
    ensures LateServed(SendChecked(c, o, l, id, false, SIGKILL).0.trace, |l.trace|, id)
  {
    var r := SendChecked(c, o, l, id, false, SIGKILL).0;
    var a := o.Look(l.Tick(), id.pid);
    var checked := l.Log(Checked(id.pid, a));
    assert r.trace[|l.trace|] == Checked(id.pid, a);
    if a.Ok? && a.value.Some? && 1 <= id.pid <= MAX_PID && a.value.value.identity.SameProcess(id) && !a.value.value.exited {
      var killed := Killed(id.pid, SIGKILL, id, o.kill(checked.Tick(), id.pid, SIGKILL));
      assert r.trace == checked.trace + [killed];
      assert r.trace[|l.trace| + 1] == killed;
    }
  }

  lemma ServedLater(before: seq<Event>, after: seq<Event>, from: nat, from': nat, id: Identity)
    requires before <= after && from' <= from && LateServed(before, from, id)
    ensures LateServed(after, from', id)
  {
    var k :| from <= k < |before| && before[k].Checked? && before[k].pid == id.pid
      && (before[k].record.Ok? && before[k].record.value.Some? && 1 <= id.pid <= MAX_PID
          && before[k].record.value.value.identity.SameProcess(id) && !before[k].record.value.value.exited ==>
            k + 1 < |before| && before[k + 1].Killed? && before[k + 1].target == id.pid && before[k + 1].signal == SIGKILL);
    assert after[k] == before[k];
  }

  lemma {:induction false} KillAllServes(c: Config, o: Oracle, l: Ledger, live: seq<Identity>)
    ensures l.trace <= KillAll(c, o, l, live).trace
    ensures forall id :: id in live ==> LateServed(KillAll(c, o, l, live).trace, |l.trace|, id)
    decreases |live|
  {
    hide SendChecked, LateServed;
    if live != [] {
      var l1 := SendChecked(c, o, l, live[0], false, SIGKILL).0;
      SendOnward(c, o, l, live[0], false, SIGKILL);
      SendServes(c, o, l, live[0]);
      KillAllServes(c, o, l1, live[1..]);
      var all := KillAll(c, o, l, live).trace;
      forall id | id in live ensures LateServed(all, |l.trace|, id) {
        if id == live[0] {
          ServedLater(l1.trace, all, |l.trace|, |l.trace|, id);
        } else {
          assert id in live[1..];
          ServedLater(all, all, |l1.trace|, |l.trace|, id);
        }
      }
    }
  }

  /** The last scan leaves no process it found alive without a checked KILL. */
  lemma FinishServes(c: Config, o: Oracle, st: Tracked)
    requires o.Lists()
    ensures var scanned := Scan(c, o, st); var r := FinishScan(c, o, st).0;
            forall id :: id in Live(o, scanned) ==> LateServed(r.ledger.trace, |scanned.ledger.trace|, id)
  {
    hide Scan, KillAll, LateServed;
    var scanned := Scan(c, o, st);
    var live := Live(o, scanned);
    if live != [] {
      KillAllServes(c, o, scanned.ledger.Refuse(LateLive), live);
      var r := FinishScan(c, o, st).0;
      forall id | id in live ensures LateServed(r.ledger.trace, |scanned.ledger.trace|, id) {
        ServedLater(r.ledger.trace, r.ledger.trace, |scanned.ledger.trace| + 1, |scanned.ledger.trace|, id);
      }
    }
  }
}
