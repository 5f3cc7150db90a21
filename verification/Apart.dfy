/** The shim never tracks itself, so that what a scan finds on a table that does not change
    is exact in every run. */
module Apart {
  import opened Process
  import opened Tracking
  import opened Coverage
  import Bound
  import Frozen
  import Runs

  /** No read shows the shim in the root's own group. The child makes itself a session and
      group leader before it becomes the program, so the shim is left outside; and where
      orphans are adopted that group is never enumerated. */
  ghost predicate Outside(c: Config, o: Oracle) {
    c.adopt || forall t :: var a := o.stat(t, c.shim.pid); a.Ok? && a.value.Some? ==> a.value.value.pgid != c.rootPid
  }

  lemma {:induction false} EnlistSkips(c: Config, o: Oracle, w: Walk, parent: nat, kids: seq<nat>)
    requires c.shim.pid !in w.processes
    ensures c.shim.pid !in Enlist(c, o, w, parent, kids).processes
    decreases |kids|
  {
    if kids != [] && kids[0] != c.shim.pid {
      var pid, rest := kids[0], kids[1..];
      var a := o.Look(w.ledger.Tick(), pid);
      var w1 := w.Log(Read(pid, a));
      if a.Err? {
        EnlistSkips(c, o, w1.Missed(a.fault), parent, rest);
      } else {
        EnlistSkips(c, o, w1, parent, rest);
        if a.value.Some? {
          EnlistSkips(c, o, w1.Put(pid, a.value.value).(queue := w1.queue + [a.value.value.identity]), parent, rest);
        }
      }
    } else if kids != [] {
      EnlistSkips(c, o, w, parent, kids[1..]);
    }
  }

  lemma ExpandSkips(c: Config, o: Oracle, w: Walk, e: Identity)
    requires c.shim.pid !in w.processes
    ensures c.shim.pid !in Expand(c, o, w, e).processes
  {
    hide Enlist;
    var kids := o.children(w.ledger.Tick(), e.pid);
    if kids.Ok? {
      var w1 := w.Log(Children(e.pid, kids));
      var w2 := w1.Log(Read(e.pid, o.Look(w1.ledger.Tick(), e.pid)));
      EnlistSkips(c, o, w2, e.pid, kids.value);
    }
  }

  lemma StepSkips(c: Config, o: Oracle, w: Walk)
    requires w.queue != [] && c.shim.pid !in w.processes
    ensures c.shim.pid !in Step(c, o, w).processes
  {
    hide Expand;
    var e := w.queue[0];
    var w1 := w.(queue := w.queue[1..], attempts := w.attempts + 1);
    var a := o.Look(w1.ledger.Tick(), e.pid);
    if a.Ok? && a.value.Some? {
      ExpandSkips(c, o, Visit(c, w1.Log(Read(e.pid, a)), e, a.value.value), e);
    }
  }

  lemma {:induction false} WalkSkips(c: Config, o: Oracle, w: Walk)
    requires w.attempts <= Cap(c) || w.halted
    requires c.shim.pid !in w.processes
    ensures c.shim.pid !in WalkAll(c, o, w).processes
    decreases if w.halted then 0 else 1, Cap(c) + 1 - w.attempts, |w.queue|
  {
    hide Step;
    if !w.halted && w.queue != [] {
      StepSkips(c, o, w);
      StepAttempts(c, o, w);
      assert Step(c, o, w).halted || Step(c, o, w).attempts <= Cap(c);
      WalkSkips(c, o, Step(c, o, w));
    }
  }

  lemma {:induction false} EnlistGroupSkips(c: Config, o: Oracle, w: Walk, pids: seq<nat>, unresolved: bool)
    requires Outside(c, o) && !c.adopt && c.shim.pid !in w.processes
    ensures c.shim.pid !in EnlistGroup(c, o, w, c.rootPid, pids, unresolved).0.processes
    decreases |pids|
  {
    if pids != [] {
      var pid, rest := pids[0], pids[1..];
      var a := o.Look(w.ledger.Tick(), pid);
      var w1 := w.Log(Read(pid, a));
      LooksOutside(c, o, w.ledger.Tick());
      if a.Err? {
        EnlistGroupSkips(c, o, w1.Missed(a.fault), rest, true);
      } else {
        EnlistGroupSkips(c, o, w1, rest, unresolved);
        if a.value.Some? && pid != c.shim.pid {
          EnlistGroupSkips(c, o, w1.Put(pid, a.value.value), rest, unresolved);
        }
      }
    }
  }

  lemma LooksOutside(c: Config, o: Oracle, t: nat)
    requires Outside(c, o) && !c.adopt
    ensures var a := o.Look(t, c.shim.pid); a.Ok? && a.value.Some? ==> a.value.value.identity.pgid != c.rootPid
  {
    var a := o.stat(t, c.shim.pid);
    assert a.Ok? && a.value.Some? ==> a.value.value.pgid != c.rootPid;
  }

  lemma RootGroupSkips(c: Config, o: Oracle, w: Walk)
    requires Outside(c, o) && Keyed(w.processes) && c.shim.pid !in w.processes
    ensures c.shim.pid !in ScanRootGroup(c, o, w).0.processes
  {
    hide EnlistGroup, Outside;
    if !c.adopt && c.rootPid in w.processes && w.processes[c.rootPid].identity.Leads() {
      var root := w.processes[c.rootPid].identity;
      var pids := o.inGroup(w.ledger.Tick(), root.pgid);
      if pids.Ok? {
        var w1 := w.Log(InGroup(root.pgid, pids));
        var w2 := w1.Log(Read(root.pid, o.Look(w1.ledger.Tick(), root.pid)));
        EnlistGroupSkips(c, o, w2, pids.value, false);
      }
    }
  }

  lemma ScanSkips(c: Config, o: Oracle, st: Tracked)
    requires o.Lists() && Outside(c, o) && Keyed(st.processes) && c.shim.pid !in st.processes
    ensures c.shim.pid !in Scan(c, o, st).processes
  {
    hide WalkAll, WalkStart, ScanRootGroup, ReapAll, AddLeaders, Retained, Outside, Keyed;
    var start := WalkStart(c, o, st);
    StartHolds(c, o, st);
    WalkKeyed(c, o, start);
    WalkSkips(c, o, start);
    RootGroupSkips(c, o, WalkAll(c, o, start));
    var (w, unresolved) := Found(c, o, st);
    var st1 := st.(processes := w.processes, ledger := w.ledger, unresolved := unresolved);
    ReapShrinks(c, o, st1.ledger, st1.processes, Snapshot(o, st1));
    var (ledger, processes) := ReapAll(c, o, st1.ledger, st1.processes, Snapshot(o, st1));
    var st2 := PruneGroups(st1.(ledger := ledger, processes := processes));
    Bound.AddLeadersKeep(c, st2, Snapshot(o, st2));
  }

  lemma StartHolds(c: Config, o: Oracle, st: Tracked)
    requires o.Lists()
    ensures WalkStart(c, o, st).processes == st.processes
  {
  }

  lemma ApplySkips(c: Config, o: Oracle, st: Tracked, op: Op)
    requires o.Lists() && Outside(c, o) && Keyed(st.processes) && c.shim.pid !in st.processes
    ensures c.shim.pid !in Apply(c, o, st, op).processes
  {
    hide Scan, AdvanceGroups, AdvanceMembers, Outside, Keyed;
    match op
    case DoScan => ScanSkips(c, o, st);
    case DoFinish => ScanSkips(c, o, st);
    case DoAdvance(now) =>
      if st.cleanup.Some? {
        var cl, live, order := st.cleanup.value, Live(o, st), o.leaders(st.ledger.Tick(), st.groups.Keys);
        Bound.AdvanceGroupsKeep(c, o, cl, st, now, live, order, {});
        var (st1, covered) := AdvanceGroups(c, o, cl, st, now, live, order, {});
        Bound.AdvanceMembersKeep(c, o, cl, st1, now, live, covered);
      }
    case _ =>
  }

  /** As long as no read shows the shim in the root's group, no run ever tracks the shim. */
  lemma {:induction false} ShimUntracked(c: Config, o: Oracle, root: Identity, st: Tracked, ops: seq<Op>)
    requires o.Lists() && Outside(c, o) && Runs.Safe(c, root, st) && c.shim.pid !in st.processes
    ensures c.shim.pid !in Run(c, o, st, ops).processes && Runs.Safe(c, root, Run(c, o, st, ops))
    decreases |ops|
  {
    hide Apply, Outside, Runs.Safe;
    if ops != [] {
      SafeKeyed(c, root, st);
      ApplySkips(c, o, st, ops[0]);
      Runs.ApplySafe(c, o, st, ops[0], root);
      ShimUntracked(c, o, root, Apply(c, o, st, ops[0]), ops[1..]);
    }
  }

  lemma SafeKeyed(c: Config, root: Identity, st: Tracked)
    requires Runs.Safe(c, root, st)
    ensures Keyed(st.processes)
  {
    hide Keyed;
  }

  /** Whatever a run went through before, a scan on a table that no longer changes is
      exact, as `Frozen.ScanExact` has it. */
  lemma RunScanExact(c: Config, o: Oracle, root: Identity, ops: seq<Op>, still: Oracle, table: Frozen.Table)
    requires o.Lists() && Outside(c, o) && c.groupLimit >= 1 && root.pid != c.shim.pid
    requires still.Lists() && Frozen.FrozenAt(still, table)
    requires var st := Run(c, o, Started(c, root), ops);
             |st.processes.Keys + Frozen.Sighted(c, table, st)| <= c.processLimit
    ensures var st := Run(c, o, Started(c, root), ops);
            && !Found(c, still, st).0.halted && !Found(c, still, st).0.incomplete
            && Scan(c, still, st).processes ==
               (map p | p in Frozen.Sighted(c, table, st) && p in table
                        && !(c.adopt && p != c.rootPid && table[p].exited && table[p].ppid == c.shim.pid)
                    :: Frozen.Entry(table, p))
            && Scan(c, still, st).incompleteScans == 0 && !Scan(c, still, st).unresolved
  {
    hide Run, Scan, Found, Outside, Runs.Safe, Frozen.FrozenAt, Frozen.Sighted, Keyed;
    var start := Started(c, root);
    Runs.StartSafe(c, root);
    ShimUntracked(c, o, root, start, ops);
    var st := Run(c, o, start, ops);
    SafeKeyed(c, root, st);
    Frozen.ScanExact(c, still, table, st);
  }
}
