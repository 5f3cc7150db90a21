/** A cleanup is bounded, and the bound leaves room for every stage. */
module Bound {
  import opened Process
  import opened Tracking
  import opened Safety
  import opened Escalation
  import opened Coverage

  // ------------------------------------------------------ the deadline is fixed

  lemma {:induction false} AddLeadersKeep(c: Config, st: Tracked, records: seq<Record>)
    ensures var r := AddLeaders(c, st, records);
            && r.cleanup == st.cleanup && r.processes == st.processes
            && (forall g :: g in st.groups ==> g in r.groups && r.groups[g] == st.groups[g])
            && (forall g :: g in st.history && g in st.groups ==> g in r.history && r.history[g] == st.history[g])
    decreases |records|
  {
    if records != [] {
      var id, rest := records[0].identity, records[1..];
      if !id.Leads() || id in st.groups {
        AddLeadersKeep(c, st, rest);
      } else if |st.groups| >= c.groupLimit {
        AddLeadersKeep(c, st.(ledger := st.ledger.Refuse(GroupLimit)), rest);
      } else {
        AddLeadersKeep(c, Enrolled(st, id), rest);
      }
    }
  }

  /** A scan keeps the cleanup, and the schedule of each group it retains. */
  lemma ScanKeeps(c: Config, o: Oracle, st: Tracked)
    requires o.Lists()
    ensures var r := Scan(c, o, st);
            && r.cleanup == st.cleanup
            && (forall g :: g in st.groups && g in st.history && Retained(r.processes, g) ==>
                  && g in r.groups && r.groups[g] == st.groups[g]
                  && g in r.history && r.history[g] == st.history[g])
  {
    hide ScanRootGroup, WalkAll, WalkStart, ReapAll, Retained;
    var (w, unresolved) := Found(c, o, st);
    var st1 := st.(processes := w.processes, ledger := w.ledger, unresolved := unresolved);
    var (ledger, processes) := ReapAll(c, o, st1.ledger, st1.processes, Snapshot(o, st1));
    var st2 := PruneGroups(st1.(ledger := ledger, processes := processes));
    AddLeadersKeep(c, st2, Snapshot(o, st2));
  }

  lemma AdvanceGroupKeeps(c: Config, o: Oracle, cl: Cleanup, st: Tracked, now: nat, live: seq<Identity>, g: Identity,
                          covered: set<nat>)
    ensures var r := AdvanceGroup(c, o, cl, st, now, live, g, covered).0;
            && r.cleanup == st.cleanup && r.unresolved == st.unresolved && r.processes == st.processes
            && r.incompleteScans == st.incompleteScans
            && (forall h :: h != g ==> Find(r.groups, h) == Find(st.groups, h) && Find(r.history, h) == Find(st.history, h))
  {
    hide SendChecked, NextSignal, InGroupOf, Pids, Expired, Scheduled, Adjust, RecordGroup, Find;
    var mine := InGroupOf(live, g.pgid);
    var (l1, at) := ReadClock(o, st.ledger, now);
    var (next, signal, shortened) := NextSignal(cl, Scheduled(st, g), at, Expired(cl, at));
    var (l2, sent) := SendChecked(c, o, l1, g, true, if signal.Some? then signal.value else 0);
    var st2 := st.(ledger := l2);
    var (st3, later) := RecordGroup(o, cl, st2, g, next.phase, at, |l1.trace| + 1);
    RecordKeeps(o, cl, st2, g, next.phase, at, |l1.trace| + 1);
    AdjustKeeps(st2, g, next, shortened, mine);
    AdjustKeeps(st3, g, later, shortened, mine);
  }

  lemma RecordKeeps(o: Oracle, cl: Cleanup, st: Tracked, g: Identity, phase: Phase, at: nat, event: nat)
    ensures var r := RecordGroup(o, cl, st, g, phase, at, event).0;
            && r == st.(ledger := r.ledger, history := r.history)
            && (forall h :: h != g ==> Find(r.history, h) == Find(st.history, h))
  {
  }

  lemma AdjustKeeps(st: Tracked, g: Identity, s: Sequence, shortened: bool, mine: seq<Identity>)
    ensures var r := Adjust(st, g, s, shortened, mine);
            && r == st.(groups := r.groups, ledger := r.ledger, members := r.members)
            && (forall h :: h != g ==> Find(r.groups, h) == Find(st.groups, h))
  {
    hide Cover;
  }

  lemma {:induction false} AdvanceGroupsKeep(c: Config, o: Oracle, cl: Cleanup, st: Tracked, now: nat,
                                             live: seq<Identity>, groups: seq<Identity>, covered: set<nat>)
    ensures var r := AdvanceGroups(c, o, cl, st, now, live, groups, covered).0;
            && r.cleanup == st.cleanup && r.unresolved == st.unresolved && r.processes == st.processes
            && r.incompleteScans == st.incompleteScans
            && (forall h :: h !in groups ==> Find(r.groups, h) == Find(st.groups, h) && Find(r.history, h) == Find(st.history, h))
    decreases |groups|
  {
    hide AdvanceGroup, Find;
    if groups != [] {
      AdvanceGroupKeeps(c, o, cl, st, now, live, groups[0], covered);
      var (st1, covered1) := AdvanceGroup(c, o, cl, st, now, live, groups[0], covered);
      AdvanceGroupsKeep(c, o, cl, st1, now, live, groups[1..], covered1);
    }
  }

  lemma AdvanceMemberKeeps(c: Config, o: Oracle, cl: Cleanup, st: Tracked, now: nat, member: Identity)
    ensures var r := AdvanceMember(c, o, cl, st, now, member);
            && r.cleanup == st.cleanup && r.groups == st.groups && r.history == st.history
            && r.processes == st.processes && r.incompleteScans == st.incompleteScans
  {
    hide SendChecked, NextSignal, ReadClock, Expired, RecordMember;
    var (l1, at) := ReadClock(o, st.ledger, now);
    var (next, signal, shortened) := NextSignal(cl, Find(st.members, member), at, Expired(cl, at));
    if signal.Some? {
      var l2 := SendChecked(c, o, l1, member, false, signal.value).0;
      MemberRecordKeeps(o, cl, st.(ledger := l2), member, next.phase, at, shortened);
    }
  }

  lemma MemberRecordKeeps(o: Oracle, cl: Cleanup, st: Tracked, member: Identity, phase: Phase, at: nat, shortened: bool)
    ensures var r := RecordMember(o, cl, st, member, phase, at, shortened);
            r == st.(members := r.members, ledger := r.ledger)
  {
  }

  lemma {:induction false} AdvanceMembersKeep(c: Config, o: Oracle, cl: Cleanup, st: Tracked, now: nat,
                                              live: seq<Identity>, covered: set<nat>)
    ensures var r := AdvanceMembers(c, o, cl, st, now, live, covered);
            && r.cleanup == st.cleanup && r.groups == st.groups && r.history == st.history
            && r.processes == st.processes && r.incompleteScans == st.incompleteScans
    decreases |live|
  {
    hide AdvanceMember;
    if live != [] {
      AdvanceMemberKeeps(c, o, cl, st, now, live[0]);
      var st1 := if live[0].pid in covered then st else AdvanceMember(c, o, cl, st, now, live[0]);
      AdvanceMembersKeep(c, o, cl, st1, now, live[1..], covered);
    }
  }

  lemma ApplyKeepsPlan(c: Config, o: Oracle, st: Tracked, op: Op)
    requires o.Lists() && st.cleanup.Some?
    ensures var r := Apply(c, o, st, op); r.cleanup.Some? && SamePlan(st.cleanup.value, r.cleanup.value)
  {
    hide Scan, AdvanceGroups, AdvanceMembers;
    match op
    case DoScan => ScanKeeps(c, o, st);
    case DoBegin(_, _, _) =>
    case DoAdvance(now) =>
      var live := Live(o, st);
      var order := o.leaders(st.ledger.Tick(), st.groups.Keys);
      AdvanceGroupsKeep(c, o, st.cleanup.value, st, now, live, order, {});
      var (st1, covered) := AdvanceGroups(c, o, st.cleanup.value, st, now, live, order, {});
      AdvanceMembersKeep(c, o, st.cleanup.value, st1, now, live, covered);
    case DoFinish => ScanKeeps(c, o, st);
    case DoTake =>
    case DoFail =>
  }

  /** Once begun, a cleanup keeps its graces and its deadline however often it is
      begun again; and a pass at or past that deadline reports that it is done. */
  lemma {:induction false} DeadlineHolds(c: Config, o: Oracle, st: Tracked, ops: seq<Op>, now: nat)
    requires o.Lists() && st.cleanup.Some?
    ensures var r := Run(c, o, st, ops);
            && r.cleanup.Some? && SamePlan(st.cleanup.value, r.cleanup.value)
            && (now >= st.cleanup.value.deadline ==> Advance(c, o, r, now).1.done)
    decreases |ops|
  {
    hide Apply, AdvanceGroups, AdvanceMembers;
    if ops != [] {
      ApplyKeepsPlan(c, o, st, ops[0]);
      DeadlineHolds(c, o, Apply(c, o, st, ops[0]), ops[1..], now);
    }
  }

  // ------------------------------------------------- KILL falls due in good time

  /** A group whose recorded leader stays readable, alive or not, and on macOS is not
      denied as a whole; and a clock that stands still during a pass. */
  ghost predicate Steady(c: Config, o: Oracle, g: Identity) {
    && g.Leads() && 1 <= g.pid <= MAX_PID
    && (forall t :: o.clock(t) == 0)
    && (forall t :: var a := o.stat(t, g.pid);
                    a.Ok? && a.value.Some? && a.value.value.pgid == g.pgid && a.value.value.start == g.start)
    && (c.macos ==> forall t, target, s :: target == 0 - g.pid ==> o.kill(t, target, s) != Some(Denied))
  }

  ghost predicate HasLive(processes: map<nat, Record>, pgid: nat) {
    exists p :: p in processes && !processes[p].exited && processes[p].identity.pgid == pgid
  }

  /** The stage a steady group has reached after a pass at `now`. */
  function Reached(cl: Cleanup, s: Option<Sequence>, now: nat): Sequence {
    var (next, signal, _) := NextSignal(cl, s, now, Expired(cl, now));
    if signal.Some? then Sequence(next.phase, now + Grace(cl, next.phase)) else next
  }

  predicate Due(cl: Cleanup, s: Option<Sequence>, now: nat) {
    NextSignal(cl, s, now, Expired(cl, now)).1.Some?
  }

  /** A pass moved the group one step along its schedule, recording the signal it
      sent, or sent none because none was due. */
  ghost predicate Moved(cl: Cleanup, st: Tracked, r: Tracked, now: nat, g: Identity)
    requires g in st.groups
  {
    && g in r.groups && r.groups[g] == Some(Reached(cl, st.groups[g], now))
    && (g in st.history ==> g in r.history)
    && (Due(cl, st.groups[g], now) ==>
          exists m: Mark :: Marks(r, g) == Marks(st, g) + [m] && m.phase == Reached(cl, st.groups[g], now).phase
                            && m.at == m.returned == now)
    && (!Due(cl, st.groups[g], now) ==> Marks(r, g) == Marks(st, g))
  }

  lemma SteadySend(c: Config, o: Oracle, l: Ledger, g: Identity, signal: nat)
    requires Steady(c, o, g)
    ensures SendChecked(c, o, l, g, true, signal).1
  {
    var a := o.stat(l.Tick(), g.pid);
    assert a.Ok? && a.value.Some? && a.value.value.pgid == g.pgid && a.value.value.start == g.start;
    var l1 := l.Log(Checked(g.pid, o.Look(l.Tick(), g.pid)));
    assert c.macos ==> o.kill(l1.Tick(), Target(g, true), signal) != Some(Denied);
  }

  lemma SteadyGroup(c: Config, o: Oracle, cl: Cleanup, st: Tracked, now: nat, live: seq<Identity>, g: Identity,
                    covered: set<nat>)
    requires Steady(c, o, g) && g in st.groups && InGroupOf(live, g.pgid) != []
    ensures Moved(cl, st, AdvanceGroup(c, o, cl, st, now, live, g, covered).0, now, g)
  {
    hide SendChecked, NextSignal, InGroupOf, Adjust, RecordGroup, Expired, Grace, Steady, ReadClock;
    var (l1, at) := ReadClock(o, st.ledger, now);
    StillClock(c, o, g, st.ledger, now);
    var (next, signal, shortened) := NextSignal(cl, st.groups[g], now, Expired(cl, now));
    var number := if signal.Some? then signal.value else 0;
    SteadySend(c, o, l1, g, number);
    var st2 := st.(ledger := SendChecked(c, o, l1, g, true, number).0);
    var r := AdvanceGroup(c, o, cl, st, now, live, g, covered).0;
    var mine := InGroupOf(live, g.pgid);
    if signal.Some? {
      RecordSteady(c, o, cl, st2, g, next.phase, now, |l1.trace| + 1);
      var (st3, s) := RecordGroup(o, cl, st2, g, next.phase, now, |l1.trace| + 1);
      AdjustSteady(st3, g, s, shortened, mine);
      var m := Mark(next.phase, now, now, |l1.trace| + 1);
      assert Marks(r, g) == Marks(st, g) + [m];
    } else {
      AdjustSteady(st2, g, next, shortened, mine);
    }
  }

  lemma StillClock(c: Config, o: Oracle, g: Identity, l: Ledger, now: nat)
    requires Steady(c, o, g)
    ensures ReadClock(o, l, now).1 == now
  {
    assert o.clock(l.Tick()) == 0;
  }

  lemma RecordSteady(c: Config, o: Oracle, cl: Cleanup, st: Tracked, g: Identity, phase: Phase, at: nat, event: nat)
    requires Steady(c, o, g)
    ensures var (r, s) := RecordGroup(o, cl, st, g, phase, at, event);
            && r.groups == st.groups && r.history.Keys == st.history.Keys + {g} && s == Sequence(phase, at + Grace(cl, phase))
            && Marks(r, g) == Marks(st, g) + [Mark(phase, at, at, event)]
  {
    assert o.clock(st.ledger.Tick()) == 0;
    hide Grace;
  }

  lemma AdjustSteady(st: Tracked, g: Identity, s: Sequence, shortened: bool, mine: seq<Identity>)
    ensures var r := Adjust(st, g, s, shortened, mine);
            g in r.groups && r.groups[g] == Some(s) && r.history == st.history
  {
    hide Cover;
  }

  lemma {:induction false} SteadyGroups(c: Config, o: Oracle, cl: Cleanup, st: Tracked, now: nat, live: seq<Identity>,
                                        groups: seq<Identity>, g: Identity, covered: set<nat>)
    requires Steady(c, o, g) && g in st.groups && InGroupOf(live, g.pgid) != []
    requires g in groups && (forall i, j :: 0 <= i < j < |groups| ==> groups[i] != groups[j])
    ensures Moved(cl, st, AdvanceGroups(c, o, cl, st, now, live, groups, covered).0, now, g)
    decreases |groups|
  {
    hide AdvanceGroup, Steady, Reached, NextSignal;
    var (st1, covered1) := AdvanceGroup(c, o, cl, st, now, live, groups[0], covered);
    if groups[0] == g {
      SteadyGroup(c, o, cl, st, now, live, g, covered);
      AdvanceGroupsKeep(c, o, cl, st1, now, live, groups[1..], covered1);
      var r := AdvanceGroups(c, o, cl, st1, now, live, groups[1..], covered1).0;
      assert g !in groups[1..];
      assert Find(r.groups, g) == Find(st1.groups, g) && Find(r.history, g) == Find(st1.history, g);
    } else {
      AdvanceGroupKeeps(c, o, cl, st, now, live, groups[0], covered);
      assert Find(st1.groups, g) == Find(st.groups, g) && Find(st1.history, g) == Find(st.history, g);
      SteadyGroups(c, o, cl, st1, now, live, groups[1..], g, covered1);
    }
  }

  lemma {:induction false} GroupListed(live: seq<Identity>, id: Identity)
    requires id in live
    ensures id in InGroupOf(live, id.pgid)
    decreases |live|
  {
    if live[0] != id {
      GroupListed(live[1..], id);
    }
  }

  lemma LiveInGroup(o: Oracle, st: Tracked, pgid: nat)
    requires o.Lists() && HasLive(st.processes, pgid)
    ensures InGroupOf(Live(o, st), pgid) != []
  {
    var p :| p in st.processes && !st.processes[p].exited && st.processes[p].identity.pgid == pgid;
    var order := o.pids(st.ledger.Tick(), st.processes.Keys);
    assert p in order;
    var i :| 0 <= i < |order| && order[i] == p;
    LiveIncludes(Snapshot(o, st), i);
    GroupListed(Live(o, st), st.processes[p].identity);
  }

  /** One pass moves a steady group exactly one step along its schedule. */
  lemma SteadyAdvance(c: Config, o: Oracle, st: Tracked, now: nat, g: Identity)
    requires o.Lists() && Steady(c, o, g) && st.cleanup.Some? && g in st.groups && HasLive(st.processes, g.pgid)
    ensures Moved(st.cleanup.value, st, Advance(c, o, st, now).0, now, g)
  {
    hide AdvanceGroups, AdvanceMembers, Steady, Reached, NextSignal;
    var cl := st.cleanup.value;
    var live := Live(o, st);
    LiveInGroup(o, st, g.pgid);
    var order := o.leaders(st.ledger.Tick(), st.groups.Keys);
    SteadyGroups(c, o, cl, st, now, live, order, g, {});
    var (st1, covered) := AdvanceGroups(c, o, cl, st, now, live, order, {});
    AdvanceMembersKeep(c, o, cl, st1, now, live, covered);
  }

  /** Over these calls, none of them the last scan: the group is retained by every scan and
      has a live member at every pass. */
  ghost predicate StaysLive(c: Config, o: Oracle, st: Tracked, ops: seq<Op>, g: Identity)
    requires o.Lists()
    decreases |ops|
  {
    ops != [] ==>
      var r := Apply(c, o, st, ops[0]);
      && (ops[0].DoScan? ==> Retained(r.processes, g))
      && (ops[0].DoAdvance? ==> HasLive(st.processes, g.pgid))
      && !ops[0].DoFinish? && StaysLive(c, o, r, ops[1..], g)
  }

  /** Passes follow each other within the sampling interval. */
  predicate SoonApart(ops: seq<Op>, from: nat)
    decreases |ops|
  {
    ops != [] ==>
      if ops[0].DoAdvance? then from <= ops[0].now <= from + SAMPLE_INTERVAL && SoonApart(ops[1..], ops[0].now)
      else SoonApart(ops[1..], from)
  }

  /** The time of the last pass. */
  function LastPass(ops: seq<Op>, from: nat): nat
    decreases |ops|
  {
    if ops == [] then from else LastPass(ops[1..], if ops[0].DoAdvance? then ops[0].now else from)
  }

  function Lead(cl: Cleanup): nat {
    if cl.interrupt.Some? then cl.interrupt.value else 0
  }

  /** When the stage in force ends at the latest, for a cleanup begun at `start`;
      `last` is the time of the previous pass. */
  predicate Timely(cl: Cleanup, s: Option<Sequence>, start: nat, last: nat) {
    match s
    case None => last == start
    case Some(s) =>
      && last <= s.next
      && match s.phase
         case Interrupt => s.next <= start + SAMPLE_INTERVAL + Lead(cl)
         case Terminate => s.next <= start + 2 * SAMPLE_INTERVAL + Lead(cl) + cl.term
         case Killing => false
  }

  predicate Planned(cl: Cleanup, start: nat) {
    cl.deadline == start + Lead(cl) + cl.term + CONFIRM_GRACE
  }

  lemma StepsInTime(cl: Cleanup, s: Option<Sequence>, start: nat, last: nat, now: nat)
    requires Planned(cl, start) && Timely(cl, s, start, last) && last <= now <= last + SAMPLE_INTERVAL
    ensures now < cl.deadline
    ensures Timely(cl, Some(Reached(cl, s, now)), start, now)
            || (Due(cl, s, now) && Reached(cl, s, now).phase.Killing?)
  {
  }

  ghost predicate KilledEarly(cl: Cleanup, h: seq<Mark>) {
    exists i :: 0 <= i < |h| && h[i].phase.Killing? && h[i].at < cl.deadline
  }

  lemma StaysKilled(cl: Cleanup, h: seq<Mark>, m: Mark)
    requires KilledEarly(cl, h) || (m.phase.Killing? && m.at < cl.deadline)
    ensures KilledEarly(cl, h + [m])
  {
    if KilledEarly(cl, h) {
      var i :| 0 <= i < |h| && h[i].phase.Killing? && h[i].at < cl.deadline;
      assert (h + [m])[i] == h[i];
    } else {
      assert (h + [m])[|h|] == m;
    }
  }

  /** With passes at most 50 ms apart and instant reads, a group retained from the
      start of a cleanup with a live member in it has its KILL on record before the
      deadline, whatever other calls are made between. */
  lemma {:induction false} RunRecordsKill(c: Config, o: Oracle, st: Tracked, ops: seq<Op>, g: Identity,
                                          start: nat, last: nat)
    requires o.Lists() && Steady(c, o, g) && st.cleanup.Some? && Planned(st.cleanup.value, start)
    requires g in st.groups && g in st.history && StaysLive(c, o, st, ops, g)
    requires SoonApart(ops, last)
    requires KilledEarly(st.cleanup.value, Marks(st, g))
             || (Timely(st.cleanup.value, st.groups[g], start, last) && st.cleanup.value.deadline <= LastPass(ops, last))
    ensures KilledEarly(st.cleanup.value, Marks(Run(c, o, st, ops), g))
    decreases |ops|
  {
    hide Apply, Steady, KilledEarly;
    if ops == [] {
      LateForStage(st.cleanup.value, st.groups[g], start, last);
    } else {
      var cl, r := st.cleanup.value, Apply(c, o, st, ops[0]);
      CallMoves(c, o, st, ops[0], g, start, last);
      EarlyUnderPlan(cl, r.cleanup.value, Marks(r, g));
      RunRecordsKill(c, o, r, ops[1..], g, start, if ops[0].DoAdvance? then ops[0].now else last);
      EarlyUnderPlan(cl, r.cleanup.value, Marks(Run(c, o, st, ops), g));
    }
  }

  /** A stage in time ends before the deadline. */
  lemma LateForStage(cl: Cleanup, s: Option<Sequence>, start: nat, last: nat)
    ensures Planned(cl, start) && cl.deadline <= last ==> !Timely(cl, s, start, last)
  {
  }

  /** Each call keeps a group that is on time, or has had its KILL, that way. */
  lemma CallMoves(c: Config, o: Oracle, st: Tracked, op: Op, g: Identity, start: nat, last: nat)
    requires o.Lists() && Steady(c, o, g) && st.cleanup.Some? && Planned(st.cleanup.value, start)
    requires g in st.groups && g in st.history && !op.DoFinish?
    requires op.DoScan? ==> Retained(Apply(c, o, st, op).processes, g)
    requires op.DoAdvance? ==> HasLive(st.processes, g.pgid) && last <= op.now <= last + SAMPLE_INTERVAL
    requires KilledEarly(st.cleanup.value, Marks(st, g)) || Timely(st.cleanup.value, st.groups[g], start, last)
    ensures var r := Apply(c, o, st, op); var now := if op.DoAdvance? then op.now else last;
            && g in r.groups && g in r.history && r.cleanup.Some? && SamePlan(st.cleanup.value, r.cleanup.value)
            && (KilledEarly(st.cleanup.value, Marks(r, g)) || Timely(st.cleanup.value, r.groups[g], start, now))
            && (KilledEarly(st.cleanup.value, Marks(st, g)) ==> KilledEarly(st.cleanup.value, Marks(r, g)))
  {
    hide Scan, Advance, Steady, KilledEarly, Timely, Retained, HasLive;
    ApplyKeepsPlan(c, o, st, op);
    match op
    case DoScan => ScanKeeps(c, o, st);
    case DoAdvance(now) => PassMoves(c, o, st, st, now, g, start, last);
    case _ =>
  }

  /** One pass keeps a group that is on time, or has had its KILL, that way. */
  lemma PassMoves(c: Config, o: Oracle, st: Tracked, st1: Tracked, now: nat, g: Identity, start: nat, last: nat)
    requires o.Lists() && Steady(c, o, g) && st.cleanup.Some? && Planned(st.cleanup.value, start)
    requires g in st1.groups && HasLive(st1.processes, g.pgid) && st1.cleanup == st.cleanup
    requires g in st.groups && st1.groups[g] == st.groups[g] && g in st1.history && Marks(st1, g) == Marks(st, g)
    requires last <= now <= last + SAMPLE_INTERVAL
    requires KilledEarly(st.cleanup.value, Marks(st, g)) || Timely(st.cleanup.value, st.groups[g], start, last)
    ensures var r := Advance(c, o, st1, now).0;
            && g in r.groups && g in r.history && r.cleanup.Some? && SamePlan(st.cleanup.value, r.cleanup.value)
            && (KilledEarly(st.cleanup.value, Marks(r, g)) || Timely(st.cleanup.value, r.groups[g], start, now))
            && (KilledEarly(st.cleanup.value, Marks(st, g)) ==> KilledEarly(st.cleanup.value, Marks(r, g)))
  {
    hide Advance, Steady, KilledEarly, Reached, Due;
    var cl := st.cleanup.value;
    var r := Advance(c, o, st1, now).0;
    SteadyAdvance(c, o, st1, now, g);
    ApplyKeepsPlan(c, o, st1, DoAdvance(now));
    if KilledEarly(cl, Marks(st, g)) {
      if Due(cl, st1.groups[g], now) {
        var m: Mark :| Marks(r, g) == Marks(st1, g) + [m];
        StaysKilled(cl, Marks(st1, g), m);
      }
    } else {
      StepsInTime(cl, st1.groups[g], start, last, now);
      if !Timely(cl, r.groups[g], start, now) {
        var m: Mark :| Marks(r, g) == Marks(st1, g) + [m] && m.phase.Killing? && m.at == now;
        StaysKilled(cl, Marks(st1, g), m);
      }
    }
  }

  lemma EarlyUnderPlan(cl: Cleanup, cl': Cleanup, h: seq<Mark>)
    requires SamePlan(cl, cl')
    ensures KilledEarly(cl, h) <==> KilledEarly(cl', h)
  {
  }

  lemma CallOrdered(c: Config, o: Oracle, st: Tracked, op: Op)
    requires o.Lists() && Ordered(st) && SoundState(c, st.ledger, st) && !op.DoFinish?
    ensures var r := Apply(c, o, st, op); Ordered(r) && SoundState(c, r.ledger, r) && Extends(st.ledger, r.ledger)
  {
    hide Sound, Ordered, Scan, Advance;
    var r := Apply(c, o, st, op);
    match op
    case DoScan =>
      ScanOrdered(c, o, st);
      ScanSound(c, o, st.ledger, st);
      Grown(c, st.ledger, r.ledger, r.incompleteScans);
      Rebased(c, st.ledger, r.ledger, r.incompleteScans);
    case DoBegin(now, interrupt, term) =>
      BeginOrdered(st, now, interrupt, term);
    case DoAdvance(now) =>
      AdvanceOrdered(c, o, st, now);
      AdvanceSound(c, o, st.ledger, st, now);
      Grown(c, st.ledger, r.ledger, r.incompleteScans);
      Rebased(c, st.ledger, r.ledger, r.incompleteScans);
    case DoTake =>
      TakenOrdered(st);
    case DoFail =>
      Refusing(c, st.ledger, st.ledger, st.incompleteScans, External);
      Grown(c, st.ledger, r.ledger, r.incompleteScans);
      Rebased(c, st.ledger, r.ledger, r.incompleteScans);
      Extended(st, r.ledger);
  }

  lemma TakenOrdered(st: Tracked)
    requires Ordered(st)
    ensures Ordered(st.(pending := []))
  {
    hide OnSchedule;
  }

  lemma {:induction false} RunOrdered(c: Config, o: Oracle, st: Tracked, ops: seq<Op>, g: Identity)
    requires o.Lists() && Ordered(st) && SoundState(c, st.ledger, st) && StaysLive(c, o, st, ops, g)
    ensures Ordered(Run(c, o, st, ops))
    decreases |ops|
  {
    hide Sound, Ordered, Apply;
    if ops != [] {
      CallOrdered(c, o, st, ops[0]);
      RunOrdered(c, o, Apply(c, o, st, ops[0]), ops[1..], g);
    }
  }

  /** A signal recorded before the deadline came in its turn, and stands in the log. */
  lemma EarlyInTurn(r: Tracked, cl: Cleanup, g: Identity, i: nat)
    requires Ordered(r) && r.cleanup.Some? && SamePlan(cl, r.cleanup.value) && g in r.groups
    requires i < |Marks(r, g)| && Marks(r, g)[i].at < cl.deadline
    ensures InTurn(cl, Before(Marks(r, g), i), Marks(r, g)[i]) && Witnessed(r.ledger.trace, g, Marks(r, g)[i])
  {
    ScheduleOf(r, g);
    hide Ordered;
    TurnOf(r.cleanup.value, g, r.groups[g], r.history[g], r.ledger, i);
    hide Witnessed;
  }

  lemma ScheduleOf(r: Tracked, g: Identity)
    requires Ordered(r) && r.cleanup.Some? && g in r.groups
    ensures g in r.history && OnSchedule(r.cleanup.value, g, r.groups[g], r.history[g], r.ledger)
  {
    hide OnSchedule;
  }

  lemma TurnOf(cl: Cleanup, g: Identity, s: Option<Sequence>, h: seq<Mark>, l: Ledger, i: nat)
    requires OnSchedule(cl, g, s, h, l) && i < |h| && h[i].at < cl.deadline
    ensures InTurn(cl, Before(h, i), h[i]) && Witnessed(l.trace, g, h[i])
  {
    hide Witnessed, InTurn;
    assert InTurn(cl, Before(h, i), h[i]) || PastDeadline(cl, Before(h, i), h[i], l.uncertain);
  }

  /** A KILL of this group stands in the log, decided before the deadline, in its turn and
      after the whole grace of the stage before. */
  ghost predicate KillLogged(cl: Cleanup, r: Tracked, g: Identity) {
    var h := Marks(r, g);
    exists i :: 0 <= i < |h| && h[i].phase.Killing? && h[i].at < cl.deadline && InTurn(cl, Before(h, i), h[i])
                && Witnessed(r.ledger.trace, g, h[i])
  }

  /** During a cleanup in which a group is on time, calls whose passes are at most 50 ms
      apart until the deadline send it that KILL. */
  lemma KillBeforeDeadline(c: Config, o: Oracle, st: Tracked, ops: seq<Op>, g: Identity, start: nat, last: nat)
    requires o.Lists() && Steady(c, o, g) && Ordered(st) && SoundState(c, st.ledger, st)
    requires st.cleanup.Some? && Planned(st.cleanup.value, start)
    requires g in st.groups && StaysLive(c, o, st, ops, g) && SoonApart(ops, last)
    requires KilledEarly(st.cleanup.value, Marks(st, g))
             || (Timely(st.cleanup.value, st.groups[g], start, last) && st.cleanup.value.deadline <= LastPass(ops, last))
    ensures KillLogged(st.cleanup.value, Run(c, o, st, ops), g)
  {
    hide Apply, Steady, Run, StaysLive, InTurn, Sound, Escalates, OnSchedule, Witnessed, Timely, Planned;
    var cl := st.cleanup.value;
    RunRecordsKill(c, o, st, ops, g, start, last);
    RunOrdered(c, o, st, ops, g);
    DeadlineHolds(c, o, st, ops, 0);
    var r := Run(c, o, st, ops);
    var h := Marks(r, g);
    var i :| 0 <= i < |h| && h[i].phase.Killing? && h[i].at < cl.deadline;
    EarlyInTurn(r, cl, g, i);
  }

  /** From any state a run can be in when cleanup begins: calls whose passes are at most
      50 ms apart until the deadline send the group a KILL, which stands in the log, in
      its proper turn, each stage having had its whole grace, before that deadline. */
  lemma CleanupReachesKill(c: Config, o: Oracle, st: Tracked, start: nat, interrupt: Option<nat>, term: nat,
                           ops: seq<Op>, g: Identity)
    requires o.Lists() && Steady(c, o, g) && Ordered(st) && SoundState(c, st.ledger, st) && st.cleanup.None?
    requires g in st.groups && SoonApart(ops, start)
    requires var begun := BeginCleanup(st, start, interrupt, term);
             StaysLive(c, o, begun, ops, g) && begun.cleanup.value.deadline <= LastPass(ops, start)
    ensures var begun := BeginCleanup(st, start, interrupt, term);
            KillLogged(begun.cleanup.value, Run(c, o, begun, ops), g)
  {
    hide Apply, Steady, Run, StaysLive, KillLogged, Sound, Escalates, OnSchedule, SoonApart, LastPass;
    var begun := BeginCleanup(st, start, interrupt, term);
    BeginOrdered(st, start, interrupt, term);
    KillBeforeDeadline(c, o, begun, ops, g, start, start);
  }
}
