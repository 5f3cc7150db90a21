/** Every signal a retained group was sent stands in its record, in the order of the
    log: what is proved of recorded signals holds of the signals themselves. */
module Signals {
  import opened Process
  import opened Tracking
  import opened Safety
  import opened Escalation

  /** A call that signalled the whole group of this leader. A denial on macOS reaches no
      process that could be signalled, and counts as no signal. */
  predicate Signalled(c: Config, e: Event, g: Identity) {
    e.Killed? && e.target < 0 && e.expected == g && !(c.macos && e.fault == Some(Denied))
  }

  /** Where the log, from one place on, holds the signals of a group. */
  function SentFrom(c: Config, trace: seq<Event>, g: Identity, from: nat): seq<nat> {
    if |trace| <= from then []
    else
      var last := |trace| - 1;
      SentFrom(c, trace[..last], g, from) + if Signalled(c, trace[last], g) then [last] else []
  }

  function Places(h: seq<Mark>): seq<nat> {
    seq(|h|, i requires 0 <= i < |h| => h[i].event)
  }

  /** The record of each retained group names exactly the signals the log holds for it
      since it was enrolled, in order. */
  ghost predicate Accounted(c: Config, st: Tracked) {
    && st.births.Keys == st.groups.Keys == st.history.Keys
    && forall g :: g in st.groups ==>
         st.births[g] <= |st.ledger.trace|
         && SentFrom(c, st.ledger.trace, g, st.births[g]) == Places(st.history[g])
  }

  // ------------------------------------------------------------------- the places

  lemma {:induction false} SentExactly(c: Config, trace: seq<Event>, g: Identity, from: nat)
    ensures var s := SentFrom(c, trace, g, from);
            && (forall k: nat :: k in s <==> from <= k < |trace| && Signalled(c, trace[k], g))
            && (forall i, j :: 0 <= i < j < |s| ==> s[i] < s[j])
    decreases |trace|
  {
    if |trace| > from {
      var last := |trace| - 1;
      var front := SentFrom(c, trace[..last], g, from);
      var s := SentFrom(c, trace, g, from);
      SentExactly(c, trace[..last], g, from);
      assert s == front + if Signalled(c, trace[last], g) then [last] else [];
      assert forall i :: 0 <= i < |front| ==> front[i] in front;
    }
  }

  /** Nothing but signals to single processes was added. */
  predicate NoGroupSignal(before: seq<Event>, after: seq<Event>) {
    before <= after && forall k :: |before| <= k < |after| ==> !(after[k].Killed? && after[k].target < 0)
  }

  lemma {:induction false} SentStays(c: Config, before: seq<Event>, after: seq<Event>, g: Identity, from: nat)
    requires NoGroupSignal(before, after) && from <= |before|
    ensures SentFrom(c, after, g, from) == SentFrom(c, before, g, from)
    decreases |after|
  {
    if |before| < |after| {
      var shorter := after[..|after| - 1];
      assert shorter[..|before|] == after[..|before|];
      SentStays(c, before, shorter, g, from);
    } else {
      assert after == before;
    }
  }

  lemma Quietly(a: seq<Event>, b: seq<Event>, d: seq<Event>)
    requires NoGroupSignal(a, b) && NoGroupSignal(b, d)
    ensures NoGroupSignal(a, d)
  {
    forall k | |a| <= k < |d| ensures !(d[k].Killed? && d[k].target < 0) {
      if k < |b| {
        assert d[k] == b[k];
      }
    }
  }

  /** A longer log without a group signal leaves every record exact. */
  lemma QuietAccounted(c: Config, st: Tracked, l: Ledger)
    requires Accounted(c, st) && NoGroupSignal(st.ledger.trace, l.trace)
    ensures Accounted(c, st.(ledger := l))
  {
    hide SentFrom;
    forall g | g in st.groups ensures SentFrom(c, l.trace, g, st.births[g]) == Places(st.history[g]) {
      SentStays(c, st.ledger.trace, l.trace, g, st.births[g]);
    }
  }

  // ------------------------------------------------------------ scans are quiet

  lemma {:induction false} EnlistQuiet(c: Config, o: Oracle, w: Walk, parent: nat, kids: seq<nat>)
    ensures NoGroupSignal(w.ledger.trace, Enlist(c, o, w, parent, kids).ledger.trace)
    decreases |kids|
  {
    if kids != [] && kids[0] == c.shim.pid {
      EnlistQuiet(c, o, w, parent, kids[1..]);
    } else if kids != [] {
      var pid, rest := kids[0], kids[1..];
      var a := o.Look(w.ledger.Tick(), pid);
      var w1 := w.Log(Read(pid, a));
      match a
      case Err(f) => EnlistQuiet(c, o, w1.Missed(f), parent, rest);
      case Ok(None) => EnlistQuiet(c, o, w1, parent, rest);
      case Ok(Some(child)) =>
        EnlistQuiet(c, o, w1, parent, rest);
        EnlistQuiet(c, o, w1.Put(pid, child).(queue := w1.queue + [child.identity]), parent, rest);
    }
  }

  lemma StepQuiet(c: Config, o: Oracle, w: Walk)
    requires w.queue != []
    ensures NoGroupSignal(w.ledger.trace, Step(c, o, w).ledger.trace)
  {
    hide Enlist, Expand;
    var e := w.queue[0];
    var a := o.Look(w.ledger.Tick(), e.pid);
    var w1 := w.(queue := w.queue[1..], attempts := w.attempts + 1).Log(Read(e.pid, a));
    if a.Ok? && a.value.Some? {
      ExpandQuiet(c, o, Visit(c, w1, e, a.value.value), e);
    }
  }

  lemma ExpandQuiet(c: Config, o: Oracle, w: Walk, e: Identity)
    ensures NoGroupSignal(w.ledger.trace, Expand(c, o, w, e).ledger.trace)
  {
    hide Enlist;
    var kids := o.children(w.ledger.Tick(), e.pid);
    var w1 := w.Log(Children(e.pid, kids));
    var a := o.Look(w1.ledger.Tick(), e.pid);
    var w2 := w1.Log(Read(e.pid, a));
    if kids.Ok? {
      EnlistQuiet(c, o, w2, e.pid, kids.value);
    }
  }

  lemma {:induction false} WalkQuiet(c: Config, o: Oracle, w: Walk)
    requires w.attempts <= Cap(c) || w.halted
    ensures NoGroupSignal(w.ledger.trace, WalkAll(c, o, w).ledger.trace)
    decreases if w.halted then 0 else 1, Cap(c) + 1 - w.attempts, |w.queue|
  {
    hide Step;
    if !w.halted && w.queue != [] {
      StepQuiet(c, o, w);
      WalkQuiet(c, o, Step(c, o, w));
    }
  }

  lemma QuietOne(trace: seq<Event>, e: Event)
    ensures !e.Killed? ==> NoGroupSignal(trace, trace + [e])
  {
  }

  lemma {:induction false} EnlistGroupQuiet(c: Config, o: Oracle, w: Walk, pgid: nat, pids: seq<nat>, unresolved: bool)
    ensures NoGroupSignal(w.ledger.trace, EnlistGroup(c, o, w, pgid, pids, unresolved).0.ledger.trace)
    decreases |pids|
  {
    hide NoGroupSignal;
    var after := EnlistGroup(c, o, w, pgid, pids, unresolved).0.ledger.trace;
    if pids == [] {
      QuietNone(w.ledger.trace);
    } else {
      var pid, rest := pids[0], pids[1..];
      var a := o.Look(w.ledger.Tick(), pid);
      var w1 := w.Log(Read(pid, a));
      QuietOne(w.ledger.trace, Read(pid, a));
      match a
      case Err(f) =>
        EnlistGroupQuiet(c, o, w1.Missed(f), pgid, rest, true);
        Quietly(w.ledger.trace, w1.ledger.trace, after);
      case Ok(None) =>
        EnlistGroupQuiet(c, o, w1, pgid, rest, unresolved);
        Quietly(w.ledger.trace, w1.ledger.trace, after);
      case Ok(Some(member)) =>
        EnlistGroupQuiet(c, o, w1, pgid, rest, unresolved);
        EnlistGroupQuiet(c, o, w1.Put(pid, member), pgid, rest, unresolved);
        QuietOne(w1.ledger.trace, Refused(ProcessLimit));
        Quietly(w.ledger.trace, w1.ledger.trace, after);
    }
  }

  lemma QuietNone(trace: seq<Event>)
    ensures NoGroupSignal(trace, trace)
  {
  }

  lemma RootGroupQuiet(c: Config, o: Oracle, w: Walk)
    ensures NoGroupSignal(w.ledger.trace, ScanRootGroup(c, o, w).0.ledger.trace)
  {
    hide EnlistGroup;
    if c.rootPid in w.processes {
      var root := w.processes[c.rootPid];
      var pids := o.inGroup(w.ledger.Tick(), root.identity.pgid);
      var w1 := w.Log(InGroup(root.identity.pgid, pids));
      var w2 := w1.Log(Read(root.identity.pid, o.Look(w1.ledger.Tick(), root.identity.pid)));
      if pids.Ok? {
        EnlistGroupQuiet(c, o, w2, root.identity.pgid, pids.value, false);
      }
    }
  }

  lemma {:induction false} ReapQuiet(c: Config, o: Oracle, l: Ledger, processes: map<nat, Record>, records: seq<Record>)
    ensures NoGroupSignal(l.trace, ReapAll(c, o, l, processes, records).0.trace)
    decreases |records|
  {
    if records != [] {
      var r, rest := records[0], records[1..];
      if Reapable(c, r) {
        var l1 := l.Log(Reaped(r.identity.pid, o.reap(l.Tick(), r.identity.pid)));
        ReapQuiet(c, o, l1, processes - {r.identity.pid}, rest);
        ReapQuiet(c, o, l1.Fail(), processes, rest);
      } else {
        ReapQuiet(c, o, l, processes, rest);
      }
    }
  }

  /** Groups join with an empty record and nothing sent since. */
  lemma {:induction false} AddLeadersAccounted(c: Config, st: Tracked, records: seq<Record>)
    requires Accounted(c, st)
    ensures Accounted(c, AddLeaders(c, st, records))
    decreases |records|
  {
    hide Accounted;
    if records != [] {
      var id, rest := records[0].identity, records[1..];
      if !id.Leads() || id in st.groups {
        AddLeadersAccounted(c, st, rest);
      } else if |st.groups| >= c.groupLimit {
        QuietAccounted(c, st, st.ledger.Refuse(GroupLimit));
        AddLeadersAccounted(c, st.(ledger := st.ledger.Refuse(GroupLimit)), rest);
      } else {
        EnrolledAccounted(c, st, id);
        AddLeadersAccounted(c, Enrolled(st, id), rest);
      }
    }
  }

  lemma EnrolledAccounted(c: Config, st: Tracked, id: Identity)
    requires Accounted(c, st)
    ensures Accounted(c, Enrolled(st, id))
  {
  }

  /** Only these parts of a state matter to it. */
  lemma SameAccounted(c: Config, st: Tracked, r: Tracked)
    requires Accounted(c, st)
    requires r.groups.Keys == st.groups.Keys && r.history == st.history && r.births == st.births && r.ledger == st.ledger
    ensures Accounted(c, r)
  {
  }

  lemma PrunedAccounted(c: Config, st: Tracked)
    requires Accounted(c, st)
    ensures Accounted(c, PruneGroups(st))
  {
    hide SentFrom, Retained;
  }

  lemma ScanAccounted(c: Config, o: Oracle, st: Tracked)
    requires o.Lists() && Accounted(c, st)
    ensures Accounted(c, Scan(c, o, st))
  {
    hide Accounted, WalkAll, WalkStart, ScanRootGroup, ReapAll, AddLeaders, PruneGroups, NoGroupSignal;
    var w := WalkStart(c, o, st);
    StartQuiet(c, o, st);
    WalkQuiet(c, o, w);
    RootGroupQuiet(c, o, WalkAll(c, o, w));
    var (found, unresolved) := Found(c, o, st);
    Quietly(st.ledger.trace, WalkAll(c, o, w).ledger.trace, found.ledger.trace);
    QuietAccounted(c, st, found.ledger);
    var st1 := st.(processes := found.processes, ledger := found.ledger, unresolved := unresolved);
    SameAccounted(c, st.(ledger := found.ledger), st1);
    SettleAccounted(c, o, st1, found.incomplete);
  }

  lemma StartQuiet(c: Config, o: Oracle, st: Tracked)
    requires o.Lists()
    ensures WalkStart(c, o, st).ledger == st.ledger
  {
  }

  lemma SettleAccounted(c: Config, o: Oracle, st: Tracked, incomplete: bool)
    requires o.Lists() && Accounted(c, st)
    ensures Accounted(c, Settle(c, o, st, incomplete))
  {
    hide Accounted, ReapAll, AddLeaders, PruneGroups, PruneMembers;
    var (ledger, processes) := ReapAll(c, o, st.ledger, st.processes, Snapshot(o, st));
    ReapQuiet(c, o, st.ledger, st.processes, Snapshot(o, st));
    QuietAccounted(c, st, ledger);
    SameAccounted(c, st.(ledger := ledger), st.(ledger := ledger, processes := processes));
    PrunedAccounted(c, st.(ledger := ledger, processes := processes));
    var st1 := PruneGroups(st.(ledger := ledger, processes := processes));
    AddLeadersAccounted(c, st1, Snapshot(o, st1));
    var st2 := AddLeaders(c, st1, Snapshot(o, st1));
    CountAccounted(c, st2, incomplete);
  }

  lemma CountAccounted(c: Config, st: Tracked, incomplete: bool)
    requires Accounted(c, st)
    ensures Accounted(c, CountScan(PruneMembers(st), incomplete))
  {
    hide Accounted;
    var r := CountScan(PruneMembers(st), incomplete);
    QuietAccounted(c, st, r.ledger);
    SameAccounted(c, st.(ledger := r.ledger), r);
  }

  // ------------------------------------------------------------------- passes

  /** What a checked group signal adds to the log for any group: its own place for the
      group it was meant for when it went through, and nothing otherwise. */
  lemma SendPlaces(c: Config, o: Oracle, l: Ledger, g: Identity, signal: nat, h: Identity, from: nat)
    requires from <= |l.trace|
    ensures var (l', sent) := SendChecked(c, o, l, g, true, signal);
            && |l.trace| <= |l'.trace|
            && SentFrom(c, l'.trace, h, from)
               == SentFrom(c, l.trace, h, from) + if h == g && sent && signal != 0 then [|l.trace| + 1] else []
  {
    hide SentFrom;
    var a := o.Look(l.Tick(), g.pid);
    var l1 := l.Log(Checked(g.pid, a));
    var kill := Killed(Target(g, true), signal, g, o.kill(l1.Tick(), Target(g, true), signal));
    SentStays(c, l.trace, l1.trace, h, from);
    SentMore(c, l1.trace, kill, h, from);
    SentMore(c, l1.trace, Refused(BadPid), h, from);
    SentOrNot(c, o, l, g, signal);
  }

  lemma SentMore(c: Config, trace: seq<Event>, e: Event, g: Identity, from: nat)
    requires from <= |trace|
    ensures SentFrom(c, trace + [e], g, from) == SentFrom(c, trace, g, from) + if Signalled(c, e, g) then [|trace|] else []
  {
    assert (trace + [e])[..|trace|] == trace;
  }

  /** A checked group signal is the check, and then the call or nothing to count. */
  lemma SentOrNot(c: Config, o: Oracle, l: Ledger, g: Identity, signal: nat)
    ensures var (l', sent) := SendChecked(c, o, l, g, true, signal);
            var l1 := l.Log(Checked(g.pid, o.Look(l.Tick(), g.pid)));
            var kill := Killed(Target(g, true), signal, g, o.kill(l1.Tick(), Target(g, true), signal));
            || (l'.trace == l1.trace && !(sent && signal != 0))
            || (l'.trace == l1.trace + [Refused(BadPid)] && !sent)
            || (l'.trace == l1.trace + [kill] && signal != 0 && (sent <==> Signalled(c, kill, g)))
  {
  }

  lemma SendMemberQuiet(c: Config, o: Oracle, l: Ledger, id: Identity, signal: nat)
    ensures NoGroupSignal(l.trace, SendChecked(c, o, l, id, false, signal).0.trace)
  {
  }

  lemma AdvanceGroupAccounted(c: Config, o: Oracle, cl: Cleanup, st: Tracked, now: nat, live: seq<Identity>,
                              g: Identity, covered: set<nat>)
    requires Accounted(c, st) && g in st.groups
    ensures var r := AdvanceGroup(c, o, cl, st, now, live, g, covered).0; Accounted(c, r) && r.groups.Keys == st.groups.Keys
  {
    hide SendChecked, NextSignal, SentFrom, InGroupOf, Cover, Pids, Expired, Adjust, RecordGroup;
    GroupKeepsKeys(c, o, cl, st, now, live, g, covered);
    var mine := InGroupOf(live, g.pgid);
    var (l1, at) := ReadClock(o, st.ledger, now);
    var (next, signal, shortened) := NextSignal(cl, Scheduled(st, g), at, Expired(cl, at));
    var number := if signal.Some? then signal.value else 0;
    SignalKnown(cl, Scheduled(st, g), at, Expired(cl, at));
    var (l2, sent) := SendChecked(c, o, l1, g, true, number);
    QuietAccounted(c, st, l1);
    forall h | h in st.groups
      ensures |l1.trace| <= |l2.trace|
      ensures SentFrom(c, l2.trace, h, st.births[h])
           == SentFrom(c, l1.trace, h, st.births[h]) + if h == g && sent && number != 0 then [|l1.trace| + 1] else []
    {
      SendPlaces(c, o, l1, g, number, h, st.births[h]);
    }
    assert Places(st.history[g]) + [] == Places(st.history[g]);
    assert forall h :: h in st.groups ==>
      SentFrom(c, l1.trace, h, st.births[h]) + [] == SentFrom(c, l1.trace, h, st.births[h]);
    var st2 := st.(ledger := l2);
    if sent && signal.Some? {
      RecordAccounted(c, o, cl, st2, g, next.phase, at, |l1.trace| + 1);
      RecordKeepsKeys(o, cl, st2, g, next.phase, at, |l1.trace| + 1);
      AdjustAccounted(c, RecordGroup(o, cl, st2, g, next.phase, at, |l1.trace| + 1).0, g,
                      RecordGroup(o, cl, st2, g, next.phase, at, |l1.trace| + 1).1, shortened, mine);
    } else if sent {
      AdjustAccounted(c, st2, g, next, shortened, mine);
    }
  }

  /** The record of one group catches up with the signal just sent. */
  lemma RecordAccounted(c: Config, o: Oracle, cl: Cleanup, st: Tracked, g: Identity, phase: Phase, at: nat, event: nat)
    requires st.births.Keys == st.groups.Keys == st.history.Keys && g in st.groups
    requires forall h :: h in st.groups ==>
      st.births[h] <= |st.ledger.trace|
      && SentFrom(c, st.ledger.trace, h, st.births[h]) == Places(st.history[h]) + if h == g then [event] else []
    ensures Accounted(c, RecordGroup(o, cl, st, g, phase, at, event).0)
  {
    hide SentFrom;
    var r := RecordGroup(o, cl, st, g, phase, at, event).0;
    forall h | h in st.groups ensures SentFrom(c, r.ledger.trace, h, st.births[h]) == Places(r.history[h]) {
      SentStays(c, st.ledger.trace, r.ledger.trace, h, st.births[h]);
      assert Places(st.history[h]) + [] == Places(st.history[h]);
    }
  }

  lemma AdjustAccounted(c: Config, st: Tracked, g: Identity, s: Sequence, shortened: bool, mine: seq<Identity>)
    requires Accounted(c, st) && g in st.groups
    ensures Accounted(c, Adjust(st, g, s, shortened, mine))
  {
    hide Accounted, Cover;
    var r := Adjust(st, g, s, shortened, mine);
    QuietAccounted(c, st, r.ledger);
    SameAccounted(c, st.(ledger := r.ledger), r);
  }

  lemma {:induction false} AdvanceGroupsAccounted(c: Config, o: Oracle, cl: Cleanup, st: Tracked, now: nat,
                                                  live: seq<Identity>, groups: seq<Identity>, covered: set<nat>)
    requires Accounted(c, st) && forall g :: g in groups ==> g in st.groups
    ensures Accounted(c, AdvanceGroups(c, o, cl, st, now, live, groups, covered).0)
    decreases |groups|
  {
    hide Accounted, AdvanceGroup;
    if groups != [] {
      AdvanceGroupAccounted(c, o, cl, st, now, live, groups[0], covered);
      var (st1, covered1) := AdvanceGroup(c, o, cl, st, now, live, groups[0], covered);
      AdvanceGroupsAccounted(c, o, cl, st1, now, live, groups[1..], covered1);
    }
  }

  lemma AdvanceMemberAccounted(c: Config, o: Oracle, cl: Cleanup, st: Tracked, now: nat, member: Identity)
    requires Accounted(c, st)
    ensures Accounted(c, AdvanceMember(c, o, cl, st, now, member))
  {
    hide Accounted, AdvanceMember, NoGroupSignal;
    var r := AdvanceMember(c, o, cl, st, now, member);
    AdvanceMemberQuiet(c, o, cl, st, now, member);
    QuietAccounted(c, st, r.ledger);
    SameAccounted(c, st.(ledger := r.ledger), r);
  }

  lemma AdvanceMemberQuiet(c: Config, o: Oracle, cl: Cleanup, st: Tracked, now: nat, member: Identity)
    ensures var r := AdvanceMember(c, o, cl, st, now, member);
            r == st.(members := r.members, ledger := r.ledger) && NoGroupSignal(st.ledger.trace, r.ledger.trace)
  {
    hide SendChecked, NextSignal, RecordMember, Expired;
    var (l1, at) := ReadClock(o, st.ledger, now);
    var (next, signal, shortened) := NextSignal(cl, Find(st.members, member), at, Expired(cl, at));
    if signal.Some? {
      SendMemberQuiet(c, o, l1, member, signal.value);
      var l2 := SendChecked(c, o, l1, member, false, signal.value).0;
      RecordMemberQuiet(o, cl, st.(ledger := l2), member, next.phase, at, shortened);
    }
  }

  lemma RecordMemberQuiet(o: Oracle, cl: Cleanup, st: Tracked, member: Identity, phase: Phase, at: nat, shortened: bool)
    ensures var r := RecordMember(o, cl, st, member, phase, at, shortened);
            r == st.(members := r.members, ledger := r.ledger) && NoGroupSignal(st.ledger.trace, r.ledger.trace)
  {
  }

  lemma {:induction false} AdvanceMembersAccounted(c: Config, o: Oracle, cl: Cleanup, st: Tracked, now: nat,
                                                   live: seq<Identity>, covered: set<nat>)
    requires Accounted(c, st)
    ensures Accounted(c, AdvanceMembers(c, o, cl, st, now, live, covered))
    decreases |live|
  {
    hide Accounted, AdvanceMember;
    if live != [] {
      AdvanceMemberAccounted(c, o, cl, st, now, live[0]);
      AdvanceMembersAccounted(c, o, cl, if live[0].pid in covered then st else AdvanceMember(c, o, cl, st, now, live[0]),
                              now, live[1..], covered);
    }
  }

  lemma AdvanceAccounted(c: Config, o: Oracle, st: Tracked, now: nat)
    requires o.Lists() && Accounted(c, st)
    ensures Accounted(c, Advance(c, o, st, now).0)
  {
    hide Accounted, AdvanceGroups, AdvanceMembers;
    if st.cleanup.Some? {
      var cl := st.cleanup.value;
      var live := Live(o, st);
      var order := o.leaders(st.ledger.Tick(), st.groups.Keys);
      assert forall g :: g in order ==> g in st.groups;
      AdvanceGroupsAccounted(c, o, cl, st, now, live, order, {});
      var (st1, covered) := AdvanceGroups(c, o, cl, st, now, live, order, {});
      AdvanceMembersAccounted(c, o, cl, st1, now, live, covered);
      var st2 := AdvanceMembers(c, o, cl, st1, now, live, covered);
      var r := Conclude(cl, st2, now, live == []).0;
      QuietAccounted(c, st2, r.ledger);
      SameAccounted(c, st2.(ledger := r.ledger), r);
    }
  }

  lemma {:induction false} KillAllQuiet(c: Config, o: Oracle, l: Ledger, live: seq<Identity>)
    ensures NoGroupSignal(l.trace, KillAll(c, o, l, live).trace)
    decreases |live|
  {
    hide SendChecked, NoGroupSignal;
    if live == [] {
      Unchanged(l.trace);
    } else {
      SendMemberQuiet(c, o, l, live[0], SIGKILL);
      var l1 := SendChecked(c, o, l, live[0], false, SIGKILL).0;
      KillAllQuiet(c, o, l1, live[1..]);
      Quietly(l.trace, l1.trace, KillAll(c, o, l, live).trace);
    }
  }

  lemma Unchanged(trace: seq<Event>)
    ensures NoGroupSignal(trace, trace)
  {
  }

  lemma FinishAccounted(c: Config, o: Oracle, st: Tracked)
    requires o.Lists() && Accounted(c, st)
    ensures Accounted(c, FinishScan(c, o, st).0)
  {
    hide Accounted, Scan, KillAll;
    ScanAccounted(c, o, st);
    var scanned := Scan(c, o, st);
    var late := scanned.ledger.Refuse(LateLive);
    KillAllQuiet(c, o, late, Live(o, scanned));
    var l := FinishScan(c, o, st).0.ledger;
    Quietly(scanned.ledger.trace, late.trace, KillAll(c, o, late, Live(o, scanned)).trace);
    QuietAccounted(c, scanned, l);
  }

  // ------------------------------------------------------- the signals themselves

  /** Each signal a retained group was sent since it was enrolled is one of its record. */
  lemma SignalIsMark(c: Config, st: Tracked, g: Identity, k: nat)
    requires Accounted(c, st) && g in st.groups
    requires st.births[g] <= k < |st.ledger.trace| && Signalled(c, st.ledger.trace[k], g)
    ensures exists i :: 0 <= i < |st.history[g]| && st.history[g][i].event == k
  {
    SentExactly(c, st.ledger.trace, g, st.births[g]);
    var places := Places(st.history[g]);
    assert k in places;
    var i :| 0 <= i < |places| && places[i] == k;
  }

  /** And the record is in the order of the log. */
  lemma MarksAscend(c: Config, st: Tracked, g: Identity, i: nat, j: nat)
    requires Accounted(c, st) && g in st.groups && i < j < |st.history[g]|
    ensures st.births[g] <= st.history[g][i].event < st.history[g][j].event < |st.ledger.trace|
  {
    SentExactly(c, st.ledger.trace, g, st.births[g]);
    var places := Places(st.history[g]);
    assert places[i] in places && places[j] in places;
  }

  function SignalRank(signal: nat): nat {
    if signal == SIGINT then 0 else if signal == SIGTERM then 1 else 2
  }

  /** The signals of a retained group, as the log holds them, only escalate. */
  lemma SignalsEscalate(c: Config, st: Tracked, g: Identity, j: nat, k: nat)
    requires Ordered(st) && Accounted(c, st) && st.cleanup.Some? && g in st.groups
    requires st.births[g] <= j <= k < |st.ledger.trace|
    requires Signalled(c, st.ledger.trace[j], g) && Signalled(c, st.ledger.trace[k], g)
    ensures SignalRank(st.ledger.trace[j].signal) <= SignalRank(st.ledger.trace[k].signal)
  {
    hide SentFrom, Ordered, Accounted, Escalates;
    RecordOf(c, st, g);
    var h := st.history[g];
    SignalIsMark(c, st, g, j);
    SignalIsMark(c, st, g, k);
    var x :| 0 <= x < |h| && h[x].event == j;
    var y :| 0 <= y < |h| && h[y].event == k;
    if y < x {
      MarksAscend(c, st, g, y, x);
    }
    assert Witnessed(st.ledger.trace, g, h[x]) && Witnessed(st.ledger.trace, g, h[y]);
    NeverBackward(st.cleanup.value, h, st.ledger.uncertain, x, y);
    hide Witnessed;
    assert SignalRank(SignalOf(h[x].phase)) == Rank(h[x].phase) && SignalRank(SignalOf(h[y].phase)) == Rank(h[y].phase);
  }

  lemma RecordOf(c: Config, st: Tracked, g: Identity)
    requires Ordered(st) && Accounted(c, st) && st.cleanup.Some? && g in st.groups
    ensures g in st.history && g in st.births
    ensures OnSchedule(st.cleanup.value, g, st.groups[g], st.history[g], st.ledger)
  {
    hide OnSchedule;
  }

  /** While the tracker is certain, no retained group is sent KILL without a TERM and its
      whole grace before: the KILL, or an earlier one, was decided that long after the
      TERM call returned. */
  lemma KillWaited(c: Config, st: Tracked, g: Identity, k: nat)
    requires Ordered(st) && Accounted(c, st) && st.cleanup.Some? && g in st.groups && !st.ledger.uncertain
    requires st.births[g] <= k < |st.ledger.trace| && Signalled(c, st.ledger.trace[k], g)
    requires st.ledger.trace[k].signal == SIGKILL
    ensures exists j, n :: st.births[g] <= j < n <= k && TermThenKill(c, st, g, j, n)
  {
    hide SentFrom, Ordered, Accounted, Escalates, TermThenKill, Witnessed;
    RecordOf(c, st, g);
    var h, cl := st.history[g], st.cleanup.value;
    SignalIsMark(c, st, g, k);
    var y :| 0 <= y < |h| && h[y].event == k;
    WitnessedKill(st.ledger.trace, g, h[y]);
    CertainKillWaited(cl, h, y);
    var t :| 0 <= t < y && h[t].phase.Terminate? && h[t + 1].at >= h[t].returned + cl.term && h[t + 1].phase.Killing?;
    MarksAscend(c, st, g, t, t + 1);
    if t + 1 < y {
      MarksAscend(c, st, g, t + 1, y);
    }
    PairInLog(c, st, g, h[t], h[t + 1]);
  }

  lemma WitnessedKill(trace: seq<Event>, g: Identity, m: Mark)
    requires Witnessed(trace, g, m) && trace[m.event].signal == SIGKILL
    ensures m.phase.Killing? && trace[m.event].target == 0 - g.pid
  {
  }

  lemma PairInLog(c: Config, st: Tracked, g: Identity, a: Mark, b: Mark)
    requires st.cleanup.Some? && Witnessed(st.ledger.trace, g, a) && Witnessed(st.ledger.trace, g, b)
    requires a.event < b.event && a.phase.Terminate? && b.phase.Killing? && g.pid > 0
    requires b.at >= a.returned + st.cleanup.value.term
    ensures TermThenKill(c, st, g, a.event, b.event)
  {
  }

  /** A TERM and a KILL of one group in the log: the clock read after the first returned,
      and before the second was sent, a whole TERM grace apart. */
  ghost predicate TermThenKill(c: Config, st: Tracked, g: Identity, j: nat, n: nat)
    requires st.cleanup.Some?
  {
    var t := st.ledger.trace;
    && 2 <= n && j + 1 < n < |t|
    && t[j].Killed? && t[j].expected == g && t[j].target < 0 && t[j].signal == SIGTERM
    && t[n].Killed? && t[n].expected == g && t[n].target < 0 && t[n].signal == SIGKILL
    && t[j + 1].Clock? && t[n - 2].Clock? && t[n - 2].at >= t[j + 1].at + st.cleanup.value.term
  }
}
