/** The bound on a cleanup for one process that no verified group takes along: its own
    INT, TERM and KILL, in turn and in time. */
module Alone {
  import opened Process
  import opened Tracking
  import opened Safety
  import opened Escalation
  import opened Coverage
  import opened Bound
  import opened Members
  import Signals
  import Runs

  /** A process that reads back unchanged and alive, and a clock that stands still during
      a pass. */
  ghost predicate SteadyProcess(o: Oracle, m: Identity) {
    && 1 <= m.pid <= MAX_PID && (forall t :: o.clock(t) == 0)
    && forall t :: var a := o.stat(t, m.pid);
                   a.Ok? && a.value.Some? && a.value.value.start == m.start && !a.value.value.exited
  }

  /** A signal to this one process stands in the log, decided on the clock reading before it
      and timed by the one after it. */
  ghost predicate Rung(trace: seq<Event>, m: Identity, phase: Phase, at: nat, k: nat) {
    && 2 <= k < |trace| - 1 && trace[k - 2] == Clock(at) && trace[k + 1] == Clock(at)
    && trace[k].Killed? && trace[k].target == m.pid && trace[k].expected == m && trace[k].signal == SignalOf(phase)
  }

  function Prior(phase: Phase): Phase {
    if phase.Killing? then Terminate else Interrupt
  }

  /** A signal in its turn: it is the first there is, or the one before it went in its turn
      and had its whole grace. */
  ghost predicate Climbed(cl: Cleanup, trace: seq<Event>, m: Identity, phase: Phase, at: nat, k: nat)
    decreases Rank(phase)
  {
    && Rung(trace, m, phase, at, k)
    && (phase == FirstPhase(cl)
        || (!phase.Interrupt? && exists at0: nat, k0: nat :: Follows(cl, trace, m, phase, at, k, at0, k0)))
  }

  ghost predicate Follows(cl: Cleanup, trace: seq<Event>, m: Identity, phase: Phase, at: nat, k: nat, at0: nat, k0: nat)
    requires !phase.Interrupt?
    decreases Rank(phase), 0
  {
    k0 < k && at0 + Grace(cl, Prior(phase)) <= at && Climbed(cl, trace, m, Prior(phase), at0, k0)
  }

  /** The process has had its KILL, in turn and before the deadline. */
  ghost predicate ToldInTime(cl: Cleanup, trace: seq<Event>, m: Identity) {
    exists at: nat, k: nat :: Climbed(cl, trace, m, Killing, at, k) && at < cl.deadline
  }

  /** The stage it is in was reached in turn. */
  ghost predicate InTurnAt(cl: Cleanup, trace: seq<Event>, m: Identity, s: Sequence) {
    exists at: nat, k: nat :: Climbed(cl, trace, m, s.phase, at, k) && s.next == at + Grace(cl, s.phase)
  }

  ghost predicate OnTime(cl: Cleanup, st: Tracked, m: Identity, start: nat, last: nat) {
    && Timely(cl, Find(st.members, m), start, last)
    && (m in st.members ==> InTurnAt(cl, st.ledger.trace, m, st.members[m]))
  }

  lemma {:induction false} ClimbedStays(cl: Cleanup, cl': Cleanup, trace: seq<Event>, longer: seq<Event>, m: Identity,
                                        phase: Phase, at: nat, k: nat)
    requires SamePlan(cl, cl') && trace <= longer && Climbed(cl, trace, m, phase, at, k)
    ensures Climbed(cl', longer, m, phase, at, k)
    decreases Rank(phase)
  {
    assert Rung(longer, m, phase, at, k);
    if phase != FirstPhase(cl) {
      var at0: nat, k0: nat :| Follows(cl, trace, m, phase, at, k, at0, k0);
      ClimbedStays(cl, cl', trace, longer, m, Prior(phase), at0, k0);
      assert Follows(cl', longer, m, phase, at, k, at0, k0);
    }
  }

  // -------------------------------------------------------------- one pass of one process

  /** A pass moved the process one step along its own schedule, with the signal it was
      sent, or none because none was due. */
  ghost predicate Stepped(cl: Cleanup, st: Tracked, r: Tracked, from: nat, now: nat, m: Identity) {
    if !Due(cl, Find(st.members, m), now) then Find(r.members, m) == Find(st.members, m)
    else
      && Find(r.members, m) == Some(Reached(cl, Find(st.members, m), now))
      && exists k :: from <= k && Rung(r.ledger.trace, m, Reached(cl, Find(st.members, m), now).phase, now, k)
  }

  lemma SteadyTold(c: Config, o: Oracle, l: Ledger, m: Identity, signal: nat)
    requires SteadyProcess(o, m) && signal != 0
    ensures var (l', sent) := SendChecked(c, o, l, m, false, signal);
            var checked := Checked(m.pid, o.Look(l.Tick(), m.pid));
            var killed := Killed(m.pid, signal, m, o.kill(l.Tick() + 1, m.pid, signal));
            sent && l'.trace == l.trace + [checked, killed]
  {
    var a := o.stat(l.Tick(), m.pid);
    assert a.Ok? && a.value.Some? && a.value.value.start == m.start && !a.value.value.exited;
    var checked := Checked(m.pid, o.Look(l.Tick(), m.pid));
    var killed := Killed(m.pid, signal, m, o.kill(l.Tick() + 1, m.pid, signal));
    assert l.trace + [checked] + [killed] == l.trace + [checked, killed];
  }

  lemma StillNow(o: Oracle, m: Identity, l: Ledger, now: nat)
    requires SteadyProcess(o, m)
    ensures ReadClock(o, l, now) == (l.Log(Clock(now)), now)
  {
    assert o.clock(l.Tick()) == 0;
  }

  lemma OneSteps(c: Config, o: Oracle, cl: Cleanup, st: Tracked, now: nat, m: Identity)
    requires SteadyProcess(o, m)
    ensures Stepped(cl, st, AdvanceMember(c, o, cl, st, now, m), |st.ledger.trace|, now, m)
  {
    hide SteadyProcess, SendChecked, NextSignal, ReadClock, Expired, Grace, RecordMember, Rung;
    StillNow(o, m, st.ledger, now);
    var l1 := ReadClock(o, st.ledger, now).0;
    var (next, signal, shortened) := NextSignal(cl, Find(st.members, m), now, Expired(cl, now));
    SignalStage(cl, Find(st.members, m), now);
    if signal.Some? {
      SteadyTold(c, o, l1, m, signal.value);
      var l2 := SendChecked(c, o, l1, m, false, signal.value).0;
      RecordTold(o, cl, st.(ledger := l2), m, next.phase, now, shortened);
      var r := RecordMember(o, cl, st.(ledger := l2), m, next.phase, now, shortened);
      assert AdvanceMember(c, o, cl, st, now, m) == r;
      TraceShape(st.ledger.trace, r.ledger.trace, now, o.Look(l1.Tick(), m.pid), m,
                 signal.value, o.kill(l1.Tick() + 1, m.pid, signal.value));
      RungStands(r.ledger.trace, m, next.phase, now, |st.ledger.trace| + 2);
      SteppedTold(cl, st, r, now, m, |st.ledger.trace| + 2);
    }
  }

  lemma SteppedTold(cl: Cleanup, st: Tracked, r: Tracked, now: nat, m: Identity, k: nat)
    requires var (next, signal, _) := NextSignal(cl, Find(st.members, m), now, Expired(cl, now));
             && signal.Some? && Find(r.members, m) == Some(Sequence(next.phase, now + Grace(cl, next.phase)))
             && |st.ledger.trace| <= k && Rung(r.ledger.trace, m, next.phase, now, k)
    ensures Stepped(cl, st, r, |st.ledger.trace|, now, m)
  {
    hide Rung, Grace, NextSignal, Expired;
  }

  lemma RecordTold(o: Oracle, cl: Cleanup, st: Tracked, m: Identity, phase: Phase, now: nat, shortened: bool)
    requires SteadyProcess(o, m)
    ensures var r := RecordMember(o, cl, st, m, phase, now, shortened);
            && Find(r.members, m) == Some(Sequence(phase, now + Grace(cl, phase)))
            && st.ledger.trace + [Clock(now)] <= r.ledger.trace
  {
    hide SteadyProcess, Grace;
    StillNow(o, m, st.ledger, now);
  }

  lemma RungStands(trace: seq<Event>, m: Identity, phase: Phase, at: nat, k: nat)
    requires 2 <= k < |trace| - 1 && trace[k - 2] == Clock(at) && trace[k + 1] == Clock(at)
    requires trace[k].Killed? && trace[k].target == m.pid && trace[k].expected == m && trace[k].signal == SignalOf(phase)
    ensures Rung(trace, m, phase, at, k)
  {
  }

  lemma SignalStage(cl: Cleanup, s: Option<Sequence>, now: nat)
    ensures var (next, signal, _) := NextSignal(cl, s, now, Expired(cl, now));
            signal.Some? ==> signal.value == SignalOf(next.phase) != 0
  {
  }

  lemma TraceShape(before: seq<Event>, after: seq<Event>, now: nat, a: Answer<Option<Record>>, m: Identity, signal: nat,
                   fault: Option<Fault>)
    requires before + [Clock(now)] + [Checked(m.pid, a), Killed(m.pid, signal, m, fault)] + [Clock(now)] <= after
    ensures var k := |before| + 2;
            && k < |after| - 1 && after[k - 2] == Clock(now) && after[k + 1] == Clock(now)
            && after[k] == Killed(m.pid, signal, m, fault)
  {
    var shape := before + [Clock(now)] + [Checked(m.pid, a), Killed(m.pid, signal, m, fault)] + [Clock(now)];
    assert shape[|before|] == Clock(now) && shape[|before| + 2] == Killed(m.pid, signal, m, fault);
    assert shape[|before| + 3] == Clock(now);
  }

  lemma OthersStep(c: Config, o: Oracle, cl: Cleanup, st: Tracked, now: nat, x: Identity, m: Identity)
    requires x != m
    ensures var r := AdvanceMember(c, o, cl, st, now, x);
            Find(r.members, m) == Find(st.members, m)
  {
    hide SendChecked, ReadClock, Expired, Grace, NextSignal;
  }

  predicate Apart(live: seq<Identity>) {
    forall i, j :: 0 <= i < j < |live| ==> live[i] != live[j]
  }

  lemma {:induction false} NotMet(c: Config, o: Oracle, cl: Cleanup, st: Tracked, now: nat, live: seq<Identity>,
                                  covered: set<nat>, m: Identity)
    requires m !in live
    ensures Find(AdvanceMembers(c, o, cl, st, now, live, covered).members, m) == Find(st.members, m)
    decreases |live|
  {
    hide AdvanceMember;
    if live != [] {
      var st1 := if live[0].pid in covered then st else AdvanceMember(c, o, cl, st, now, live[0]);
      OthersStep(c, o, cl, st, now, live[0], m);
      NotMet(c, o, cl, st1, now, live[1..], covered, m);
    }
  }

  lemma {:induction false} MembersStep(c: Config, o: Oracle, cl: Cleanup, st: Tracked, now: nat, live: seq<Identity>,
                                       covered: set<nat>, m: Identity)
    requires SteadyProcess(o, m) && m in live && Apart(live) && m.pid !in covered
    ensures Stepped(cl, st, AdvanceMembers(c, o, cl, st, now, live, covered), |st.ledger.trace|, now, m)
    decreases |live|
  {
    hide AdvanceMember, SteadyProcess, Due, Reached;
    var x, rest := live[0], live[1..];
    var st1 := if x.pid in covered then st else AdvanceMember(c, o, cl, st, now, x);
    var r := AdvanceMembers(c, o, cl, st1, now, rest, covered);
    AdvanceMemberOnward(c, o, cl, st, now, x);
    MembersGrow(c, o, cl, st1, now, rest, covered);
    if x == m {
      OneSteps(c, o, cl, st, now, m);
      NotMet(c, o, cl, st1, now, rest, covered, m);
      StepStays(cl, st, st1, r, |st.ledger.trace|, now, m);
    } else {
      OthersStep(c, o, cl, st, now, x, m);
      MembersStep(c, o, cl, st1, now, rest, covered, m);
      StepEarlier(cl, st, st1, r, now, m);
    }
  }

  lemma StepStays(cl: Cleanup, st: Tracked, r: Tracked, r': Tracked, from: nat, now: nat, m: Identity)
    requires Stepped(cl, st, r, from, now, m)
    requires Find(r'.members, m) == Find(r.members, m) && r.ledger.trace <= r'.ledger.trace
    ensures Stepped(cl, st, r', from, now, m)
  {
    hide Due, Reached;
    if Due(cl, Find(st.members, m), now) {
      var phase := Reached(cl, Find(st.members, m), now).phase;
      var k :| from <= k && Rung(r.ledger.trace, m, phase, now, k);
      assert Rung(r'.ledger.trace, m, phase, now, k);
    }
  }

  lemma StepEarlier(cl: Cleanup, st: Tracked, st1: Tracked, r: Tracked, now: nat, m: Identity)
    requires Stepped(cl, st1, r, |st1.ledger.trace|, now, m)
    requires Find(st1.members, m) == Find(st.members, m) && st.ledger.trace <= st1.ledger.trace
    ensures Stepped(cl, st, r, |st.ledger.trace|, now, m)
  {
    hide Due, Reached, Rung;
  }

  lemma {:induction false} LiveApart(records: seq<Record>)
    requires forall i, j :: 0 <= i < j < |records| ==> records[i].identity.pid != records[j].identity.pid
    ensures Apart(LiveOf(records))
    decreases |records|
  {
    if records != [] {
      var rest, live := records[1..], LiveOf(records);
      LiveApart(rest);
      LiveUnique(rest);
      forall i, j | 0 <= i < j < |live| ensures live[i] != live[j] {
        if !records[0].exited {
          assert live[j] == LiveOf(rest)[j - 1] && live[j] in LiveOf(rest);
          var n :| 0 <= n < |rest| && rest[n].identity == live[j];
          assert rest[n] == records[n + 1];
        }
      }
    }
  }

  // ---------------------------------------------------------------------- a cleanup

  /** No group of its id is let through in this pass. */
  ghost predicate Unled(c: Config, o: Oracle, st: Tracked, now: nat, m: Identity)
    requires o.Lists()
  {
    st.cleanup.Some? ==>
      forall g :: g in st.groups ==> !Opens(c, o, st.cleanup.value, st, now, Turn(c, o, st, now, g), g, m)
  }

  /** One pass moves a steady process that no group takes along one step along its own
      schedule. */
  lemma AloneSteps(c: Config, o: Oracle, st: Tracked, now: nat, m: Identity)
    requires o.Lists() && Keyed(st.processes) && OneEach(st.groups.Keys) && st.cleanup.Some?
    requires SteadyProcess(o, m) && LiveMember(st.processes, m) && Unled(c, o, st, now, m)
    ensures Stepped(st.cleanup.value, st, Advance(c, o, st, now).0, |st.ledger.trace|, now, m)
  {
    hide AdvanceGroups, AdvanceMembers, Live, LetThrough, TurnIn, SteadyProcess, Stepped, LiveMember, Due, Reached;
    var cl, live, order := st.cleanup.value, Live(o, st), o.leaders(st.ledger.Tick(), st.groups.Keys);
    var (st1, covered) := AdvanceGroups(c, o, cl, st, now, live, order, {});
    LiveOnce(o, st, m);
    SnapshotApart(o, st);
    assert forall g :: g in order <==> g in st.groups;
    assert forall i, j :: 0 <= i < j < |order| ==> order[i] in st.groups && order[j] in st.groups;
    if exists g :: g in st.groups && g.pgid == m.pgid {
      var g :| g in st.groups && g.pgid == m.pgid;
      GroupsTouch(c, o, cl, st, now, live, order, {}, m, g);
      assert !Opens(c, o, cl, st, now, Turn(c, o, st, now, g), g, m);
    } else {
      OthersTouch(c, o, cl, st, now, live, order, {}, m);
    }
    TurnsLogged(c, o, cl, st, now, live, order, {}, m);
    MembersStep(c, o, cl, st1, now, live, covered, m);
    var st2 := AdvanceMembers(c, o, cl, st1, now, live, covered);
    StepEarlier(cl, st, st1, st2, now, m);
    StepStays(cl, st, st2, Advance(c, o, st, now).0, |st.ledger.trace|, now, m);
  }

  lemma SnapshotApart(o: Oracle, st: Tracked)
    requires o.Lists() && Keyed(st.processes)
    ensures Apart(Live(o, st))
  {
    hide Apart;
    LiveApart(Snapshot(o, st));
  }

  /** Over these calls the process stays in the inventory, alive and unchanged, and no group
      takes it along. */
  ghost predicate StaysAlone(c: Config, o: Oracle, st: Tracked, ops: seq<Op>, m: Identity)
    requires o.Lists()
    decreases |ops|
  {
    ops != [] ==>
      var r := Apply(c, o, st, ops[0]);
      && (ops[0].DoScan? ==> LiveMember(r.processes, m))
      && (ops[0].DoAdvance? ==> LiveMember(st.processes, m) && Unled(c, o, st, ops[0].now, m))
      && !ops[0].DoFinish? && StaysAlone(c, o, r, ops[1..], m)
  }

  /** A pass keeps a process on time, or gives it its KILL. */
  lemma StepOnTime(cl: Cleanup, st: Tracked, r: Tracked, now: nat, m: Identity, start: nat, last: nat)
    requires Planned(cl, start) && r.cleanup.Some? && SamePlan(cl, r.cleanup.value)
    requires OnTime(cl, st, m, start, last) && last <= now <= last + SAMPLE_INTERVAL
    requires Stepped(cl, st, r, |st.ledger.trace|, now, m) && st.ledger.trace <= r.ledger.trace
    ensures OnTime(cl, r, m, start, now) || ToldInTime(cl, r.ledger.trace, m)
  {
    hide Climbed, Timely, Planned, Grace, FirstPhase;
    var s := Find(st.members, m);
    StepsInTime(cl, s, start, last, now);
    var next := Reached(cl, s, now);
    if Due(cl, s, now) {
      var k :| |st.ledger.trace| <= k && Rung(r.ledger.trace, m, next.phase, now, k);
      NextClimbed(cl, st, r, now, m, start, last, k);
      NextGrace(cl, s, now);
    } else {
      StageStays(cl, cl, st.ledger.trace, r.ledger.trace, m, st.members[m]);
    }
  }

  lemma NextGrace(cl: Cleanup, s: Option<Sequence>, now: nat)
    ensures Due(cl, s, now) ==> Reached(cl, s, now).next == now + Grace(cl, Reached(cl, s, now).phase)
  {
  }

  lemma StageStays(cl: Cleanup, cl': Cleanup, trace: seq<Event>, longer: seq<Event>, m: Identity, s: Sequence)
    requires SamePlan(cl, cl') && trace <= longer && InTurnAt(cl, trace, m, s)
    ensures InTurnAt(cl', longer, m, s)
  {
    hide Climbed;
    var at: nat, k: nat :| Climbed(cl, trace, m, s.phase, at, k) && s.next == at + Grace(cl, s.phase);
    ClimbedStays(cl, cl', trace, longer, m, s.phase, at, k);
  }

  /** The signal of a pass before the deadline goes in its turn. */
  lemma NextClimbed(cl: Cleanup, st: Tracked, r: Tracked, now: nat, m: Identity, start: nat, last: nat, k: nat)
    requires OnTime(cl, st, m, start, last) && now < cl.deadline && Due(cl, Find(st.members, m), now)
    requires |st.ledger.trace| <= k && Rung(r.ledger.trace, m, Reached(cl, Find(st.members, m), now).phase, now, k)
    requires st.ledger.trace <= r.ledger.trace
    ensures Climbed(cl, r.ledger.trace, m, Reached(cl, Find(st.members, m), now).phase, now, k)
  {
    var phase := Reached(cl, Find(st.members, m), now).phase;
    if m in st.members {
      var s := st.members[m];
      var at0: nat, k0: nat :| Climbed(cl, st.ledger.trace, m, s.phase, at0, k0) && s.next == at0 + Grace(cl, s.phase);
      ClimbedStays(cl, cl, st.ledger.trace, r.ledger.trace, m, s.phase, at0, k0);
      RungEarly(cl, st.ledger.trace, m, s.phase, at0, k0);
      assert !phase.Interrupt? && Prior(phase) == s.phase;
      assert Follows(cl, r.ledger.trace, m, phase, now, k, at0, k0);
    }
  }

  lemma RungEarly(cl: Cleanup, trace: seq<Event>, m: Identity, phase: Phase, at: nat, k: nat)
    requires Climbed(cl, trace, m, phase, at, k)
    ensures k < |trace|
  {
  }

  lemma OnTimeUnder(cl: Cleanup, cl': Cleanup, st: Tracked, st': Tracked, m: Identity, start: nat, last: nat)
    requires SamePlan(cl, cl') && OnTime(cl, st, m, start, last) && st.ledger.trace <= st'.ledger.trace
    requires Find(st'.members, m) == Find(st.members, m)
    ensures OnTime(cl', st', m, start, last)
  {
    if m in st.members {
      StageStays(cl, cl', st.ledger.trace, st'.ledger.trace, m, st.members[m]);
    }
    hide InTurnAt;
  }

  lemma ToldUnder(cl: Cleanup, cl': Cleanup, trace: seq<Event>, longer: seq<Event>, m: Identity)
    requires SamePlan(cl, cl') && trace <= longer && ToldInTime(cl, trace, m)
    ensures ToldInTime(cl', longer, m)
  {
    hide Climbed;
    var at: nat, k: nat :| Climbed(cl, trace, m, Killing, at, k) && at < cl.deadline;
    ClimbedStays(cl, cl', trace, longer, m, Killing, at, k);
  }

  lemma {:induction false} LeadersKeepMembers(c: Config, st: Tracked, records: seq<Record>)
    ensures AddLeaders(c, st, records).members == st.members
    decreases |records|
  {
    if records != [] {
      LeadersKeepMembers(c, st, records[1..]);
      LeadersKeepMembers(c, st.(ledger := st.ledger.Refuse(GroupLimit)), records[1..]);
      LeadersKeepMembers(c, Enrolled(st, records[0].identity), records[1..]);
    }
  }

  /** A scan keeps the schedule of a process it finds unchanged and alive. */
  lemma ScanKeepsMember(c: Config, o: Oracle, st: Tracked, m: Identity)
    requires o.Lists() && LiveMember(Scan(c, o, st).processes, m)
    ensures Find(Scan(c, o, st).members, m) == Find(st.members, m)
  {
    hide ScanRootGroup, WalkAll, WalkStart, ReapAll, AddLeaders, Retained;
    var (w, unresolved) := Found(c, o, st);
    var st1 := st.(processes := w.processes, ledger := w.ledger, unresolved := unresolved);
    var (ledger, processes) := ReapAll(c, o, st1.ledger, st1.processes, Snapshot(o, st1));
    var st2 := PruneGroups(st1.(ledger := ledger, processes := processes));
    LeadersKeepMembers(c, st2, Snapshot(o, st2));
    LeadersUnmoved(c, st2, Snapshot(o, st2));
  }

  /** Each call keeps a process on time, or with its KILL behind it. */
  lemma CallKeeps(c: Config, o: Oracle, root: Identity, st: Tracked, op: Op, m: Identity, start: nat, last: nat)
    requires o.Lists() && Runs.Safe(c, root, st) && root.Leads() && SteadyProcess(o, m) && !op.DoFinish?
    requires st.cleanup.Some? && Planned(st.cleanup.value, start)
    requires op.DoScan? ==> LiveMember(Apply(c, o, st, op).processes, m)
    requires op.DoAdvance? ==> LiveMember(st.processes, m) && Unled(c, o, st, op.now, m)
    requires op.DoAdvance? ==> last <= op.now <= last + SAMPLE_INTERVAL
    requires OnTime(st.cleanup.value, st, m, start, last) || ToldInTime(st.cleanup.value, st.ledger.trace, m)
    ensures var r := Apply(c, o, st, op); var now := if op.DoAdvance? then op.now else last;
            && r.cleanup.Some? && SamePlan(st.cleanup.value, r.cleanup.value)
            && (OnTime(r.cleanup.value, r, m, start, now) || ToldInTime(r.cleanup.value, r.ledger.trace, m))
            && (ToldInTime(st.cleanup.value, st.ledger.trace, m) ==> ToldInTime(r.cleanup.value, r.ledger.trace, m))
  {
    hide Scan, Advance, SteadyProcess, OnTime, ToldInTime, Unled, LiveMember, Stepped;
    hide Sound, Ordered, Distinct, OneEach, Keyed, Signals.Accounted;
    var cl, r := st.cleanup.value, Apply(c, o, st, op);
    ApplyKeepsPlan(c, o, st, op);
    CallOrdered(c, o, st, op);
    if ToldInTime(cl, st.ledger.trace, m) {
      ToldUnder(cl, r.cleanup.value, st.ledger.trace, r.ledger.trace, m);
    } else if op.DoAdvance? {
      RootLeads(st.groups.Keys, root);
      AloneSteps(c, o, st, op.now, m);
      StepOnTime(cl, st, r, op.now, m, start, last);
      PlanAgain(cl, r, m, start, op.now);
    } else {
      if op.DoScan? {
        ScanKeepsMember(c, o, st, m);
      }
      OnTimeUnder(cl, r.cleanup.value, st, r, m, start, last);
    }
  }

  lemma PlanAgain(cl: Cleanup, r: Tracked, m: Identity, start: nat, now: nat)
    requires r.cleanup.Some? && SamePlan(cl, r.cleanup.value)
    requires OnTime(cl, r, m, start, now) || ToldInTime(cl, r.ledger.trace, m)
    ensures OnTime(r.cleanup.value, r, m, start, now) || ToldInTime(r.cleanup.value, r.ledger.trace, m)
  {
    hide OnTime, ToldInTime;
    if OnTime(cl, r, m, start, now) {
      OnTimeUnder(cl, r.cleanup.value, r, r, m, start, now);
    } else {
      ToldUnder(cl, r.cleanup.value, r.ledger.trace, r.ledger.trace, m);
    }
  }

  lemma {:induction false} RunTells(c: Config, o: Oracle, root: Identity, st: Tracked, ops: seq<Op>, m: Identity,
                                    start: nat, last: nat)
    requires o.Lists() && Runs.Safe(c, root, st) && root.Leads() && SteadyProcess(o, m)
    requires st.cleanup.Some? && Planned(st.cleanup.value, start)
    requires StaysAlone(c, o, st, ops, m) && SoonApart(ops, last)
    requires ToldInTime(st.cleanup.value, st.ledger.trace, m)
             || (OnTime(st.cleanup.value, st, m, start, last) && st.cleanup.value.deadline <= LastPass(ops, last))
    ensures ToldInTime(st.cleanup.value, Run(c, o, st, ops).ledger.trace, m)
    decreases |ops|
  {
    hide Apply, SteadyProcess, OnTime, ToldInTime, Unled, LiveMember, Runs.Safe;
    if ops == [] {
      NotLate(st.cleanup.value, st, m, start, last);
    } else {
      var cl, r := st.cleanup.value, Apply(c, o, st, ops[0]);
      var now := if ops[0].DoAdvance? then ops[0].now else last;
      CallKeeps(c, o, root, st, ops[0], m, start, last);
      Runs.ApplySafe(c, o, st, ops[0], root);
      RunTells(c, o, root, r, ops[1..], m, start, now);
      ToldUnder(r.cleanup.value, cl, Run(c, o, st, ops).ledger.trace, Run(c, o, st, ops).ledger.trace, m);
    }
  }

  lemma NotLate(cl: Cleanup, st: Tracked, m: Identity, start: nat, last: nat)
    ensures Planned(cl, start) && cl.deadline <= last ==> !OnTime(cl, st, m, start, last)
  {
    LateForStage(cl, Find(st.members, m), start, last);
  }

  /** From any state of a run in which cleanup begins: calls whose passes are at most 50 ms
      apart until the deadline send a process that stays alive and unchanged, and that no
      group takes along, its own KILL before that deadline; and before it a TERM, and before
      that an INT where one is asked for, each with its whole grace. */
  lemma ProcessReachesKill(c: Config, o: Oracle, root: Identity, st: Tracked, start: nat, interrupt: Option<nat>, term: nat,
                           ops: seq<Op>, m: Identity)
    requires o.Lists() && Runs.Safe(c, root, st) && root.Leads() && SteadyProcess(o, m) && st.cleanup.None?
    requires SoonApart(ops, start)
    requires var begun := BeginCleanup(st, start, interrupt, term);
             StaysAlone(c, o, begun, ops, m) && begun.cleanup.value.deadline <= LastPass(ops, start)
    ensures var begun := BeginCleanup(st, start, interrupt, term);
            ToldInTime(begun.cleanup.value, Run(c, o, begun, ops).ledger.trace, m)
  {
    hide Apply, Run, SteadyProcess, StaysAlone, SoonApart, LastPass, ToldInTime, Sound, Distinct, Keyed, Signals.Accounted;
    var begun := BeginCleanup(st, start, interrupt, term);
    Runs.BeginSafe(c, st, root, start, interrupt, term);
    assert st.members == map[];
    hide Ordered, Runs.Safe;
    RunTells(c, o, root, begun, ops, m, start, start);
  }
}
