/** How the stage stored for one process of a cleanup moves: forward, but for the one
    case in which its group, only now signalled, takes it back to the group's own. */
module Members {
  import opened Process
  import opened Tracking
  import opened Safety
  import opened Escalation
  import opened Coverage
  import Signals
  import Runs

  // ----------------------------------------------------------------- exactly when

  /** The call number at which a group has its turn: the calls made for those before it. */
  ghost function TurnIn(c: Config, o: Oracle, cl: Cleanup, st: Tracked, now: nat, live: seq<Identity>,
                        groups: seq<Identity>, covered: set<nat>, g: Identity): nat
    decreases |groups|
  {
    if groups == [] || groups[0] == g then st.ledger.Tick()
    else
      var (st1, covered1) := AdvanceGroup(c, o, cl, st, now, live, groups[0], covered);
      TurnIn(c, o, cl, st1, now, live, groups[1..], covered1, g)
  }

  ghost function Turn(c: Config, o: Oracle, st: Tracked, now: nat, g: Identity): nat
    requires o.Lists() && st.cleanup.Some?
  {
    TurnIn(c, o, st.cleanup.value, st, now, Live(o, st), o.leaders(st.ledger.Tick(), st.groups.Keys), {}, g)
  }

  /** The system's answers at one call and the next let a group be signalled, or only be
      checked where no signal is due. */
  ghost predicate Allows(c: Config, o: Oracle, t: nat, g: Identity, signal: Option<nat>) {
    var a := o.Look(t, g.pid);
    && a.Ok? && a.value.Some? && a.value.value.identity == g && g.Leads()
    && (signal.Some? ==>
          && 1 <= g.pid <= MAX_PID
          && !(c.macos && o.kill(t + 1, 0 - g.pid, signal.value) == Some(Denied)))
  }

  /** The schedule a group has before a pass calls, at a clock reading, for this stage and
      perhaps for a signal. */
  function Calls(cl: Cleanup, before: Option<Sequence>, at: nat): (Phase, Option<nat>) {
    var (next, signal, _) := NextSignal(cl, before, at, Expired(cl, at));
    (next.phase, signal)
  }

  /** A group whose turn comes at call `k` is let through then. */
  ghost predicate LetThrough(c: Config, o: Oracle, cl: Cleanup, before: Option<Sequence>, now: nat, k: nat, g: Identity) {
    Allows(c, o, k + 1, g, Calls(cl, before, o.Now(k, now)).1)
  }

  lemma AllowsSend(c: Config, o: Oracle, l: Ledger, g: Identity, signal: Option<nat>)
    requires signal.Some? ==> signal.value != 0
    ensures SendChecked(c, o, l, g, true, if signal.Some? then signal.value else 0).1 <==> Allows(c, o, l.Tick(), g, signal)
  {
  }

  /** What one group of a pass comes to when it is let through with the stage `s`. */
  ghost predicate Outcome(st: Tracked, r: Tracked, live: seq<Identity>, g: Identity, s: Sequence, phase: Phase) {
    && r.groups == st.groups[g := Some(s)] && r.members == Cover(st.members, InGroupOf(live, g.pgid), s)
    && s.phase == phase
  }

  ghost predicate Idle(st: Tracked, r: Tracked) {
    r.groups == st.groups && r.members == st.members
  }

  predicate Skipped(c: Config, st: Tracked, g: Identity, mine: seq<Identity>) {
    !(st.unresolved && g.pid == c.rootPid) && mine == []
  }

  /** What the check of a group in its turn says. */
  ghost function Passed(c: Config, o: Oracle, cl: Cleanup, st: Tracked, now: nat, g: Identity): bool {
    var (l1, at) := ReadClock(o, st.ledger, now);
    var signal := NextSignal(cl, Scheduled(st, g), at, Expired(cl, at)).1;
    SendChecked(c, o, l1, g, true, if signal.Some? then signal.value else 0).1
  }

  lemma PassedExactly(c: Config, o: Oracle, cl: Cleanup, st: Tracked, now: nat, g: Identity)
    requires g in st.groups
    ensures Passed(c, o, cl, st, now, g) <==> LetThrough(c, o, cl, st.groups[g], now, st.ledger.Tick(), g)
  {
    hide SendChecked, NextSignal, Expired, Allows;
    var (l1, at) := ReadClock(o, st.ledger, now);
    SignalKnown(cl, st.groups[g], at, Expired(cl, at));
    AllowsSend(c, o, l1, g, NextSignal(cl, st.groups[g], at, Expired(cl, at)).1);
  }

  /** A group that passes its check takes its members with it. */
  lemma PassedShape(c: Config, o: Oracle, cl: Cleanup, st: Tracked, now: nat, live: seq<Identity>, g: Identity,
                    covered: set<nat>) returns (t: Tracked, s: Sequence, shortened: bool)
    requires g in st.groups && !Skipped(c, st, g, InGroupOf(live, g.pgid)) && Passed(c, o, cl, st, now, g)
    ensures var mine := InGroupOf(live, g.pgid);
            AdvanceGroup(c, o, cl, st, now, live, g, covered)
            == (Adjust(t, g, s, shortened, mine), covered + Pids(mine))
    ensures t.groups == st.groups && t.members == st.members
    ensures s.phase == Calls(cl, st.groups[g], o.Now(st.ledger.Tick(), now)).0
  {
    hide SendChecked, NextSignal, InGroupOf, Expired, RecordGroup, Adjust, Pids, ReadClock;
    var (l1, at) := ReadClock(o, st.ledger, now);
    ClockNow(o, st.ledger, now);
    var (next, signal, cut) := NextSignal(cl, st.groups[g], at, Expired(cl, at));
    var st2 := st.(ledger := SendChecked(c, o, l1, g, true, if signal.Some? then signal.value else 0).0);
    t, s, shortened := st2, next, cut;
    if signal.Some? {
      RecordedGroup(o, cl, st2, g, next.phase, at, |l1.trace| + 1);
      var (recorded, later) := RecordGroup(o, cl, st2, g, next.phase, at, |l1.trace| + 1);
      t, s := recorded, later;
    }
  }

  lemma StoppedShape(c: Config, o: Oracle, cl: Cleanup, st: Tracked, now: nat, live: seq<Identity>, g: Identity,
                     covered: set<nat>)
    requires g in st.groups && (Skipped(c, st, g, InGroupOf(live, g.pgid)) || !Passed(c, o, cl, st, now, g))
    ensures var (r, covered') := AdvanceGroup(c, o, cl, st, now, live, g, covered); covered' == covered && Idle(st, r)
  {
    hide SendChecked, NextSignal, InGroupOf, Expired, RecordGroup, Adjust, Pids, ReadClock;
  }

  /** A group is skipped, or turned away at its check, or takes its members with it. */
  lemma GroupShape(c: Config, o: Oracle, cl: Cleanup, st: Tracked, now: nat, live: seq<Identity>, g: Identity,
                   covered: set<nat>)
    requires g in st.groups
    ensures var (r, covered') := AdvanceGroup(c, o, cl, st, now, live, g, covered);
            var mine := InGroupOf(live, g.pgid);
            if Skipped(c, st, g, mine) || !Passed(c, o, cl, st, now, g) then covered' == covered && Idle(st, r)
            else
              && covered' == covered + Pids(mine)
              && exists s :: Outcome(st, r, live, g, s, Calls(cl, st.groups[g], o.Now(st.ledger.Tick(), now)).0)
  {
    hide AdvanceGroup, InGroupOf, Adjust, Pids, Passed, Skipped, Calls, Cover;
    var mine := InGroupOf(live, g.pgid);
    if Skipped(c, st, g, mine) || !Passed(c, o, cl, st, now, g) {
      StoppedShape(c, o, cl, st, now, live, g, covered);
    } else {
      var t, s, shortened := PassedShape(c, o, cl, st, now, live, g, covered);
      AdjustGives(t, g, s, shortened, mine);
      assert Outcome(st, Adjust(t, g, s, shortened, mine), live, g, s, Calls(cl, st.groups[g], o.Now(st.ledger.Tick(), now)).0);
    }
  }

  lemma GroupOutcome(c: Config, o: Oracle, cl: Cleanup, st: Tracked, now: nat, live: seq<Identity>, g: Identity,
                     covered: set<nat>)
    requires g in st.groups
    ensures var (r, covered') := AdvanceGroup(c, o, cl, st, now, live, g, covered);
            var k, mine := st.ledger.Tick(), InGroupOf(live, g.pgid);
            var phase := Calls(cl, st.groups[g], o.Now(k, now)).0;
            && (mine != [] && LetThrough(c, o, cl, st.groups[g], now, k, g) ==>
                  covered' == covered + Pids(mine) && exists s :: Outcome(st, r, live, g, s, phase))
            && (mine != [] && !LetThrough(c, o, cl, st.groups[g], now, k, g) ==> covered' == covered && Idle(st, r))
            && (mine == [] ==> covered' == covered + Pids(mine) && (Idle(st, r) || exists s :: Outcome(st, r, live, g, s, phase)))
  {
    hide AdvanceGroup, Pids, InGroupOf, Outcome, LetThrough, Calls, Idle;
    NoPids();
    GroupShape(c, o, cl, st, now, live, g, covered);
    PassedExactly(c, o, cl, st, now, g);
    hide Passed;
  }

  lemma RecordedGroup(o: Oracle, cl: Cleanup, st: Tracked, g: Identity, phase: Phase, at: nat, event: nat)
    ensures var (r, s) := RecordGroup(o, cl, st, g, phase, at, event);
            && r.groups == st.groups && r.members == st.members && s.phase == phase
            && st.ledger.trace <= r.ledger.trace
  {
  }

  lemma NoPids()
    ensures Pids([]) == {}
  {
  }

  lemma AdjustGives(st: Tracked, g: Identity, s: Sequence, shortened: bool, mine: seq<Identity>)
    ensures var r := Adjust(st, g, s, shortened, mine);
            && r.groups == st.groups[g := Some(s)] && r.members == Cover(st.members, mine, s)
            && st.ledger.trace <= r.ledger.trace
  {
    hide Cover;
  }

  lemma ClockNow(o: Oracle, l: Ledger, now: nat)
    ensures ReadClock(o, l, now) == (l.Log(Clock(o.Now(l.Tick(), now))), o.Now(l.Tick(), now))
  {
  }

  /** What is stored for a process is of this stage. */
  predicate AtStage(r: Tracked, m: Identity, phase: Phase) {
    m in r.members && r.members[m].phase == phase
  }

  /** One group leaves every other group alone, and every process outside it; and a process
      in it takes its stage just when it is let through. */
  lemma GroupTouches(c: Config, o: Oracle, cl: Cleanup, st: Tracked, now: nat, live: seq<Identity>, g: Identity,
                     covered: set<nat>, m: Identity)
    requires g in st.groups && UniquePids(live) && m in live
    ensures var (r, covered') := AdvanceGroup(c, o, cl, st, now, live, g, covered);
            var k := st.ledger.Tick();
            && r.groups.Keys == st.groups.Keys
            && (forall h :: h in st.groups && h != g ==> r.groups[h] == st.groups[h])
            && (g.pgid != m.pgid || !LetThrough(c, o, cl, st.groups[g], now, k, g) ==>
                  Find(r.members, m) == Find(st.members, m) && (m.pid in covered' <==> m.pid in covered))
            && (g.pgid == m.pgid && LetThrough(c, o, cl, st.groups[g], now, k, g) ==>
                  m.pid in covered' && AtStage(r, m, Calls(cl, st.groups[g], o.Now(k, now)).0))
  {
    hide AdvanceGroup, Cover, InGroupOf, LetThrough, Calls;
    GroupOutcome(c, o, cl, st, now, live, g, covered);
    var (r, covered') := AdvanceGroup(c, o, cl, st, now, live, g, covered);
    var mine := InGroupOf(live, g.pgid);
    InGroupExact(live, g.pgid);
    assert m.pid in Pids(mine) <==> m in mine by {
      if m.pid in Pids(mine) {
        var i :| 0 <= i < |mine| && mine[i].pid == m.pid;
        assert mine[i] in live;
      }
    }
    var phase := Calls(cl, st.groups[g], o.Now(st.ledger.Tick(), now)).0;
    if exists s :: Outcome(st, r, live, g, s, phase) {
      var s :| Outcome(st, r, live, g, s, phase);
      CoverSets(st.members, mine, s, m);
    }
  }

  lemma {:induction false} InGroupExact(live: seq<Identity>, pgid: nat)
    ensures forall id :: id in InGroupOf(live, pgid) <==> id in live && id.pgid == pgid
    decreases |live|
  {
    if live != [] {
      InGroupExact(live[1..], pgid);
    }
  }

  lemma {:induction false} CoverSets(members: map<Identity, Sequence>, mine: seq<Identity>, s: Sequence, m: Identity)
    ensures Find(Cover(members, mine, s), m) == if m in mine then Some(s) else Find(members, m)
    decreases |mine|
  {
    if mine != [] {
      CoverSets(members[mine[0] := s], mine[1..], s, m);
    }
  }

  /** A group of this process's id, with its turn at the call given, is let through. */
  ghost predicate Opens(c: Config, o: Oracle, cl: Cleanup, st: Tracked, now: nat, k: nat, g: Identity, m: Identity) {
    g in st.groups && g.pgid == m.pgid && LetThrough(c, o, cl, st.groups[g], now, k, g)
  }

  /** The groups of a pass take a process with them exactly when the one of its group id is
      let through, and then it has the stage that group's schedule called for. */
  lemma {:induction false} GroupsTouch(c: Config, o: Oracle, cl: Cleanup, st: Tracked, now: nat, live: seq<Identity>,
                                       groups: seq<Identity>, covered: set<nat>, m: Identity, g: Identity)
    requires UniquePids(live) && m in live && m.pid !in covered
    requires g in groups && g.pgid == m.pgid && (forall h :: h in groups ==> h in st.groups)
    requires forall i, j :: 0 <= i < j < |groups| ==> groups[i].pgid != groups[j].pgid
    ensures var (r, covered') := AdvanceGroups(c, o, cl, st, now, live, groups, covered);
            var k := TurnIn(c, o, cl, st, now, live, groups, covered, g);
            if Opens(c, o, cl, st, now, k, g, m) then
              m.pid in covered' && AtStage(r, m, Calls(cl, st.groups[g], o.Now(k, now)).0)
            else
              m.pid !in covered' && Find(r.members, m) == Find(st.members, m)
    decreases |groups|
  {
    hide AdvanceGroup, UniquePids, LetThrough, Calls;
    var first, rest := groups[0], groups[1..];
    GroupTouches(c, o, cl, st, now, live, first, covered, m);
    var (st1, covered1) := AdvanceGroup(c, o, cl, st, now, live, first, covered);
    if first == g {
      assert forall i :: 0 <= i < |rest| ==> rest[i] == groups[i + 1];
      OthersTouch(c, o, cl, st1, now, live, rest, covered1, m);
    } else {
      assert g in rest && first.pgid != m.pgid;
      GroupsTouch(c, o, cl, st1, now, live, rest, covered1, m, g);
    }
  }

  /** Groups of other ids leave a process alone. */
  lemma {:induction false} OthersTouch(c: Config, o: Oracle, cl: Cleanup, st: Tracked, now: nat, live: seq<Identity>,
                                       groups: seq<Identity>, covered: set<nat>, m: Identity)
    requires UniquePids(live) && m in live
    requires forall g :: g in groups ==> g in st.groups && g.pgid != m.pgid
    ensures var (r, covered') := AdvanceGroups(c, o, cl, st, now, live, groups, covered);
            Find(r.members, m) == Find(st.members, m) && (m.pid in covered' <==> m.pid in covered)
    decreases |groups|
  {
    hide AdvanceGroup, UniquePids, LetThrough, Calls;
    if groups != [] {
      GroupTouches(c, o, cl, st, now, live, groups[0], covered, m);
      var (st1, covered1) := AdvanceGroup(c, o, cl, st, now, live, groups[0], covered);
      OthersTouch(c, o, cl, st1, now, live, groups[1..], covered1, m);
    }
  }

  /** A process that is not met alive keeps its stage through the groups of a pass. */
  lemma {:induction false} UnmetStays(c: Config, o: Oracle, cl: Cleanup, st: Tracked, now: nat, live: seq<Identity>,
                                      groups: seq<Identity>, covered: set<nat>, m: Identity)
    requires m !in live && forall g :: g in groups ==> g in st.groups
    ensures Find(AdvanceGroups(c, o, cl, st, now, live, groups, covered).0.members, m) == Find(st.members, m)
    decreases |groups|
  {
    hide AdvanceGroup;
    if groups != [] {
      OneUnmet(c, o, cl, st, now, live, groups[0], covered, m);
      var (st1, covered1) := AdvanceGroup(c, o, cl, st, now, live, groups[0], covered);
      UnmetStays(c, o, cl, st1, now, live, groups[1..], covered1, m);
    }
  }

  lemma OneUnmet(c: Config, o: Oracle, cl: Cleanup, st: Tracked, now: nat, live: seq<Identity>, g: Identity,
                 covered: set<nat>, m: Identity)
    requires m !in live && g in st.groups
    ensures var r := AdvanceGroup(c, o, cl, st, now, live, g, covered).0;
            Find(r.members, m) == Find(st.members, m) && r.groups.Keys == st.groups.Keys
  {
    hide AdvanceGroup, Cover, InGroupOf, LetThrough, Calls;
    GroupOutcome(c, o, cl, st, now, live, g, covered);
    InGroupExact(live, g.pgid);
    var r := AdvanceGroup(c, o, cl, st, now, live, g, covered).0;
    if !Idle(st, r) {
      var s :| Outcome(st, r, live, g, s, Calls(cl, st.groups[g], o.Now(st.ledger.Tick(), now)).0);
      CoverSets(st.members, InGroupOf(live, g.pgid), s, m);
    }
  }

  /** A process on its own schedule keeps its stage or reaches a later one. */
  lemma MemberOnward(c: Config, o: Oracle, cl: Cleanup, st: Tracked, now: nat, x: Identity, m: Identity)
    requires m in st.members
    ensures var r := AdvanceMember(c, o, cl, st, now, x);
            && r.groups == st.groups && m in r.members
            && Rank(st.members[m].phase) <= Rank(r.members[m].phase)
            && (x != m ==> r.members[m] == st.members[m])
  {
    hide SendChecked, ReadClock, Expired, Grace, RecordMember, NextSignal, Rank;
    var (l1, at) := ReadClock(o, st.ledger, now);
    var (next, signal, shortened) := NextSignal(cl, Find(st.members, x), at, Expired(cl, at));
    StageOnward(cl, Find(st.members, x), at);
    if signal.Some? {
      var (l2, _) := SendChecked(c, o, l1, x, false, signal.value);
      RecordedStage(o, cl, st.(ledger := l2), x, next.phase, at, shortened);
    }
  }

  lemma StageOnward(cl: Cleanup, before: Option<Sequence>, at: nat)
    ensures before.Some? ==> Rank(before.value.phase) <= Rank(NextSignal(cl, before, at, Expired(cl, at)).0.phase)
  {
  }

  lemma RecordedStage(o: Oracle, cl: Cleanup, st: Tracked, x: Identity, phase: Phase, at: nat, shortened: bool)
    ensures var r := RecordMember(o, cl, st, x, phase, at, shortened);
            && r.groups == st.groups && x in r.members && r.members[x].phase == phase
            && forall m :: m in st.members && m != x ==> m in r.members && r.members[m] == st.members[m]
  {
  }

  /** Processes covered by a verified group, or not met alive, keep their stage while
      the others have their turn; no stage goes back there. */
  lemma {:induction false} MembersOnward(c: Config, o: Oracle, cl: Cleanup, st: Tracked, now: nat, live: seq<Identity>,
                                         covered: set<nat>, m: Identity)
    requires m in st.members
    ensures var r := AdvanceMembers(c, o, cl, st, now, live, covered);
            && r.groups == st.groups && m in r.members
            && Rank(st.members[m].phase) <= Rank(r.members[m].phase)
            && (m.pid in covered || m !in live ==> r.members[m] == st.members[m])
    decreases |live|
  {
    hide AdvanceMember, Rank;
    if live != [] {
      var st1 := if live[0].pid in covered then st else AdvanceMember(c, o, cl, st, now, live[0]);
      MemberOnward(c, o, cl, st, now, live[0], m);
      MembersOnward(c, o, cl, st1, now, live[1..], covered, m);
    }
  }

  /** Before a pass: the group's leader will be verified when its turn comes, and the stage
      its schedule then calls for is behind the one the process has reached by itself. */
  ghost predicate TakesBack(c: Config, o: Oracle, st: Tracked, now: nat, g: Identity, m: Identity)
    requires o.Lists() && st.cleanup.Some? && m in st.members
  {
    var cl, k := st.cleanup.value, Turn(c, o, st, now, g);
    && Opens(c, o, cl, st, now, k, g, m)
    && Rank(Calls(cl, st.groups[g], o.Now(k, now)).0) < Rank(st.members[m].phase)
  }

  /** The stage stored for a process goes back in a pass exactly when it is alive and the
      group of its id takes it back: all of it said of the state, the clock and the system
      before the pass. Then it has the stage that group's schedule called for. */
  lemma GoesBackExactly(c: Config, o: Oracle, st: Tracked, now: nat, m: Identity)
    requires o.Lists() && Keyed(st.processes) && OneEach(st.groups.Keys)
    requires st.cleanup.Some? && m in st.members
    ensures var r := Advance(c, o, st, now).0;
            && m in r.members
            && (Rank(r.members[m].phase) < Rank(st.members[m].phase) <==>
                  LiveMember(st.processes, m) && exists g :: TakesBack(c, o, st, now, g, m))
            && (forall g :: LiveMember(st.processes, m) && TakesBack(c, o, st, now, g, m) ==>
                  r.members[m].phase == Calls(st.cleanup.value, st.groups[g], o.Now(Turn(c, o, st, now, g), now)).0)
  {
    hide AdvanceGroups, AdvanceMembers, Live, Rank, Calls, LetThrough, TurnIn;
    var cl, live, order := st.cleanup.value, Live(o, st), o.leaders(st.ledger.Tick(), st.groups.Keys);
    var (st1, covered) := AdvanceGroups(c, o, cl, st, now, live, order, {});
    LiveOnce(o, st, m);
    assert forall g :: g in order <==> g in st.groups;
    assert forall i, j :: 0 <= i < j < |order| ==> order[i] in st.groups && order[j] in st.groups;
    if m !in live {
      UnmetStays(c, o, cl, st, now, live, order, {}, m);
    } else if exists g :: g in st.groups && g.pgid == m.pgid {
      var g :| g in st.groups && g.pgid == m.pgid;
      GroupsTouch(c, o, cl, st, now, live, order, {}, m, g);
      assert forall h :: h in st.groups && h.pgid == m.pgid ==> h == g;
      assert Turn(c, o, st, now, g) == TurnIn(c, o, cl, st, now, live, order, {}, g);
      assert TakesBack(c, o, st, now, g, m) ==> m in live;
    } else {
      OthersTouch(c, o, cl, st, now, live, order, {}, m);
    }
    assert m in st1.members by {
      assert Find(st.members, m).Some?;
    }
    MembersOnward(c, o, cl, st1, now, live, covered, m);
  }

  lemma LiveOnce(o: Oracle, st: Tracked, m: Identity)
    requires o.Lists() && Keyed(st.processes)
    ensures UniquePids(Live(o, st)) && (m in Live(o, st) <==> LiveMember(st.processes, m))
  {
    hide UniquePids;
    var snapshot := Snapshot(o, st);
    LiveUnique(snapshot);
    SnapshotHolds(o, st);
    if LiveMember(st.processes, m) {
      var i :| 0 <= i < |snapshot| && snapshot[i] == st.processes[m.pid];
      LiveIncludes(snapshot, i);
    }
    LiveRead(snapshot, m);
  }

  lemma {:induction false} LiveRead(records: seq<Record>, m: Identity)
    ensures m in LiveOf(records) ==> exists i :: 0 <= i < |records| && records[i].identity == m && !records[i].exited
    decreases |records|
  {
    if records != [] {
      LiveRead(records[1..], m);
      if m in LiveOf(records[1..]) {
        var i :| 0 <= i < |records[1..]| && records[1..][i].identity == m && !records[1..][i].exited;
        assert records[i + 1].identity == m;
      } else if m in LiveOf(records) {
        assert records[0].identity == m;
      }
    }
  }

  /** A process taken back has the stage its group's schedule called for at that turn. */
  lemma SetBack(c: Config, o: Oracle, st: Tracked, now: nat, g: Identity, m: Identity)
    requires o.Lists() && Keyed(st.processes) && OneEach(st.groups.Keys)
    requires st.cleanup.Some? && m in st.members && LiveMember(st.processes, m) && TakesBack(c, o, st, now, g, m)
    ensures AtStage(Advance(c, o, st, now).0, m, Calls(st.cleanup.value, st.groups[g], o.Now(Turn(c, o, st, now, g), now)).0)
  {
    hide Advance, Calls, Turn, Rank, Keyed, OneEach, LiveMember;
    GoesBackExactly(c, o, st, now, m);
  }

  /** Where the clock does not pass the time of the pass and the system lets every checked
      group through, the schedules alone decide. */
  ghost predicate Willing(c: Config, o: Oracle, now: nat, g: Identity) {
    && (forall t :: o.clock(t) <= now)
    && (forall t, signal :: Allows(c, o, t, g, signal))
  }

  /** So for a group that is always let through: compare two schedules before the pass. */
  lemma GoesBackSchedules(c: Config, o: Oracle, st: Tracked, now: nat, m: Identity, g: Identity)
    requires o.Lists() && Keyed(st.processes) && OneEach(st.groups.Keys)
    requires st.cleanup.Some? && m in st.members && g in st.groups && g.pgid == m.pgid && Willing(c, o, now, g)
    ensures var r := Advance(c, o, st, now).0;
            && m in r.members
            && (Rank(r.members[m].phase) < Rank(st.members[m].phase) <==>
                  LiveMember(st.processes, m)
                  && Rank(Calls(st.cleanup.value, st.groups[g], now).0) < Rank(st.members[m].phase))
  {
    hide Advance, Rank, Calls, Turn;
    GoesBackExactly(c, o, st, now, m);
    var k := Turn(c, o, st, now, g);
    assert o.clock(k) <= now && Allows(c, o, k + 1, g, Calls(st.cleanup.value, st.groups[g], o.Now(k, now)).1);
    assert TakesBack(c, o, st, now, g, m) <==> Rank(Calls(st.cleanup.value, st.groups[g], now).0) < Rank(st.members[m].phase);
    assert forall h :: TakesBack(c, o, st, now, h, m) ==> h == g;
  }

  /** The exact condition over every run of calls and every oracle. */
  lemma RunGoesBackExactly(c: Config, o: Oracle, root: Identity, ops: seq<Op>, now: nat, m: Identity)
    requires o.Lists() && c.groupLimit >= 1 && root.Leads()
    requires var st := Run(c, o, Started(c, root), ops); st.cleanup.Some? && m in st.members
    ensures var st := Run(c, o, Started(c, root), ops);
            var r := Advance(c, o, st, now).0;
            && m in r.members
            && (Rank(r.members[m].phase) < Rank(st.members[m].phase) <==>
                  LiveMember(st.processes, m) && exists g :: TakesBack(c, o, st, now, g, m))
  {
    hide Run, Started, Advance, TakesBack, Rank, Sound, Ordered, Live, Distinct, OneEach;
    hide Signals.Accounted;
    Runs.RunSafe(c, o, root, ops);
    var st := Run(c, o, Started(c, root), ops);
    RootLeads(st.groups.Keys, root);
    GoesBackExactly(c, o, st, now, m);
  }

  // ---------------------------------------------------------------- turns in the log

  /** At this place the log holds a clock reading and the check of a leader that follows. */
  ghost predicate TurnAt(c: Config, o: Oracle, trace: seq<Event>, now: nat, k: nat, g: Identity) {
    && k + 1 < |trace| && trace[k] == Clock(o.Now(k, now))
    && trace[k + 1] == Checked(g.pid, o.Look(k + 1, g.pid))
  }

  lemma GroupLogs(c: Config, o: Oracle, cl: Cleanup, st: Tracked, now: nat, live: seq<Identity>, g: Identity,
                  covered: set<nat>)
    ensures var r := AdvanceGroup(c, o, cl, st, now, live, g, covered).0;
            && st.ledger.trace <= r.ledger.trace
            && (InGroupOf(live, g.pgid) != [] ==> TurnAt(c, o, r.ledger.trace, now, st.ledger.Tick(), g))
  {
    hide SendChecked, NextSignal, InGroupOf, Expired, Scheduled, Pids, Adjust, RecordGroup, ReadClock, TurnAt;
    var mine := InGroupOf(live, g.pgid);
    var (l1, at) := ReadClock(o, st.ledger, now);
    ClockNow(o, st.ledger, now);
    var (next, signal, shortened) := NextSignal(cl, Scheduled(st, g), at, Expired(cl, at));
    var number := if signal.Some? then signal.value else 0;
    SendBegins(c, o, l1, g, number);
    var l2 := SendChecked(c, o, l1, g, true, number).0;
    RecordedGroup(o, cl, st.(ledger := l2), g, next.phase, at, |l1.trace| + 1);
    var (st3, later) := RecordGroup(o, cl, st.(ledger := l2), g, next.phase, at, |l1.trace| + 1);
    AdjustGives(st3, g, later, shortened, mine);
    AdjustGives(st.(ledger := l2), g, next, shortened, mine);
    TurnStays(c, o, st.ledger.trace, l2.trace, AdvanceGroup(c, o, cl, st, now, live, g, covered).0.ledger.trace, now, g);
  }

  lemma TurnStays(c: Config, o: Oracle, before: seq<Event>, checked: seq<Event>, after: seq<Event>, now: nat, g: Identity)
    requires before + [Clock(o.Now(|before|, now)), Checked(g.pid, o.Look(|before| + 1, g.pid))] <= checked
    ensures checked <= after ==> TurnAt(c, o, after, now, |before|, g)
  {
    var k := |before|;
    assert checked[k] == Clock(o.Now(k, now)) && checked[k + 1] == Checked(g.pid, o.Look(k + 1, g.pid));
  }

  lemma SendBegins(c: Config, o: Oracle, l: Ledger, g: Identity, signal: nat)
    ensures l.trace + [Checked(g.pid, o.Look(l.Tick(), g.pid))] <= SendChecked(c, o, l, g, true, signal).0.trace
  {
  }

  lemma {:induction false} TurnsLogged(c: Config, o: Oracle, cl: Cleanup, st: Tracked, now: nat, live: seq<Identity>,
                                       groups: seq<Identity>, covered: set<nat>, g: Identity)
    ensures var r := AdvanceGroups(c, o, cl, st, now, live, groups, covered).0;
            var k := TurnIn(c, o, cl, st, now, live, groups, covered, g);
            && st.ledger.trace <= r.ledger.trace && |st.ledger.trace| <= k
            && (g in groups && InGroupOf(live, g.pgid) != [] ==> TurnAt(c, o, r.ledger.trace, now, k, g))
    decreases |groups|
  {
    hide AdvanceGroup, InGroupOf;
    if groups != [] {
      GroupLogs(c, o, cl, st, now, live, groups[0], covered);
      var (st1, covered1) := AdvanceGroup(c, o, cl, st, now, live, groups[0], covered);
      TurnsLogged(c, o, cl, st1, now, live, groups[1..], covered1, g);
    }
  }

  lemma {:induction false} MembersGrow(c: Config, o: Oracle, cl: Cleanup, st: Tracked, now: nat, live: seq<Identity>,
                                       covered: set<nat>)
    ensures st.ledger.trace <= AdvanceMembers(c, o, cl, st, now, live, covered).ledger.trace
    decreases |live|
  {
    hide AdvanceMember;
    if live != [] {
      AdvanceMemberOnward(c, o, cl, st, now, live[0]);
      var st1 := if live[0].pid in covered then st else AdvanceMember(c, o, cl, st, now, live[0]);
      MembersGrow(c, o, cl, st1, now, live[1..], covered);
    }
  }

  /** The turn of a group with a live process in it is where the log of the pass holds the
      clock reading and the check of its leader. */
  lemma TurnLogged(c: Config, o: Oracle, st: Tracked, now: nat, g: Identity)
    requires o.Lists() && st.cleanup.Some? && g in st.groups && InGroupOf(Live(o, st), g.pgid) != []
    ensures |st.ledger.trace| <= Turn(c, o, st, now, g)
    ensures TurnAt(c, o, Advance(c, o, st, now).0.ledger.trace, now, Turn(c, o, st, now, g), g)
  {
    hide AdvanceGroups, AdvanceMembers, TurnIn, Live, InGroupOf;
    var cl, live, order := st.cleanup.value, Live(o, st), o.leaders(st.ledger.Tick(), st.groups.Keys);
    TurnsLogged(c, o, cl, st, now, live, order, {}, g);
    var (st1, covered) := AdvanceGroups(c, o, cl, st, now, live, order, {});
    MembersGrow(c, o, cl, st1, now, live, covered);
  }
}
