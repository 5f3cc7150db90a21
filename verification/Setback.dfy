/** A run of the tracker in which the stage stored for one process goes back. */
module Setback {
  import opened Process
  import opened Tracking
  import opened Safety
  import opened Coverage
  import opened Members
  import Runs

  // ----------------------------------------------------------------- the system

  ghost function InOrder<T(!new)>(s: set<T>): (q: seq<T>)
    ensures Listing(q, s)
    decreases |s|
  {
    if s == {} then []
    else
      var x :| x in s;
      InOrder(s - {x}) + [x]
  }

  const ROOT := Identity(2, 2, 1)
  const LEADER := Identity(5, 5, 1)
  const MEMBER := Identity(6, 5, 1)
  const LINUX := Config(Identity(1, 1, 1), 2, 10, 10, false, false)

  /** A root with two children, one of them the leader of a group of both. The leader cannot
      be read at first, and the children of the root cannot be listed for a while after. */
  ghost function Flaky(): (o: Oracle)
    ensures o.Lists()
  {
    Oracle(
      (t: nat, pid: nat) =>
        if pid == 2 then Ok(Some(Stat(2, 1, 1, false)))
        else if pid == 5 && t < 17 then Err(Transient)
        else Ok(Some(Stat(5, 1, 2, false))),
      (t: nat, pid: nat) => if pid != 2 then Ok([]) else if 17 <= t < 23 then Err(Transient) else Ok([5, 6]),
      (t: nat, pgid: nat) => Ok([]),
      (t: nat, target: int, signal: nat) => None,
      (t: nat, pid: nat) => true,
      (t: nat) => 0,
      (t: nat, s: set<nat>) => if s == {2, 6} then [2, 6] else if s == {2, 5, 6} then [2, 6, 5] else InOrder(s),
      (t: nat, s: set<Identity>) => if s == {ROOT, LEADER} then [ROOT, LEADER] else InOrder(s))
  }

  function Seen(pid: nat): Record {
    if pid == 2 then Record(ROOT, 1, false) else Record(Identity(pid, 5, 1), 2, false)
  }

  lemma Answers(t: nat)
    ensures Flaky().Look(t, 2) == Ok(Some(Seen(2))) && Flaky().Look(t, 6) == Ok(Some(Seen(6)))
    ensures Flaky().Look(t, 5) == if t < 17 then Err(Transient) else Ok(Some(Seen(5)))
    ensures Flaky().children(t, 2) == if 17 <= t < 23 then Err(Transient) else Ok([5, 6])
    ensures Flaky().children(t, 5) == Flaky().children(t, 6) == Ok([])
  {
  }

  lemma NoChildren(w: Walk, e: Identity)
    requires e == MEMBER || (e == LEADER && |w.ledger.trace| >= 17)
    ensures var r := Expand(LINUX, Flaky(), w, e);
            r == w.(ledger := r.ledger) && |r.ledger.trace| == |w.ledger.trace| + 2 && r.ledger.uncertain == w.ledger.uncertain
  {
    hide Flaky;
    Answers(|w.ledger.trace|);
    Answers(|w.ledger.trace| + 1);
  }

  /** A process without children, met for the first time. */
  lemma PlainStep(w: Walk, e: Identity)
    requires w.queue != [] && w.queue[0] == e && e.pid !in w.visited && w.attempts < 21
    requires e == MEMBER || (e == LEADER && |w.ledger.trace| >= 17)
    ensures var r := Step(LINUX, Flaky(), w);
            && r == w.(ledger := r.ledger, processes := w.processes[e.pid := Seen(e.pid)], queue := w.queue[1..],
                       visited := w.visited[e.pid := 1], attempts := w.attempts + 1)
            && |r.ledger.trace| == |w.ledger.trace| + 3 && r.ledger.uncertain == w.ledger.uncertain
  {
    hide Flaky, Expand;
    Answers(|w.ledger.trace|);
    var w1 := w.(queue := w.queue[1..], attempts := w.attempts + 1).Log(Read(e.pid, Flaky().Look(w.ledger.Tick(), e.pid)));
    NoChildren(Visit(LINUX, w1, e, Seen(e.pid)), e);
  }

  /** A process met before in the same walk. */
  lemma SkipStep(w: Walk, e: Identity)
    requires w.queue != [] && w.queue[0] == e && e.pid in w.visited && w.visited[e.pid] == e.start
    ensures Step(LINUX, Flaky(), w) == w.(queue := w.queue[1..])
  {
    hide Flaky;
  }

  /** The children of the root, read one by one. */
  lemma EnlistTwo(w: Walk)
    requires w.visited == map[2 := 1] && w.processes.Keys <= {2, 6}
    requires |w.ledger.trace| == 3 || |w.ledger.trace| >= 26
    ensures var r := Enlist(LINUX, Flaky(), w, 2, [5, 6]);
            var late := |w.ledger.trace| >= 26;
            && r == w.(ledger := r.ledger, queue := w.queue + (if late then [LEADER, MEMBER] else [MEMBER]),
                       processes := (if late then w.processes[5 := Seen(5)] else w.processes)[6 := Seen(6)],
                       incomplete := w.incomplete || !late)
            && |r.ledger.trace| == |w.ledger.trace| + 2 && r.ledger.uncertain == w.ledger.uncertain
  {
    if |w.ledger.trace| >= 26 {
      EnlistBoth(w);
    } else {
      EnlistLast(w);
    }
  }

  lemma EnlistBoth(w: Walk)
    requires w.visited == map[2 := 1] && w.processes.Keys <= {2, 6} && |w.ledger.trace| >= 26
    ensures var r := Enlist(LINUX, Flaky(), w, 2, [5, 6]);
            && r == w.(ledger := r.ledger, queue := w.queue + [LEADER, MEMBER],
                       processes := w.processes[5 := Seen(5)][6 := Seen(6)])
            && |r.ledger.trace| == |w.ledger.trace| + 2 && r.ledger.uncertain == w.ledger.uncertain
  {
    hide Flaky, Enlist, Added, Seen;
    var first := Added(w, 5);
    var last := Added(first, 6);
    AddedShape(w, 5);
    AddedShape(first, 6);
    Few(w.processes.Keys, {2, 6});
    Few(first.processes.Keys, {2, 5, 6});
    EnlistSeen(w, 5, [6]);
    EnlistSeen(first, 6, []);
    EnlistNone(last);
    assert [5] + [6] == [5, 6] && [6] + [] == [6];
    assert w.queue + [LEADER] + [MEMBER] == w.queue + [LEADER, MEMBER];
  }

  /** A child that was read, recorded and queued. */
  ghost function Added(w: Walk, pid: nat): Walk
    requires pid in {5, 6}
  {
    w.Log(Read(pid, Ok(Some(Seen(pid))))).Put(pid, Seen(pid)).(queue := w.queue + [if pid == 5 then LEADER else MEMBER])
  }

  lemma AddedShape(w: Walk, pid: nat)
    requires pid in {5, 6}
    ensures var r := Added(w, pid);
            && r == w.(ledger := r.ledger, processes := w.processes[pid := Seen(pid)],
                       queue := w.queue + [if pid == 5 then LEADER else MEMBER])
            && |r.ledger.trace| == |w.ledger.trace| + 1 && r.ledger.uncertain == w.ledger.uncertain
            && r.processes.Keys == w.processes.Keys + {pid}
  {
    hide Seen;
  }

  lemma EnlistSeen(w: Walk, pid: nat, rest: seq<nat>)
    requires pid in {5, 6} && pid !in w.visited && |w.processes| < 10 && |w.ledger.trace| >= 26
    ensures Enlist(LINUX, Flaky(), w, 2, [pid] + rest) == Enlist(LINUX, Flaky(), Added(w, pid), 2, rest)
  {
    hide Flaky, Enlist;
    Answers(|w.ledger.trace|);
    EnlistOne(w, pid, rest, Added(w, pid));
  }

  lemma EnlistLast(w: Walk)
    requires w.visited == map[2 := 1] && w.processes.Keys <= {2, 6} && |w.ledger.trace| == 3
    ensures var r := Enlist(LINUX, Flaky(), w, 2, [5, 6]);
            && r == w.(ledger := r.ledger, queue := w.queue + [MEMBER], processes := w.processes[6 := Seen(6)],
                       incomplete := true)
            && |r.ledger.trace| == |w.ledger.trace| + 2 && r.ledger.uncertain == w.ledger.uncertain
  {
    hide Flaky, Enlist;
    var t, o := |w.ledger.trace|, Flaky();
    Answers(t);
    var first := w.Log(Read(5, o.Look(t, 5))).Missed(Transient);
    Few(w.processes.Keys, {2, 6});
    Few(first.processes.Keys, {2, 5, 6});
    EnlistOne(w, 5, [6], first);
    Answers(t + 1);
    var last := first.Log(Read(6, o.Look(t + 1, 6))).Put(6, Seen(6)).(queue := first.queue + [MEMBER]);
    EnlistOne(first, 6, [], last);
    EnlistNone(last);
    assert [5] + [6] == [5, 6] && [6] + [] == [6];
  }

  lemma Few(a: set<nat>, b: set<nat>)
    requires a <= b && b <= {2, 5, 6}
    ensures |a| < 10
  {
    Fewer(a, {2, 5, 6});
  }

  lemma EnlistNone(w: Walk)
    ensures Enlist(LINUX, Flaky(), w, 2, []) == w
  {
  }

  lemma EnlistOne(w: Walk, pid: nat, rest: seq<nat>, after: Walk)
    requires pid in {5, 6} && pid !in w.visited && |w.processes| < 10
    requires var a := Flaky().Look(|w.ledger.trace|, pid); var logged := w.Log(Read(pid, a));
             || (a == Err(Transient) && after == logged.Missed(Transient))
             || (a == Ok(Some(Seen(pid))) && after == logged.Put(pid, Seen(pid)).(queue := w.queue + [Seen(pid).identity]))
    ensures Enlist(LINUX, Flaky(), w, 2, [pid] + rest) == Enlist(LINUX, Flaky(), after, 2, rest)
  {
    hide Flaky;
    assert ([pid] + rest)[1..] == rest;
  }

  /** The root, first in its walk; `found` are the children that its enumeration adds. */
  lemma RootStep(w: Walk, found: seq<Identity>, ticks: nat)
    requires w.queue != [] && w.queue[0] == ROOT && w.visited == map[] && w.attempts == 0
    requires w.processes.Keys <= {2, 6}
    requires var t := |w.ledger.trace|;
             || (t == 0 && found == [MEMBER] && ticks == 5)
             || (t == 17 && found == [] && ticks == 2)
             || (t >= 23 && found == [LEADER, MEMBER] && ticks == 5)
    ensures var r := Step(LINUX, Flaky(), w);
            && r == w.(ledger := r.ledger, processes := r.processes, queue := w.queue[1..] + found, visited := map[2 := 1],
                       attempts := 1, incomplete := r.incomplete)
            && |r.ledger.trace| == |w.ledger.trace| + ticks && r.ledger.uncertain == w.ledger.uncertain
            && r.incomplete == (w.incomplete || |w.ledger.trace| < 23)
            && r.processes == (var q := w.processes[2 := Seen(2)];
                               if found == [] then q else if found == [MEMBER] then q[6 := Seen(6)]
                               else q[5 := Seen(5)][6 := Seen(6)])
  {
    hide Flaky, Enlist;
    var t := |w.ledger.trace|;
    Answers(t);
    Answers(t + 1);
    Answers(t + 2);
    var w1 := w.(queue := w.queue[1..], attempts := 1).Log(Read(2, Ok(Some(Seen(2)))));
    var w2 := Visit(LINUX, w1, ROOT, Seen(2)).Log(Children(2, Flaky().children(t + 1, 2)));
    if !(17 <= t < 22) {
      EnlistTwo(w2.Log(Read(2, Ok(Some(Seen(2))))));
    }
  }

  // -------------------------------------------------------------- its three scans

  lemma OnlyOne<T(!new)>(q: seq<T>, x: T)
    requires Listing(q, {x})
    ensures q == [x]
  {
    assert x in q;
    assert q[0] in q && q[|q| - 1] in q;
  }

  /** The tables of the run, as the system lists them. */
  lemma Tables(t: nat)
    ensures Flaky().pids(t, {2}) == [2] && Flaky().pids(t, {2, 6}) == [2, 6] && Flaky().pids(t, {2, 5, 6}) == [2, 6, 5]
    ensures Flaky().leaders(t, {ROOT}) == [ROOT]
  {
    OnlyOne(Flaky().pids(t, {2}), 2);
    OnlyOne(Flaky().leaders(t, {ROOT}), ROOT);
    assert 5 in {2, 5, 6} && 5 !in {2, 6} && 6 in {2, 6} && 6 !in {2};
  }

  function One(): map<nat, Record> {
    map[2 := Seen(2)]
  }

  function Two(): map<nat, Record> {
    map[2 := Seen(2), 6 := Seen(6)]
  }

  function Three(): map<nat, Record> {
    map[2 := Seen(2), 5 := Seen(5), 6 := Seen(6)]
  }

  /** What a walk found, what it logged, and whether it missed something. */
  predicate Walked(before: Walk, w: Walk, processes: map<nat, Record>, ticks: nat, missed: bool) {
    && w.processes == processes && |w.ledger.trace| == |before.ledger.trace| + ticks
    && w.incomplete == missed && w.ledger.uncertain == before.ledger.uncertain
  }

  lemma StartOf(st: Tracked)
    requires st.processes == One() || st.processes == Two()
    ensures WalkStart(LINUX, Flaky(), st) ==
            Walk(st.processes, st.ledger, if st.processes == One() then [ROOT] else [ROOT, MEMBER], map[], 0, false, false)
  {
    Tables(st.ledger.Tick());
    hide Flaky;
    assert One().Keys == {2} && Two().Keys == {2, 6};
    assert 6 in Two() && 6 !in One();
    var w := WalkStart(LINUX, Flaky(), st);
    assert w.queue == if st.processes == One() then [ROOT] else [ROOT, MEMBER];
  }

  lemma WalkNothing(w: Walk)
    requires w.queue == [] && (w.attempts <= 21 || w.halted)
    ensures WalkAll(LINUX, Flaky(), w) == w
  {
  }

  lemma WalkOne(w: Walk)
    requires w.queue != [] && !w.halted && w.attempts <= 20 && Step(LINUX, Flaky(), w).attempts <= 21
    ensures WalkAll(LINUX, Flaky(), w) == WalkAll(LINUX, Flaky(), Step(LINUX, Flaky(), w))
  {
    hide Step, Flaky;
  }

  lemma FirstWalk(w: Walk)
    requires w.processes == One() && w.queue == [ROOT] && w.visited == map[] && w.attempts == 0 && !w.halted && !w.incomplete
    requires |w.ledger.trace| == 0
    ensures Walked(w, WalkAll(LINUX, Flaky(), w), Two(), 8, true)
  {
    hide Flaky, Step, WalkAll, Seen;
    RootStep(w, [MEMBER], 5);
    WalkOne(w);
    var w1 := Step(LINUX, Flaky(), w);
    assert w1.queue == [MEMBER];
    PlainStep(w1, MEMBER);
    WalkOne(w1);
    var w2 := Step(LINUX, Flaky(), w1);
    WalkNothing(w2);
    assert w2.processes == Two();
  }

  lemma SecondWalk(w: Walk)
    requires w.processes == Two() && w.queue == [ROOT, MEMBER] && w.visited == map[] && w.attempts == 0
    requires !w.halted && !w.incomplete && |w.ledger.trace| == 17
    ensures Walked(w, WalkAll(LINUX, Flaky(), w), Two(), 5, true)
  {
    hide Flaky, Step, WalkAll, Seen;
    RootStep(w, [], 2);
    WalkOne(w);
    var w1 := Step(LINUX, Flaky(), w);
    assert w1.queue == [MEMBER];
    PlainStep(w1, MEMBER);
    WalkOne(w1);
    var w2 := Step(LINUX, Flaky(), w1);
    WalkNothing(w2);
    assert w2.processes == Two();
  }

  lemma ThirdWalk(w: Walk)
    requires w.processes == Two() && w.queue == [ROOT, MEMBER] && w.visited == map[] && w.attempts == 0
    requires !w.halted && !w.incomplete && |w.ledger.trace| == 31
    ensures Walked(w, WalkAll(LINUX, Flaky(), w), Three(), 11, false)
  {
    hide Flaky, Step, WalkAll, Seen;
    RootStep(w, [LEADER, MEMBER], 5);
    WalkOne(w);
    var w1 := Step(LINUX, Flaky(), w);
    assert w1.queue == [MEMBER, LEADER, MEMBER];
    PlainStep(w1, MEMBER);
    WalkOne(w1);
    var w2 := Step(LINUX, Flaky(), w1);
    assert w2.queue == [LEADER, MEMBER];
    PlainStep(w2, LEADER);
    WalkOne(w2);
    var w3 := Step(LINUX, Flaky(), w2);
    assert w3.queue == [MEMBER];
    SkipStep(w3, MEMBER);
    WalkOne(w3);
    var w4 := Step(LINUX, Flaky(), w3);
    WalkNothing(w4);
    assert w4.processes == Three();
  }

  lemma {:induction false} NoneReaped(l: Ledger, processes: map<nat, Record>, records: seq<Record>)
    ensures ReapAll(LINUX, Flaky(), l, processes, records) == (l, processes)
    decreases |records|
  {
    if records != [] {
      NoneReaped(l, processes, records[1..]);
    }
  }

  /** The tracker in the cleanup of this run, between two of its calls. */
  ghost predicate Stands(st: Tracked, tick: nat, processes: map<nat, Record>, groups: map<Identity, Option<Sequence>>,
                         members: map<Identity, Sequence>)
  {
    && st.processes == processes && st.groups == groups && st.members == members && |st.ledger.trace| == tick
    && !st.unresolved && st.cleanup.Some? && st.cleanup.value.interrupt == Some(1)
    && st.cleanup.value.term == 1_000 && st.cleanup.value.deadline == 1_501
  }

  /** From what was found to the tracker after the scan; only a leader is enrolled. */
  lemma SettleOf(st: Tracked, missed: bool)
    requires st.processes == Two() || st.processes == Three()
    requires ROOT in st.groups && (forall g :: g in st.groups ==> g == ROOT)
    requires forall m :: m in st.members ==> m in {ROOT, MEMBER}
    ensures var r := Settle(LINUX, Flaky(), st, missed);
            && r.processes == st.processes && r.members == st.members && r.cleanup == st.cleanup
            && r.unresolved == st.unresolved
            && r.groups == (if st.processes == Three() then st.groups[LEADER := None] else st.groups)
            && |r.ledger.trace| == |st.ledger.trace| + 1
            && r.incompleteScans == (if missed then Bump(st.incompleteScans) else 0)
            && r.ledger.uncertain == (st.ledger.uncertain || r.incompleteScans >= MAX_INCOMPLETE_SCANS)
  {
    hide Flaky, ReapAll, Snapshot, AddLeaders, Seen;
    var o := Flaky();
    NoneReaped(st.ledger, st.processes, Snapshot(o, st));
    Kept(st);
    var st1 := PruneGroups(st);
    ListedAs(st1);
    Enrols(st1);
    assert 5 in Three() && 5 !in Two();
    var st2 := AddLeaders(LINUX, st1, Snapshot(o, st1));
    KeptMembers(st2);
  }

  lemma Kept(st: Tracked)
    requires (st.processes == Two() || st.processes == Three()) && forall g :: g in st.groups ==> g == ROOT
    ensures PruneGroups(st).groups == st.groups
  {
    assert st.processes[2] == Seen(2);
  }

  lemma KeptMembers(st: Tracked)
    requires (st.processes == Two() || st.processes == Three()) && forall m :: m in st.members ==> m in {ROOT, MEMBER}
    ensures PruneMembers(st).members == st.members
  {
    assert st.processes[2] == Seen(2) && st.processes[6] == Seen(6);
  }

  lemma ScanOf(st: Tracked, processes: map<nat, Record>, ticks: nat, missed: bool)
    requires st.processes == One() || st.processes == Two()
    requires processes == Two() || processes == Three()
    requires var w := WalkStart(LINUX, Flaky(), st); Walked(w, WalkAll(LINUX, Flaky(), w), processes, ticks, missed)
    requires ROOT in st.groups && (forall g :: g in st.groups ==> g == ROOT)
    requires forall m :: m in st.members ==> m in {ROOT, MEMBER}
    ensures var r := Scan(LINUX, Flaky(), st);
            && r.processes == processes && r.members == st.members && r.cleanup == st.cleanup && !r.unresolved
            && r.groups == (if processes == Three() then st.groups[LEADER := None] else st.groups)
            && |r.ledger.trace| == |st.ledger.trace| + ticks + 1
            && r.incompleteScans == (if missed then Bump(st.incompleteScans) else 0)
            && r.ledger.uncertain == (st.ledger.uncertain || r.incompleteScans >= MAX_INCOMPLETE_SCANS)
  {
    hide Flaky, WalkAll, WalkStart, Settle;
    var o := Flaky();
    var w := WalkAll(LINUX, o, WalkStart(LINUX, o, st));
    WalkStarts(st);
    assert processes[2] == Seen(2);
    assert Found(LINUX, o, st) == (w, false);
    SettleOf(st.(processes := processes, ledger := w.ledger, unresolved := false), missed);
  }

  lemma WalkStarts(st: Tracked)
    ensures WalkStart(LINUX, Flaky(), st).ledger == st.ledger
  {
  }

  lemma ListedAs(st: Tracked)
    requires st.processes == Two() || st.processes == Three()
    ensures Snapshot(Flaky(), st) == if st.processes == Two() then [Seen(2), Seen(6)] else [Seen(2), Seen(6), Seen(5)]
  {
    Tables(st.ledger.Tick());
    hide Flaky;
    assert Two().Keys == {2, 6} && Three().Keys == {2, 5, 6};
    assert 5 in Three() && 5 !in Two();
  }

  lemma Enrols(st: Tracked)
    requires ROOT in st.groups && forall g :: g in st.groups ==> g == ROOT
    ensures AddLeaders(LINUX, st, [Seen(2), Seen(6)]) == st
    ensures AddLeaders(LINUX, st, [Seen(2), Seen(6), Seen(5)]) == Enrolled(st, LEADER)
  {
    assert st.groups.Keys == {ROOT} && |st.groups| == |st.groups.Keys|;
    assert [Seen(2), Seen(6)][1..] == [Seen(6)] && [Seen(6)][1..] == [];
    assert [Seen(2), Seen(6), Seen(5)][1..] == [Seen(6), Seen(5)] && [Seen(6), Seen(5)][1..] == [Seen(5)];
    assert [Seen(5)][1..] == [];
    assert AddLeaders(LINUX, st, [Seen(6)]) == AddLeaders(LINUX, st, []);
    assert AddLeaders(LINUX, st, [Seen(5)]) == AddLeaders(LINUX, Enrolled(st, LEADER), []);
    assert AddLeaders(LINUX, st, [Seen(6), Seen(5)]) == AddLeaders(LINUX, st, [Seen(5)]);
  }

  // ------------------------------------------------------ its passes, and the last one

  /** What every schedule of this run comes to in a pass that signals. */
  function Next(before: Option<Sequence>, now: nat): Sequence {
    if before.None? then Sequence(Interrupt, now + 1) else Sequence(Terminate, now + 1_000)
  }

  predicate Early(before: Option<Sequence>, now: nat) {
    (before == None && now == 0) || (before == Some(Sequence(Interrupt, 1)) && now == 50)
  }

  lemma FallsDue(cl: Cleanup, before: Option<Sequence>, now: nat)
    requires cl.interrupt == Some(1) && cl.term == 1_000 && cl.deadline == 1_501 && Early(before, now)
    ensures NextSignal(cl, before, now, Expired(cl, now)) == (Next(before, now), Some(SignalOf(Next(before, now).phase)), false)
    ensures Next(before, now).next == now + Grace(cl, Next(before, now).phase)
  {
  }

  lemma Told(l: Ledger, expected: Identity, group: bool, signal: nat)
    requires signal != 0 && (expected == ROOT || (expected == MEMBER && !group))
    ensures var (l1, sent) := SendChecked(LINUX, Flaky(), l, expected, group, signal);
            sent && |l1.trace| == |l.trace| + 2 && l1.uncertain == l.uncertain
  {
    Answers(l.Tick());
  }

  lemma ClockStands(l: Ledger, now: nat)
    ensures var (l1, at) := ReadClock(Flaky(), l, now); at == now && |l1.trace| == |l.trace| + 1 && l1.uncertain == l.uncertain
  {
  }

  lemma RootAlone()
    ensures InGroupOf([ROOT, MEMBER], 2) == [ROOT]
  {
    assert [ROOT, MEMBER][1..] == [MEMBER] && [MEMBER][1..] == [];
    assert InGroupOf([MEMBER], 2) == [] + InGroupOf([], 2);
  }

  lemma Concluded(st: Tracked, tick: nat, groups: map<Identity, Option<Sequence>>, members: map<Identity, Sequence>, now: nat)
    requires Stands(st, tick, Two(), groups, members) && now < 1_501
    ensures var r := Conclude(st.cleanup.value, st, now, false).0;
            Stands(r, tick, Two(), groups, members) && r.incompleteScans == st.incompleteScans && r.ledger == st.ledger
  {
  }

  lemma GroupPart(st: Tracked, tick: nat, now: nat, s: Option<Sequence>, members: map<Identity, Sequence>)
    requires Stands(st, tick, Two(), map[ROOT := s], members) && Early(s, now)
    ensures var (r, covered) := AdvanceGroup(LINUX, Flaky(), st.cleanup.value, st, now, [ROOT, MEMBER], ROOT, {});
            && Stands(r, tick + 4, Two(), map[ROOT := Some(Next(s, now))], members[ROOT := Next(s, now)])
            && covered == {2} && r.ledger.uncertain == st.ledger.uncertain && r.cleanup == st.cleanup
            && r.incompleteScans == st.incompleteScans
  {
    hide Flaky, SendChecked, NextSignal, ReadClock, Expired;
    var o, cl := Flaky(), st.cleanup.value;
    RootAlone();
    ClockStands(st.ledger, now);
    var (l1, at) := ReadClock(o, st.ledger, now);
    FallsDue(cl, s, now);
    Told(l1, ROOT, true, SignalOf(Next(s, now).phase));
    var (l2, sent) := SendChecked(LINUX, o, l1, ROOT, true, SignalOf(Next(s, now).phase));
    ClockStands(l2, now);
    assert Scheduled(st, ROOT) == s;
    assert [ROOT][1..] == [] && Pids([ROOT]) == {2};
    assert Cover(members, [ROOT], Next(s, now)) == Cover(members[ROOT := Next(s, now)], [], Next(s, now));
    assert map[ROOT := s][ROOT := Some(Next(s, now))] == map[ROOT := Some(Next(s, now))];
  }

  lemma MemberPart(st: Tracked, tick: nat, now: nat, groups: map<Identity, Option<Sequence>>, members: map<Identity, Sequence>)
    requires Stands(st, tick, Two(), groups, members) && Early(Find(members, MEMBER), now)
    ensures var r := AdvanceMember(LINUX, Flaky(), st.cleanup.value, st, now, MEMBER);
            && Stands(r, tick + 4, Two(), groups, members[MEMBER := Next(Find(members, MEMBER), now)])
            && r.ledger.uncertain == st.ledger.uncertain && r.cleanup == st.cleanup
            && r.incompleteScans == st.incompleteScans
  {
    hide Flaky, SendChecked, NextSignal, ReadClock, Expired;
    var o, cl := Flaky(), st.cleanup.value;
    var s := Find(members, MEMBER);
    ClockStands(st.ledger, now);
    var (l1, at) := ReadClock(o, st.ledger, now);
    FallsDue(cl, s, now);
    Told(l1, MEMBER, false, SignalOf(Next(s, now).phase));
    var (l2, sent) := SendChecked(LINUX, o, l1, MEMBER, false, SignalOf(Next(s, now).phase));
    ClockStands(l2, now);
  }

  /** A pass in which the root is signalled through its group and the member by itself. */
  lemma PassOf(st: Tracked, tick: nat, now: nat, s: Option<Sequence>, members: map<Identity, Sequence>)
    requires Stands(st, tick, Two(), map[ROOT := s], members) && Early(s, now) && Find(members, MEMBER) == s
    ensures var r := Advance(LINUX, Flaky(), st, now).0; var next := Next(s, now);
            Stands(r, tick + 8, Two(), map[ROOT := Some(next)], members[ROOT := next][MEMBER := next])
            && r.incompleteScans == st.incompleteScans && r.ledger.uncertain == st.ledger.uncertain
  {
    hide Flaky, AdvanceGroups, AdvanceMembers, Conclude, Next;
    var o, cl := Flaky(), st.cleanup.value;
    ListedAs(st);
    Tables(st.ledger.Tick());
    assert map[ROOT := s].Keys == {ROOT};
    BothAlive();
    GroupsPart(st, tick, now, s, members);
    var (st1, covered) := AdvanceGroups(LINUX, o, cl, st, now, [ROOT, MEMBER], [ROOT], {});
    MembersPart(st1, tick + 4, now, st1.groups, st1.members);
    var st2 := AdvanceMembers(LINUX, o, cl, st1, now, [ROOT, MEMBER], covered);
    Concluded(st2, tick + 8, st2.groups, st2.members, now);
  }

  lemma BothAlive()
    ensures LiveOf([Seen(2), Seen(6)]) == [ROOT, MEMBER]
  {
    assert [Seen(2), Seen(6)][1..] == [Seen(6)] && [Seen(6)][1..] == [];
    assert LiveOf([Seen(6)]) == [MEMBER] + LiveOf([]);
  }

  lemma GroupsPart(st: Tracked, tick: nat, now: nat, s: Option<Sequence>, members: map<Identity, Sequence>)
    requires Stands(st, tick, Two(), map[ROOT := s], members) && Early(s, now)
    ensures var (r, covered) := AdvanceGroups(LINUX, Flaky(), st.cleanup.value, st, now, [ROOT, MEMBER], [ROOT], {});
            && Stands(r, tick + 4, Two(), map[ROOT := Some(Next(s, now))], members[ROOT := Next(s, now)])
            && covered == {2} && r.ledger.uncertain == st.ledger.uncertain && r.cleanup == st.cleanup
            && r.incompleteScans == st.incompleteScans
  {
    hide Flaky, AdvanceGroup, Next, Early;
    GroupPart(st, tick, now, s, members);
    assert [ROOT][1..] == [];
  }

  lemma MembersPart(st: Tracked, tick: nat, now: nat, groups: map<Identity, Option<Sequence>>, members: map<Identity, Sequence>)
    requires Stands(st, tick, Two(), groups, members) && Early(Find(members, MEMBER), now)
    ensures var r := AdvanceMembers(LINUX, Flaky(), st.cleanup.value, st, now, [ROOT, MEMBER], {2});
            && Stands(r, tick + 4, Two(), groups, members[MEMBER := Next(Find(members, MEMBER), now)])
            && r.ledger.uncertain == st.ledger.uncertain && r.cleanup == st.cleanup
            && r.incompleteScans == st.incompleteScans
  {
    hide Flaky, AdvanceMember, Next, Early;
    MemberPart(st, tick, now, groups, members);
    var st2 := AdvanceMember(LINUX, Flaky(), st.cleanup.value, st, now, MEMBER);
    assert [ROOT, MEMBER][1..] == [MEMBER] && [MEMBER][1..] == [];
    assert AdvanceMembers(LINUX, Flaky(), st.cleanup.value, st, now, [MEMBER], {2}) == st2;
  }

  /** The start of tracking, a cleanup begun with a positive interrupt grace, and two
      samples of the supervision loop. */
  function Samples(): seq<Op> {
    [DoBegin(0, Some(1), 1_000), DoScan, DoTake, DoAdvance(0), DoScan, DoTake, DoAdvance(50)]
  }

  /** One sample: a scan, the new groups handed over, and in cleanup a pass. */
  lemma SampleRun(o: Oracle, st: Tracked, now: nat)
    requires o.Lists()
    ensures Run(LINUX, o, st, [DoScan, DoTake, DoAdvance(now)]) ==
            Advance(LINUX, o, Scan(LINUX, o, st).(pending := []), now).0
    ensures Run(LINUX, o, st, [DoScan, DoTake]) == Scan(LINUX, o, st).(pending := [])
  {
    hide Scan, Advance;
    var scanned := Scan(LINUX, o, st);
    var taken := scanned.(pending := []);
    var q := [DoScan, DoTake, DoAdvance(now)];
    assert q[1..] == [DoTake, DoAdvance(now)] && q[1..][1..] == [DoAdvance(now)] && [DoAdvance(now)][1..] == [];
    assert Run(LINUX, o, taken, [DoAdvance(now)]) == Run(LINUX, o, Advance(LINUX, o, taken, now).0, []);
    assert Run(LINUX, o, scanned, [DoTake, DoAdvance(now)]) == Run(LINUX, o, taken, [DoAdvance(now)]);
    assert [DoScan, DoTake][1..] == [DoTake] && [DoTake][1..] == [];
    assert Run(LINUX, o, scanned, [DoTake]) == Run(LINUX, o, taken, []);
  }

  lemma FirstSample(st: Tracked)
    requires Stands(st, 0, One(), map[ROOT := None], map[]) && st.incompleteScans == 0 && !st.ledger.uncertain
    ensures var s := Sequence(Interrupt, 1);
            var r := Run(LINUX, Flaky(), st, [DoScan, DoTake, DoAdvance(0)]);
            && Stands(r, 17, Two(), map[ROOT := Some(s)], map[ROOT := s, MEMBER := s])
            && r.incompleteScans == 1 && !r.ledger.uncertain
  {
    hide Flaky, Scan, Advance, WalkAll, WalkStart, Seen, Run;
    SampleRun(Flaky(), st, 0);
    StartOf(st);
    FirstWalk(WalkStart(LINUX, Flaky(), st));
    ScanOf(st, Two(), 8, true);
    assert 5 in Three() && 5 !in Two();
    var scanned := Scan(LINUX, Flaky(), st).(pending := []);
    PassOf(scanned, 9, 0, None, map[]);
  }

  lemma SecondSample(st: Tracked)
    requires var s := Sequence(Interrupt, 1); Stands(st, 17, Two(), map[ROOT := Some(s)], map[ROOT := s, MEMBER := s])
    requires st.incompleteScans == 1 && !st.ledger.uncertain
    ensures var s := Sequence(Terminate, 1_050);
            var r := Run(LINUX, Flaky(), st, [DoScan, DoTake, DoAdvance(50)]);
            && Stands(r, 31, Two(), map[ROOT := Some(s)], map[ROOT := s, MEMBER := s])
            && r.incompleteScans == 2 && !r.ledger.uncertain
  {
    hide Flaky, Scan, Advance, WalkAll, WalkStart, Seen, Run;
    var s := Sequence(Interrupt, 1);
    SampleRun(Flaky(), st, 50);
    assert 6 in Two() && 6 !in One();
    StartOf(st);
    SecondWalk(WalkStart(LINUX, Flaky(), st));
    ScanOf(st, Two(), 5, true);
    assert 5 in Three() && 5 !in Two();
    var scanned := Scan(LINUX, Flaky(), st).(pending := []);
    PassOf(scanned, 23, 50, Some(s), map[ROOT := s, MEMBER := s]);
  }

  lemma ThirdScan(st: Tracked)
    requires var s := Sequence(Terminate, 1_050); Stands(st, 31, Two(), map[ROOT := Some(s)], map[ROOT := s, MEMBER := s])
    ensures var s := Sequence(Terminate, 1_050);
            var r := Run(LINUX, Flaky(), st, [DoScan, DoTake]);
            && Stands(r, 43, Three(), map[ROOT := Some(s), LEADER := None], map[ROOT := s, MEMBER := s])
            && r.ledger.uncertain == st.ledger.uncertain
  {
    hide Flaky, Scan, Advance, WalkAll, WalkStart, Seen, Run;
    SampleRun(Flaky(), st, 100);
    assert 6 in Two() && 6 !in One();
    StartOf(st);
    ThirdWalk(WalkStart(LINUX, Flaky(), st));
    ScanOf(st, Three(), 11, false);
  }

  /** A child whose group's leader could not be read is interrupted and then terminated by
      itself. The next scan finds the leader; the pass that follows starts its group from
      the beginning and sets the child back to INT. Nothing in the run is out of the
      ordinary: positive graces, a certain tracker, and only transient failures. */
  lemma StageGoesBack()
    ensures var st := Run(LINUX, Flaky(), Started(LINUX, ROOT), Samples() + [DoScan, DoTake]);
            var r := Apply(LINUX, Flaky(), st, DoAdvance(100));
            && MEMBER in st.members && st.members[MEMBER].phase == Terminate && !st.ledger.uncertain
            && MEMBER in r.members && r.members[MEMBER].phase == Interrupt
  {
    hide Advance, Run, Flaky, Seen, Turn;
    var o, start := Flaky(), Started(LINUX, ROOT);
    var begun := BeginCleanup(start, 0, Some(1), 1_000);
    Began(o, start);
    var one, two := [DoScan, DoTake, DoAdvance(0)], [DoScan, DoTake, DoAdvance(50)];
    assert Samples() == [DoBegin(0, Some(1), 1_000)] + one + two;
    StartedAt();
    FirstSample(begun);
    SecondSample(Run(LINUX, o, begun, one));
    Runs.RunJoined(LINUX, o, start, [DoBegin(0, Some(1), 1_000)], one);
    Runs.RunJoined(LINUX, o, start, [DoBegin(0, Some(1), 1_000)] + one, two);
    Runs.RunJoined(LINUX, o, start, Samples(), [DoScan, DoTake]);
    var before := Run(LINUX, o, start, Samples());
    ThirdScan(before);
    TakenBackThen(Run(LINUX, o, start, Samples() + [DoScan, DoTake]));
  }

  lemma Began(o: Oracle, st: Tracked)
    requires o.Lists()
    ensures Run(LINUX, o, st, [DoBegin(0, Some(1), 1_000)]) == BeginCleanup(st, 0, Some(1), 1_000)
  {
    assert [DoBegin(0, Some(1), 1_000)][1..] == [];
  }

  lemma StartedAt()
    ensures Stands(BeginCleanup(Started(LINUX, ROOT), 0, Some(1), 1_000), 0, One(), map[ROOT := None], map[])
  {
  }

  ghost predicate Third(st: Tracked) {
    var s := Sequence(Terminate, 1_050);
    Stands(st, 43, Three(), map[ROOT := Some(s), LEADER := None], map[ROOT := s, MEMBER := s])
  }

  lemma ThirdShape(st: Tracked)
    requires Third(st)
    ensures Keyed(st.processes) && LiveMember(st.processes, MEMBER) && OneEach(st.groups.Keys)
  {
    assert st.processes[6] == Seen(6) && st.processes[2] == Seen(2) && st.processes[5] == Seen(5);
    assert st.groups.Keys == {ROOT, LEADER};
  }

  lemma ThirdCalls(st: Tracked)
    requires Third(st)
    ensures LEADER in st.groups && Calls(st.cleanup.value, st.groups[LEADER], 100).0 == Interrupt
  {
  }

  lemma Alive(st: Tracked)
    requires Third(st)
    ensures InGroupOf(Live(Flaky(), st), 5) != []
  {
    ThirdShape(st);
    hide Flaky, Third;
    LiveOnce(Flaky(), st, MEMBER);
    InGroupExact(Live(Flaky(), st), 5);
  }

  lemma TakesMember(st: Tracked)
    requires Third(st)
    ensures MEMBER in st.members && LEADER in st.groups && TakesBack(LINUX, Flaky(), st, 100, LEADER, MEMBER)
    ensures Flaky().Now(Turn(LINUX, Flaky(), st, 100, LEADER), 100) == 100
  {
    Alive(st);
    ThirdCalls(st);
    assert st.members[MEMBER].phase == Terminate && |st.ledger.trace| == 43;
    hide Turn, Flaky, Third, Stands, Calls, Allows, InGroupOf;
    TurnLogged(LINUX, Flaky(), st, 100, LEADER);
    FlakyLets(Turn(LINUX, Flaky(), st, 100, LEADER), Calls(st.cleanup.value, st.groups[LEADER], 100).1);
  }

  lemma TakenBackThen(st: Tracked)
    requires Third(st)
    ensures var r := Advance(LINUX, Flaky(), st, 100).0; MEMBER in r.members && r.members[MEMBER].phase == Interrupt
  {
    ThirdShape(st);
    ThirdCalls(st);
    TakesMember(st);
    hide Advance, Turn, Flaky, Third, Calls, TakesBack, Keyed, OneEach, LiveMember;
    SetBack(LINUX, Flaky(), st, 100, LEADER, MEMBER);
  }

  lemma FlakyLets(k: nat, signal: Option<nat>)
    requires k >= 17
    ensures Flaky().Now(k, 100) == 100 && Allows(LINUX, Flaky(), k + 1, LEADER, signal)
  {
    Answers(k + 1);
  }
}
