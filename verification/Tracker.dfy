/** The tracker itself: the fields it updates in place, and each of its methods
    against the function in `Tracking` that says what the call does. */
module Trackers {
  import opened Process
  import opened Tracking
  import opened Safety
  import opened Coverage
  import Runs
  import Scans
  import Accounts
  import Passes
  import Verdicts

  class Tracker {
    const c: Config
    const source: Oracle

    /** Calls made to the source so far, counting the notes of the log. */
    var calls: nat
    ghost var trace: seq<Event>
    ghost var history: map<Identity, seq<Mark>>
    ghost var births: map<Identity, nat>

    var processes: map<nat, Record>
    var groups: map<Identity, Option<Sequence>>
    var members: map<Identity, Sequence>
    var pending: seq<Identity>
    var cleanup: Option<Cleanup>
    var uncertain: bool
    var incompleteScans: nat
    var unresolved: bool

    ghost predicate Valid()
      reads this
    {
      source.Lists() && calls == |trace|
    }

    ghost function Log(): Ledger
      reads this
    {
      Ledger(trace, uncertain)
    }

    ghost function State(): Tracked
      reads this
    {
      Tracked(processes, groups, members, pending, cleanup, incompleteScans, unresolved, Log(), history, births)
    }

    /** The whole-run invariant, see `Runs.Safe`. */
    ghost predicate Safe(root: Identity)
      reads this
    {
      Valid() && Runs.Safe(c, root, State())
    }

    constructor (c: Config, source: Oracle, root: Identity)
      requires source.Lists() && c.groupLimit >= 1
      ensures Valid() && State() == Started(c, root) && this.c == c && this.source == source
      ensures processes == map[root.pid := Record(root, c.shim.pid, false)] && groups == map[root := None] && members == map[]
      ensures pending == [root] && cleanup.None? && !uncertain && incompleteScans == 0 && !unresolved && trace == []
      ensures Safe(root)
    {
      this.c, this.source := c, source;
      calls, trace := 0, [];
      processes := map[root.pid := Record(root, c.shim.pid, false)];
      groups, members, pending := map[root := None], map[], [root];
      cleanup, uncertain, incompleteScans, unresolved := None, false, 0, false;
      history, births := map[root := []], map[root := 0];
      new;
      assert State() == Started(c, root);
      Runs.StartSafe(c, root);
    }

    // ------------------------------------------------------- calls to the source

    method Note(ghost e: Event)
      requires Valid()
      modifies `calls, `trace
      ensures Valid() && Log() == old(Log()).Log(e)
    {
      calls, trace := calls + 1, trace + [e];
    }

    /** A failure of the tracker's own making. */
    method Refuse(ghost reason: Reason)
      requires Valid()
      modifies `calls, `trace, `uncertain
      ensures Valid() && Log() == old(Log()).Refuse(reason)
    {
      Note(Refused(reason));
      uncertain := true;
    }

    method Read(pid: nat) returns (a: Answer<Option<Record>>)
      requires Valid()
      modifies `calls, `trace
      ensures Valid() && a == source.Look(old(calls), pid) && Log() == old(Log()).Log(Event.Read(pid, a))
    {
      a := source.Look(calls, pid);
      Note(Event.Read(pid, a));
    }

    method Now(reference: nat) returns (at: nat)
      requires Valid()
      modifies `calls, `trace
      ensures Valid() && (Log(), at) == ReadClock(source, old(Log()), reference)
    {
      at := source.Now(calls, reference);
      Note(Clock(at));
    }

    method ScanError(f: Fault)
      modifies `uncertain
      ensures Log() == (if f.Invalid? then old(Log()).Fail() else old(Log()))
    {
      if f.Invalid? {
        uncertain := true;
      }
    }

    // ------------------------------------------------------------------- scanning

    ghost function Course(queue: seq<Identity>, visited: map<nat, nat>, attempts: nat, incomplete: bool): Walk
      reads this
    {
      Walk(processes, Log(), queue, visited, attempts, incomplete, false)
    }

    method EnlistChildren(parent: nat, kids: seq<nat>, before: seq<Identity>, visited: map<nat, nat>,
                          ghost attempts: nat, missed: bool) returns (queue: seq<Identity>, incomplete: bool)
      requires Valid()
      modifies `processes, `calls, `trace, `uncertain
      ensures Valid()
      ensures Course(queue, visited, attempts, incomplete) ==
              Enlist(c, source, old(Course(before, visited, attempts, missed)), parent, kids)
    {
      queue, incomplete := before, missed;
      var i := 0;
      while i < |kids|
        invariant Valid() && i <= |kids|
        invariant Enlist(c, source, Course(queue, visited, attempts, incomplete), parent, kids[i..]) ==
                  Enlist(c, source, old(Course(before, visited, attempts, missed)), parent, kids)
      {
        var pid := kids[i];
        assert kids[i..][1..] == kids[i + 1..];
        i := i + 1;
        if pid != c.shim.pid {
          var a := Read(pid);
          match a {
            case Err(f) =>
              ScanError(f);
              incomplete := true;
            case Ok(None) =>
            case Ok(Some(child)) =>
              if child.ppid == parent && !(pid in visited && visited[pid] == child.identity.start) {
                if pid !in processes && |processes| >= c.processLimit {
                  Refuse(ProcessLimit);
                  return;
                }
                queue := queue + [child.identity];
                processes := processes[pid := child];
              }
          }
        }
      }
    }

    method Enumerate(e: Identity, before: seq<Identity>, visited: map<nat, nat>, ghost attempts: nat,
                     missed: bool) returns (queue: seq<Identity>, incomplete: bool)
      requires Valid()
      modifies `processes, `calls, `trace, `uncertain
      ensures Valid()
      ensures Course(queue, visited, attempts, incomplete) ==
              Expand(c, source, old(Course(before, visited, attempts, missed)), e)
    {
      queue, incomplete := before, missed;
      var kids := source.children(calls, e.pid);
      Note(Children(e.pid, kids));
      if kids.Err? {
        if !kids.fault.Vanished? {
          ScanError(kids.fault);
          incomplete := true;
        }
        return;
      }
      // The parent may have exited, and its pid been reused, during enumeration.
      var a := Read(e.pid);
      match a {
        case Err(f) =>
          ScanError(f);
          incomplete := true;
        case Ok(None) =>
        case Ok(Some(parent)) =>
          if parent.identity.SameProcess(e) {
            queue, incomplete := EnlistChildren(e.pid, kids.value, queue, visited, attempts, incomplete);
          }
      }
    }

    method Try(e: Identity, before: seq<Identity>, seen: map<nat, nat>, ghost attempts: nat, missed: bool)
      returns (queue: seq<Identity>, visited: map<nat, nat>, incomplete: bool)
      requires Valid()
      modifies `processes, `calls, `trace, `uncertain
      ensures Valid()
      ensures Course(queue, visited, attempts, incomplete) ==
              Probe(c, source, old(Course(before, seen, attempts, missed)), e)
    {
      queue, visited, incomplete := before, seen, missed;
      var a := Read(e.pid);
      if a.Err? {
        ScanError(a.fault);
        incomplete := true;
      } else if a.value.Some? && a.value.value.identity.SameProcess(e) {
        var current := a.value.value;
        visited := visited[e.pid := current.identity.start];
        if e.pid != c.shim.pid {
          processes := processes[e.pid := current];
        }
        queue, incomplete := Enumerate(e, queue, visited, attempts, incomplete);
      } else if e.pid in processes && processes[e.pid].identity.SameProcess(e) {
        processes := processes - {e.pid};
      }
    }

    /** Refresh the retained anchors, then follow every verified child edge. The
        loop ends for any source: each turn uses an attempt or shortens the queue. */
    method Traverse() returns (incomplete: bool, ghost end: Walk)
      requires Valid()
      modifies `processes, `calls, `trace, `uncertain
      ensures Valid()
      ensures end == WalkAll(c, source, WalkStart(c, source, old(State())))
      ensures processes == end.processes && Log() == end.ledger && incomplete == end.incomplete
    {
      var order := source.pids(calls, processes.Keys);
      var queue := (if c.adopt then [c.shim] else []) + Identities(processes, order);
      var visited: map<nat, nat> := map[];
      var attempts := 0;
      incomplete := false;
      while queue != []
        invariant Valid() && attempts <= Cap(c)
        invariant WalkAll(c, source, Course(queue, visited, attempts, incomplete)) ==
                  WalkAll(c, source, WalkStart(c, source, old(State())))
        decreases Cap(c) + 1 - attempts, |queue|
      {
        ghost var w := Course(queue, visited, attempts, incomplete);
        var e := queue[0];
        queue := queue[1..];
        if !(e.pid in visited && visited[e.pid] == e.start) {
          attempts := attempts + 1;
          if attempts > Cap(c) {
            Refuse(Attempts);
            end := Step(c, source, w);
            assert end == Course(queue, visited, attempts, incomplete).(halted := true);
            return;
          }
          queue, visited, incomplete := Try(e, queue, visited, attempts, incomplete);
        }
        assert Course(queue, visited, attempts, incomplete) == Step(c, source, w);
      }
      end := Course(queue, visited, attempts, incomplete);
    }

    method EnlistMembers(pgid: nat, pids: seq<nat>, missed: bool, ghost w: Walk)
      returns (incomplete: bool, open: bool, ghost end: Walk)
      requires Valid() && w.processes == processes && w.ledger == Log() && w.incomplete == missed
      modifies `processes, `calls, `trace, `uncertain
      ensures Valid() && (end, open) == EnlistGroup(c, source, w, pgid, pids, false)
      ensures processes == end.processes && Log() == end.ledger && incomplete == end.incomplete
    {
      incomplete, open, end := missed, false, w;
      var i := 0;
      while i < |pids|
        invariant Valid() && i <= |pids|
        invariant processes == end.processes && Log() == end.ledger && incomplete == end.incomplete
        invariant EnlistGroup(c, source, end, pgid, pids[i..], open) == EnlistGroup(c, source, w, pgid, pids, false)
      {
        var pid := pids[i];
        assert pids[i..][1..] == pids[i + 1..];
        i := i + 1;
        var a := Read(pid);
        end := end.Log(Event.Read(pid, a));
        match a {
          case Err(f) =>
            ScanError(f);
            end, incomplete, open := end.Missed(f), true, true;
          case Ok(None) =>
          case Ok(Some(member)) =>
            if member.identity.pgid == pgid {
              if pid !in processes && |processes| >= c.processLimit {
                Refuse(ProcessLimit);
                end, open := end.Refuse(ProcessLimit), true;
                return;
              }
              processes := processes[pid := member];
              end := end.Put(pid, member);
            }
        }
      }
    }

    method ScanRoot(missed: bool, ghost w: Walk) returns (incomplete: bool, ghost end: Walk)
      requires Valid() && w.processes == processes && w.ledger == Log() && w.incomplete == missed
      modifies `processes, `calls, `trace, `uncertain, `unresolved
      ensures Valid() && (end, unresolved) == ScanRootGroup(c, source, w)
      ensures processes == end.processes && Log() == end.ledger && incomplete == end.incomplete
    {
      incomplete, end := missed, w;
      unresolved := false;
      if c.adopt || c.rootPid !in processes {
        return;
      }
      var root := processes[c.rootPid];
      if !root.exited || !root.identity.Leads() {
        return;
      }
      unresolved := true;
      var pids := source.inGroup(calls, root.identity.pgid);
      Note(InGroup(root.identity.pgid, pids));
      end := end.Log(InGroup(root.identity.pgid, pids));
      if pids.Err? {
        ScanError(pids.fault);
        end, incomplete := end.Missed(pids.fault), true;
        return;
      }
      var a := Read(root.identity.pid);
      end := end.Log(Event.Read(root.identity.pid, a));
      if a.Err? {
        ScanError(a.fault);
        end, incomplete := end.Missed(a.fault), true;
      } else if a.value.Some? && a.value.value.identity == root.identity {
        var open;
        incomplete, open, end := EnlistMembers(root.identity.pgid, pids.value, incomplete, end);
        unresolved := open;
      } else {
        // An unreaped root cannot vanish or be reused: the inventory is void.
        Refuse(RootLost);
        end := end.Refuse(RootLost);
      }
    }

    method ReapZombies()
      requires Valid()
      modifies `processes, `calls, `trace, `uncertain
      ensures Valid() && (Log(), processes) == ReapAll(c, source, old(Log()), old(processes), Snapshot(source, old(State())))
      ensures old(trace) <= trace
      ensures old(Keyed(processes)) ==> Scans.Reaping(c, old(processes), trace[|old(trace)|..], processes, [])
    {
      var records := Records(processes, source.pids(calls, processes.Keys));
      var i := 0;
      while i < |records|
        invariant Valid() && i <= |records| && old(trace) <= trace
        invariant ReapAll(c, source, Log(), processes, records[i..]) ==
                  ReapAll(c, source, old(Log()), old(processes), records)
      {
        var r := records[i];
        assert records[i..][1..] == records[i + 1..];
        i := i + 1;
        if Reapable(c, r) {
          var ok := source.reap(calls, r.identity.pid);
          Note(Reaped(r.identity.pid, ok));
          if ok {
            processes := processes - {r.identity.pid};
          } else {
            uncertain := true;
          }
        }
      }
      if old(Keyed(processes)) {
        Scans.SnapshotReaped(c, source, old(State()));
      }
    }

    method Enrol(id: Identity)
      modifies `groups, `pending, `history, `births
      ensures State() == Enrolled(old(State()), id)
    {
      groups, pending := groups[id := None], pending + [id];
      history, births := history[id := []], births[id := |trace|];
    }

    method RecordLeaders()
      requires Valid()
      modifies `groups, `pending, `history, `births, `calls, `trace, `uncertain
      ensures Valid() && State() == AddLeaders(c, old(State()), Snapshot(source, old(State())))
    {
      var records := Records(processes, source.pids(calls, processes.Keys));
      var i := 0;
      while i < |records|
        invariant Valid() && i <= |records|
        invariant AddLeaders(c, State(), records[i..]) == AddLeaders(c, old(State()), records)
      {
        var id := records[i].identity;
        assert records[i..][1..] == records[i + 1..];
        i := i + 1;
        if id.Leads() && id !in groups {
          if |groups| >= c.groupLimit {
            Refuse(GroupLimit);
          } else {
            Enrol(id);
          }
        }
      }
    }

    method DropGroups()
      modifies `groups, `history, `births
      ensures State() == PruneGroups(old(State()))
    {
      groups := map id | id in groups && Retained(processes, id) :: groups[id];
      history := map id | id in history && Retained(processes, id) :: history[id];
      births := map id | id in births && Retained(processes, id) :: births[id];
    }

    method DropMembers()
      modifies `members
      ensures State() == PruneMembers(old(State()))
    {
      members := map id | id in members && LiveMember(processes, id) :: members[id];
    }

    method Count(incomplete: bool)
      requires Valid()
      modifies `incompleteScans, `calls, `trace, `uncertain
      ensures Valid() && State() == CountScan(old(State()), incomplete)
    {
      incompleteScans := if incomplete then Bump(incompleteScans) else 0;
      if incompleteScans >= MAX_INCOMPLETE_SCANS {
        uncertain := true;
      }
      Note(Scanned(!incomplete));
    }

    /** From the processes found to the groups and members kept. */
    method Settle(incomplete: bool)
      requires Valid()
      modifies this
      ensures Valid() && State() == Tracking.Settle(c, source, old(State()), incomplete)
    {
      hide ReapAll, AddLeaders, PruneGroups, PruneMembers, CountScan;
      ReapZombies();
      DropGroups();
      RecordLeaders();
      DropMembers();
      Count(incomplete);
    }

    method Scan(ghost root: Identity)
      requires Valid()
      modifies this
      ensures Valid() && State() == Tracking.Scan(c, source, old(State()))
      ensures old(Safe(root)) ==> Safe(root) && NoneReplaced(State()) && LeadersKnown(State())
      ensures old(Keyed(processes)) ==> Accounts.OneScan(c, old(State()), State())
    {
      hide Runs.Safe, WalkAll, WalkStart, ScanRootGroup, Tracking.Settle, NoneReplaced, LeadersKnown, Accounts.OneScan;
      var incomplete; ghost var walked; ghost var found;
      incomplete, walked := Traverse();
      incomplete, found := ScanRoot(incomplete, walked);
      assert (found, unresolved) == Found(c, source, old(State()));
      Settle(incomplete);
      if old(Safe(root)) {
        Runs.ScanSafe(c, source, old(State()), root);
      }
      if old(Keyed(processes)) {
        Accounts.ScanTold(c, source, old(State()));
      }
    }

    // ----------------------------------------------------------------- signalling

    method SendSignal(expected: Identity, group: bool, signal: nat) returns (sent: bool)
      requires Valid()
      modifies `calls, `trace, `uncertain
      ensures Valid() && (Log(), sent) == SendChecked(c, source, old(Log()), expected, group, signal)
    {
      sent := false;
      var a := source.Look(calls, expected.pid);
      Note(Checked(expected.pid, a));
      if a.Err? {
        uncertain := true;
        return;
      }
      if a.value.None? {
        return;
      }
      var current := a.value.value;
      if !current.identity.SameProcess(expected)
         || (group && (current.identity != expected || !expected.Leads())) {
        return;
      }
      if !group && current.exited {
        return;
      }
      if signal == 0 {
        return true;
      }
      if expected.pid == 0 || expected.pid > MAX_PID {
        Refuse(BadPid);
        return;
      }
      var fault := source.kill(calls, Target(expected, group), signal);
      Note(Killed(Target(expected, group), signal, expected, fault));
      if fault.Some? {
        if c.macos && group && fault.value.Denied? {
          return;
        }
        uncertain := true;
      }
      sent := true;
    }

    method CoverMembers(mine: seq<Identity>, s: Sequence)
      modifies `members
      ensures members == Cover(old(members), mine, s)
    {
      for i := 0 to |mine|
        invariant Cover(members, mine[i..], s) == Cover(old(members), mine, s)
      {
        assert mine[i..][1..] == mine[i + 1..];
        members := members[mine[i] := s];
      }
    }

    /** A recorded signal: the clock is read again, and the whole grace starts there. */
    method RecordSignal(cl: Cleanup, group: Identity, phase: Phase, at: nat, ghost event: nat) returns (s: Sequence)
      requires Valid()
      modifies `history, `calls, `trace
      ensures Valid() && (State(), s) == RecordGroup(source, cl, old(State()), group, phase, at, event)
    {
      var returned := Now(at);
      ghost var marks := if group in history then history[group] else [];
      history := history[group := marks + [Mark(phase, at, returned, event)]];
      s := Sequence(phase, returned + Grace(cl, phase));
    }

    method Reschedule(group: Identity, s: Sequence, shortened: bool, mine: seq<Identity>)
      requires Valid()
      modifies `groups, `members, `calls, `trace, `uncertain
      ensures Valid() && State() == Adjust(old(State()), group, s, shortened, mine)
    {
      groups := groups[group := Some(s)];
      if shortened {
        Refuse(Shortened);
      }
      CoverMembers(mine, s);
    }

    method StepGroup(cl: Cleanup, now: nat, live: seq<Identity>, group: Identity, before: set<nat>)
      returns (covered: set<nat>)
      requires Valid()
      modifies `groups, `members, `history, `calls, `trace, `uncertain
      ensures Valid() && (State(), covered) == AdvanceGroup(c, source, cl, old(State()), now, live, group, before)
    {
      hide SendChecked, NextSignal, RecordGroup, Adjust, ReadClock;
      covered := before;
      var mine := InGroupOf(live, group.pgid);
      if !(unresolved && group.pid == c.rootPid) && mine == [] {
        return;
      }
      var at := Now(now);
      var (sequence, signal, shortened) :=
        NextSignal(cl, if group in groups then groups[group] else None, at, Expired(cl, at));
      ghost var event := |trace| + 1;
      // Between stages too the leader is verified before its members are excluded.
      var sent := SendSignal(group, true, if signal.Some? then signal.value else 0);
      if sent {
        if signal.Some? {
          sequence := RecordSignal(cl, group, sequence.phase, at, event);
        }
        Reschedule(group, sequence, shortened, mine);
        covered := covered + Pids(mine);
      }
    }

    method StepMember(cl: Cleanup, now: nat, member: Identity)
      requires Valid()
      modifies `members, `calls, `trace, `uncertain
      ensures Valid() && State() == AdvanceMember(c, source, cl, old(State()), now, member)
    {
      hide SendChecked, NextSignal, ReadClock, Expired;
      var previous := Find(members, member);
      var at := Now(now);
      var (sequence, signal, shortened) := NextSignal(cl, previous, at, Expired(cl, at));
      if signal.Some? {
        var sent := SendSignal(member, false, signal.value);
        if sent {
          var returned := Now(at);
          members := members[member := Sequence(sequence.phase, returned + Grace(cl, sequence.phase))];
          if shortened {
            Refuse(Shortened);
          }
        }
      }
    }

    method StepGroups(cl: Cleanup, now: nat, live: seq<Identity>) returns (covered: set<nat>)
      requires Valid()
      modifies `groups, `members, `history, `calls, `trace, `uncertain
      ensures Valid()
      ensures (State(), covered) == AdvanceGroups(c, source, cl, old(State()), now, live,
                                                  source.leaders(old(calls), old(groups).Keys), {})
    {
      hide AdvanceGroup;
      var order := source.leaders(calls, groups.Keys);
      covered := {};
      var i := 0;
      while i < |order|
        invariant Valid() && i <= |order|
        invariant AdvanceGroups(c, source, cl, State(), now, live, order[i..], covered) ==
                  AdvanceGroups(c, source, cl, old(State()), now, live, order, {})
      {
        assert order[i..][1..] == order[i + 1..];
        covered := StepGroup(cl, now, live, order[i], covered);
        i := i + 1;
      }
    }

    method StepMembers(cl: Cleanup, now: nat, live: seq<Identity>, covered: set<nat>)
      requires Valid()
      modifies `members, `calls, `trace, `uncertain
      ensures Valid() && State() == AdvanceMembers(c, source, cl, old(State()), now, live, covered)
    {
      hide AdvanceMember;
      var i := 0;
      while i < |live|
        invariant Valid() && i <= |live|
        invariant AdvanceMembers(c, source, cl, State(), now, live[i..], covered) ==
                  AdvanceMembers(c, source, cl, old(State()), now, live, covered)
      {
        assert live[i..][1..] == live[i + 1..];
        if live[i].pid !in covered {
          StepMember(cl, now, live[i]);
        }
        i := i + 1;
      }
    }

    /** What a pass comes to: done after two quiet passes in a row or once time is up, which
        costs certainty if anything is left. */
    method Conclude(cl: Cleanup, now: nat, idle: bool) returns (p: Progress)
      requires Valid()
      modifies `cleanup, `calls, `trace, `uncertain
      ensures Valid() && (State(), p) == Tracking.Conclude(cl, old(State()), now, idle)
    {
      var force, quiet := Expired(cl, now), idle && incompleteScans == 0;
      var empty := if quiet then Bump(cl.emptyScans) else 0;
      cleanup := Some(cl.(emptyScans := empty));
      if force && !quiet {
        Refuse(Unfinished);
      }
      var done := empty >= 2 || force;
      p := Progress(done, done && idle && !uncertain);
    }

    /** One pass after a scan: every due target moves on, groups first. */
    method Advance(now: nat, ghost root: Identity) returns (p: Progress)
      requires Valid()
      modifies this
      ensures Valid() && (State(), p) == Tracking.Advance(c, source, old(State()), now)
      ensures old(Safe(root)) ==> Safe(root)
      ensures old(Safe(root)) && old(cleanup).Some? ==>
                forall q :: q in old(processes) && !old(processes)[q].exited ==>
                              Covered(State(), |old(trace)|, old(processes)[q].identity)
      ensures old(Safe(root)) && old(cleanup).Some? ==>
                && cleanup.Some? && (cleanup.value.emptyScans > 0 <==> Verdicts.Quiet(old(State())))
                && (p.done <==> || now >= old(cleanup).value.deadline
                                || (Verdicts.Quiet(old(State())) && old(cleanup).value.emptyScans > 0))
                && (p.confirmed <==> p.done && !uncertain && forall q :: q in old(processes) ==> old(processes)[q].exited)
      ensures old(Keyed(processes)) && old(cleanup).Some? ==> Passes.OnePass(c, old(State()), now, State())
    {
      hide Runs.Safe, AdvanceGroups, AdvanceMembers, Covered, Verdicts.Quiet, Passes.OnePass, Tracking.Conclude;
      ghost var keyed := Keyed(processes);
      hide Keyed;
      if cleanup.None? {
        return Progress(false, false);
      }
      var cl := cleanup.value;
      var live := LiveOf(Records(processes, source.pids(calls, processes.Keys)));
      var covered := StepGroups(cl, now, live);
      StepMembers(cl, now, live, covered);
      p := Conclude(cl, now, live == []);
      if old(Safe(root)) {
        Runs.AdvanceSafe(c, source, old(State()), root, now);
        Verdicts.PassConcludes(c, source, root, old(State()), now);
      }
      if keyed {
        Passes.PassTold(c, source, old(State()), now);
      }
    }

    method BeginCleanup(now: nat, interrupt: Option<nat>, term: nat, ghost root: Identity)
      requires Valid()
      modifies `cleanup
      ensures Valid() && State() == Tracking.BeginCleanup(old(State()), now, interrupt, term)
      ensures old(cleanup).None? ==>
                cleanup == Some(Cleanup(interrupt, term, now + (if interrupt.Some? then interrupt.value else 0) + term + 500, 0))
      ensures old(cleanup).Some? ==> cleanup == old(cleanup)
      ensures old(Safe(root)) ==> Safe(root)
    {
      hide Runs.Safe;
      if cleanup.None? {
        var lead := if interrupt.Some? then interrupt.value else 0;
        cleanup := Some(Cleanup(interrupt, term, now + lead + term + CONFIRM_GRACE, 0));
      }
      if old(Safe(root)) {
        Runs.BeginSafe(c, old(State()), root, now, interrupt, term);
      }
    }

    /** Processes found alive by the last scan are killed, each after a read of its own. */
    method KillLate(live: seq<Identity>)
      requires Valid()
      modifies `calls, `trace, `uncertain
      ensures Valid() && Log() == KillAll(c, source, old(Log()).Refuse(LateLive), live)
    {
      Refuse(LateLive);
      ghost var start := Log();
      for i := 0 to |live|
        invariant Valid()
        invariant KillAll(c, source, Log(), live[i..]) == KillAll(c, source, start, live)
      {
        assert live[i..][1..] == live[i + 1..];
        var _ := SendSignal(live[i], false, SIGKILL);
      }
    }

    method FinishScan(ghost root: Identity) returns (complete: bool)
      requires Valid()
      modifies this
      ensures Valid() && (State(), complete) == Tracking.FinishScan(c, source, old(State()))
      ensures complete <==> !uncertain && incompleteScans == 0
      ensures complete ==> forall q :: q in processes ==> processes[q].exited
      ensures old(Safe(root)) ==> Safe(root) && (complete <==> !Failed(c, trace) && Misses(trace) == 0)
    {
      hide Runs.Safe, Tracking.Scan, KillAll, Accounts.OneScan, NoneReplaced, LeadersKnown, Failed, Misses;
      Scan(root);
      ghost var st := State();
      var live := LiveOf(Records(processes, source.pids(calls, processes.Keys)));
      if live != [] {
        KillLate(live);
      }
      complete := !uncertain && incompleteScans == 0;
      Verdicts.LiveExactly(source, st);
      Verdicts.KillsUncertain(c, source, st.ledger.Refuse(LateLive), live);
      if old(Safe(root)) {
        Runs.FinishSafe(c, source, old(State()), root);
        Verdicts.FinishExactly(c, source, root, old(State()));
      }
    }

    method TakeNewGroups(ghost root: Identity) returns (taken: seq<Identity>)
      requires Valid()
      modifies `pending
      ensures Valid() && taken == old(pending) && State() == old(State()).(pending := [])
      ensures old(Safe(root)) ==> Safe(root)
    {
      taken, pending := pending, [];
      if old(Safe(root)) {
        Runs.TakeSafe(c, old(State()), root);
      }
    }

    /** A failure outside the tracker. */
    method Fail(ghost root: Identity)
      requires Valid()
      modifies `calls, `trace, `uncertain
      ensures Valid() && State() == old(State()).(ledger := old(Log()).Refuse(External))
      ensures old(Safe(root)) ==> Safe(root)
    {
      Refuse(External);
      if old(Safe(root)) {
        Runs.FailSafe(c, old(State()), root);
      }
    }
  }
}
