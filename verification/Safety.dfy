/** What holds over every run of the tracker, whatever the system answers: which
    signals are ever sent, and what certainty rules out. */
module Safety {
  import opened Process
  import opened Tracking

  // ------------------------------------------------------- reading the call log

  /** A signal is sent straight after a read of its own target: to a group only
      when the read is the recorded leader itself, to a process only when it is
      the same process, alive. */
  ghost predicate Permitted(before: seq<Event>, e: Event) {
    e.Killed? ==>
      && e.signal in {SIGINT, SIGTERM, SIGKILL}
      && 1 <= e.expected.pid <= MAX_PID
      && before != []
      && var last := before[|before| - 1];
      && last.Checked? && last.pid == e.expected.pid
      && last.record.Ok? && last.record.value.Some?
      && var found := last.record.value.value;
      if e.target < 0 then
        && found.identity == e.expected && e.expected.Leads() && e.target == 0 - e.expected.pgid
      else
        && found.identity.SameProcess(e.expected) && !found.exited && e.target == e.expected.pid
  }

  ghost predicate Authorized(trace: seq<Event>) {
    forall k :: 0 <= k < |trace| ==> Permitted(trace[..k], trace[k])
  }

  /** Incomplete scans since the last complete one. */
  ghost function Misses(trace: seq<Event>): nat {
    if trace == [] then 0 else
    var last, before := trace[|trace| - 1], trace[..|trace| - 1];
    if last.Scanned? then if last.complete then 0 else 1 + Misses(before)
    else Misses(before)
  }

  ghost predicate Unreadable<T>(a: Answer<T>) {
    a.Err? && a.fault.Invalid?
  }

  /** The events that cost a run its confirmation: a failed signal (but for a
      group refusal on macOS), a failed reap, a failed read before a signal,
      metadata or an inventory that cannot be trusted, a third incomplete scan
      in a row, and each decision the tracker takes against itself. */
  ghost predicate Fails(c: Config, before: seq<Event>, e: Event) {
    match e
    case Read(_, a) => Unreadable(a)
    case Checked(_, a) => a.Err?
    case Children(_, a) => Unreadable(a)
    case InGroup(_, a) => Unreadable(a)
    case Killed(target, _, _, fault) => fault.Some? && !(c.macos && target < 0 && fault.value.Denied?)
    case Reaped(_, ok) => !ok
    case Clock(_) => false
    case Scanned(complete) => !complete && Misses(before) >= 2
    case Refused(_) => true
  }

  ghost predicate Failed(c: Config, trace: seq<Event>) {
    exists k :: 0 <= k < |trace| && Fails(c, trace[..k], trace[k])
  }

  ghost predicate Extends(base: Ledger, l: Ledger) {
    base.trace <= l.trace && (base.uncertain ==> l.uncertain)
  }

  /** The signals in the log were all permitted, certainty is lost exactly by a
      failing event, and `misses` is the log's own count of incomplete scans. The log has grown from
      `base`, and certainty lost there is not won back. */
  ghost predicate Sound(c: Config, base: Ledger, l: Ledger, misses: nat) {
    && Extends(base, l)
    && Authorized(l.trace)
    && (l.uncertain <==> Failed(c, l.trace))
    && misses == (if Misses(l.trace) > MAX_COUNT then MAX_COUNT else Misses(l.trace))
  }

  // ---------------------------------------------------------------- one event

  lemma Appended(c: Config, trace: seq<Event>, e: Event)
    ensures Authorized(trace + [e]) <==> Authorized(trace) && Permitted(trace, e)
    ensures Failed(c, trace + [e]) <==> Failed(c, trace) || Fails(c, trace, e)
    ensures !e.Scanned? ==> Misses(trace + [e]) == Misses(trace)
  {
    var t := trace + [e];
    assert t[..|trace|] == trace && t[|trace|] == e;
    assert forall k :: 0 <= k < |trace| ==> t[..k] == trace[..k] && t[k] == trace[k];
    if Authorized(t) {
      forall k | 0 <= k < |trace| ensures Permitted(trace[..k], trace[k]) {
        assert Permitted(t[..k], t[k]);
      }
      assert Permitted(t[..|trace|], t[|trace|]);
    }
    if Failed(c, trace) {
      var k :| 0 <= k < |trace| && Fails(c, trace[..k], trace[k]);
      assert Fails(c, t[..k], t[k]);
    }
    if Fails(c, trace, e) {
      assert Fails(c, t[..|trace|], t[|trace|]);
    }
  }

  /** One event keeps the ledger sound when uncertainty follows its failure. */
  lemma Noted(c: Config, base: Ledger, l: Ledger, misses: nat, e: Event, uncertain: bool)
    requires Sound(c, base, l, misses) && !e.Scanned? && Permitted(l.trace, e)
    requires uncertain == (l.uncertain || Fails(c, l.trace, e))
    ensures Sound(c, base, Ledger(l.trace + [e], uncertain), misses)
  {
    Appended(c, l.trace, e);
  }

  lemma Refusing(c: Config, base: Ledger, l: Ledger, misses: nat, reason: Reason)
    requires Sound(c, base, l, misses)
    ensures Sound(c, base, l.Refuse(reason), misses)
  {
    Noted(c, base, l, misses, Refused(reason), true);
  }

  lemma Missing(c: Config, base: Ledger, w: Walk, misses: nat, e: Event, f: Fault)
    requires Sound(c, base, w.ledger, misses) && !e.Scanned? && !e.Killed?
    requires Fails(c, w.ledger.trace, e) <==> f.Invalid?
    ensures Sound(c, base, w.Log(e).Missed(f).ledger, misses)
  {
    Noted(c, base, w.ledger, misses, e, w.Log(e).Missed(f).ledger.uncertain);
  }

  lemma Seen(c: Config, base: Ledger, l: Ledger, misses: nat, e: Event)
    requires Sound(c, base, l, misses) && !e.Scanned? && !e.Killed? && !Fails(c, l.trace, e)
    ensures Sound(c, base, l.Log(e), misses)
  {
    Noted(c, base, l, misses, e, l.uncertain);
  }

  // ------------------------------------------------------------------ scanning

  lemma {:induction false} EnlistSound(c: Config, o: Oracle, base: Ledger, w: Walk, misses: nat, parent: nat, kids: seq<nat>)
    requires Sound(c, base, w.ledger, misses)
    ensures Sound(c, base, Enlist(c, o, w, parent, kids).ledger, misses)
    decreases |kids|
  {
    hide Sound;
    if kids != [] {
      var pid, rest := kids[0], kids[1..];
      if pid == c.shim.pid {
        EnlistSound(c, o, base, w, misses, parent, rest);
      } else {
        var a := o.Look(w.ledger.Tick(), pid);
        var w1 := w.Log(Read(pid, a));
        if a.Err? {
          Missing(c, base, w, misses, Read(pid, a), a.fault);
          EnlistSound(c, o, base, w1.Missed(a.fault), misses, parent, rest);
        } else {
          Seen(c, base, w.ledger, misses, Read(pid, a));
          EnlistSound(c, o, base, w1, misses, parent, rest);
          if a.value.Some? {
            var child := a.value.value;
            EnlistSound(c, o, base, w1.Put(pid, child).(queue := w1.queue + [child.identity]), misses, parent, rest);
            Refusing(c, base, w1.ledger, misses, ProcessLimit);
          }
        }
      }
    }
  }

  lemma ExpandSound(c: Config, o: Oracle, base: Ledger, w: Walk, misses: nat, e: Identity)
    requires Sound(c, base, w.ledger, misses)
    ensures Sound(c, base, Expand(c, o, w, e).ledger, misses)
  {
    hide Sound, Enlist;
    var kids := o.children(w.ledger.Tick(), e.pid);
    var w1 := w.Log(Children(e.pid, kids));
    if kids.Err? {
      if kids.fault.Vanished? {
        Seen(c, base, w.ledger, misses, Children(e.pid, kids));
      } else {
        Missing(c, base, w, misses, Children(e.pid, kids), kids.fault);
      }
    } else {
      Seen(c, base, w.ledger, misses, Children(e.pid, kids));
      var a := o.Look(w1.ledger.Tick(), e.pid);
      if a.Err? {
        Missing(c, base, w1, misses, Read(e.pid, a), a.fault);
      } else {
        Seen(c, base, w1.ledger, misses, Read(e.pid, a));
        EnlistSound(c, o, base, w1.Log(Read(e.pid, a)), misses, e.pid, kids.value);
      }
    }
  }

  lemma StepSound(c: Config, o: Oracle, base: Ledger, w: Walk, misses: nat)
    requires Sound(c, base, w.ledger, misses) && w.queue != []
    ensures Sound(c, base, Step(c, o, w).ledger, misses)
  {
    hide Sound, Expand;
    var e := w.queue[0];
    var w1 := w.(queue := w.queue[1..], attempts := w.attempts + 1);
    Refusing(c, base, w1.ledger, misses, Attempts);
    var a := o.Look(w1.ledger.Tick(), e.pid);
    if a.Err? {
      Missing(c, base, w1, misses, Read(e.pid, a), a.fault);
    } else {
      Seen(c, base, w1.ledger, misses, Read(e.pid, a));
      if a.value.Some? {
        ExpandSound(c, o, base, Visit(c, w1.Log(Read(e.pid, a)), e, a.value.value), misses, e);
      }
    }
  }

  lemma {:induction false} WalkSound(c: Config, o: Oracle, base: Ledger, w: Walk, misses: nat)
    requires w.attempts <= Cap(c) || w.halted
    requires Sound(c, base, w.ledger, misses)
    ensures Sound(c, base, WalkAll(c, o, w).ledger, misses)
    decreases if w.halted then 0 else 1, Cap(c) + 1 - w.attempts, |w.queue|
  {
    hide Sound;
    if !w.halted && w.queue != [] {
      StepSound(c, o, base, w, misses);
      WalkSound(c, o, base, Step(c, o, w), misses);
    }
  }

  lemma {:induction false} EnlistGroupSound(c: Config, o: Oracle, base: Ledger, w: Walk, misses: nat, pgid: nat, pids: seq<nat>,
                                            unresolved: bool)
    requires Sound(c, base, w.ledger, misses)
    ensures Sound(c, base, EnlistGroup(c, o, w, pgid, pids, unresolved).0.ledger, misses)
    decreases |pids|
  {
    hide Sound;
    if pids != [] {
      var pid, rest := pids[0], pids[1..];
      var a := o.Look(w.ledger.Tick(), pid);
      var w1 := w.Log(Read(pid, a));
      if a.Err? {
        Missing(c, base, w, misses, Read(pid, a), a.fault);
        EnlistGroupSound(c, o, base, w1.Missed(a.fault), misses, pgid, rest, true);
      } else {
        Seen(c, base, w.ledger, misses, Read(pid, a));
        EnlistGroupSound(c, o, base, w1, misses, pgid, rest, unresolved);
        if a.value.Some? {
          Refusing(c, base, w1.ledger, misses, ProcessLimit);
          EnlistGroupSound(c, o, base, w1.Put(pid, a.value.value), misses, pgid, rest, unresolved);
        }
      }
    }
  }

  lemma RootGroupSound(c: Config, o: Oracle, base: Ledger, w: Walk, misses: nat)
    requires Sound(c, base, w.ledger, misses)
    ensures Sound(c, base, ScanRootGroup(c, o, w).0.ledger, misses)
  {
    hide Sound, EnlistGroup;
    if !c.adopt && c.rootPid in w.processes {
      var root := w.processes[c.rootPid].identity;
      var pids := o.inGroup(w.ledger.Tick(), root.pgid);
      var w1 := w.Log(InGroup(root.pgid, pids));
      if pids.Err? {
        Missing(c, base, w, misses, InGroup(root.pgid, pids), pids.fault);
      } else {
        Seen(c, base, w.ledger, misses, InGroup(root.pgid, pids));
        var a := o.Look(w1.ledger.Tick(), root.pid);
        var w2 := w1.Log(Read(root.pid, a));
        if a.Err? {
          Missing(c, base, w1, misses, Read(root.pid, a), a.fault);
        } else {
          Seen(c, base, w1.ledger, misses, Read(root.pid, a));
          Refusing(c, base, w2.ledger, misses, RootLost);
          EnlistGroupSound(c, o, base, w2, misses, root.pgid, pids.value, false);
        }
      }
    }
  }

  lemma {:induction false} ReapSound(c: Config, o: Oracle, base: Ledger, l: Ledger, misses: nat, processes: map<nat, Record>,
                                     records: seq<Record>)
    requires Sound(c, base, l, misses)
    ensures Sound(c, base, ReapAll(c, o, l, processes, records).0, misses)
    decreases |records|
  {
    hide Sound;
    if records != [] {
      var r, rest := records[0], records[1..];
      if !Reapable(c, r) {
        ReapSound(c, o, base, l, misses, processes, rest);
      } else {
        var ok := o.reap(l.Tick(), r.identity.pid);
        var l1 := l.Log(Reaped(r.identity.pid, ok));
        Noted(c, base, l, misses, Reaped(r.identity.pid, ok), l.uncertain || !ok);
        if ok {
          ReapSound(c, o, base, l1, misses, processes - {r.identity.pid}, rest);
        } else {
          ReapSound(c, o, base, l1.Fail(), misses, processes, rest);
        }
      }
    }
  }

  lemma {:induction false} AddLeadersSound(c: Config, base: Ledger, st: Tracked, misses: nat, records: seq<Record>)
    requires Sound(c, base, st.ledger, misses)
    ensures Sound(c, base, AddLeaders(c, st, records).ledger, misses)
    ensures AddLeaders(c, st, records).incompleteScans == st.incompleteScans
    decreases |records|
  {
    hide Sound;
    if records != [] {
      var id, rest := records[0].identity, records[1..];
      if !id.Leads() || id in st.groups {
        AddLeadersSound(c, base, st, misses, rest);
      } else if |st.groups| >= c.groupLimit {
        Refusing(c, base, st.ledger, misses, GroupLimit);
        AddLeadersSound(c, base, st.(ledger := st.ledger.Refuse(GroupLimit)), misses, rest);
      } else {
        AddLeadersSound(c, base, Enrolled(st, id), misses, rest);
      }
    }
  }

  lemma CountScanSound(c: Config, base: Ledger, st: Tracked, incomplete: bool)
    requires Sound(c, base, st.ledger, st.incompleteScans)
    ensures var r := CountScan(st, incomplete); Sound(c, base, r.ledger, r.incompleteScans)
  {
    var e := Scanned(!incomplete);
    Appended(c, st.ledger.trace, e);
    assert (st.ledger.trace + [e])[..|st.ledger.trace|] == st.ledger.trace;
  }

  ghost predicate SoundState(c: Config, base: Ledger, st: Tracked) {
    Sound(c, base, st.ledger, st.incompleteScans)
  }

  lemma SettleSound(c: Config, o: Oracle, base: Ledger, st: Tracked, incomplete: bool)
    requires o.Lists() && SoundState(c, base, st)
    ensures SoundState(c, base, Settle(c, o, st, incomplete))
  {
    hide Sound;
    ReapSound(c, o, base, st.ledger, st.incompleteScans, st.processes, Snapshot(o, st));
    var (ledger, processes) := ReapAll(c, o, st.ledger, st.processes, Snapshot(o, st));
    var st1 := PruneGroups(st.(ledger := ledger, processes := processes));
    AddLeadersSound(c, base, st1, st1.incompleteScans, Snapshot(o, st1));
    CountScanSound(c, base, PruneMembers(AddLeaders(c, st1, Snapshot(o, st1))), incomplete);
  }

  lemma ScanSound(c: Config, o: Oracle, base: Ledger, st: Tracked)
    requires o.Lists() && SoundState(c, base, st)
    ensures SoundState(c, base, Scan(c, o, st))
  {
    hide Sound;
    var w := WalkStart(c, o, st);
    WalkSound(c, o, base, w, st.incompleteScans);
    RootGroupSound(c, o, base, WalkAll(c, o, w), st.incompleteScans);
    var (found, unresolved) := Found(c, o, st);
    SettleSound(c, o, base, st.(processes := found.processes, ledger := found.ledger, unresolved := unresolved),
                found.incomplete);
  }

  // ---------------------------------------------------------------- signalling

  lemma SendSound(c: Config, o: Oracle, base: Ledger, l: Ledger, misses: nat, expected: Identity, group: bool, signal: nat)
    requires Sound(c, base, l, misses)
    requires signal in {0, SIGINT, SIGTERM, SIGKILL}
    ensures Sound(c, base, SendChecked(c, o, l, expected, group, signal).0, misses)
  {
    hide Sound;
    var a := o.Look(l.Tick(), expected.pid);
    var read := Checked(expected.pid, a);
    Noted(c, base, l, misses, read, l.uncertain || a.Err?);
    if a.Ok? {
      var l1 := l.Log(read);
      Refusing(c, base, l1, misses, BadPid);
      if signal != 0 && 1 <= expected.pid <= MAX_PID {
        var fault := o.kill(l1.Tick(), Target(expected, group), signal);
        var e := Killed(Target(expected, group), signal, expected, fault);
        if Permitted(l1.trace, e) {
          Noted(c, base, l1, misses, e, l1.uncertain || Fails(c, l1.trace, e));
        }
      }
    }
  }

  lemma ClockSound(c: Config, o: Oracle, base: Ledger, l: Ledger, misses: nat, reference: nat)
    requires Sound(c, base, l, misses)
    ensures Sound(c, base, ReadClock(o, l, reference).0, misses)
  {
    Seen(c, base, l, misses, Clock(o.Now(l.Tick(), reference)));
  }

  lemma AdvanceGroupSound(c: Config, o: Oracle, base: Ledger, cl: Cleanup, st: Tracked, now: nat, live: seq<Identity>,
                          group: Identity, covered: set<nat>)
    requires SoundState(c, base, st)
    ensures SoundState(c, base, AdvanceGroup(c, o, cl, st, now, live, group, covered).0)
  {
    hide Sound;
    var misses := st.incompleteScans;
    ClockSound(c, o, base, st.ledger, misses, now);
    var (l1, at) := ReadClock(o, st.ledger, now);
    var (sequence, signal, shortened) := NextSignal(cl, Scheduled(st, group), at, Expired(cl, at));
    var number := if signal.Some? then signal.value else 0;
    SendSound(c, o, base, l1, misses, group, true, number);
    var (l2, sent) := SendChecked(c, o, l1, group, true, number);
    ClockSound(c, o, base, l2, misses, at);
    Refusing(c, base, l2, misses, Shortened);
    Refusing(c, base, ReadClock(o, l2, at).0, misses, Shortened);
  }

  lemma AdvanceMemberSound(c: Config, o: Oracle, base: Ledger, cl: Cleanup, st: Tracked, now: nat, member: Identity)
    requires SoundState(c, base, st)
    ensures SoundState(c, base, AdvanceMember(c, o, cl, st, now, member))
  {
    hide Sound;
    var misses := st.incompleteScans;
    ClockSound(c, o, base, st.ledger, misses, now);
    var (l1, at) := ReadClock(o, st.ledger, now);
    var (sequence, signal, shortened) := NextSignal(cl, Find(st.members, member), at, Expired(cl, at));
    if signal.Some? {
      SendSound(c, o, base, l1, misses, member, false, signal.value);
      var (l2, sent) := SendChecked(c, o, l1, member, false, signal.value);
      ClockSound(c, o, base, l2, misses, at);
      Refusing(c, base, ReadClock(o, l2, at).0, misses, Shortened);
    }
  }

  lemma {:induction false} AdvanceGroupsSound(c: Config, o: Oracle, base: Ledger, cl: Cleanup, st: Tracked, now: nat,
                                              live: seq<Identity>, groups: seq<Identity>, covered: set<nat>)
    requires SoundState(c, base, st)
    ensures SoundState(c, base, AdvanceGroups(c, o, cl, st, now, live, groups, covered).0)
    decreases |groups|
  {
    hide Sound;
    if groups != [] {
      AdvanceGroupSound(c, o, base, cl, st, now, live, groups[0], covered);
      var (st1, covered1) := AdvanceGroup(c, o, cl, st, now, live, groups[0], covered);
      AdvanceGroupsSound(c, o, base, cl, st1, now, live, groups[1..], covered1);
    }
  }

  lemma {:induction false} AdvanceMembersSound(c: Config, o: Oracle, base: Ledger, cl: Cleanup, st: Tracked, now: nat,
                                               live: seq<Identity>, covered: set<nat>)
    requires SoundState(c, base, st)
    ensures SoundState(c, base, AdvanceMembers(c, o, cl, st, now, live, covered))
    decreases |live|
  {
    hide Sound;
    if live != [] {
      AdvanceMemberSound(c, o, base, cl, st, now, live[0]);
      var st1 := if live[0].pid in covered then st else AdvanceMember(c, o, cl, st, now, live[0]);
      AdvanceMembersSound(c, o, base, cl, st1, now, live[1..], covered);
    }
  }

  lemma AdvanceSound(c: Config, o: Oracle, base: Ledger, st: Tracked, now: nat)
    requires o.Lists() && SoundState(c, base, st)
    ensures SoundState(c, base, Advance(c, o, st, now).0)
  {
    hide Sound;
    if st.cleanup.Some? {
      var cl := st.cleanup.value;
      var live := Live(o, st);
      var order := o.leaders(st.ledger.Tick(), st.groups.Keys);
      AdvanceGroupsSound(c, o, base, cl, st, now, live, order, {});
      var (st1, covered) := AdvanceGroups(c, o, cl, st, now, live, order, {});
      AdvanceMembersSound(c, o, base, cl, st1, now, live, covered);
      var st2 := AdvanceMembers(c, o, cl, st1, now, live, covered);
      Refusing(c, base, st2.ledger, st2.incompleteScans, Unfinished);
    }
  }

  lemma {:induction false} KillAllSound(c: Config, o: Oracle, base: Ledger, l: Ledger, misses: nat, live: seq<Identity>)
    requires Sound(c, base, l, misses)
    ensures Sound(c, base, KillAll(c, o, l, live), misses)
    decreases |live|
  {
    hide Sound;
    if live != [] {
      SendSound(c, o, base, l, misses, live[0], false, SIGKILL);
      KillAllSound(c, o, base, SendChecked(c, o, l, live[0], false, SIGKILL).0, misses, live[1..]);
    }
  }

  lemma FinishSound(c: Config, o: Oracle, base: Ledger, st: Tracked)
    requires o.Lists() && SoundState(c, base, st)
    ensures SoundState(c, base, FinishScan(c, o, st).0)
  {
    hide Sound, Scan;
    ScanSound(c, o, base, st);
    var st1 := Scan(c, o, st);
    Refusing(c, base, st1.ledger, st1.incompleteScans, LateLive);
    KillAllSound(c, o, base, st1.ledger.Refuse(LateLive), st1.incompleteScans, Live(o, st1));
  }
}
