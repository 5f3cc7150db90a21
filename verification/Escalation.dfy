/** The order and the spacing of the signals each retained group receives, and the
    bound on a whole cleanup. */
module Escalation {
  import opened Process
  import opened Tracking
  import opened Safety

  // ----------------------------------------------------------- recorded signals

  function Before(h: seq<Mark>, i: nat): Option<Mark>
    requires i <= |h|
  {
    if i == 0 then None else Some(h[i - 1])
  }

  /** The next stage in turn, after the whole grace of the one before it. */
  predicate InTurn(cl: Cleanup, before: Option<Mark>, m: Mark) {
    match before
    case None => m.phase == FirstPhase(cl)
    case Some(p) => m.phase == NextPhase(p.phase) && m.at >= p.returned + Grace(cl, p.phase)
  }

  /** A KILL out of turn: at or past the deadline, and where it cuts a stage short
      certainty is gone. */
  predicate PastDeadline(cl: Cleanup, before: Option<Mark>, m: Mark, uncertain: bool) {
    && m.phase.Killing?
    && m.at >= cl.deadline
    && ((before.Some? && before.value.phase.Killing?) || uncertain)
  }

  ghost predicate Escalates(cl: Cleanup, h: seq<Mark>, uncertain: bool) {
    forall i :: 0 <= i < |h| ==> InTurn(cl, Before(h, i), h[i]) || PastDeadline(cl, Before(h, i), h[i], uncertain)
  }

  /** Every mark stands for a signal call in the log, decided on the clock reading
      before it and timed by the one after it. */
  ghost predicate Witnessed(trace: seq<Event>, g: Identity, m: Mark) {
    && 2 <= m.event < |trace| - 1
    && trace[m.event - 2] == Clock(m.at)
    && trace[m.event].Killed? && trace[m.event].expected == g && trace[m.event].target == 0 - g.pid
    && trace[m.event].signal == SignalOf(m.phase)
    && trace[m.event + 1] == Clock(m.returned)
  }

  predicate Usable(cl: Cleanup, s: Sequence) {
    s.phase.Interrupt? ==> cl.interrupt.Some?
  }

  /** A group's schedule is its last recorded signal. */
  ghost predicate OnSchedule(cl: Cleanup, g: Identity, s: Option<Sequence>, h: seq<Mark>, l: Ledger) {
    && Escalates(cl, h, l.uncertain)
    && (forall i :: 0 <= i < |h| ==> Witnessed(l.trace, g, h[i]))
    && (s.None? <==> h == [])
    && (s.Some? ==>
          var last := h[|h| - 1];
          s.value == Sequence(last.phase, last.returned + Grace(cl, last.phase)) && Usable(cl, s.value))
  }

  ghost predicate Ordered(st: Tracked) {
    && st.groups.Keys == st.history.Keys
    && (st.cleanup.None? ==>
          && st.members == map[]
          && forall g :: g in st.groups ==> st.groups[g] == None && st.history[g] == [])
    && (st.cleanup.Some? ==>
          && (forall g :: g in st.groups ==>
                OnSchedule(st.cleanup.value, g, st.groups[g], st.history[g], st.ledger))
          && (forall m :: m in st.members ==> Usable(st.cleanup.value, st.members[m])))
  }

  lemma Appending(cl: Cleanup, h: seq<Mark>, m: Mark, uncertain: bool, after: bool)
    requires Escalates(cl, h, uncertain) && (uncertain ==> after)
    requires InTurn(cl, Before(h, |h|), m) || PastDeadline(cl, Before(h, |h|), m, after)
    ensures Escalates(cl, h + [m], after)
  {
    var h' := h + [m];
    forall i | 0 <= i < |h'|
      ensures InTurn(cl, Before(h', i), h'[i]) || PastDeadline(cl, Before(h', i), h'[i], after)
    {
      assert Before(h', i) == Before(h, i);
    }
  }

  lemma Grows(cl: Cleanup, g: Identity, s: Option<Sequence>, h: seq<Mark>, l: Ledger, l': Ledger)
    requires OnSchedule(cl, g, s, h, l) && Extends(l, l')
    ensures OnSchedule(cl, g, s, h, l')
  {
    forall i | 0 <= i < |h| ensures Witnessed(l'.trace, g, h[i]) {
      assert Witnessed(l.trace, g, h[i]);
      assert l'.trace[h[i].event - 2] == l.trace[h[i].event - 2];
      assert l'.trace[h[i].event] == l.trace[h[i].event];
      assert l'.trace[h[i].event + 1] == l.trace[h[i].event + 1];
    }
    forall i | 0 <= i < |h|
      ensures InTurn(cl, Before(h, i), h[i]) || PastDeadline(cl, Before(h, i), h[i], l'.uncertain)
    {
    }
  }

  /** A longer log keeps every schedule. */
  lemma Extended(st: Tracked, l: Ledger)
    requires Ordered(st) && Extends(st.ledger, l)
    ensures Ordered(st.(ledger := l))
  {
    if st.cleanup.Some? {
      forall g | g in st.groups
        ensures OnSchedule(st.cleanup.value, g, st.groups[g], st.history[g], l)
      {
        Grows(st.cleanup.value, g, st.groups[g], st.history[g], st.ledger, l);
      }
    }
  }

  // ---------------------------------------------------------------------- scans

  lemma {:induction false} AddLeadersOrdered(c: Config, st: Tracked, records: seq<Record>)
    requires Ordered(st)
    ensures Ordered(AddLeaders(c, st, records))
    decreases |records|
  {
    if records != [] {
      var id, rest := records[0].identity, records[1..];
      if !id.Leads() || id in st.groups {
        AddLeadersOrdered(c, st, rest);
      } else if |st.groups| >= c.groupLimit {
        Extended(st, st.ledger.Refuse(GroupLimit));
        AddLeadersOrdered(c, st.(ledger := st.ledger.Refuse(GroupLimit)), rest);
      } else {
        AddLeadersOrdered(c, Enrolled(st, id), rest);
      }
    }
  }

  lemma SettleOrdered(c: Config, o: Oracle, st: Tracked, incomplete: bool)
    requires o.Lists() && Ordered(st) && SoundState(c, st.ledger, st)
    ensures Ordered(Settle(c, o, st, incomplete))
  {
    hide Sound, Ordered, ReapAll, AddLeaders, PruneGroups, PruneMembers;
    var (ledger, processes) := ReapAll(c, o, st.ledger, st.processes, Snapshot(o, st));
    ReapSound(c, o, st.ledger, st.ledger, st.incompleteScans, st.processes, Snapshot(o, st));
    Grown(c, st.ledger, ledger, st.incompleteScans);
    Extended(st, ledger);
    PrunedOrdered(st.(ledger := ledger), processes);
    var st1 := PruneGroups(st.(ledger := ledger, processes := processes));
    AddLeadersOrdered(c, st1, Snapshot(o, st1));
    CountedOrdered(AddLeaders(c, st1, Snapshot(o, st1)), incomplete);
  }

  lemma PrunedOrdered(st: Tracked, processes: map<nat, Record>)
    requires Ordered(st)
    ensures Ordered(PruneGroups(st.(processes := processes)))
  {
    hide OnSchedule, Usable, Retained;
  }

  lemma CountedOrdered(st: Tracked, incomplete: bool)
    requires Ordered(st)
    ensures Ordered(CountScan(PruneMembers(st), incomplete))
  {
    hide OnSchedule, Usable, LiveMember;
    Extended(st, CountScan(PruneMembers(st), incomplete).ledger);
  }

  lemma Grown(c: Config, base: Ledger, l: Ledger, misses: nat)
    requires Sound(c, base, l, misses)
    ensures Extends(base, l)
  {
  }

  lemma ScanOrdered(c: Config, o: Oracle, st: Tracked)
    requires o.Lists() && Ordered(st) && SoundState(c, st.ledger, st)
    ensures Ordered(Scan(c, o, st))
  {
    hide Sound, Ordered;
    var w := WalkStart(c, o, st);
    WalkSound(c, o, st.ledger, w, st.incompleteScans);
    RootGroupSound(c, o, st.ledger, WalkAll(c, o, w), st.incompleteScans);
    var (found, unresolved) := Found(c, o, st);
    Grown(c, st.ledger, found.ledger, st.incompleteScans);
    Rebased(c, st.ledger, found.ledger, st.incompleteScans);
    Extended(st, found.ledger);
    Irrelevant(st.(ledger := found.ledger), found.processes, unresolved);
    SettleOrdered(c, o, st.(processes := found.processes, ledger := found.ledger, unresolved := unresolved),
                  found.incomplete);
  }

  lemma Rebased(c: Config, base: Ledger, l: Ledger, misses: nat)
    requires Sound(c, base, l, misses)
    ensures Sound(c, l, l, misses)
  {
  }

  lemma Irrelevant(st: Tracked, processes: map<nat, Record>, unresolved: bool)
    requires Ordered(st)
    ensures Ordered(st.(processes := processes, unresolved := unresolved))
  {
  }

  // ------------------------------------------------------------------- advances

  /** What a checked group signal that went through leaves in the log. */
  lemma SendLogged(c: Config, o: Oracle, l: Ledger, g: Identity, signal: nat)
    requires signal != 0
    ensures var (l', sent) := SendChecked(c, o, l, g, true, signal);
            sent ==> |l'.trace| == |l.trace| + 2 && l'.trace[..|l.trace|] == l.trace
                     && l'.trace[|l.trace| + 1].Killed? && l'.trace[|l.trace| + 1].expected == g
                     && l'.trace[|l.trace| + 1].target == 0 - g.pid && l'.trace[|l.trace| + 1].signal == signal
  {
  }

  /** The next signal is either the next stage in turn or a KILL past the deadline. */
  lemma NextInTurn(cl: Cleanup, g: Identity, s: Option<Sequence>, h: seq<Mark>, l: Ledger, at: nat, returned: nat,
                   event: nat)
    requires OnSchedule(cl, g, s, h, l)
    ensures var (next, signal, shortened) := NextSignal(cl, s, at, Expired(cl, at));
            && (signal.Some? ==>
                  var m := Mark(next.phase, at, returned, event);
                  && (InTurn(cl, Before(h, |h|), m) || PastDeadline(cl, Before(h, |h|), m, shortened))
                  && signal.value == SignalOf(next.phase) && signal.value != 0
                  && Usable(cl, next))
            && (signal.None? ==> s == Some(next) && !shortened)
  {
  }

  /** A signal that went through moves the group to the next stage. */
  lemma SentOrdered(c: Config, o: Oracle, st: Tracked, l1: Ledger, at: nat, g: Identity, mine: seq<Identity>)
    requires st.cleanup.Some? && Ordered(st) && g in st.groups
    requires Sound(c, st.ledger, l1, st.incompleteScans) && l1.trace != [] && l1.trace[|l1.trace| - 1] == Clock(at)
    requires NextSignal(st.cleanup.value, st.groups[g], at, Expired(st.cleanup.value, at)).1.Some?
    ensures var (next, signal, shortened) := NextSignal(st.cleanup.value, st.groups[g], at, Expired(st.cleanup.value, at));
            var (l2, sent) := SendChecked(c, o, l1, g, true, signal.value);
            var (st', s) := RecordGroup(o, st.cleanup.value, st.(ledger := l2), g, next.phase, at, |l1.trace| + 1);
            sent ==> Ordered(Adjust(st', g, s, shortened, mine))
  {
    hide Sound, Escalates, SendChecked, OnSchedule;
    var cl, misses, h := st.cleanup.value, st.incompleteScans, st.history[g];
    var (next, signal, shortened) := NextSignal(cl, st.groups[g], at, Expired(cl, at));
    var (l2, sent) := SendChecked(c, o, l1, g, true, signal.value);
    var (l3, returned) := ReadClock(o, l2, at);
    var m := Mark(next.phase, at, returned, |l1.trace| + 1);
    NextInTurn(cl, g, st.groups[g], h, st.ledger, at, returned, m.event);
    if sent {
      SendLogged(c, o, l1, g, signal.value);
      SendSound(c, o, st.ledger, l1, misses, g, true, signal.value);
      ClockSound(c, o, st.ledger, l2, misses, at);
      Grown(c, st.ledger, l3, misses);
      var l4 := if shortened then l3.Refuse(Shortened) else l3;
      Extended(st, l4);
      assert l3.trace[m.event - 2] == l1.trace[|l1.trace| - 1];
      Recorded(cl, g, st.groups[g], h, st.ledger, l4, m, l3.trace, shortened);
      Adjusted(st.(ledger := l4), g, Sequence(next.phase, returned + Grace(cl, next.phase)), h + [m], mine);
    }
  }

  /** Between stages, or when the leader is not found as recorded, nothing moves. */
  lemma UnsentOrdered(c: Config, o: Oracle, st: Tracked, l2: Ledger, at: nat, g: Identity, mine: seq<Identity>)
    requires st.cleanup.Some? && Ordered(st) && g in st.groups && Extends(st.ledger, l2)
    ensures Ordered(st.(ledger := l2))
    ensures var (next, signal, shortened) := NextSignal(st.cleanup.value, st.groups[g], at, Expired(st.cleanup.value, at));
            signal.None? ==> Ordered(Adjust(st.(ledger := l2), g, next, shortened, mine))
  {
    hide Escalates, OnSchedule;
    var cl := st.cleanup.value;
    Extended(st, l2);
    var (next, signal, shortened) := NextSignal(cl, st.groups[g], at, Expired(cl, at));
    NextInTurn(cl, g, st.groups[g], st.history[g], st.ledger, at, 0, 0);
    if signal.None? {
      Stays(cl, g, st.groups[g], st.history[g], l2);
      Adjusted(st.(ledger := l2), g, next, st.history[g], mine);
      assert st.history[g := st.history[g]] == st.history;
    }
  }

  lemma AdvanceGroupOrdered(c: Config, o: Oracle, st: Tracked, now: nat, live: seq<Identity>, g: Identity,
                            covered: set<nat>)
    requires st.cleanup.Some? && Ordered(st) && SoundState(c, st.ledger, st) && g in st.groups
    ensures var r := AdvanceGroup(c, o, st.cleanup.value, st, now, live, g, covered).0;
            Ordered(r) && r.groups.Keys == st.groups.Keys && r.cleanup == st.cleanup
  {
    hide Sound, Ordered, SendChecked, NextSignal, InGroupOf, Expired, Pids, Adjust, RecordGroup, ReadClock;
    var cl, misses := st.cleanup.value, st.incompleteScans;
    ClockSound(c, o, st.ledger, st.ledger, misses, now);
    var (l1, at) := ReadClock(o, st.ledger, now);
    var mine := InGroupOf(live, g.pgid);
    var (next, signal, shortened) := NextSignal(cl, st.groups[g], at, Expired(cl, at));
    var number := if signal.Some? then signal.value else 0;
    SignalKnown(cl, st.groups[g], at, Expired(cl, at));
    SendSound(c, o, st.ledger, l1, misses, g, true, number);
    Grown(c, st.ledger, SendChecked(c, o, l1, g, true, number).0, misses);
    ClockRead(o, st.ledger, now);
    if signal.Some? {
      SentOrdered(c, o, st, l1, at, g, mine);
    }
    var (l2, sent) := SendChecked(c, o, l1, g, true, number);
    UnsentOrdered(c, o, st, l2, at, g, mine);
    GroupKeepsKeys(c, o, cl, st, now, live, g, covered);
  }

  lemma GroupKeepsKeys(c: Config, o: Oracle, cl: Cleanup, st: Tracked, now: nat, live: seq<Identity>, g: Identity,
                       covered: set<nat>)
    requires g in st.groups
    ensures var r := AdvanceGroup(c, o, cl, st, now, live, g, covered).0;
            r.groups.Keys == st.groups.Keys && r.cleanup == st.cleanup
  {
    hide SendChecked, NextSignal, InGroupOf, Expired, Pids, Adjust, RecordGroup, ReadClock;
    var (l1, at) := ReadClock(o, st.ledger, now);
    var mine := InGroupOf(live, g.pgid);
    var (next, signal, shortened) := NextSignal(cl, Scheduled(st, g), at, Expired(cl, at));
    var l2 := SendChecked(c, o, l1, g, true, if signal.Some? then signal.value else 0).0;
    var st2 := st.(ledger := l2);
    var (st3, later) := RecordGroup(o, cl, st2, g, next.phase, at, |l1.trace| + 1);
    RecordKeepsKeys(o, cl, st2, g, next.phase, at, |l1.trace| + 1);
    AdjustKeepsKeys(st3, g, later, shortened, mine);
    AdjustKeepsKeys(st2, g, next, shortened, mine);
  }

  lemma ClockRead(o: Oracle, l: Ledger, reference: nat)
    ensures var (l1, at) := ReadClock(o, l, reference); l1.trace != [] && l1.trace[|l1.trace| - 1] == Clock(at)
  {
  }

  lemma RecordKeepsKeys(o: Oracle, cl: Cleanup, st: Tracked, g: Identity, phase: Phase, at: nat, event: nat)
    ensures var r := RecordGroup(o, cl, st, g, phase, at, event).0; r.groups == st.groups && r.cleanup == st.cleanup
  {
  }

  lemma AdjustKeepsKeys(st: Tracked, g: Identity, s: Sequence, shortened: bool, mine: seq<Identity>)
    requires g in st.groups
    ensures var r := Adjust(st, g, s, shortened, mine); r.groups.Keys == st.groups.Keys && r.cleanup == st.cleanup
  {
    hide Cover;
  }

  lemma SignalKnown(cl: Cleanup, s: Option<Sequence>, at: nat, force: bool)
    ensures var signal := NextSignal(cl, s, at, force).1; signal.Some? ==> signal.value in {SIGINT, SIGTERM, SIGKILL}
  {
  }

  lemma Stays(cl: Cleanup, g: Identity, s: Option<Sequence>, h: seq<Mark>, l: Ledger)
    requires OnSchedule(cl, g, s, h, l)
    ensures s.Some? ==> Usable(cl, s.value)
  {
  }

  /** A new mark joins the history with the evidence the log holds for it. */
  lemma Recorded(cl: Cleanup, g: Identity, s: Option<Sequence>, h: seq<Mark>, l: Ledger, l4: Ledger, m: Mark,
                 trace: seq<Event>, shortened: bool)
    requires OnSchedule(cl, g, s, h, l) && Extends(l, l4)
    requires InTurn(cl, Before(h, |h|), m) || PastDeadline(cl, Before(h, |h|), m, shortened)
    requires shortened ==> l4.uncertain
    requires trace <= l4.trace && Witnessed(trace, g, m)
    requires Usable(cl, Sequence(m.phase, 0))
    ensures OnSchedule(cl, g, Some(Sequence(m.phase, m.returned + Grace(cl, m.phase))), h + [m], l4)
  {
    Grows(cl, g, s, h, l, l4);
    Appending(cl, h, m, l.uncertain, l4.uncertain);
    assert Witnessed(l4.trace, g, m);
  }

  lemma Adjusted(st: Tracked, g: Identity, s: Sequence, h: seq<Mark>, mine: seq<Identity>)
    requires Ordered(st) && st.cleanup.Some? && g in st.groups
    requires OnSchedule(st.cleanup.value, g, Some(s), h, st.ledger) && Usable(st.cleanup.value, s)
    ensures Ordered(st.(groups := st.groups[g := Some(s)], history := st.history[g := h],
                        members := Cover(st.members, mine, s)))
  {
    hide OnSchedule, Cover, Usable;
    CoverUsable(st.cleanup.value, st.members, mine, s);
  }

  lemma {:induction false} CoverUsable(cl: Cleanup, members: map<Identity, Sequence>, mine: seq<Identity>, s: Sequence)
    requires (forall m :: m in members ==> Usable(cl, members[m])) && Usable(cl, s)
    ensures forall m :: m in Cover(members, mine, s) ==> Usable(cl, Cover(members, mine, s)[m])
    decreases |mine|
  {
    if mine != [] {
      CoverUsable(cl, members[mine[0] := s], mine[1..], s);
    }
  }

  lemma {:induction false} AdvanceGroupsOrdered(c: Config, o: Oracle, st: Tracked, now: nat, live: seq<Identity>,
                                                groups: seq<Identity>, covered: set<nat>)
    requires st.cleanup.Some? && Ordered(st) && SoundState(c, st.ledger, st)
    requires forall g :: g in groups ==> g in st.groups
    ensures var r := AdvanceGroups(c, o, st.cleanup.value, st, now, live, groups, covered).0;
            Ordered(r) && r.groups.Keys == st.groups.Keys && r.cleanup == st.cleanup && SoundState(c, st.ledger, r)
    decreases |groups|
  {
    hide Sound, Ordered, AdvanceGroup;
    if groups != [] {
      var cl := st.cleanup.value;
      AdvanceGroupOrdered(c, o, st, now, live, groups[0], covered);
      AdvanceGroupSound(c, o, st.ledger, cl, st, now, live, groups[0], covered);
      var (st1, covered1) := AdvanceGroup(c, o, cl, st, now, live, groups[0], covered);
      Rebased(c, st.ledger, st1.ledger, st1.incompleteScans);
      AdvanceGroupsOrdered(c, o, st1, now, live, groups[1..], covered1);
      AdvanceGroupsSound(c, o, st.ledger, cl, st1, now, live, groups[1..], covered1);
    }
  }

  lemma AdvanceMemberOrdered(c: Config, o: Oracle, st: Tracked, now: nat, member: Identity)
    requires st.cleanup.Some? && Ordered(st) && SoundState(c, st.ledger, st)
    ensures var r := AdvanceMember(c, o, st.cleanup.value, st, now, member);
            Ordered(r) && r.groups == st.groups && r.cleanup == st.cleanup
  {
    hide Sound, Ordered, AdvanceMember, Usable;
    var cl := st.cleanup.value;
    var r := AdvanceMember(c, o, cl, st, now, member);
    OrderedUsable(st);
    MemberUsable(c, o, cl, st, now, member);
    AdvanceMemberSound(c, o, st.ledger, cl, st, now, member);
    Grown(c, st.ledger, r.ledger, st.incompleteScans);
    Extended(st, r.ledger);
    Rescheduled(st.(ledger := r.ledger), r.members);
  }

  lemma OrderedUsable(st: Tracked)
    requires Ordered(st) && st.cleanup.Some?
    ensures forall m :: m in st.members ==> Usable(st.cleanup.value, st.members[m])
  {
  }

  /** A process that has its turn comes to a usable stage; nothing else but the log is
      touched. */
  lemma MemberUsable(c: Config, o: Oracle, cl: Cleanup, st: Tracked, now: nat, member: Identity)
    requires forall m :: m in st.members ==> Usable(cl, st.members[m])
    ensures var r := AdvanceMember(c, o, cl, st, now, member);
            && r == st.(members := r.members, ledger := r.ledger)
            && forall m :: m in r.members ==> Usable(cl, r.members[m])
  {
    hide SendChecked, NextSignal, ReadClock, Expired, Usable, RecordMember;
    var (l1, at) := ReadClock(o, st.ledger, now);
    var (next, signal, shortened) := NextSignal(cl, Find(st.members, member), at, Expired(cl, at));
    NextUsable(cl, Find(st.members, member), at, Expired(cl, at));
    if signal.Some? {
      var l2 := SendChecked(c, o, l1, member, false, signal.value).0;
      RecordUsable(o, cl, st.(ledger := l2), member, next.phase, at, shortened);
    }
  }

  lemma RecordUsable(o: Oracle, cl: Cleanup, st: Tracked, member: Identity, phase: Phase, at: nat, shortened: bool)
    requires forall m :: m in st.members ==> Usable(cl, st.members[m])
    requires forall next :: Usable(cl, Sequence(phase, next))
    ensures var r := RecordMember(o, cl, st, member, phase, at, shortened);
            && r == st.(members := r.members, ledger := r.ledger)
            && forall m :: m in r.members ==> Usable(cl, r.members[m])
  {
    hide ReadClock, Grace, Usable;
  }

  lemma NextUsable(cl: Cleanup, before: Option<Sequence>, at: nat, force: bool)
    requires before.Some? ==> Usable(cl, before.value)
    ensures forall next :: Usable(cl, Sequence(NextSignal(cl, before, at, force).0.phase, next))
  {
  }

  lemma Rescheduled(st: Tracked, members: map<Identity, Sequence>)
    requires Ordered(st) && st.cleanup.Some?
    requires forall m :: m in members ==> Usable(st.cleanup.value, members[m])
    ensures Ordered(st.(members := members))
  {
    hide OnSchedule, Usable;
  }

  lemma {:induction false} AdvanceMembersOrdered(c: Config, o: Oracle, st: Tracked, now: nat, live: seq<Identity>,
                                                 covered: set<nat>)
    requires st.cleanup.Some? && Ordered(st) && SoundState(c, st.ledger, st)
    ensures var r := AdvanceMembers(c, o, st.cleanup.value, st, now, live, covered);
            Ordered(r) && r.groups == st.groups && r.cleanup == st.cleanup
    decreases |live|
  {
    hide Sound, Ordered, AdvanceMember;
    if live != [] {
      var cl := st.cleanup.value;
      AdvanceMemberOrdered(c, o, st, now, live[0]);
      AdvanceMemberSound(c, o, st.ledger, cl, st, now, live[0]);
      var st1 := if live[0].pid in covered then st else AdvanceMember(c, o, cl, st, now, live[0]);
      Rebased(c, st.ledger, st1.ledger, st1.incompleteScans);
      AdvanceMembersOrdered(c, o, st1, now, live[1..], covered);
    }
  }

  predicate SamePlan(a: Cleanup, b: Cleanup) {
    a.interrupt == b.interrupt && a.term == b.term && a.deadline == b.deadline
  }

  /** Counting empty scans changes no schedule. */
  lemma Recounted(st: Tracked, cl: Cleanup)
    requires Ordered(st) && st.cleanup.Some? && SamePlan(st.cleanup.value, cl)
    ensures Ordered(st.(cleanup := Some(cl)))
  {
    forall g | g in st.groups
      ensures OnSchedule(cl, g, st.groups[g], st.history[g], st.ledger)
    {
      var h := st.history[g];
      assert OnSchedule(st.cleanup.value, g, st.groups[g], h, st.ledger);
      forall i | 0 <= i < |h|
        ensures InTurn(cl, Before(h, i), h[i]) || PastDeadline(cl, Before(h, i), h[i], st.ledger.uncertain)
      {
        assert InTurn(st.cleanup.value, Before(h, i), h[i])
               || PastDeadline(st.cleanup.value, Before(h, i), h[i], st.ledger.uncertain);
      }
    }
  }

  lemma AdvanceOrdered(c: Config, o: Oracle, st: Tracked, now: nat)
    requires o.Lists() && Ordered(st) && SoundState(c, st.ledger, st)
    ensures var r := Advance(c, o, st, now).0;
            Ordered(r) && (st.cleanup.Some? ==> r.cleanup.Some? && SamePlan(st.cleanup.value, r.cleanup.value))
  {
    hide Sound, Ordered, AdvanceGroups, AdvanceMembers;
    if st.cleanup.Some? {
      var cl := st.cleanup.value;
      var live := Live(o, st);
      var order := o.leaders(st.ledger.Tick(), st.groups.Keys);
      AdvanceGroupsOrdered(c, o, st, now, live, order, {});
      var (st1, covered) := AdvanceGroups(c, o, cl, st, now, live, order, {});
      Rebased(c, st.ledger, st1.ledger, st1.incompleteScans);
      AdvanceMembersOrdered(c, o, st1, now, live, covered);
      var st2 := AdvanceMembers(c, o, cl, st1, now, live, covered);
      var st3 := Conclude(cl, st2, now, live == []).0;
      Extended(st2, st3.ledger);
      Recounted(st2.(ledger := st3.ledger), st3.cleanup.value);
    }
  }

  lemma FinishOrdered(c: Config, o: Oracle, st: Tracked)
    requires o.Lists() && Ordered(st) && SoundState(c, st.ledger, st)
    ensures Ordered(FinishScan(c, o, st).0)
  {
    hide Sound, Ordered, Scan;
    ScanOrdered(c, o, st);
    ScanSound(c, o, st.ledger, st);
    var st1 := Scan(c, o, st);
    Rebased(c, st.ledger, st1.ledger, st1.incompleteScans);
    Refusing(c, st1.ledger, st1.ledger, st1.incompleteScans, LateLive);
    KillAllSound(c, o, st1.ledger, st1.ledger.Refuse(LateLive), st1.incompleteScans, Live(o, st1));
    var l := KillAll(c, o, st1.ledger.Refuse(LateLive), Live(o, st1));
    Grown(c, st1.ledger, l, st1.incompleteScans);
    Extended(st1, l);
  }

  // ----------------------------------------------------------------- whole runs

  lemma BeginOrdered(st: Tracked, now: nat, interrupt: Option<nat>, term: nat)
    requires Ordered(st)
    ensures Ordered(BeginCleanup(st, now, interrupt, term))
  {
  }

  // ------------------------------------------------------------ what it implies

  function Rank(phase: Phase): nat {
    match phase
    case Interrupt => 0
    case Terminate => 1
    case Killing => 2
  }

  /** Recorded stages never go back. */
  lemma {:induction false} NeverBackward(cl: Cleanup, h: seq<Mark>, uncertain: bool, i: nat, j: nat)
    requires Escalates(cl, h, uncertain) && i <= j < |h|
    ensures Rank(h[i].phase) <= Rank(h[j].phase)
    decreases j
  {
    if i < j {
      NeverBackward(cl, h, uncertain, i, j - 1);
      assert InTurn(cl, Before(h, j), h[j]) || PastDeadline(cl, Before(h, j), h[j], uncertain);
    }
  }

  /** While certainty lasts, a KILL has a TERM behind it and the whole TERM grace
      between them, and a TERM likewise an INT where one is configured. */
  lemma {:induction false} CertainKillWaited(cl: Cleanup, h: seq<Mark>, k: nat)
    requires Escalates(cl, h, false) && k < |h| && !h[k].phase.Interrupt?
    ensures h[k].phase.Killing? ==>
              exists t :: 0 <= t < k && h[t].phase.Terminate? && h[t + 1].at >= h[t].returned + cl.term
                          && h[t + 1].phase.Killing?
    ensures cl.interrupt.Some? ==>
              exists t :: 0 <= t < k && h[t].phase.Interrupt? && h[t + 1].at >= h[t].returned + cl.interrupt.value
                          && h[t + 1].phase.Terminate?
    decreases k
  {
    assert InTurn(cl, Before(h, k), h[k]) || PastDeadline(cl, Before(h, k), h[k], false);
    if k == 0 {
    } else if h[k - 1].phase.Interrupt? {
      var t := k - 1;
      assert h[t].phase.Interrupt? && h[t + 1].phase.Terminate?;
      InterruptConfigured(cl, h, t);
    } else {
      CertainKillWaited(cl, h, k - 1);
      if h[k - 1].phase.Terminate? {
        var t := k - 1;
        assert h[t].phase.Terminate? && h[t + 1].at >= h[t].returned + cl.term;
      }
    }
  }

  lemma InterruptConfigured(cl: Cleanup, h: seq<Mark>, t: nat)
    requires Escalates(cl, h, false) && t < |h| && h[t].phase.Interrupt?
    ensures cl.interrupt.Some?
  {
    assert InTurn(cl, Before(h, t), h[t]) || PastDeadline(cl, Before(h, t), h[t], false);
  }
}
