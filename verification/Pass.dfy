/** One pass of a cleanup, told from its own events: whom it looks at, whom it leaves alone,
    whom it kills once time is up, and what it costs. */
module Passes {
  import opened Process
  import opened Tracking
  import Bound
  import Coverage
  import Verdicts

  /** The signal counts as sent. A process group that macOS refuses as a whole does not. */
  predicate Through(c: Config, e: Event)
    requires e.Killed?
  {
    e.fault.None? || !(c.macos && e.target < 0 && e.fault.value.Denied?)
  }

  /** A check that lets a signal through: the recorded leader itself, or the same process,
      alive. */
  predicate Ready(a: Answer<Option<Record>>, id: Identity, group: bool) {
    && a.Ok? && a.value.Some?
    && if group then a.value.value.identity == id && id.Leads()
       else a.value.value.identity.SameProcess(id) && !a.value.value.exited
  }

  predicate InRange(pid: nat) {
    1 <= pid <= MAX_PID
  }

  /** What one checked signal leaves on the log. */
  ghost predicate SendEvents(c: Config, seg: seq<Event>, expected: Identity, group: bool, signal: nat, sent: bool) {
    && |seg| > 0 && seg[0].Checked? && seg[0].pid == expected.pid
    && match |seg|
       case 1 => sent == Ready(seg[0].record, expected, group) && (sent ==> signal == 0)
       case 2 =>
         && Ready(seg[0].record, expected, group) && signal > 0
         && if InRange(expected.pid) then OwnKill(seg[1], expected, group) && seg[1].signal == signal && sent == Through(c, seg[1])
            else seg[1] == Refused(BadPid) && !sent
       case _ => false
  }

  lemma SendTurn(c: Config, o: Oracle, l: Ledger, expected: Identity, group: bool, signal: nat)
    ensures var (r, sent) := SendChecked(c, o, l, expected, group, signal);
            l.trace <= r.trace && SendEvents(c, r.trace[|l.trace|..], expected, group, signal, sent)
  {
    var a := o.Look(l.Tick(), expected.pid);
    var l1 := l.Log(Checked(expected.pid, a));
    var (r, sent) := SendChecked(c, o, l, expected, group, signal);
    assert r.trace[|l.trace|..] == [Checked(expected.pid, a)] + r.trace[|l1.trace|..];
  }

  /** A target whose stage was not the last yet. */
  predicate Climbing(s: Option<Sequence>) {
    s.None? || !s.value.phase.Killing?
  }

  /** What a target with this stage is due: KILL from the deadline on, and before it, once
      its grace is over, the next of the stages. */
  function DueSignal(cl: Cleanup, s: Option<Sequence>, at: nat): Option<nat> {
    if at >= cl.deadline then Some(SIGKILL)
    else if s.None? then Some(if cl.interrupt.Some? then SIGINT else SIGTERM)
    else if at < s.value.next then None
    else Some(if s.value.phase.Interrupt? then SIGTERM else SIGKILL)
  }

  lemma NextTurn(cl: Cleanup, s: Option<Sequence>, at: nat)
    ensures var (next, signal, shortened) := NextSignal(cl, s, at, Expired(cl, at));
            && signal == DueSignal(cl, s, at) && (signal.Some? ==> signal.value > 0)
            && (shortened <==> at >= cl.deadline && Climbing(s)) && (shortened ==> signal.Some?)
            && (signal.Some? ==> next.phase == PhaseOf(signal.value) && Grace(cl, next.phase) == GraceAfter(cl, signal.value))
  {
  }

  /** The stage a signal belongs to, and how long it lasts. */
  function PhaseOf(signal: nat): Phase {
    if signal == SIGINT then Interrupt else if signal == SIGTERM then Terminate else Killing
  }

  function GraceAfter(cl: Cleanup, signal: nat): nat {
    if signal == SIGINT then if cl.interrupt.Some? then cl.interrupt.value else 0
    else if signal == SIGTERM then cl.term
    else 50
  }

  /** What the turn of one target leaves on the log: the clock, a check, and if a signal is
      due and the target is there, the signal and the clock again; a stage cut short is
      noted last. */
  ghost predicate TurnEvents(c: Config, cl: Cleanup, now: nat, seg: seq<Event>, target: Identity, group: bool,
                             s: Option<Sequence>, sent: bool)
  {
    && |seg| >= 2 && seg[0].Clock? && seg[0].at >= now && seg[1].Checked? && seg[1].pid == target.pid
    && (forall k :: 2 <= k < |seg| ==>
          || seg[k].Clock?
          || (k == 2 && seg[k] == Refused(BadPid))
          || (k == 2 && OwnKill(seg[k], target, group) && sent == Through(c, seg[k])
              && Some(seg[k].signal) == DueSignal(cl, s, seg[0].at))
          || (k == 4 && seg[k] == Refused(Shortened) && OwnKill(seg[2], target, group)
              && seg[0].at >= cl.deadline && Climbing(s)))
    && (sent ==> Ready(seg[1].record, target, group))
    && (Ready(seg[1].record, target, group) && DueSignal(cl, s, seg[0].at).Some? && InRange(target.pid) ==>
          |seg| > 2 && OwnKill(seg[2], target, group))
  }

  predicate OwnKill(e: Event, target: Identity, group: bool) {
    && e.Killed? && e.expected == target && target.pid > 0
    && e.target == if group then 0 - target.pid else target.pid
  }

  /** The group has a live process, or is the root's, not wholly known. */
  predicate Touched(c: Config, unresolved: bool, live: seq<Identity>, g: Identity) {
    (unresolved && g.pid == c.rootPid) || exists i :: 0 <= i < |live| && live[i].pgid == g.pgid
  }

  lemma {:induction false} InGroupExactly(live: seq<Identity>, pgid: nat)
    ensures forall id :: id in InGroupOf(live, pgid) <==> id in live && id.pgid == pgid
    decreases |live|
  {
    if live != [] {
      InGroupExactly(live[1..], pgid);
    }
  }

  lemma TouchedExactly(c: Config, unresolved: bool, live: seq<Identity>, g: Identity)
    ensures Touched(c, unresolved, live, g) <==> (unresolved && g.pid == c.rootPid) || InGroupOf(live, g.pgid) != []
    ensures forall i :: 0 <= i < |live| ==> (live[i].pgid == g.pgid ==> live[i].pid in Pids(InGroupOf(live, g.pgid)))
  {
    var mine := InGroupOf(live, g.pgid);
    InGroupExactly(live, g.pgid);
    forall i | 0 <= i < |live| && live[i].pgid == g.pgid ensures live[i].pid in Pids(mine) {
      assert live[i] in mine;
      var j :| 0 <= j < |mine| && mine[j] == live[i];
    }
    if mine != [] {
      assert mine[0] in live;
    }
  }

  /** The events after the check and the signal. */
  ghost function Tail(o: Oracle, l: Ledger, at: nat, due: bool, sent: bool, shortened: bool): seq<Event> {
    (if sent && due then [Clock(o.Now(l.Tick(), at))] else []) + if sent && shortened then [Refused(Shortened)] else []
  }

  lemma GroupLogs(c: Config, o: Oracle, cl: Cleanup, st: Tracked, now: nat, live: seq<Identity>, g: Identity,
                  covered: set<nat>)
    requires (st.unresolved && g.pid == c.rootPid) || InGroupOf(live, g.pgid) != []
    ensures var (r, covered') := AdvanceGroup(c, o, cl, st, now, live, g, covered);
            var (l1, at) := ReadClock(o, st.ledger, now);
            var (next, signal, shortened) := NextSignal(cl, Scheduled(st, g), at, Expired(cl, at));
            var (l2, sent) := SendChecked(c, o, l1, g, true, if signal.Some? then signal.value else 0);
            && r.ledger.trace == l2.trace + Tail(o, l2, at, signal.Some?, sent, shortened)
            && covered' == covered + if sent then Pids(InGroupOf(live, g.pgid)) else {}
  {
    hide SendChecked, NextSignal, InGroupOf, Pids, Expired, Scheduled, Cover, Marks, Grace;
  }

  lemma GroupTurn(c: Config, o: Oracle, cl: Cleanup, st: Tracked, now: nat, live: seq<Identity>, g: Identity,
                  covered: set<nat>) returns (sent: bool)
    ensures var (r, covered') := AdvanceGroup(c, o, cl, st, now, live, g, covered);
            && st.ledger.trace <= r.ledger.trace
            && var seg := r.ledger.trace[|st.ledger.trace|..];
            if Touched(c, st.unresolved, live, g) then
              && TurnEvents(c, cl, now, seg, g, true, Scheduled(st, g), sent)
              && covered' == covered + if sent then Pids(InGroupOf(live, g.pgid)) else {}
            else r == st && covered' == covered
  {
    hide SendChecked, NextSignal, InGroupOf, Pids, Expired, Scheduled, Touched, TurnEvents, SendEvents;
    TouchedExactly(c, st.unresolved, live, g);
    sent := false;
    if Touched(c, st.unresolved, live, g) {
      hide AdvanceGroup;
      var trace, s := st.ledger.trace, Scheduled(st, g);
      var (l1, at) := ReadClock(o, st.ledger, now);
      var (next, signal, shortened) := NextSignal(cl, s, at, Expired(cl, at));
      var number := if signal.Some? then signal.value else 0;
      NextTurn(cl, s, at);
      SendTurn(c, o, l1, g, true, number);
      var (l2, done) := SendChecked(c, o, l1, g, true, number);
      sent := done;
      GroupLogs(c, o, cl, st, now, live, g, covered);
      var r := AdvanceGroup(c, o, cl, st, now, live, g, covered).0;
      var tail := Tail(o, l2, at, signal.Some?, sent, shortened);
      TurnPuts(c, cl, now, trace, at, l2.trace, g, true, s, number, sent, tail);
      Sliced(trace, Clock(at), l2.trace, tail);
    }
  }

  lemma Sliced(trace: seq<Event>, e: Event, longer: seq<Event>, tail: seq<Event>)
    requires trace + [e] <= longer
    ensures (longer + tail)[|trace|..] == [e] + longer[|trace| + 1..] + tail
  {
    assert longer[|trace|] == (trace + [e])[|trace|];
  }

  lemma TurnPuts(c: Config, cl: Cleanup, now: nat, trace: seq<Event>, at: nat, sentTrace: seq<Event>, target: Identity,
                 group: bool, s: Option<Sequence>, number: nat, sent: bool, tail: seq<Event>)
    requires trace + [Clock(at)] <= sentTrace && at >= now
    requires SendEvents(c, sentTrace[|trace| + 1..], target, group, number, sent)
    requires number == (var due := DueSignal(cl, s, at); if due.Some? then due.value else 0)
    requires DueSignal(cl, s, at).Some? ==> number > 0
    requires |tail| > 0 ==> sent && number > 0 && tail[0].Clock?
    requires |tail| > 1 ==> |tail| == 2 && tail[1] == Refused(Shortened) && at >= cl.deadline && Climbing(s)
    ensures TurnEvents(c, cl, now, [Clock(at)] + sentTrace[|trace| + 1..] + tail, target, group, s, sent)
  {
    var middle := sentTrace[|trace| + 1..];
    var seg := [Clock(at)] + middle + tail;
    assert seg[1] == middle[0];
    if |middle| == 2 {
      assert seg[2] == middle[1];
      assert seg[2] in seg;
    }
  }

  // --------------------------------------------------------------- the groups' turns

  /** A group was checked, straight after the clock was read, and if its leader was there and
      a signal was due by that clock, the group was sent one. */
  ghost predicate LookedAt(cl: Cleanup, s: Option<Sequence>, news: seq<Event>, g: Identity, k: nat) {
    && k + 1 < |news| && news[k].Clock? && news[k + 1].Checked? && news[k + 1].pid == g.pid
    && (Ready(news[k + 1].record, g, true) && DueSignal(cl, s, news[k].at).Some? && InRange(g.pid) ==>
          k + 2 < |news| && OwnKill(news[k + 2], g, true))
  }

  ghost predicate Looked(cl: Cleanup, s: Option<Sequence>, news: seq<Event>, g: Identity) {
    exists k: nat :: LookedAt(cl, s, news, g, k)
  }

  /** By the `k`-th event the time was up. */
  ghost predicate TimeUp(cl: Cleanup, news: seq<Event>, k: nat) {
    exists j :: 0 <= j < k && j < |news| && news[j].Clock? && news[j].at >= cl.deadline
  }

  /** A note that a stage was cut short follows the signal that cut it, once time is up. */
  ghost predicate CutShort(cl: Cleanup, news: seq<Event>, k: nat, group: bool, s: Option<Sequence>) {
    && 2 <= k < |news| && news[k] == Refused(Shortened) && news[k - 2].Killed?
    && OwnKill(news[k - 2], news[k - 2].expected, group) && TimeUp(cl, news, k) && Climbing(s)
  }

  /** A signal is the one due by the clock read before it. */
  ghost predicate InTurn(cl: Cleanup, news: seq<Event>, k: nat, s: Option<Sequence>)
    requires k < |news| && news[k].Killed?
  {
    k >= 2 && news[k - 2].Clock? && Some(news[k].signal) == DueSignal(cl, s, news[k - 2].at)
  }

  /** What the turns of the groups may log: `shared` is who shares the stage of a group that
      was verified. */
  ghost predicate GroupEvent(c: Config, cl: Cleanup, st: Tracked, now: nat, live: seq<Identity>, groups: seq<Identity>,
                             shared: set<nat>, news: seq<Event>, k: nat)
    requires k < |news|
  {
    match news[k]
    case Clock(_) => true
    case Checked(_, _) => true
    case Killed(_, _, g, _) =>
      && OwnKill(news[k], g, true) && g in groups && Touched(c, st.unresolved, live, g)
      && InTurn(cl, news, k, Scheduled(st, g))
      && (Through(c, news[k]) ==> forall i :: 0 <= i < |live| && live[i].pgid == g.pgid ==> live[i].pid in shared)
    case Refused(reason) =>
      reason.BadPid? || (k >= 2 && news[k - 2].Killed? && CutShort(cl, news, k, true, Scheduled(st, news[k - 2].expected)))
    case _ => false
  }

  /** Whoever shares a stage is in a group whose leader was there. */
  ghost predicate Shares(cl: Cleanup, st: Tracked, groups: seq<Identity>, news: seq<Event>, id: Identity) {
    exists i, k: nat :: 0 <= i < |groups| && SharesAt(cl, st, news, id, groups[i], k)
  }

  ghost predicate SharesAt(cl: Cleanup, st: Tracked, news: seq<Event>, id: Identity, g: Identity, k: nat) {
    g.pgid == id.pgid && LookedAt(cl, Scheduled(st, g), news, g, k) && Ready(news[k + 1].record, g, true)
  }

  ghost predicate GroupsTold(c: Config, cl: Cleanup, st: Tracked, now: nat, live: seq<Identity>, groups: seq<Identity>,
                             before: set<nat>, after: set<nat>, news: seq<Event>)
  {
    && before <= after
    && (forall g :: g in groups && Touched(c, st.unresolved, live, g) ==> Looked(cl, Scheduled(st, g), news, g))
    && (forall k :: 0 <= k < |news| ==> GroupEvent(c, cl, st, now, live, groups, after, news, k))
    && (forall i :: 0 <= i < |live| && live[i].pid in after && live[i].pid !in before ==>
          Shares(cl, st, groups, news, live[i]))
  }

  /** One turn, by itself. */
  lemma TurnTold(c: Config, cl: Cleanup, st: Tracked, now: nat, live: seq<Identity>, g: Identity, covered: set<nat>,
                 seg: seq<Event>, sent: bool)
    requires Coverage.UniquePids(live) && Touched(c, st.unresolved, live, g)
    requires TurnEvents(c, cl, now, seg, g, true, Scheduled(st, g), sent)
    ensures var after := covered + if sent then Pids(InGroupOf(live, g.pgid)) else {};
            GroupsTold(c, cl, st, now, live, [g], covered, after, seg)
  {
    hide Touched, Scheduled, Climbing;
    var mine := InGroupOf(live, g.pgid);
    var after := covered + if sent then Pids(mine) else {};
    TouchedExactly(c, st.unresolved, live, g);
    InGroupExactly(live, g.pgid);
    hide InGroupOf, Pids;
    forall k | 0 <= k < |seg| ensures GroupEvent(c, cl, st, now, live, [g], after, seg, k) {
    }
    assert LookedAt(cl, Scheduled(st, g), seg, g, 0);
    forall i | 0 <= i < |live| && live[i].pid in after && live[i].pid !in covered
      ensures Shares(cl, st, [g], seg, live[i])
    {
      PidsOf(mine, live[i].pid);
      assert SharesAt(cl, st, seg, live[i], [g][0], 0);
    }
  }

  lemma PidsOf(mine: seq<Identity>, pid: nat)
    ensures pid in Pids(mine) ==> exists j :: 0 <= j < |mine| && mine[j].pid == pid
  {
  }

  /** The turn of a group comes before the turns of others. */
  lemma TurnsJoin(c: Config, cl: Cleanup, st: Tracked, now: nat, live: seq<Identity>, g: Identity, rest: seq<Identity>,
                  before: set<nat>, middle: set<nat>, after: set<nat>, seg: seq<Event>, news: seq<Event>)
    requires GroupsTold(c, cl, st, now, live, [g], before, middle, seg)
    requires GroupsTold(c, cl, st, now, live, rest, middle, after, news)
    ensures GroupsTold(c, cl, st, now, live, [g] + rest, before, after, seg + news)
  {
    hide Touched, Scheduled, Climbing, Through, OwnKill;
    var all := seg + news;
    forall k | 0 <= k < |all| ensures GroupEvent(c, cl, st, now, live, [g] + rest, after, all, k) {
      if k < |seg| {
        EventStays(c, cl, st, now, live, [g], [g] + rest, middle, after, seg, news, k);
      } else {
        EventMoves(c, cl, st, now, live, rest, [g] + rest, after, seg, news, k - |seg|);
      }
    }
    hide GroupEvent;
    forall h | h in [g] + rest && Touched(c, st.unresolved, live, h) ensures Looked(cl, Scheduled(st, h), all, h) {
      LooksJoin(cl, Scheduled(st, h), seg, news, h);
      assert h == g || h in rest;
    }
    forall i | 0 <= i < |live| && live[i].pid in after && live[i].pid !in before
      ensures Shares(cl, st, [g] + rest, all, live[i])
    {
      if live[i].pid in middle {
        SharesMore(cl, st, [g], [], rest, [], seg, news, live[i]);
        assert [] + [g] + rest == [g] + rest && [] + seg + news == all;
      } else {
        SharesMore(cl, st, rest, [g], [], seg, news, [], live[i]);
        assert [g] + rest + [] == [g] + rest && seg + news + [] == all;
      }
    }
  }

  lemma LookMoves(cl: Cleanup, s: Option<Sequence>, seg: seq<Event>, news: seq<Event>, tail: seq<Event>, g: Identity, k: nat)
    requires LookedAt(cl, s, news, g, k)
    ensures LookedAt(cl, s, seg + news + tail, g, |seg| + k)
    ensures (seg + news + tail)[|seg| + k + 1] == news[k + 1]
  {
    hide OwnKill, Ready, DueSignal;
    var all := seg + news + tail;
    assert all[|seg| + k] == news[k] && all[|seg| + k + 1] == news[k + 1];
    assert k + 2 < |news| ==> all[|seg| + k + 2] == news[k + 2];
  }

  lemma LooksJoin(cl: Cleanup, s: Option<Sequence>, seg: seq<Event>, news: seq<Event>, g: Identity)
    requires Looked(cl, s, seg, g) || Looked(cl, s, news, g)
    ensures Looked(cl, s, seg + news, g)
  {
    hide LookedAt;
    if Looked(cl, s, seg, g) {
      var k: nat :| LookedAt(cl, s, seg, g, k);
      LookMoves(cl, s, [], seg, news, g, k);
      assert [] + seg + news == seg + news;
    } else {
      var k: nat :| LookedAt(cl, s, news, g, k);
      LookMoves(cl, s, seg, news, [], g, k);
      assert seg + news + [] == seg + news;
    }
  }

  lemma SharesMore(cl: Cleanup, st: Tracked, groups: seq<Identity>, front: seq<Identity>, back: seq<Identity>,
                   seg: seq<Event>, news: seq<Event>, tail: seq<Event>, id: Identity)
    requires Shares(cl, st, groups, news, id)
    ensures Shares(cl, st, front + groups + back, seg + news + tail, id)
  {
    hide Ready;
    var i, k: nat :| 0 <= i < |groups| && SharesAt(cl, st, news, id, groups[i], k);
    var all := front + groups + back;
    assert all[|front| + i] == groups[i];
    LookMoves(cl, Scheduled(st, groups[i]), seg, news, tail, groups[i], k);
    hide LookedAt;
    assert SharesAt(cl, st, seg + news + tail, id, all[|front| + i], |seg| + k);
  }

  lemma CutMoves(cl: Cleanup, seg: seq<Event>, news: seq<Event>, tail: seq<Event>, k: nat, group: bool, s: Option<Sequence>)
    requires CutShort(cl, news, k, group, s)
    ensures var all := seg + news + tail; |seg| + k < |all| && CutShort(cl, all, |seg| + k, group, s)
  {
    hide OwnKill, Climbing;
    var all := seg + news + tail;
    var j :| 0 <= j < k && news[j].Clock? && news[j].at >= cl.deadline;
    assert all[|seg| + j] == news[j] && all[|seg| + k] == news[k] && all[|seg| + k - 2] == news[k - 2];
  }

  lemma EventStays(c: Config, cl: Cleanup, st: Tracked, now: nat, live: seq<Identity>, groups: seq<Identity>,
                   more: seq<Identity>, shared: set<nat>, after: set<nat>, seg: seq<Event>, news: seq<Event>, k: nat)
    requires k < |seg| && GroupEvent(c, cl, st, now, live, groups, shared, seg, k)
    requires shared <= after && forall g :: g in groups ==> g in more
    ensures GroupEvent(c, cl, st, now, live, more, after, seg + news, k)
  {
    hide Touched, Scheduled, Climbing, Through, OwnKill, CutShort;
    var all := seg + news;
    assert all[k] == seg[k] && (k >= 2 ==> all[k - 2] == seg[k - 2]);
    if seg[k].Refused? && !seg[k].reason.BadPid? {
      CutMoves(cl, [], seg, news, k, true, Scheduled(st, seg[k - 2].expected));
      assert [] + seg + news == all && all[k - 2] == seg[k - 2];
    }
  }

  lemma EventMoves(c: Config, cl: Cleanup, st: Tracked, now: nat, live: seq<Identity>, groups: seq<Identity>,
                   more: seq<Identity>, shared: set<nat>, seg: seq<Event>, news: seq<Event>, k: nat)
    requires k < |news| && GroupEvent(c, cl, st, now, live, groups, shared, news, k)
    requires forall g :: g in groups ==> g in more
    ensures GroupEvent(c, cl, st, now, live, more, shared, seg + news, |seg| + k)
  {
    hide Touched, Scheduled, Climbing, Through, OwnKill, CutShort;
    var all := seg + news;
    assert all[|seg| + k] == news[k] && (k >= 2 ==> all[|seg| + k - 2] == news[k - 2]);
    if news[k].Refused? && !news[k].reason.BadPid? {
      CutMoves(cl, seg, news, [], k, true, Scheduled(st, news[k - 2].expected));
      assert seg + news + [] == all && all[|seg| + k - 2] == news[k - 2];
    }
  }

  lemma {:induction false} GroupsTurns(c: Config, o: Oracle, cl: Cleanup, start: Tracked, st: Tracked, now: nat,
                                       live: seq<Identity>, groups: seq<Identity>, covered: set<nat>)
    requires Coverage.UniquePids(live) && (forall i, j :: 0 <= i < j < |groups| ==> groups[i] != groups[j])
    requires st.unresolved == start.unresolved && forall g :: g in groups ==> Scheduled(st, g) == Scheduled(start, g)
    ensures var (r, covered') := AdvanceGroups(c, o, cl, st, now, live, groups, covered);
            && st.ledger.trace <= r.ledger.trace
            && GroupsTold(c, cl, start, now, live, groups, covered, covered', r.ledger.trace[|st.ledger.trace|..])
    decreases |groups|
  {
    hide AdvanceGroup, GroupsTold, Touched, TurnEvents, Scheduled, Coverage.UniquePids;
    if groups == [] {
      NoTurns(c, cl, start, now, live, covered);
      assert st.ledger.trace[|st.ledger.trace|..] == [];
    } else {
      var g, rest := groups[0], groups[1..];
      var sent := GroupTurn(c, o, cl, st, now, live, g, covered);
      var (st1, middle) := AdvanceGroup(c, o, cl, st, now, live, g, covered);
      Bound.AdvanceGroupKeeps(c, o, cl, st, now, live, g, covered);
      SameSchedules(st, st1, g, rest);
      GroupsTurns(c, o, cl, start, st1, now, live, rest, middle);
      var (r, after) := AdvanceGroups(c, o, cl, st1, now, live, rest, middle);
      var seg, news := st1.ledger.trace[|st.ledger.trace|..], r.ledger.trace[|st1.ledger.trace|..];
      assert r.ledger.trace[|st.ledger.trace|..] == seg + news && groups == [g] + rest;
      if Touched(c, st.unresolved, live, g) {
        SameTurn(c, cl, start, st, now, seg, g, sent);
        TurnTold(c, cl, start, now, live, g, covered, seg, sent);
      } else {
        Untouched(c, cl, start, now, live, g, covered);
        assert seg == [];
      }
      TurnsJoin(c, cl, start, now, live, g, rest, covered, middle, after, seg, news);
    }
  }

  lemma SameTurn(c: Config, cl: Cleanup, start: Tracked, st: Tracked, now: nat, seg: seq<Event>, g: Identity, sent: bool)
    requires TurnEvents(c, cl, now, seg, g, true, Scheduled(st, g), sent) && Scheduled(st, g) == Scheduled(start, g)
    ensures TurnEvents(c, cl, now, seg, g, true, Scheduled(start, g), sent)
  {
  }

  lemma NoTurns(c: Config, cl: Cleanup, st: Tracked, now: nat, live: seq<Identity>, covered: set<nat>)
    ensures GroupsTold(c, cl, st, now, live, [], covered, covered, [])
  {
  }

  lemma Untouched(c: Config, cl: Cleanup, st: Tracked, now: nat, live: seq<Identity>, g: Identity, covered: set<nat>)
    requires !Touched(c, st.unresolved, live, g)
    ensures GroupsTold(c, cl, st, now, live, [g], covered, covered, [])
  {
  }

  lemma SameSchedules(st: Tracked, st1: Tracked, g: Identity, rest: seq<Identity>)
    requires forall h :: h != g ==> Find(st1.groups, h) == Find(st.groups, h)
    requires g !in rest
    ensures forall h :: h in rest ==> Scheduled(st1, h) == Scheduled(st, h)
  {
    forall h | h in rest ensures Scheduled(st1, h) == Scheduled(st, h) {
      assert Find(st1.groups, h) == Find(st.groups, h);
    }
  }

  // ------------------------------------------------- the turns of the other processes

  /** What the turns of processes outside every verified group may log. */
  ghost predicate MemberEvent(cl: Cleanup, st: Tracked, now: nat, live: seq<Identity>, shared: set<nat>, news: seq<Event>,
                              k: nat)
    requires k < |news|
  {
    match news[k]
    case Clock(_) => true
    case Checked(pid, _) => pid !in shared
    case Killed(_, _, id, _) =>
      OwnKill(news[k], id, false) && id in live && id.pid !in shared && InTurn(cl, news, k, Find(st.members, id))
    case Refused(reason) =>
      reason.BadPid? || (k >= 2 && news[k - 2].Killed? && CutShort(cl, news, k, false, Find(st.members, news[k - 2].expected)))
    case _ => false
  }

  /** A process was checked and, if it was there, sent a signal. */
  ghost predicate Served(news: seq<Event>, id: Identity) {
    exists k :: 0 <= k < |news| && ServedAt(news, id, k)
  }

  ghost predicate ServedAt(news: seq<Event>, id: Identity, k: nat)
    requires k < |news|
  {
    && news[k].Checked? && news[k].pid == id.pid
    && (Ready(news[k].record, id, false) && InRange(id.pid) ==> k + 1 < |news| && OwnKill(news[k + 1], id, false))
  }

  /** A process signalled by itself has its whole grace from the clock read after the signal;
      one that is not keeps the schedule it had. */
  ghost predicate KeepsTime(cl: Cleanup, news: seq<Event>, id: Identity, before: Option<Sequence>, after: Option<Sequence>) {
    || (after == before && NotKilled(news, id))
    || (exists k: nat :: RestartedAt(cl, news, id, after, k))
  }

  ghost predicate NotKilled(news: seq<Event>, id: Identity) {
    forall k :: 0 <= k < |news| ==> !OwnKill(news[k], id, false)
  }

  ghost predicate RestartedAt(cl: Cleanup, news: seq<Event>, id: Identity, after: Option<Sequence>, k: nat) {
    && k + 1 < |news| && OwnKill(news[k], id, false) && news[k + 1].Clock?
    && after == Some(Sequence(PhaseOf(news[k].signal), news[k + 1].at + GraceAfter(cl, news[k].signal)))
  }

  lemma TimeKept(cl: Cleanup, seg: seq<Event>, news: seq<Event>, tail: seq<Event>, id: Identity, before: Option<Sequence>,
                 after: Option<Sequence>)
    requires KeepsTime(cl, news, id, before, after) && NotKilled(seg, id) && NotKilled(tail, id)
    ensures KeepsTime(cl, seg + news + tail, id, before, after)
  {
    hide OwnKill, PhaseOf, GraceAfter;
    var all := seg + news + tail;
    if k: nat :| RestartedAt(cl, news, id, after, k) {
      assert all[|seg| + k] == news[k] && all[|seg| + k + 1] == news[k + 1];
      assert RestartedAt(cl, all, id, after, |seg| + k);
    }
  }

  ghost predicate MembersTold(cl: Cleanup, st: Tracked, now: nat, live: seq<Identity>, shared: set<nat>, news: seq<Event>,
                              after: map<Identity, Sequence>)
  {
    && (forall k :: 0 <= k < |news| ==> MemberEvent(cl, st, now, live, shared, news, k))
    && (forall i :: 0 <= i < |live| && live[i].pid !in shared && DueSignal(cl, Find(st.members, live[i]), now).Some? ==>
          Served(news, live[i]))
    && (forall i :: 0 <= i < |live| && live[i].pid !in shared ==>
          KeepsTime(cl, news, live[i], Find(st.members, live[i]), Find(after, live[i])))
  }

  /** A turn in which nothing is due leaves only its clock reading. */
  ghost predicate MemberEvents(c: Config, cl: Cleanup, now: nat, seg: seq<Event>, id: Identity, s: Option<Sequence>, sent: bool) {
    || (|seg| == 1 && seg[0].Clock? && DueSignal(cl, s, now).None?)
    || (TurnEvents(c, cl, now, seg, id, false, s, sent) && DueSignal(cl, s, seg[0].at).Some?)
  }

  lemma MemberLogs(c: Config, o: Oracle, cl: Cleanup, st: Tracked, now: nat, id: Identity)
    ensures var r := AdvanceMember(c, o, cl, st, now, id);
            var (l1, at) := ReadClock(o, st.ledger, now);
            var (next, signal, shortened) := NextSignal(cl, Find(st.members, id), at, Expired(cl, at));
            && (signal.None? ==> r == st.(ledger := l1))
            && (signal.Some? ==>
                  var (l2, sent) := SendChecked(c, o, l1, id, false, signal.value);
                  && r.ledger.trace == l2.trace + Tail(o, l2, at, true, sent, shortened)
                  && r.members == if sent then st.members[id := Sequence(next.phase, o.Now(l2.Tick(), at) + Grace(cl, next.phase))]
                                  else st.members)
            && forall m :: m != id ==> Find(r.members, m) == Find(st.members, m)
  {
    hide SendChecked, NextSignal, Expired, Grace;
  }

  lemma MemberTurn(c: Config, o: Oracle, cl: Cleanup, st: Tracked, now: nat, id: Identity) returns (sent: bool)
    ensures var r := AdvanceMember(c, o, cl, st, now, id);
            && st.ledger.trace <= r.ledger.trace
            && MemberEvents(c, cl, now, r.ledger.trace[|st.ledger.trace|..], id, Find(st.members, id), sent)
            && KeepsTime(cl, r.ledger.trace[|st.ledger.trace|..], id, Find(st.members, id), Find(r.members, id))
  {
    hide SendChecked, NextSignal, Expired, TurnEvents, SendEvents, AdvanceMember, PhaseOf, GraceAfter, Grace, DueSignal, KeepsTime;
    var trace, s := st.ledger.trace, Find(st.members, id);
    var (l1, at) := ReadClock(o, st.ledger, now);
    var (next, signal, shortened) := NextSignal(cl, s, at, Expired(cl, at));
    NextTurn(cl, s, at);
    MemberLogs(c, o, cl, st, now, id);
    sent := false;
    var r := AdvanceMember(c, o, cl, st, now, id);
    if signal.Some? {
      SendTurn(c, o, l1, id, false, signal.value);
      var (l2, done) := SendChecked(c, o, l1, id, false, signal.value);
      sent := done;
      var tail := Tail(o, l2, at, true, sent, shortened);
      TurnPuts(c, cl, now, trace, at, l2.trace, id, false, s, signal.value, sent, tail);
      Sliced(trace, Clock(at), l2.trace, tail);
      TurnKeepsTime(c, cl, l2.trace[|l1.trace|..], at, id, signal.value, sent, tail, s, Find(r.members, id));
    } else {
      assert r.ledger.trace[|trace|..] == [Clock(at)];
      NothingDue(cl, s, now, at, id);
    }
  }

  lemma NothingDue(cl: Cleanup, s: Option<Sequence>, now: nat, at: nat, id: Identity)
    requires now <= at && DueSignal(cl, s, at).None?
    ensures DueSignal(cl, s, now).None? && KeepsTime(cl, [Clock(at)], id, s, s)
  {
  }

  lemma TurnKeepsTime(c: Config, cl: Cleanup, middle: seq<Event>, at: nat, id: Identity, signal: nat, sent: bool,
                      tail: seq<Event>, before: Option<Sequence>, after: Option<Sequence>)
    requires SendEvents(c, middle, id, false, signal, sent) && signal > 0
    requires !sent ==> after == before && tail == []
    requires sent ==> |tail| > 0 && tail[0].Clock?
                      && after == Some(Sequence(PhaseOf(signal), tail[0].at + GraceAfter(cl, signal)))
    ensures KeepsTime(cl, [Clock(at)] + middle + tail, id, before, after)
  {
    hide PhaseOf, GraceAfter, Ready;
    var seg := [Clock(at)] + middle + tail;
    if sent {
      assert seg[2] == middle[1] && seg[3] == tail[0];
      assert RestartedAt(cl, seg, id, after, 2);
    }
  }

  lemma MemberTold(c: Config, cl: Cleanup, st: Tracked, now: nat, id: Identity, shared: set<nat>, seg: seq<Event>, sent: bool,
                   after: map<Identity, Sequence>)
    requires MemberEvents(c, cl, now, seg, id, Find(st.members, id), sent) && id.pid !in shared
    requires KeepsTime(cl, seg, id, Find(st.members, id), Find(after, id))
    ensures MembersTold(cl, st, now, [id], shared, seg, after)
  {
    hide KeepsTime;
    hide Climbing, Ready;
    if |seg| > 1 {
      assert ServedAt(seg, id, 1);
    }
    forall k | 0 <= k < |seg| ensures MemberEvent(cl, st, now, [id], shared, seg, k) {
    }
  }

  lemma OtherStays(cl: Cleanup, st: Tracked, now: nat, live: seq<Identity>, more: seq<Identity>, shared: set<nat>,
                   seg: seq<Event>, news: seq<Event>, tail: seq<Event>, k: nat)
    requires k < |news| && MemberEvent(cl, st, now, live, shared, news, k) && forall id :: id in live ==> id in more
    ensures MemberEvent(cl, st, now, more, shared, seg + news + tail, |seg| + k)
  {
    hide Climbing, OwnKill, CutShort;
    var all := seg + news + tail;
    assert all[|seg| + k] == news[k] && (k >= 2 ==> all[|seg| + k - 2] == news[k - 2]);
    if news[k].Refused? && !news[k].reason.BadPid? {
      CutMoves(cl, seg, news, tail, k, false, Find(st.members, news[k - 2].expected));
      assert all[|seg| + k - 2] == news[k - 2];
    }
  }

  lemma ServedStays(seg: seq<Event>, news: seq<Event>, tail: seq<Event>, id: Identity)
    requires Served(news, id)
    ensures Served(seg + news + tail, id)
  {
    hide OwnKill, Ready;
    var all := seg + news + tail;
    var k :| 0 <= k < |news| && ServedAt(news, id, k);
    assert all[|seg| + k] == news[k];
    assert k + 1 < |news| ==> all[|seg| + k + 1] == news[k + 1];
    assert ServedAt(all, id, |seg| + k);
  }

  lemma MembersJoin(cl: Cleanup, st: Tracked, now: nat, id: Identity, rest: seq<Identity>, shared: set<nat>,
                    seg: seq<Event>, news: seq<Event>, after: map<Identity, Sequence>)
    requires (seg == [] && id.pid in shared) || MembersTold(cl, st, now, [id], shared, seg, after)
    requires MembersTold(cl, st, now, rest, shared, news, after) && id !in rest
    ensures MembersTold(cl, st, now, [id] + rest, shared, seg + news, after)
  {
    hide KeepsTime, NotKilled;
    var all, live := seg + news, [id] + rest;
    forall k | 0 <= k < |all| ensures MemberEvent(cl, st, now, live, shared, all, k) {
      if k < |seg| {
        OtherStays(cl, st, now, [id], live, shared, [], seg, news, k);
        assert [] + seg + news == all;
      } else {
        OtherStays(cl, st, now, rest, live, shared, seg, news, [], k - |seg|);
        assert seg + news + [] == all;
      }
    }
    forall i | 0 <= i < |live| && live[i].pid !in shared
      ensures KeepsTime(cl, all, live[i], Find(st.members, live[i]), Find(after, live[i]))
    {
      if i == 0 {
        assert [id][0] == live[0];
        OthersOnly(cl, st, now, rest, shared, news, id);
        NoEvents(id);
        TimeKept(cl, [], seg, news, id, Find(st.members, id), Find(after, id));
        assert [] + seg + news == all;
      } else {
        assert rest[i - 1] == live[i];
        OthersOnly(cl, st, now, [id], shared, seg, live[i]);
        NoEvents(live[i]);
        TimeKept(cl, seg, news, [], live[i], Find(st.members, live[i]), Find(after, live[i]));
        assert seg + news + [] == all;
      }
    }
    hide MemberEvent, DueSignal;
    forall i | 0 <= i < |live| && live[i].pid !in shared && DueSignal(cl, Find(st.members, live[i]), now).Some?
      ensures Served(all, live[i])
    {
      if i == 0 {
        assert [id][0] == live[0];
        ServedStays([], seg, news, id);
        assert [] + seg + news == all;
      } else {
        assert rest[i - 1] == live[i];
        ServedStays(seg, news, [], live[i]);
        assert seg + news + [] == all;
      }
    }
  }

  lemma NoEvents(id: Identity)
    ensures NotKilled([], id)
  {
  }

  lemma OthersOnly(cl: Cleanup, st: Tracked, now: nat, live: seq<Identity>, shared: set<nat>, news: seq<Event>, id: Identity)
    requires forall k :: 0 <= k < |news| ==> MemberEvent(cl, st, now, live, shared, news, k)
    requires id !in live
    ensures NotKilled(news, id)
  {
    hide InTurn, CutShort;
    forall k | 0 <= k < |news| ensures !OwnKill(news[k], id, false) {
      assert MemberEvent(cl, st, now, live, shared, news, k);
    }
  }

  lemma {:induction false} MembersTurns(c: Config, o: Oracle, cl: Cleanup, start: Tracked, st: Tracked, now: nat,
                                        live: seq<Identity>, shared: set<nat>)
    requires forall i, j :: 0 <= i < j < |live| ==> live[i] != live[j]
    requires forall id :: id in live && id.pid !in shared ==> Find(st.members, id) == Find(start.members, id)
    ensures var r := AdvanceMembers(c, o, cl, st, now, live, shared);
            && st.ledger.trace <= r.ledger.trace
            && MembersTold(cl, start, now, live, shared, r.ledger.trace[|st.ledger.trace|..], r.members)
            && (forall m :: m !in live || m.pid in shared ==> Find(r.members, m) == Find(st.members, m))
            && r.groups == st.groups
    decreases |live|
  {
    hide AdvanceMember, MembersTold, MemberEvents, Find, KeepsTime;
    if live == [] {
      NoMembers(cl, start, now, shared, st.members);
      assert st.ledger.trace[|st.ledger.trace|..] == [];
    } else {
      var id, rest := live[0], live[1..];
      var sent := MemberTurn(c, o, cl, st, now, id);
      MemberLogs(c, o, cl, st, now, id);
      var st1 := if id.pid in shared then st else AdvanceMember(c, o, cl, st, now, id);
      Bound.AdvanceMemberKeeps(c, o, cl, st, now, id);
      assert id !in rest;
      MembersTurns(c, o, cl, start, st1, now, rest, shared);
      var r := AdvanceMembers(c, o, cl, st1, now, rest, shared);
      var seg, news := st1.ledger.trace[|st.ledger.trace|..], r.ledger.trace[|st1.ledger.trace|..];
      assert r.ledger.trace[|st.ledger.trace|..] == seg + news && live == [id] + rest;
      if id.pid !in shared {
        MemberTold(c, cl, start, now, id, shared, seg, sent, r.members);
      } else {
        assert seg == [];
      }
      MembersJoin(cl, start, now, id, rest, shared, seg, news, r.members);
    }
  }

  lemma NoMembers(cl: Cleanup, st: Tracked, now: nat, shared: set<nat>, after: map<Identity, Sequence>)
    ensures MembersTold(cl, st, now, [], shared, [], after)
  {
  }

  /** Members keep schedules of their own only outside the groups that share theirs. */
  lemma {:induction false} GroupsSpare(c: Config, o: Oracle, cl: Cleanup, st: Tracked, now: nat, live: seq<Identity>,
                                       groups: seq<Identity>, covered: set<nat>)
    ensures var (r, shared) := AdvanceGroups(c, o, cl, st, now, live, groups, covered);
            covered <= shared && forall id: Identity :: id.pid !in shared ==> Find(r.members, id) == Find(st.members, id)
    decreases |groups|
  {
    hide AdvanceGroup, Find;
    if groups != [] {
      GroupSpares(c, o, cl, st, now, live, groups[0], covered);
      var (st1, middle) := AdvanceGroup(c, o, cl, st, now, live, groups[0], covered);
      GroupsSpare(c, o, cl, st1, now, live, groups[1..], middle);
    }
  }

  lemma GroupSpares(c: Config, o: Oracle, cl: Cleanup, st: Tracked, now: nat, live: seq<Identity>, g: Identity,
                    covered: set<nat>)
    ensures var (r, shared) := AdvanceGroup(c, o, cl, st, now, live, g, covered);
            covered <= shared && forall id: Identity :: id.pid !in shared ==> Find(r.members, id) == Find(st.members, id)
  {
    hide SendChecked, NextSignal, InGroupOf, Expired, Scheduled, Cover, Grace, Find, Pids, RecordGroup;
    var mine := InGroupOf(live, g.pgid);
    var (l1, at) := ReadClock(o, st.ledger, now);
    var (next, signal, shortened) := NextSignal(cl, Scheduled(st, g), at, Expired(cl, at));
    var (l2, sent) := SendChecked(c, o, l1, g, true, if signal.Some? then signal.value else 0);
    var (st3, later) := RecordGroup(o, cl, st.(ledger := l2), g, next.phase, at, |l1.trace| + 1);
    RecordSpares(o, cl, st.(ledger := l2), g, next.phase, at, |l1.trace| + 1);
    forall id: Identity | id.pid !in Pids(mine)
      ensures Find(Cover(st.members, mine, next), id) == Find(st.members, id)
      ensures Find(Cover(st.members, mine, later), id) == Find(st.members, id)
    {
      CoverSpares(st.members, mine, next, id);
      CoverSpares(st.members, mine, later, id);
    }
  }

  lemma RecordSpares(o: Oracle, cl: Cleanup, st: Tracked, g: Identity, phase: Phase, at: nat, event: nat)
    ensures RecordGroup(o, cl, st, g, phase, at, event).0.members == st.members
  {
  }

  lemma {:induction false} CoverSpares(members: map<Identity, Sequence>, mine: seq<Identity>, s: Sequence, id: Identity)
    requires id.pid !in Pids(mine)
    ensures Find(Cover(members, mine, s), id) == Find(members, id)
    decreases |mine|
  {
    if mine != [] {
      assert mine[0].pid in Pids(mine);
      CoverSpares(members[mine[0] := s], mine[1..], s, id);
    }
  }

  // ---------------------------------------------------------------------- one pass

  predicate Alive(processes: map<nat, Record>, id: Identity) {
    id.pid in processes && processes[id.pid].identity == id && !processes[id.pid].exited
  }

  /** The group is served in this pass: someone alive is in it, or it is the root's, not wholly
      known. */
  ghost predicate Cared(c: Config, st: Tracked, g: Identity) {
    (st.unresolved && g.pid == c.rootPid) || Bound.HasLive(st.processes, g.pgid)
  }

  /** What a pass may log. */
  ghost predicate PassEvent(c: Config, cl: Cleanup, st: Tracked, now: nat, news: seq<Event>, k: nat)
    requires k < |news|
  {
    match news[k]
    case Clock(_) => true
    case Checked(_, _) => true
    case Killed(target, _, id, _) =>
      if target < 0 then
        OwnKill(news[k], id, true) && id in st.groups && Cared(c, st, id) && InTurn(cl, news, k, Scheduled(st, id))
      else OwnKill(news[k], id, false) && Alive(st.processes, id) && InTurn(cl, news, k, Find(st.members, id))
    case Refused(reason) =>
      || reason.BadPid?
      || (k >= 2 && news[k - 2].Killed?
          && var group, id := news[k - 2].target < 0, news[k - 2].expected;
          CutShort(cl, news, k, group, if group then Scheduled(st, id) else Find(st.members, id)))
      || (reason.Unfinished? && now >= cl.deadline && !(NoneAlive(st) && st.incompleteScans == 0))
    case _ => false
  }

  /** No tracked process is alive. */
  predicate NoneAlive(st: Tracked) {
    forall p :: p in st.processes ==> st.processes[p].exited
  }

  /** A group signal that went through and an own signal of one of its processes exclude
      each other. */
  ghost predicate NotTwice(c: Config, news: seq<Event>) {
    forall j, k ::
      0 <= j < |news| && 0 <= k < |news| && SharedKill(c, news[j]) && news[k].Killed? && news[k].target > 0 ==>
        news[j].expected.pgid != news[k].expected.pgid
  }

  /** A live process shares the stage of its group, whose leader was there; else it is
      served by itself if something is due to it, and keeps time by itself. */
  ghost predicate TurnGiven(cl: Cleanup, st: Tracked, now: nat, news: seq<Event>, r: Tracked, id: Identity) {
    || ((exists g, k: nat :: g in st.groups && SharesAt(cl, st, news, id, g, k)) && Follows(st.groups.Keys, r, id))
    || (&& (DueSignal(cl, Find(st.members, id), now).Some? ==> Served(news, id))
        && KeepsTime(cl, news, id, Find(st.members, id), Find(r.members, id)))
  }

  /** The process has the schedule of its group. */
  ghost predicate Follows(groups: set<Identity>, r: Tracked, id: Identity) {
    exists g :: g in groups && g.pgid == id.pgid && Scheduled(r, g).Some? && Find(r.members, id) == Scheduled(r, g)
  }

  predicate SharedKill(c: Config, e: Event) {
    e.Killed? && e.target < 0 && Through(c, e)
  }

  ghost predicate OnePass(c: Config, st: Tracked, now: nat, r: Tracked)
    requires st.cleanup.Some?
  {
    var cl := st.cleanup.value;
    && st.ledger.trace <= r.ledger.trace
    && var news := r.ledger.trace[|st.ledger.trace|..];
    && (forall g :: g in st.groups ==>
          if Cared(c, st, g) then Looked(cl, Scheduled(st, g), news, g)
          else Find(r.groups, g) == Find(st.groups, g) && Find(r.history, g) == Find(st.history, g))
    && (forall k :: 0 <= k < |news| ==> PassEvent(c, cl, st, now, news, k))
    && (forall p :: p in st.processes && !st.processes[p].exited ==> TurnGiven(cl, st, now, news, r, st.processes[p].identity))
    && NotTwice(c, news)
  }

  lemma {:induction false} LiveOnce(records: seq<Record>)
    requires forall i, j :: 0 <= i < j < |records| ==> records[i].identity.pid != records[j].identity.pid
    ensures var live := LiveOf(records); forall i, j :: 0 <= i < j < |live| ==> live[i] != live[j]
    ensures forall id :: id in LiveOf(records) <==> exists i :: 0 <= i < |records| && Shows(records[i], id)
    decreases |records|
  {
    if records != [] {
      var rest := records[1..];
      LiveOnce(rest);
      assert forall i :: 0 <= i < |rest| ==> rest[i] == records[i + 1];
      forall id ensures id in LiveOf(records) <==> exists i :: 0 <= i < |records| && Shows(records[i], id) {
        if i :| 0 <= i < |records| && Shows(records[i], id) {
          assert i > 0 ==> Shows(rest[i - 1], id);
        }
        if id in LiveOf(rest) {
          var i :| 0 <= i < |rest| && Shows(rest[i], id);
          assert Shows(records[i + 1], id);
        } else if id in LiveOf(records) {
          assert Shows(records[0], id);
        }
      }
      if !records[0].exited {
        assert records[0].identity !in LiveOf(rest);
        assert LiveOf(records) == [records[0].identity] + LiveOf(rest);
      }
    }
  }

  predicate Shows(r: Record, id: Identity) {
    r.identity == id && !r.exited
  }

  lemma LiveAre(o: Oracle, st: Tracked)
    requires o.Lists() && Coverage.Keyed(st.processes)
    ensures var live := Live(o, st);
            && Coverage.UniquePids(live) && (forall i, j :: 0 <= i < j < |live| ==> live[i] != live[j])
            && (forall id :: id in live <==> Alive(st.processes, id))
  {
    var records, live := Snapshot(o, st), Live(o, st);
    assert live == LiveOf(records);
    Coverage.LiveUnique(records);
    LiveOnce(records);
    assert forall i, j :: 0 <= i < j < |live| ==> live[i] != live[j];
    Coverage.SnapshotHolds(o, st);
    hide Snapshot;
    forall id ensures id in live <==> Alive(st.processes, id) {
      if i :| 0 <= i < |records| && Shows(records[i], id) {
        assert records[i] in records;
      }
      if Alive(st.processes, id) {
        assert st.processes[id.pid] in records;
        var i :| 0 <= i < |records| && records[i] == st.processes[id.pid];
        assert Shows(records[i], id);
      }
    }
  }

  lemma CaredFor(c: Config, o: Oracle, st: Tracked, g: Identity)
    requires o.Lists() && Coverage.Keyed(st.processes)
    ensures Cared(c, st, g) <==> Touched(c, st.unresolved, Live(o, st), g)
  {
    LiveAre(o, st);
    hide Live;
    var live := Live(o, st);
    if Bound.HasLive(st.processes, g.pgid) {
      var p :| p in st.processes && !st.processes[p].exited && st.processes[p].identity.pgid == g.pgid;
      assert Alive(st.processes, st.processes[p].identity);
      var i :| 0 <= i < |live| && live[i] == st.processes[p].identity;
    }
    if i :| 0 <= i < |live| && live[i].pgid == g.pgid {
      assert live[i] in live;
    }
  }

  lemma GroupFits(c: Config, o: Oracle, cl: Cleanup, st: Tracked, now: nat, live: seq<Identity>, groups: seq<Identity>,
                  shared: set<nat>, seg: seq<Event>, news: seq<Event>, k: nat)
    requires o.Lists() && Coverage.Keyed(st.processes) && live == Live(o, st) && forall g :: g in groups ==> g in st.groups
    requires k < |seg| && GroupEvent(c, cl, st, now, live, groups, shared, seg, k)
    ensures PassEvent(c, cl, st, now, seg + news, k)
  {
    EventStays(c, cl, st, now, live, groups, groups, shared, shared, seg, news, k);
    hide Live, Touched, Cared, CutShort, Climbing;
    var all := seg + news;
    if all[k].Killed? {
      CaredFor(c, o, st, all[k].expected);
    }
    if all[k].Refused? && !all[k].reason.BadPid? {
      CutTargets(cl, all, k, true, Scheduled(st, all[k - 2].expected));
    }
  }

  lemma CutTargets(cl: Cleanup, news: seq<Event>, k: nat, group: bool, s: Option<Sequence>)
    requires CutShort(cl, news, k, group, s)
    ensures group == (news[k - 2].target < 0)
  {
    hide Climbing;
  }

  lemma MemberFits(c: Config, o: Oracle, cl: Cleanup, st: Tracked, now: nat, live: seq<Identity>, shared: set<nat>,
                   seg: seq<Event>, news: seq<Event>, tail: seq<Event>, k: nat)
    requires o.Lists() && Coverage.Keyed(st.processes) && live == Live(o, st)
    requires k < |news| && MemberEvent(cl, st, now, live, shared, news, k)
    ensures PassEvent(c, cl, st, now, seg + news + tail, |seg| + k)
  {
    OtherStays(cl, st, now, live, live, shared, seg, news, tail, k);
    LiveAre(o, st);
    hide Live, Cared, CutShort, Climbing;
    var all, n := seg + news + tail, |seg| + k;
    if all[n].Refused? && !all[n].reason.BadPid? {
      CutTargets(cl, all, n, false, Find(st.members, all[n - 2].expected));
    }
  }

  /** The parts of a pass put together. */
  lemma PartsFit(c: Config, o: Oracle, cl: Cleanup, st: Tracked, now: nat, live: seq<Identity>, groups: seq<Identity>,
                 shared: set<nat>, first: seq<Event>, second: seq<Event>, tail: seq<Event>, after: map<Identity, Sequence>)
    requires o.Lists() && Coverage.Keyed(st.processes) && live == Live(o, st) && (forall g :: g in groups ==> g in st.groups)
    requires GroupsTold(c, cl, st, now, live, groups, {}, shared, first) && MembersTold(cl, st, now, live, shared, second, after)
    requires tail == [] || (tail == [Refused(Unfinished)] && now >= cl.deadline && !(NoneAlive(st) && st.incompleteScans == 0))
    ensures var news := first + second + tail; forall k :: 0 <= k < |news| ==> PassEvent(c, cl, st, now, news, k)
  {
    hide Live, GroupEvent, MemberEvent, PassEvent, NoneAlive, Touched;
    var news := first + second + tail;
    assert news == first + (second + tail);
    forall k | 0 <= k < |news| ensures PassEvent(c, cl, st, now, news, k) {
      if k < |first| {
        GroupFits(c, o, cl, st, now, live, groups, shared, first, second + tail, k);
      } else if k < |first| + |second| {
        MemberFits(c, o, cl, st, now, live, shared, first, second, tail, k - |first|);
      } else {
        assert news[k] == Refused(Unfinished);
        UnfinishedFits(c, cl, st, now, news, k);
      }
    }
  }

  lemma UnfinishedFits(c: Config, cl: Cleanup, st: Tracked, now: nat, news: seq<Event>, k: nat)
    requires k < |news| && news[k] == Refused(Unfinished) && now >= cl.deadline
    requires !(NoneAlive(st) && st.incompleteScans == 0)
    ensures PassEvent(c, cl, st, now, news, k)
  {
  }

  lemma PartsApart(c: Config, cl: Cleanup, st: Tracked, now: nat, live: seq<Identity>, groups: seq<Identity>, shared: set<nat>,
                   first: seq<Event>, second: seq<Event>, tail: seq<Event>, after: map<Identity, Sequence>)
    requires GroupsTold(c, cl, st, now, live, groups, {}, shared, first) && MembersTold(cl, st, now, live, shared, second, after)
    requires forall e :: e in tail ==> e.Refused?
    ensures NotTwice(c, first + second + tail)
  {
    hide Touched, CutShort, Climbing, Through;
    var news := first + second + tail;
    assert forall k :: |first| + |second| <= k < |news| ==> news[k] in tail;
    forall j | 0 <= j < |news| && news[j].Killed? && news[j].target < 0
      ensures j < |first| && GroupEvent(c, cl, st, now, live, groups, shared, first, j) && news[j] == first[j]
    {
      assert |first| <= j < |first| + |second| ==> MemberEvent(cl, st, now, live, shared, second, j - |first|);
    }
    forall k | 0 <= k < |news| && news[k].Killed? && news[k].target > 0
      ensures news[k].expected in live && news[k].expected.pid !in shared
    {
      assert k < |first| ==> GroupEvent(c, cl, st, now, live, groups, shared, first, k);
      assert |first| <= k < |first| + |second| ==> MemberEvent(cl, st, now, live, shared, second, k - |first|);
    }
  }

  lemma {:induction false} OthersKeep(c: Config, o: Oracle, cl: Cleanup, st: Tracked, now: nat, live: seq<Identity>,
                                      groups: seq<Identity>, covered: set<nat>, g: Identity)
    requires !Touched(c, st.unresolved, live, g)
    ensures var r := AdvanceGroups(c, o, cl, st, now, live, groups, covered).0;
            Find(r.groups, g) == Find(st.groups, g) && Find(r.history, g) == Find(st.history, g)
    decreases |groups|
  {
    hide AdvanceGroup, Find, Touched, TurnEvents;
    if groups != [] {
      Bound.AdvanceGroupKeeps(c, o, cl, st, now, live, groups[0], covered);
      var _ := GroupTurn(c, o, cl, st, now, live, groups[0], covered);
      var (st1, middle) := AdvanceGroup(c, o, cl, st, now, live, groups[0], covered);
      OthersKeep(c, o, cl, st1, now, live, groups[1..], middle, g);
    }
  }

  /** Whoever comes to share a stage follows the schedule of a group; anyone else keeps
      what it had. */
  lemma {:induction false} GroupsFollow(c: Config, o: Oracle, cl: Cleanup, st: Tracked, now: nat, live: seq<Identity>,
                                        groups: seq<Identity>, covered: set<nat>)
    requires Coverage.UniquePids(live) && (forall i, j :: 0 <= i < j < |groups| ==> groups[i] != groups[j])
    ensures var (r, shared) := AdvanceGroups(c, o, cl, st, now, live, groups, covered);
            forall id :: id in live ==>
              Follows(Members(groups), r, id)
              || (Find(r.members, id) == Find(st.members, id) && (id.pid in shared ==> id.pid in covered))
    decreases |groups|
  {
    hide AdvanceGroup, Find, Coverage.UniquePids, Scheduled;
    if groups != [] {
      var g, rest := groups[0], groups[1..];
      GroupFollows(c, o, cl, st, now, live, g, covered);
      var (st1, middle) := AdvanceGroup(c, o, cl, st, now, live, g, covered);
      GroupsFollow(c, o, cl, st1, now, live, rest, middle);
      Bound.AdvanceGroupsKeep(c, o, cl, st1, now, live, rest, middle);
      var (r, shared) := AdvanceGroups(c, o, cl, st1, now, live, rest, middle);
      assert g !in rest && Members(rest) <= Members(groups) && g in Members(groups);
      SameSchedule(st1, r, g);
      forall id | id in live
        ensures || Follows(Members(groups), r, id)
                || (Find(r.members, id) == Find(st.members, id) && (id.pid in shared ==> id.pid in covered))
      {
        FollowsMore(Members(rest), Members(groups), r, id);
        if !Follows(Members(rest), r, id) && Follows({g}, st1, id) {
          FollowsStill(Members(groups), st1, r, g, id);
        }
      }
    }
  }

  function Members(groups: seq<Identity>): set<Identity> {
    set i | 0 <= i < |groups| :: groups[i]
  }

  lemma SameSchedule(st: Tracked, r: Tracked, g: Identity)
    requires Find(r.groups, g) == Find(st.groups, g)
    ensures Scheduled(r, g) == Scheduled(st, g)
  {
  }

  lemma FollowsMore(groups: set<Identity>, more: set<Identity>, r: Tracked, id: Identity)
    requires groups <= more
    ensures Follows(groups, r, id) ==> Follows(more, r, id)
  {
  }

  lemma FollowsStill(groups: set<Identity>, st: Tracked, r: Tracked, g: Identity, id: Identity)
    requires Follows({g}, st, id) && g in groups
    requires Scheduled(r, g) == Scheduled(st, g) && Find(r.members, id) == Find(st.members, id)
    ensures Follows(groups, r, id)
  {
    hide Scheduled, Find;
  }

  lemma GroupFollows(c: Config, o: Oracle, cl: Cleanup, st: Tracked, now: nat, live: seq<Identity>, g: Identity,
                     covered: set<nat>)
    requires Coverage.UniquePids(live)
    ensures var (r, shared) := AdvanceGroup(c, o, cl, st, now, live, g, covered);
            forall id :: id in live ==>
              Follows({g}, r, id)
              || (Find(r.members, id) == Find(st.members, id) && (id.pid in shared ==> id.pid in covered))
  {
    hide SendChecked, NextSignal, InGroupOf, Expired, Cover, Grace, Find, Pids, RecordGroup, Scheduled;
    var mine := InGroupOf(live, g.pgid);
    var (l1, at) := ReadClock(o, st.ledger, now);
    var (next, signal, shortened) := NextSignal(cl, Scheduled(st, g), at, Expired(cl, at));
    var (l2, sent) := SendChecked(c, o, l1, g, true, if signal.Some? then signal.value else 0);
    var st2 := st.(ledger := l2);
    var (st3, later) := RecordGroup(o, cl, st2, g, next.phase, at, |l1.trace| + 1);
    RecordSpares(o, cl, st2, g, next.phase, at, |l1.trace| + 1);
    forall id | id in live
      ensures id.pid in Pids(mine) ==> id in mine && id.pgid == g.pgid
      ensures id.pid !in Pids(mine) ==> id !in mine
    {
      InGroupExactly(live, g.pgid);
      PidsOf(mine, id.pid);
      PidIn(mine, id);
    }
    AdjustFollows(st2, g, next, shortened, mine);
    AdjustFollows(st3, g, later, shortened, mine);
  }

  lemma PidIn(mine: seq<Identity>, id: Identity)
    ensures id in mine ==> id.pid in Pids(mine)
  {
  }

  lemma AdjustFollows(st: Tracked, g: Identity, s: Sequence, shortened: bool, mine: seq<Identity>)
    ensures var r := Adjust(st, g, s, shortened, mine);
            && (forall id :: id in mine && id.pgid == g.pgid ==> Follows({g}, r, id))
            && (forall id :: id !in mine ==> Find(r.members, id) == Find(st.members, id))
  {
    CoverSets(st.members, mine, s);
    hide Cover;
    var r := Adjust(st, g, s, shortened, mine);
    assert Scheduled(r, g) == Some(s);
  }

  lemma {:induction false} CoverSets(members: map<Identity, Sequence>, mine: seq<Identity>, s: Sequence)
    ensures forall id :: Find(Cover(members, mine, s), id) == if id in mine then Some(s) else Find(members, id)
    decreases |mine|
  {
    if mine != [] {
      CoverSets(members[mine[0] := s], mine[1..], s);
    }
  }

  lemma PartsServe(c: Config, o: Oracle, cl: Cleanup, st: Tracked, now: nat, live: seq<Identity>, groups: seq<Identity>,
                   shared: set<nat>, first: seq<Event>, second: seq<Event>, tail: seq<Event>, r: Tracked)
    requires o.Lists() && Coverage.Keyed(st.processes) && live == Live(o, st)
    requires GroupsTold(c, cl, st, now, live, groups, {}, shared, first)
    requires MembersTold(cl, st, now, live, shared, second, r.members)
    requires (forall g :: g in groups ==> g in st.groups) && forall e :: e in tail ==> e.Refused?
    requires forall id :: id in live && id.pid in shared ==> Follows(st.groups.Keys, r, id)
    ensures var news := first + second + tail;
            && (forall g :: g in groups && Cared(c, st, g) ==> Looked(cl, Scheduled(st, g), news, g))
            && (forall p :: p in st.processes && !st.processes[p].exited ==>
                  TurnGiven(cl, st, now, news, r, st.processes[p].identity))
  {
    hide GroupEvent, MemberEvent, Live, Cared, Touched, Looked, Shares, Served, DueSignal, Follows, KeepsTime;
    var news := first + second + tail;
    assert news == first + (second + tail);
    forall g | g in groups && Cared(c, st, g) ensures Looked(cl, Scheduled(st, g), news, g) {
      CaredFor(c, o, st, g);
      LooksJoin(cl, Scheduled(st, g), first, second + tail, g);
    }
    LiveAre(o, st);
    forall p | p in st.processes && !st.processes[p].exited
      ensures TurnGiven(cl, st, now, news, r, st.processes[p].identity)
    {
      var id := st.processes[p].identity;
      assert Alive(st.processes, id);
      var i :| 0 <= i < |live| && live[i] == id;
      if id.pid in shared {
        SharesMore(cl, st, groups, [], [], [], first, second + tail, id);
        assert [] + groups + [] == groups && [] + first + (second + tail) == news;
        SharesOne(cl, st, groups, news, id);
      } else {
        GroupsSpareOwn(c, cl, st, now, live, groups, shared, first, id);
        TailSpares(tail, id);
        TimeKept(cl, first, second, tail, id, Find(st.members, id), Find(r.members, id));
        if DueSignal(cl, Find(st.members, id), now).Some? {
          ServedStays(first, second, tail, id);
        }
      }
    }
  }

  lemma GroupsSpareOwn(c: Config, cl: Cleanup, st: Tracked, now: nat, live: seq<Identity>, groups: seq<Identity>,
                       shared: set<nat>, news: seq<Event>, id: Identity)
    requires GroupsTold(c, cl, st, now, live, groups, {}, shared, news)
    ensures NotKilled(news, id)
  {
    hide Touched, InTurn, CutShort;
    forall k | 0 <= k < |news| ensures !OwnKill(news[k], id, false) {
      assert GroupEvent(c, cl, st, now, live, groups, shared, news, k);
    }
  }

  lemma TailSpares(tail: seq<Event>, id: Identity)
    requires forall e :: e in tail ==> e.Refused?
    ensures NotKilled(tail, id)
  {
    forall k | 0 <= k < |tail| ensures !OwnKill(tail[k], id, false) {
      assert tail[k] in tail;
    }
  }

  lemma SharesOne(cl: Cleanup, st: Tracked, groups: seq<Identity>, news: seq<Event>, id: Identity)
    requires Shares(cl, st, groups, news, id) && forall g :: g in groups ==> g in st.groups
    ensures exists g, k: nat :: g in st.groups && SharesAt(cl, st, news, id, g, k)
  {
    hide SharesAt;
    var i, k: nat :| 0 <= i < |groups| && SharesAt(cl, st, news, id, groups[i], k);
    assert groups[i] in groups;
  }

  /** Every pass of a cleanup: it looks at each group that someone alive is in, and leaves any
      other as it was; a group whose leader is there, and each live process outside such
      groups that is there, are sent what they are due, just that, and no one else is
      signalled, nor anyone twice; and it notes a stage cut short, or unfinished business,
      only once time is up and there is some. */
  lemma PassTold(c: Config, o: Oracle, st: Tracked, now: nat)
    requires o.Lists() && Coverage.Keyed(st.processes) && st.cleanup.Some?
    ensures OnePass(c, st, now, Advance(c, o, st, now).0)
  {
    hide AdvanceGroups, AdvanceMembers, Live, GroupsTold, MembersTold, PassEvent, Cared, Looked, TurnGiven;
    hide NotTwice, Find, Touched, Follows, Coverage.Keyed, Coverage.UniquePids, DueSignal;
    var cl, live, order := st.cleanup.value, Live(o, st), o.leaders(st.ledger.Tick(), st.groups.Keys);
    LiveAre(o, st);
    Verdicts.LiveExactly(o, st);
    GroupsTurns(c, o, cl, st, st, now, live, order, {});
    GroupsSpare(c, o, cl, st, now, live, order, {});
    var (st1, shared) := AdvanceGroups(c, o, cl, st, now, live, order, {});
    MembersTurns(c, o, cl, st, st1, now, live, shared);
    GroupsFollow(c, o, cl, st, now, live, order, {});
    var st2 := AdvanceMembers(c, o, cl, st1, now, live, shared);
    Bound.AdvanceGroupsKeep(c, o, cl, st, now, live, order, {});
    Bound.AdvanceMembersKeep(c, o, cl, st1, now, live, shared);
    var r := Advance(c, o, st, now).0;
    var first, second := st1.ledger.trace[|st.ledger.trace|..], st2.ledger.trace[|st1.ledger.trace|..];
    var tail := r.ledger.trace[|st2.ledger.trace|..];
    assert r.ledger.trace[|st.ledger.trace|..] == first + second + tail;
    FollowsOn(st, st1, r, live, order, shared);
    PartsFit(c, o, cl, st, now, live, order, shared, first, second, tail, r.members);
    PartsServe(c, o, cl, st, now, live, order, shared, first, second, tail, r);
    PartsApart(c, cl, st, now, live, order, shared, first, second, tail, r.members);
    forall g | g in st.groups && !Cared(c, st, g)
      ensures Find(r.groups, g) == Find(st.groups, g) && Find(r.history, g) == Find(st.history, g)
    {
      CaredFor(c, o, st, g);
      OthersKeep(c, o, cl, st, now, live, order, {}, g);
    }
  }

  lemma FollowsOn(st: Tracked, st1: Tracked, r: Tracked, live: seq<Identity>, order: seq<Identity>, shared: set<nat>)
    requires (forall g :: g in order ==> g in st.groups) && r.groups == st1.groups
    requires forall m: Identity :: m.pid in shared ==> Find(r.members, m) == Find(st1.members, m)
    requires forall id :: id in live && id.pid in shared ==> Follows(Members(order), st1, id)
    ensures forall id :: id in live && id.pid in shared ==> Follows(st.groups.Keys, r, id)
  {
    hide Find;
    forall id | id in live && id.pid in shared ensures Follows(st.groups.Keys, r, id) {
      var g :| g in Members(order) && g.pgid == id.pgid && Scheduled(st1, g).Some? && Find(st1.members, id) == Scheduled(st1, g);
      assert g in order;
      assert Scheduled(r, g) == Scheduled(st1, g);
    }
  }
}
