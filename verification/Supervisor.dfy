/** Supervising a tracked run: the sampling loop around the tracker, and what its report
    vouches for. */
module Supervision {
  import opened Loops
  import opened Process
  import opened Trackers
  import Bound
  import Escalation
  import Runs
  import Safety
  import Shutdown
  import Tracking

  /** What the loop came to: the tracker's verdict if it left, and what it heard. */
  datatype Watched = Watched(
    confirmed: Option<bool>,
    status: Option<nat>,
    timedOut: bool,
    beamGone: bool,
    discard: bool,
    history: bool)

  /** The course of the loop: what it came to, its samples turn by turn, the times of the
      events it heard, when cleanup began, and how the tracker and the clock stood at the
      end of it. */
  datatype Course = Course(
    w: Watched,
    samples: seq<Option<Loops.Sample>>,
    heard: seq<nat>,
    began: Option<nat>,
    uncertain: bool,
    at: nat)

  datatype End = Supervising | Draining | Silent | Reported(report: Shutdown.Report, historyTruncated: bool)

  /** The cleanup of the tracker, if it has begun, ends at this time. */
  ghost predicate Due(t: Tracker, deadline: Option<nat>)
    reads t
  {
    match t.cleanup
    case None => deadline == None
    case Some(cl) => deadline == Some(cl.deadline)
  }

  lemma PassKeepsDeadline(c: Tracking.Config, o: Tracking.Oracle, st: Tracking.Tracked, now: nat)
    requires o.Lists()
    ensures st.cleanup.Some? ==>
      var (r, p) := Tracking.Advance(c, o, st, now);
      && r.cleanup.Some? && r.cleanup.value.deadline == st.cleanup.value.deadline
      && (now >= st.cleanup.value.deadline ==> p.done)
    ensures st.cleanup.None? ==> Tracking.Advance(c, o, st, now).0.cleanup.None?
  {
    if st.cleanup.Some? {
      Bound.ApplyKeepsPlan(c, o, st, Tracking.DoAdvance(now));
      hide Tracking.AdvanceGroups, Tracking.AdvanceMembers;
    }
  }

  /** Marks the start of cleanup; begun already, nothing moves. */
  method Begin(t: Tracker, now: nat, interrupt: Option<nat>, grace: nat, ghost root: Identity,
               ghost due: Option<nat>) returns (ghost later: Option<nat>)
    requires t.Safe(root) && Due(t, due)
    modifies t`cleanup
    ensures t.Safe(root) && Due(t, later)
    ensures t.State() == Tracking.BeginCleanup(old(t.State()), now, interrupt, grace)
    ensures later == if due.Some? then due else Some(now + Shutdown.Spent(interrupt, grace))
  {
    hide Runs.Safe;
    t.BeginCleanup(now, interrupt, grace, root);
    later := if due.Some? then due else Some(now + Shutdown.Spent(interrupt, grace));
  }

  /** Certainty lost is not won back. */
  lemma StaysUncertain(c: Tracking.Config, o: Tracking.Oracle, st: Tracking.Tracked, now: nat, root: Identity)
    requires o.Lists() && Runs.Safe(c, root, st) && st.ledger.uncertain
    ensures Tracking.Scan(c, o, st).ledger.uncertain
    ensures Tracking.Advance(c, o, st, now).0.ledger.uncertain
  {
    hide Tracking.Scan, Tracking.Advance, Escalation.Ordered, Safety.Failed, Safety.Authorized, Safety.Misses;
    Safety.ScanSound(c, o, st.ledger, st);
    Safety.AdvanceSound(c, o, st.ledger, st, now);
  }

  /** One pass of the tracker in cleanup, and whether the loop may leave after it: past the
      deadline, or with the child's end and the tracker done. */
  method Pass(t: Tracker, now: nat, exited: bool, ghost root: Identity, ghost due: Option<nat>)
    returns (leave: Option<bool>)
    requires t.Safe(root) && Due(t, due) && t.cleanup.Some?
    modifies t
    ensures t.Safe(root) && Due(t, due)
    ensures t.State() == Tracking.Advance(t.c, t.source, old(t.State()), now).0
    ensures leave == Verdict(t.c, t.source, old(t.State()), now, exited)
    ensures now >= due.value ==> leave.Some?
    ensures leave.Some? ==> (exited || now >= due.value) && (leave.value ==> exited)
    ensures old(t.uncertain) ==> t.uncertain
  {
    hide Runs.Safe, Tracking.Advance;
    PassKeepsDeadline(t.c, t.source, t.State(), now);
    if t.uncertain {
      StaysUncertain(t.c, t.source, t.State(), now, root);
    }
    var expired := now >= t.cleanup.value.deadline;
    var progress := t.Advance(now, root);
    leave := if progress.done && (exited || expired) then Some(progress.confirmed && exited) else None;
  }

  /** Reports the new groups until the queue is lost, which also costs certainty. A full
      queue drops a report, and is remembered. */
  method Announce(t: Tracker, groups: seq<Identity>, control: nat -> Control, goneBefore: bool, historyBefore: bool,
                  ghost root: Identity) returns (beamGone: bool, history: bool)
    requires t.Safe(root)
    modifies t`calls, t`trace, t`uncertain
    ensures t.Safe(root)
    ensures beamGone == (goneBefore || Broke(control, |groups|))
    ensures history == (historyBefore || (!goneBefore && Overflowed(control, |groups|)))
    ensures t.State() == if !goneBefore && Broke(control, |groups|)
                         then old(t.State()).(ledger := old(t.Log()).Refuse(Tracking.External)) else old(t.State())
  {
    hide Runs.Safe, Broke, Overflowed;
    NoneYet(control);
    beamGone, history := goneBefore, historyBefore;
    for k := 0 to |groups|
      invariant t.Safe(root)
      invariant beamGone == (goneBefore || Broke(control, k))
      invariant history == (historyBefore || (!goneBefore && Overflowed(control, k)))
      invariant t.State() == if !goneBefore && Broke(control, k)
                             then old(t.State()).(ledger := old(t.Log()).Refuse(Tracking.External)) else old(t.State())
    {
      OneMore(control, k);
      if !beamGone {
        match control(k) {
          case Taken =>
          case Full => history := true;
          case Lost =>
            t.Fail(root);
            beamGone := true;
        }
      }
    }
  }

  /** A scan, and the report of the groups new in it. */
  method Survey(t: Tracker, h: Shutdown.Host, control: nat -> Control, goneBefore: bool, historyBefore: bool,
                ghost root: Identity, ghost due: Option<nat>)
    returns (beamGone: bool, history: bool, ghost found: nat)
    requires t.Safe(root) && Due(t, due)
    modifies t, h`calls, h`clock
    ensures t.Safe(root) && Due(t, due)
    ensures found == |Tracking.Scan(t.c, t.source, old(t.State())).pending|
    ensures t.State() == Tracking.Run(t.c, t.source, old(t.State()), SurveyOps(control, goneBefore, found))
    ensures beamGone == (goneBefore || Broke(control, found))
    ensures history == (historyBefore || (!goneBefore && Overflowed(control, found)))
    ensures (old(t.uncertain) ==> t.uncertain) && (beamGone && !goneBefore ==> t.uncertain)
    ensures h.clock >= old(h.clock) && (h.Ideal() ==> h.clock == old(h.clock))
  {
    hide Runs.Safe, Tracking.Scan, Broke, Overflowed, Tracking.Run;
    Bound.ScanKeeps(t.c, t.source, t.State());
    if t.uncertain {
      StaysUncertain(t.c, t.source, t.State(), 0, root);
    }
    t.Scan(root);
    h.Sleep(0);
    var taken := t.TakeNewGroups(root);
    found := |taken|;
    beamGone, history := Announce(t, taken, control, goneBefore, historyBefore, root);
    SurveyRun(t.c, t.source, old(t.State()), !goneBefore && Broke(control, found));
  }

  lemma SurveyRun(c: Tracking.Config, o: Tracking.Oracle, st: Tracking.Tracked, broke: bool)
    requires o.Lists()
    ensures var ops := [Tracking.DoScan, Tracking.DoTake] + if broke then [Tracking.DoFail] else [];
            var taken := Tracking.Scan(c, o, st).(pending := []);
            Tracking.Run(c, o, st, ops)
            == if broke then taken.(ledger := taken.ledger.Refuse(Tracking.External)) else taken
  {
    hide Tracking.Scan, Tracking.Run;
    OneCall(c, o, st, Tracking.DoScan);
    var two := [Tracking.DoScan] + [Tracking.DoTake];
    Runs.RunOneMore(c, o, st, [Tracking.DoScan], Tracking.DoTake);
    Runs.RunOneMore(c, o, st, two, Tracking.DoFail);
    assert two + [] == two == [Tracking.DoScan, Tracking.DoTake];
  }

  lemma OneCall(c: Tracking.Config, o: Tracking.Oracle, st: Tracking.Tracked, op: Tracking.Op)
    requires o.Lists()
    ensures Tracking.Run(c, o, st, []) == st && Tracking.Run(c, o, st, [op]) == Tracking.Apply(c, o, st, op)
  {
    hide Tracking.Apply;
    Runs.RunOneMore(c, o, st, [], op);
    assert [] + [op] == [op];
  }

  /** How a sample begins: a lost peer, not known before, begins cleanup and discards
      output; then the scan and its reports. */
  method Meet(t: Tracker, h: Shutdown.Host, turn: Turn, interrupt: Option<nat>, grace: nat, goneBefore: bool,
              discardBefore: bool, historyBefore: bool, ghost root: Identity, ghost due: Option<nat>)
    returns (beamGone: bool, discard: bool, history: bool, ghost later: Option<nat>, ghost found: nat)
    requires t.Safe(root) && Due(t, due)
    modifies t, h`calls, h`clock
    ensures t.Safe(root) && Due(t, later)
    ensures var met := Tracking.Run(t.c, t.source, old(t.State()),
                                    OpeningOps(turn, goneBefore, old(h.clock), Graces(interrupt, grace)));
            && found == |Tracking.Scan(t.c, t.source, met).pending|
            && t.State() == Tracking.Run(t.c, t.source, met, SurveyOps(turn.control, goneBefore || turn.peerGone, found))
    ensures beamGone == (goneBefore || turn.peerGone || Broke(turn.control, found))
    ensures discard == (discardBefore || (turn.peerGone && !goneBefore))
    ensures history == (historyBefore || (!goneBefore && !turn.peerGone && Overflowed(turn.control, found)))
    ensures later == if due.None? && turn.peerGone && !goneBefore
                     then Some(old(h.clock) + Shutdown.Spent(interrupt, grace)) else due
    ensures beamGone && !goneBefore ==> later.Some? || t.uncertain
    ensures h.clock >= old(h.clock) && (h.Ideal() ==> h.clock == old(h.clock))
  {
    hide Runs.Safe, Tracking.Run, Tracking.Scan, Tracking.BeginCleanup, Broke, Overflowed, SurveyOps, Shutdown.Spent;
    OneCall(t.c, t.source, t.State(), Graces(interrupt, grace).Begin(h.clock));
    beamGone, discard, later := goneBefore, discardBefore, due;
    if !beamGone && turn.peerGone {
      beamGone, discard := true, true;
      later := Begin(t, h.clock, interrupt, grace, root, later);
    }
    beamGone, history, found := Survey(t, h, turn.control, beamGone, historyBefore, root, later);
  }

  /** One sample, when it is due: look for a lost peer, scan, report new groups, and in
      cleanup take the tracker one pass on. A lost peer and lost certainty begin cleanup
      and discard output. `leave` is the tracker's verdict when the loop is to end. */
  method Sample(t: Tracker, h: Shutdown.Host, turn: Turn, interrupt: Option<nat>, grace: nat, exited: bool,
                goneBefore: bool, discardBefore: bool, historyBefore: bool, ghost root: Identity,
                ghost due: Option<nat>)
    returns (leave: Option<bool>, beamGone: bool, discard: bool, history: bool, ghost later: Option<nat>,
             ghost s: Loops.Sample)
    requires t.Safe(root) && Due(t, due)
    modifies t, h`calls, h`clock
    ensures t.Safe(root) && Due(t, later)
    ensures Met(t.c, t.source, old(t.State()), turn, goneBefore, s, Graces(interrupt, grace))
    ensures t.State() ==
            Tracking.Run(t.c, t.source, old(t.State()), SampleOps(turn, goneBefore, s, Graces(interrupt, grace)))
    ensures leave == SampleVerdict(t.c, t.source, old(t.State()), turn, goneBefore, s, Graces(interrupt, grace), exited)
    ensures beamGone == (goneBefore || PeerLost(turn, Some(s)))
    ensures discard == (discardBefore || (turn.peerGone && !goneBefore) || s.lapsed)
    ensures history == (historyBefore || (!goneBefore && !turn.peerGone && Overflowed(turn.control, s.found)))
    ensures later == if due.Some? then due
                     else if turn.peerGone && !goneBefore then Some(s.from + Shutdown.Spent(interrupt, grace))
                     else if s.lapsed then Some(s.at + Shutdown.Spent(interrupt, grace)) else None
    ensures (t.uncertain ==> later.Some?) && (beamGone && !goneBefore ==> later.Some?) && (s.lapsed ==> due.None?)
    ensures s.cleaning == later.Some?
    ensures s.from == old(h.clock) <= s.at <= h.clock && (h.Ideal() ==> h.clock == old(h.clock))
    ensures h.Ideal() && later.Some? && h.clock >= later.value ==> leave.Some?
    ensures leave.Some? ==> later.Some? && (leave.value ==> exited) && (exited || h.clock >= later.value)
  {
    hide Runs.Safe, Tracking.Run, Tracking.Advance, Tracking.Scan, Verdict, Broke, Overflowed, SurveyOps, OpeningOps;
    hide Met, BeforePass, SampleOps, Shutdown.Spent, Tracking.BeginCleanup;
    ghost var g, st, from := Graces(interrupt, grace), t.State(), h.clock;
    leave := None;
    ghost var found;
    beamGone, discard, history, later, found :=
      Meet(t, h, turn, interrupt, grace, goneBefore, discardBefore, historyBefore, root, due);
    var now := h.clock;
    ghost var surveyed := t.State();
    var lapsed := t.uncertain && t.cleanup.None?;
    if lapsed {
      discard := true;
      later := Begin(t, now, interrupt, grace, root, later);
    }
    var cleaning := t.cleanup.Some?;
    s := Loops.Sample(from, now, found, lapsed, cleaning);
    SampleSoFar(t.c, t.source, st, surveyed, turn, goneBefore, s, g);
    if cleaning {
      leave := Pass(t, now, exited, root, later);
    }
    h.Sleep(0);
  }

  ghost function SampleVerdict(c: Tracking.Config, o: Tracking.Oracle, st: Tracking.Tracked, turn: Turn, gone: bool,
                               s: Loops.Sample, g: Graces, exited: bool): Option<bool>
    requires o.Lists()
  {
    if s.cleaning then Verdict(c, o, Tracking.Run(c, o, st, BeforePass(turn, gone, s, g)), s.at, exited) else None
  }

  /** The calls of a sample up to its pass, put together. */
  lemma SampleSoFar(c: Tracking.Config, o: Tracking.Oracle, st: Tracking.Tracked, surveyed: Tracking.Tracked, turn: Turn,
                    gone: bool, s: Loops.Sample, g: Graces)
    requires o.Lists() && s.from <= s.at
    requires var met := Tracking.Run(c, o, st, OpeningOps(turn, gone, s.from, g));
             && s.found == |Tracking.Scan(c, o, met).pending|
             && surveyed == Tracking.Run(c, o, met, SurveyOps(turn.control, gone || turn.peerGone, s.found))
    requires s.lapsed == (surveyed.ledger.uncertain && surveyed.cleanup.None?)
    requires s.cleaning == (surveyed.cleanup.Some? || s.lapsed)
    ensures Met(c, o, st, turn, gone, s, g)
    ensures var before := Tracking.Run(c, o, st, BeforePass(turn, gone, s, g));
            && before == (if s.lapsed then Tracking.BeginCleanup(surveyed, s.at, g.interrupt, g.term) else surveyed)
            && Tracking.Run(c, o, st, SampleOps(turn, gone, s, g))
               == if s.cleaning then Tracking.Advance(c, o, before, s.at).0 else before
  {
    hide Tracking.Run, Tracking.Advance, Tracking.Scan, Tracking.BeginCleanup, SurveyOps;
    var opening, survey := OpeningOps(turn, gone, s.from, g), SurveyOps(turn.control, gone || turn.peerGone, s.found);
    Runs.RunJoined(c, o, st, opening, survey);
    Runs.RunOneMore(c, o, st, opening + survey, g.Begin(s.at));
    var before := BeforePass(turn, gone, s, g);
    Runs.RunOneMore(c, o, st, before, Tracking.DoAdvance(s.at));
    assert opening + survey + [] == opening + survey && before + [] == before;
    assert BeforePass(turn, gone, s.(lapsed := false), g) == opening + survey;
  }

  /** What one event asks of the tracker: the start of cleanup, or, for a failure to wait
      for the child, the loss of certainty. */
  method React(t: Tracker, e: Incoming, status: Option<nat>, now: nat, interrupt: Option<nat>, grace: nat,
               ghost root: Identity, ghost due: Option<nat>) returns (ghost later: Option<nat>)
    requires t.Safe(root) && Due(t, due)
    modifies t
    ensures t.Safe(root) && Due(t, later)
    ensures t.State() == Tracking.Run(t.c, t.source, old(t.State()), EventOps(e, status, now, Graces(interrupt, grace)))
    ensures t.uncertain == (old(t.uncertain) || e.ChildWaitFailed?)
    ensures later == (if due.None? && Begins(e, status) then Some(now + Shutdown.Spent(interrupt, grace)) else due)
  {
    hide Runs.Safe, Tracking.Run, Tracking.BeginCleanup, Shutdown.Spent;
    OneCall(t.c, t.source, t.State(), Graces(interrupt, grace).Begin(now));
    OneCall(t.c, t.source, t.State(), Tracking.DoFail);
    later := due;
    if Begins(e, status) {
      later := Begin(t, now, interrupt, grace, root, due);
    } else if e.ChildWaitFailed? {
      t.Fail(root);
    }
  }

  /** One event, heard before or at the next sample. A KILL or a timeout after the child's
      end discards nothing; a timeout then does nothing at all. A failure to wait for the
      child costs certainty, which the next sample, due at once, acts on. */
  method Hear(t: Tracker, h: Shutdown.Host, turn: Turn, interrupt: Option<nat>, grace: nat, nextScan: nat,
              statusBefore: Option<nat>, timedBefore: bool, goneBefore: bool, discardBefore: bool,
              ghost root: Identity, ghost due: Option<nat>)
    returns (status: Option<nat>, timedOut: bool, beamGone: bool, discard: bool, scan: nat, ghost later: Option<nat>)
    requires t.Safe(root) && Due(t, due)
    modifies t, h`calls, h`clock
    ensures t.Safe(root) && Due(t, later)
    ensures status == (if turn.event.Ended? then Some(turn.event.status) else statusBefore)
    ensures timedOut == (timedBefore || (turn.event.TimedOut? && statusBefore.None?))
    ensures beamGone == (goneBefore || turn.event.Closed?)
    ensures discard == (discardBefore || turn.event.Closed? || Cancels(turn.event, statusBefore))
    ensures t.State() == Tracking.Run(t.c, t.source, old(t.State()),
                                      EventOps(turn.event, statusBefore, h.clock, Graces(interrupt, grace)))
    ensures t.uncertain == (old(t.uncertain) || turn.event.ChildWaitFailed?)
    ensures later == (if due.None? && Begins(turn.event, statusBefore)
                      then Some(h.clock + Shutdown.Spent(interrupt, grace)) else due)
    ensures scan == (if Begins(turn.event, statusBefore) || turn.event.ChildWaitFailed? then h.clock else nextScan)
    ensures h.clock >= old(h.clock)
    ensures h.Ideal() ==> h.clock <= (if old(h.clock) <= nextScan then nextScan else old(h.clock))
  {
    hide Runs.Safe, Tracking.Run, EventOps, Due, Shutdown.Spent;
    status, timedOut, beamGone, discard, scan := statusBefore, timedBefore, goneBefore, discardBefore, nextScan;
    var left := if h.clock <= nextScan then nextScan - h.clock else 0;
    h.Sleep(if turn.event.Quiet? || left < turn.wait then left else turn.wait);
    later := React(t, turn.event, statusBefore, h.clock, interrupt, grace, root, due);
    match turn.event {
      case Kill =>
        discard := discard || status.None?;
        scan := h.clock;
      case Closed =>
        beamGone, discard := true, true;
        scan := h.clock;
      case TimedOut =>
        if status.None? {
          timedOut, discard := true, true;
          scan := h.clock;
        }
      case ChildWaitFailed =>
        scan := h.clock;
      case Ended(s) =>
        status := Some(s);
        scan := h.clock;
      case Other =>
      case Quiet =>
    }
  }

  /** The request or the lost peer of turn `i` discards output. */
  predicate RefusesAt(turns: seq<Turn>, i: nat)
    requires i < |turns|
  {
    turns[i].event.Closed? || (StatusOf(turns[..i]).None? && (turns[i].event.Kill? || turns[i].event.TimedOut?))
  }

  /** The event of turn `i` calls for the end of the run. */
  predicate EndsAt(turns: seq<Turn>, i: nat)
    requires i < |turns|
  {
    || turns[i].event.Kill? || turns[i].event.Closed? || turns[i].event.Ended?
    || (turns[i].event.TimedOut? && StatusOf(turns[..i]).None?)
  }

  /** What the loop knows is exactly what the turns brought: the child's last status, a
      timeout before it, a peer lost at a sample or heard to close, a report the queue had
      no room for, and output discarded by a request, by a lost peer or by lost certainty.
      Cleanup has begun exactly if an event called for the end, at the latest when it was
      heard, or a sample met a lost peer or lost certainty. */
  ghost predicate Told(turns: seq<Turn>, samples: seq<Option<Loops.Sample>>, heard: seq<nat>, w: Watched,
                       began: Option<nat>)
    requires |heard| <= |samples| <= |turns|
  {
    var n := |heard|;
    && w.status == StatusOf(turns[..n])
    && (w.timedOut <==> exists i :: 0 <= i < n && turns[i].event.TimedOut? && StatusOf(turns[..i]).None?)
    && (w.beamGone <==> Gone(turns, samples, n) || (n < |samples| && PeerLost(turns[n], samples[n])))
    && (w.history <==> exists i :: 0 <= i < |samples| && DroppedAt(turns, samples, i))
    && (w.discard <==> (exists i :: 0 <= i < n && RefusesAt(turns, i))
                       || (exists i :: 0 <= i < |samples| && DiscardsAt(turns, samples, i)))
    && (began.Some? <==> (exists i :: 0 <= i < n && EndsAt(turns, i))
                         || (exists i :: 0 <= i < |samples| && DiscardsAt(turns, samples, i)))
    && (forall i :: 0 <= i < n && EndsAt(turns, i) ==> began.value <= heard[i])
  }

  lemma ToldSample(turns: seq<Turn>, samples: seq<Option<Loops.Sample>>, heard: seq<nat>, w: Watched, began: Option<nat>,
                   s: Option<Loops.Sample>, w': Watched, began': Option<nat>)
    requires |heard| == |samples| < |turns| && Told(turns, samples, heard, w, began)
    requires w'.status == w.status && w'.timedOut == w.timedOut && (began.Some? ==> began' == began)
    requires w'.beamGone == (w.beamGone || PeerLost(turns[|samples|], s))
    requires var turn := turns[|samples|];
             && w'.history == (w.history || (s.Some? && !w.beamGone && !turn.peerGone && Overflowed(turn.control, s.value.found)))
             && w'.discard == (w.discard || (s.Some? && ((turn.peerGone && !w.beamGone) || s.value.lapsed)))
             && began'.Some? == (began.Some? || (s.Some? && ((turn.peerGone && !w.beamGone) || s.value.lapsed)))
    ensures Told(turns, samples + [s], heard, w', began')
  {
    hide Gone, StatusOf, PeerLost, RefusesAt, EndsAt, DroppedAt, DiscardsAt;
    var n, more := |samples|, samples + [s];
    GoneStays(turns, samples, more, n);
    forall i | 0 <= i < n
      ensures DroppedAt(turns, more, i) == DroppedAt(turns, samples, i)
      ensures DiscardsAt(turns, more, i) == DiscardsAt(turns, samples, i)
    {
      SampleStays(turns, samples, more, i);
    }
    LastSample(turns, samples, s);
  }

  lemma SampleStays(turns: seq<Turn>, samples: seq<Option<Loops.Sample>>, more: seq<Option<Loops.Sample>>, i: nat)
    requires i < |samples| <= |more| <= |turns| && samples <= more
    ensures DroppedAt(turns, more, i) == DroppedAt(turns, samples, i)
    ensures DiscardsAt(turns, more, i) == DiscardsAt(turns, samples, i)
  {
    hide Gone, Overflowed;
    GoneStays(turns, samples, more, i);
    assert more[i] == samples[i];
  }

  lemma LastSample(turns: seq<Turn>, samples: seq<Option<Loops.Sample>>, s: Option<Loops.Sample>)
    requires |samples| < |turns|
    ensures var n, more := |samples|, samples + [s]; var gone, turn := Gone(turns, samples, n), turns[n];
            && DroppedAt(turns, more, n) == (s.Some? && !gone && !turn.peerGone && Overflowed(turn.control, s.value.found))
            && DiscardsAt(turns, more, n) == (s.Some? && ((turn.peerGone && !gone) || s.value.lapsed))
  {
    hide Gone, Overflowed;
    GoneStays(turns, samples, samples + [s], |samples|);
  }

  lemma ToldEvent(turns: seq<Turn>, samples: seq<Option<Loops.Sample>>, heard: seq<nat>, w: Watched, began: Option<nat>,
                  w': Watched, at: nat, began': Option<nat>)
    requires |heard| + 1 == |samples| <= |turns| && Told(turns, samples, heard, w, began)
    requires var e := turns[|heard|].event;
             && w'.status == (if e.Ended? then Some(e.status) else w.status)
             && w'.timedOut == (w.timedOut || (e.TimedOut? && w.status.None?))
             && w'.beamGone == (w.beamGone || e.Closed?)
             && w'.discard == (w.discard || e.Closed? || Cancels(e, w.status)) && w'.history == w.history
             && began'.Some? == (began.Some? || Begins(e, w.status)) && (Begins(e, w.status) ==> began'.value <= at)
    requires began.Some? ==> began' == began
    ensures Told(turns, samples, heard + [at], w', began')
  {
    hide Gone, PeerLost, DroppedAt, DiscardsAt, Begins, Cancels, RefusesAt, EndsAt, StatusOf;
    var n, longer := |heard|, heard + [at];
    StatusMore(turns, n);
    assert forall i :: 0 <= i < n ==> longer[i] == heard[i];
    assert longer[n] == at;
    GoneMore(turns, samples, n);
    RefusesWhen(turns, n);
  }

  lemma RefusesWhen(turns: seq<Turn>, n: nat)
    requires n < |turns|
    ensures RefusesAt(turns, n) == (turns[n].event.Closed? || Cancels(turns[n].event, StatusOf(turns[..n])))
    ensures EndsAt(turns, n) == Begins(turns[n].event, StatusOf(turns[..n]))
  {
    hide StatusOf;
  }

  lemma StatusMore(turns: seq<Turn>, n: nat)
    requires n < |turns|
    ensures StatusOf(turns[..n + 1]) ==
            if turns[n].event.Ended? then Some(turns[n].event.status) else StatusOf(turns[..n])
  {
    assert turns[..n + 1][..n] == turns[..n];
  }

  lemma ToldNothing(turns: seq<Turn>, w: Watched)
    requires w == Watched(None, None, false, false, false, false)
    ensures Told(turns, [], [], w, None)
  {
  }

  /** When a cleanup is over at the latest. */
  function Planned(began: Option<nat>, overall: nat): Option<nat> {
    if began.Some? then Some(began.value + overall) else None
  }

  /** Where the loop stands, for the time it takes: no later than one sample past the
      deadline, with the next sample no later either. */
  ghost predicate InTime(began: Option<nat>, overall: nat, clock: nat, nextScan: nat) {
    began.Some? ==>
      && clock <= began.value + overall + Tracking.SAMPLE_INTERVAL
      && nextScan <= began.value + overall + Tracking.SAMPLE_INTERVAL
  }

  /** The sample of one turn, taken into what the loop knows. */
  method TakeSample(t: Tracker, h: Shutdown.Host, ghost turns: seq<Turn>, turn: Turn, interrupt: Option<nat>, grace: nat,
                    before: Watched, ghost root: Identity, ghost st: Tracking.Tracked,
                    ghost samples: seq<Option<Loops.Sample>>, ghost heard: seq<nat>, ghost began: Option<nat>)
    returns (w: Watched, ghost s: Loops.Sample, ghost later: Option<nat>)
    requires t.Safe(root) && Due(t, Planned(began, Shutdown.Spent(interrupt, grace)))
    requires |heard| == |samples| < |turns| && turns[|samples|] == turn && Told(turns, samples, heard, before, began)
    requires Kept(t.c, t.source, st, t.State(), turns, samples, heard, Graces(interrupt, grace), began)
    requires before.confirmed.None? && (before.beamGone ==> began.Some?)
    modifies t, h`calls, h`clock
    ensures t.Safe(root) && Due(t, Planned(later, Shutdown.Spent(interrupt, grace)))
    ensures later == BeganAfter(began, turn, before.beamGone, s) && s.cleaning == later.Some?
    ensures before.beamGone == Gone(turns, samples, |samples|)
    ensures Told(turns, samples + [Some(s)], heard, w, later) && (w.beamGone || t.uncertain ==> later.Some?)
    ensures Kept(t.c, t.source, st, t.State(), turns, samples + [Some(s)], heard, Graces(interrupt, grace), later)
    ensures MetAt(t.c, t.source, st, turns, samples + [Some(s)], heard, Graces(interrupt, grace), |samples|)
    ensures w.confirmed ==
            VerdictAt(t.c, t.source, st, turns, samples + [Some(s)], heard, Graces(interrupt, grace), |samples|)
    ensures s.from == old(h.clock) <= s.at <= h.clock && (h.Ideal() ==> h.clock == old(h.clock))
    ensures h.Ideal() && later.Some? && h.clock >= later.value + Shutdown.Spent(interrupt, grace) ==> w.confirmed.Some?
    ensures w.confirmed.Some? ==>
      && later.Some? && (w.status.Some? || h.clock >= later.value + Shutdown.Spent(interrupt, grace))
      && (w.confirmed.value ==> w.status.Some?)
  {
    hide Runs.Safe, Told, Due, Kept, MetAt, VerdictAt, Met, Verdict, SampleOps, BeforePass, Tracking.Run, Gone, PeerLost, Overflowed;
    ghost var due;
    ghost var now := t.State();
    ToldGone(turns, samples, heard, before, began);
    var leave, beamGone, discard, history;
    leave, beamGone, discard, history, due, s :=
      Sample(t, h, turn, interrupt, grace, before.status.Some?, before.beamGone, before.discard, before.history, root,
             Planned(began, Shutdown.Spent(interrupt, grace)));
    later := BeganAfter(began, turn, before.beamGone, s);
    w := before.(confirmed := leave, beamGone := beamGone, discard := discard, history := history);
    ToldSample(turns, samples, heard, before, began, Some(s), w, later);
    KeptSample(t.c, t.source, st, now, t.State(), turns, samples, heard, Graces(interrupt, grace), began, s);
  }

  lemma ToldGone(turns: seq<Turn>, samples: seq<Option<Loops.Sample>>, heard: seq<nat>, w: Watched, began: Option<nat>)
    requires |heard| <= |samples| <= |turns| && Told(turns, samples, heard, w, began)
    ensures w.status == StatusOf(turns[..|heard|])
    ensures |heard| == |samples| ==> w.beamGone == Gone(turns, samples, |heard|)
  {
    hide Gone, StatusOf;
  }

  /** The event of one turn, taken into what the loop knows. */
  method TakeEvent(t: Tracker, h: Shutdown.Host, ghost turns: seq<Turn>, turn: Turn, interrupt: Option<nat>, grace: nat,
                   nextScan: nat, before: Watched, ghost root: Identity, ghost st: Tracking.Tracked,
                   ghost samples: seq<Option<Loops.Sample>>, ghost heard: seq<nat>, ghost began: Option<nat>)
    returns (w: Watched, scan: nat, ghost later: Option<nat>)
    requires t.Safe(root) && Due(t, Planned(began, Shutdown.Spent(interrupt, grace)))
    requires |heard| + 1 == |samples| <= |turns| && turns[|heard|] == turn && Told(turns, samples, heard, before, began)
    requires Kept(t.c, t.source, st, t.State(), turns, samples, heard, Graces(interrupt, grace), began)
    requires MetAt(t.c, t.source, st, turns, samples, heard, Graces(interrupt, grace), |heard|)
    requires VerdictAt(t.c, t.source, st, turns, samples, heard, Graces(interrupt, grace), |heard|).None?
    requires before.confirmed.None? && (before.beamGone ==> began.Some?) && (began.Some? ==> began.value <= h.clock)
    modifies t, h`calls, h`clock
    ensures t.Safe(root) && Due(t, Planned(later, Shutdown.Spent(interrupt, grace)))
    ensures later == BeganThen(began, turn.event, before.status, h.clock) && before.status == StatusOf(turns[..|heard|])
    ensures Told(turns, samples, heard + [h.clock], w, later) && (w.beamGone ==> later.Some?) && w.confirmed.None?
    ensures Kept(t.c, t.source, st, t.State(), turns, samples, heard + [h.clock], Graces(interrupt, grace), later)
    ensures t.uncertain == (old(t.uncertain) || turn.event.ChildWaitFailed?)
    ensures scan == if Urgent(turn.event, before.status) then h.clock else nextScan
    ensures h.clock >= old(h.clock)
    ensures h.Ideal() ==> h.clock <= (if old(h.clock) <= nextScan then nextScan else old(h.clock))
  {
    hide Runs.Safe, Told, Due, Kept, MetAt, VerdictAt, Tracking.Run, EventOps, StatusOf, Gone;
    ghost var due;
    ghost var now := t.State();
    ToldGone(turns, samples, heard, before, began);
    var status, timedOut, beamGone, discard;
    status, timedOut, beamGone, discard, scan, due :=
      Hear(t, h, turn, interrupt, grace, nextScan, before.status, before.timedOut, before.beamGone, before.discard, root,
           Planned(began, Shutdown.Spent(interrupt, grace)));
    later := BeganThen(began, turn.event, before.status, h.clock);
    w := before.(status := status, timedOut := timedOut, beamGone := beamGone, discard := discard);
    ToldEvent(turns, samples, heard, before, began, w, h.clock, later);
    KeptEvent(t.c, t.source, st, now, t.State(), turns, samples, heard, Graces(interrupt, grace), began, h.clock);
  }

  /** The sample of a turn, if one is due, and when the next one is. */
  method SampleIfDue(t: Tracker, h: Shutdown.Host, ghost turns: seq<Turn>, turn: Turn, interrupt: Option<nat>, grace: nat,
                     nextScan: nat, before: Watched, ghost root: Identity, ghost st: Tracking.Tracked,
                     ghost samples: seq<Option<Loops.Sample>>, ghost heard: seq<nat>, ghost began: Option<nat>)
    returns (w: Watched, scan: nat, ghost s: Option<Loops.Sample>, ghost later: Option<nat>)
    requires t.Safe(root) && Due(t, Planned(began, Shutdown.Spent(interrupt, grace)))
    requires |heard| == |samples| < |turns| && turns[|samples|] == turn && Told(turns, samples, heard, before, began)
    requires Kept(t.c, t.source, st, t.State(), turns, samples, heard, Graces(interrupt, grace), began)
    requires before.confirmed.None? && (before.beamGone ==> began.Some?) && (began.Some? ==> began.value <= h.clock)
    requires t.uncertain && began.None? ==> nextScan <= h.clock
    requires h.Ideal() ==> h.clock <= nextScan && InTime(began, Shutdown.Spent(interrupt, grace), h.clock, nextScan)
    requires h.Ideal() ==> Paced(Calls(turns, samples, heard, Graces(interrupt, grace)), began, h.clock, nextScan)
    modifies t, h`calls, h`clock
    ensures t.Safe(root) && Due(t, Planned(later, Shutdown.Spent(interrupt, grace)))
    ensures s.Some? == (old(h.clock) >= nextScan) && (s.Some? ==> old(h.clock) <= s.value.from <= s.value.at <= h.clock)
    ensures scan == if s.Some? && w.confirmed.None? then h.clock + Tracking.SAMPLE_INTERVAL else nextScan
    ensures Told(turns, samples + [s], heard, w, later) && (w.beamGone || t.uncertain ==> later.Some?)
    ensures Kept(t.c, t.source, st, t.State(), turns, samples + [s], heard, Graces(interrupt, grace), later)
    ensures MetAt(t.c, t.source, st, turns, samples + [s], heard, Graces(interrupt, grace), |samples|)
    ensures w.confirmed ==
            VerdictAt(t.c, t.source, st, turns, samples + [s], heard, Graces(interrupt, grace), |samples|)
    ensures w.confirmed.Some? ==>
      && s.Some? && later.Some? && (w.status.Some? || h.clock >= later.value + Shutdown.Spent(interrupt, grace))
      && (w.confirmed.value ==> w.status.Some?)
    ensures h.clock >= old(h.clock) && (later.Some? ==> later.value <= h.clock)
    ensures h.Ideal() ==>
      && h.clock <= scan && InTime(later, Shutdown.Spent(interrupt, grace), h.clock, scan)
      && (w.confirmed.None? ==> Paced(Calls(turns, samples + [s], heard, Graces(interrupt, grace)), later, h.clock, scan))
      && (w.confirmed.Some? ==> Paced(Calls(turns, samples + [s], heard, Graces(interrupt, grace)), later, h.clock, h.clock))
  {
    hide Runs.Safe, Told, Due, Kept, MetAt, VerdictAt, Gone, Calls, Paced, BeganAfter, StatusOf, SampleOps;
    ghost var g := Graces(interrupt, grace);
    w, scan, later, s := before, nextScan, began, None;
    KeptBegan(t.c, t.source, st, t.State(), turns, samples, heard, g, began);
    if h.clock >= nextScan {
      ghost var taken;
      w, taken, later := TakeSample(t, h, turns, turn, interrupt, grace, w, root, st, samples, heard, began);
      s := Some(taken);
      CallsSample(turns, samples, heard, g, s);
      BeganWhen(began, turn, before.beamGone, taken);
      if h.Ideal() {
        SamplePaced(Calls(turns, samples, heard, g), began, turn, before.beamGone, taken, g);
        PacedSooner(Calls(turns, samples + [s], heard, g), later, h.clock, h.clock + Tracking.SAMPLE_INTERVAL);
      }
      if w.confirmed.None? {
        scan := h.clock + Tracking.SAMPLE_INTERVAL;
      }
    } else {
      KeptNone(t.c, t.source, st, t.State(), turns, samples, heard, g, began);
      ToldSample(turns, samples, heard, before, began, None, before, began);
    }
  }

  lemma KeptBegan(c: Tracking.Config, o: Tracking.Oracle, st: Tracking.Tracked, now: Tracking.Tracked, turns: seq<Turn>,
                  samples: seq<Option<Loops.Sample>>, heard: seq<nat>, g: Graces, began: Option<nat>)
    requires o.Lists() && |heard| <= |samples| <= |turns| && Kept(c, o, st, now, turns, samples, heard, g, began)
    ensures BegunAt(Calls(turns, samples, heard, g), began, g)
  {
    hide Tracking.Run, Calls, BegunAt;
  }

  lemma BeganWhen(began: Option<nat>, turn: Turn, gone: bool, s: Loops.Sample)
    ensures var later := BeganAfter(began, turn, gone, s);
            if began.Some? then later == began else later.Some? ==> later.value == s.from || later.value == s.at
  {
  }

  lemma PacedSooner(ops: seq<Tracking.Op>, began: Option<nat>, clock: nat, nextScan: nat)
    requires Paced(ops, began, clock, nextScan) && clock <= nextScan
    ensures Paced(ops, began, clock, clock)
  {
  }

  /** One turn: its sample if it is due, and unless that ends the loop, its event. */
  method TakeTurn(t: Tracker, h: Shutdown.Host, ghost turns: seq<Turn>, turn: Turn, interrupt: Option<nat>, grace: nat,
                  nextScan: nat, before: Watched, ghost root: Identity, ghost st: Tracking.Tracked,
                  ghost samples: seq<Option<Loops.Sample>>, ghost heard: seq<nat>, ghost began: Option<nat>)
    returns (w: Watched, scan: nat, ghost s: Option<Loops.Sample>, ghost later: Option<nat>)
    requires t.Safe(root) && Due(t, Planned(began, Shutdown.Spent(interrupt, grace)))
    requires |heard| == |samples| < |turns| && turns[|samples|] == turn && Told(turns, samples, heard, before, began)
    requires Kept(t.c, t.source, st, t.State(), turns, samples, heard, Graces(interrupt, grace), began)
    requires before.confirmed.None? && (before.beamGone ==> began.Some?) && (began.Some? ==> began.value <= h.clock)
    requires t.uncertain && began.None? ==> nextScan <= h.clock
    requires h.Ideal() ==> h.clock <= nextScan && InTime(began, Shutdown.Spent(interrupt, grace), h.clock, nextScan)
    requires h.Ideal() ==> Paced(Calls(turns, samples, heard, Graces(interrupt, grace)), began, h.clock, nextScan)
    modifies t, h`calls, h`clock
    ensures t.Safe(root) && Due(t, Planned(later, Shutdown.Spent(interrupt, grace)))
    ensures s.Some? == (old(h.clock) >= nextScan) && (s.Some? ==> old(h.clock) <= s.value.from <= s.value.at <= h.clock)
    ensures w.beamGone ==> later.Some?
    ensures h.clock >= old(h.clock) && (later.Some? ==> later.value <= h.clock)
    ensures h.Ideal() ==> h.clock <= scan && InTime(later, Shutdown.Spent(interrupt, grace), h.clock, scan)
    ensures w.confirmed.Some? ==>
      && Told(turns, samples + [s], heard, w, later)
      && Kept(t.c, t.source, st, t.State(), turns, samples + [s], heard, Graces(interrupt, grace), later)
      && MetAt(t.c, t.source, st, turns, samples + [s], heard, Graces(interrupt, grace), |samples|)
      && w.confirmed == VerdictAt(t.c, t.source, st, turns, samples + [s], heard, Graces(interrupt, grace), |samples|)
      && s.Some? && later.Some? && (w.status.Some? || h.clock >= later.value + Shutdown.Spent(interrupt, grace))
      && (w.confirmed.value ==> w.status.Some?)
      && (h.Ideal() ==> Paced(Calls(turns, samples + [s], heard, Graces(interrupt, grace)), later, h.clock, h.clock))
    ensures w.confirmed.None? ==>
      && Told(turns, samples + [s], heard + [h.clock], w, later)
      && Kept(t.c, t.source, st, t.State(), turns, samples + [s], heard + [h.clock], Graces(interrupt, grace), later)
      && (DueAt(turns, |samples| + 1) ==> scan <= h.clock)
      && (scan <= h.clock || scan <= if s.Some? then h.clock + Tracking.SAMPLE_INTERVAL else nextScan)
      && (t.uncertain && later.None? ==> turn.event.ChildWaitFailed? && scan <= h.clock)
      && (h.Ideal() ==> Paced(Calls(turns, samples + [s], heard + [h.clock], Graces(interrupt, grace)), later, h.clock, scan))
  {
    hide Runs.Safe, Told, Due, Kept, MetAt, VerdictAt, Calls, Paced, BeganThen, InTime, StatusOf, Urgent, DueAt, EventOps;
    ghost var g := Graces(interrupt, grace);
    w, scan, s, later :=
      SampleIfDue(t, h, turns, turn, interrupt, grace, nextScan, before, root, st, samples, heard, began);
    if w.confirmed.Some? {
      return;
    }
    ghost var more, begun, clock, left, known := samples + [s], later, h.clock, scan, w.status;
    KeptBegan(t.c, t.source, st, t.State(), turns, more, heard, g, begun);
    w, scan, later := TakeEvent(t, h, turns, turn, interrupt, grace, scan, w, root, st, more, heard, begun);
    CallsEvent(turns, more, heard, g, h.clock);
    Hurry(turns, |samples|, known);
    if h.Ideal() {
      EventPaced(Calls(turns, more, heard, g), begun, turn.event, known, clock, left, h.clock, scan, g);
      EventInTime(begun, turn.event, known, Shutdown.Spent(interrupt, grace), clock, left, h.clock, scan);
    }
    BeganNow(begun, turn.event, known, h.clock);
  }

  lemma Hurry(turns: seq<Turn>, n: nat, status: Option<nat>)
    requires n < |turns| && status == StatusOf(turns[..n])
    ensures DueAt(turns, n + 1) == Urgent(turns[n].event, status)
    ensures Begins(turns[n].event, status) || turns[n].event.ChildWaitFailed? <==> Urgent(turns[n].event, status)
  {
    hide StatusOf, Begins;
  }

  lemma BeganNow(began: Option<nat>, e: Incoming, status: Option<nat>, at: nat)
    ensures var later := BeganThen(began, e, status, at);
            if began.Some? then later == began else later.Some? ==> later.value == at
  {
  }

  lemma EventInTime(began: Option<nat>, e: Incoming, status: Option<nat>, overall: nat, clock: nat, nextScan: nat, at: nat,
                    scan: nat)
    requires InTime(began, overall, clock, nextScan) && clock <= at <= nextScan && (scan == nextScan || scan == at)
    requires Begins(e, status) ==> scan == at
    ensures InTime(BeganThen(began, e, status, at), overall, at, scan)
  {
  }

  /** What the loop did about what it heard, each event at its own time, and what it asked
      of the tracker. Every request for the run's end, the child's own end and a lost peer
      begin cleanup at once; so does lost certainty, unless the event that cost it is the
      very last. The loop is left at the first sample whose pass calls for it, which takes
      the child's end or the deadline; until then it goes on. */
  ghost predicate Followed(c: Tracking.Config, o: Tracking.Oracle, st: Tracking.Tracked, now: Tracking.Tracked,
                           turns: seq<Turn>, k: Course, g: Graces, overall: nat, start: nat)
    requires o.Lists()
  {
    && |k.samples| == |k.heard| + (if k.w.confirmed.Some? then 1 else 0)
    && |k.samples| <= |turns| && (k.w.confirmed.None? ==> |k.samples| == |turns|)
    && Told(turns, k.samples, k.heard, k.w, k.began) && Sampled(turns, k.samples, k.heard)
    && Timed(k.samples, k.heard, start, k.at)
    && Kept(c, o, st, now, turns, k.samples, k.heard, g, k.began)
    && (k.w.confirmed.Some? ==>
          && MetAt(c, o, st, turns, k.samples, k.heard, g, |k.heard|)
          && VerdictAt(c, o, st, turns, k.samples, k.heard, g, |k.heard|) == k.w.confirmed
          && k.began.Some? && (k.w.status.Some? || (k.at >= k.began.value + overall && !k.w.confirmed.value)))
    && (k.w.beamGone ==> k.began.Some?) && (k.began.Some? ==> k.began.value <= k.at)
    && (k.uncertain && k.began.None? ==> k.heard == [] || turns[|k.heard| - 1].event.ChildWaitFailed?)
  }

  /** Sampling until the tracker says to leave, or the turns are used up. While cleanup
      runs, the loop is never later than one sample past its deadline; and with instant
      calls a loop that is left has seen its cleanup through, as `Loops.LoopReachesKill`
      and `Loops.LoopReachesProcess` need it. */
  method Watch(t: Tracker, h: Shutdown.Host, interrupt: Option<nat>, grace: nat, turns: seq<Turn>, ghost root: Identity)
    returns (w: Watched, ghost k: Course)
    requires t.Safe(root) && t.cleanup.None?
    modifies t, h
    ensures t.Safe(root) && h.log == old(h.log) && h.waited == old(h.waited)
    ensures k.w == w && k.uncertain == t.uncertain && k.at == h.clock >= old(h.clock)
    ensures Due(t, Planned(k.began, Shutdown.Spent(interrupt, grace)))
    ensures Followed(t.c, t.source, old(t.State()), t.State(), turns, k, Graces(interrupt, grace),
                     Shutdown.Spent(interrupt, grace), old(h.clock))
    ensures h.Ideal() && k.began.Some? ==>
      h.clock <= k.began.value + Shutdown.Spent(interrupt, grace) + Tracking.SAMPLE_INTERVAL
    ensures h.Ideal() ==> Paced(Calls(turns, k.samples, k.heard, Graces(interrupt, grace)), k.began, h.clock, h.clock)
    ensures h.Ideal() && w.confirmed.Some? ==>
      SeenThrough(t.c, t.source, old(t.State()), Calls(turns, k.samples, k.heard, Graces(interrupt, grace)))
  {
    hide Runs.Safe, Told, Kept, MetAt, VerdictAt, Calls, Timed, Sampled, DueAt, Regular, Gone, SeenThrough;
    ghost var overall, g, st := Shutdown.Spent(interrupt, grace), Graces(interrupt, grace), t.State();
    ghost var samples: seq<Option<Loops.Sample>>, heard: seq<nat>, began: Option<nat> := [], [], None;
    w := Watched(None, None, false, false, false, false);
    ToldNothing(turns, w);
    KeptStart(t.c, t.source, st, turns, g);
    var nextScan: nat := h.clock;
    RegularStart(turns, h.clock);
    assert Due(t, Planned(began, overall)) && Paced([], began, h.clock, nextScan) && InTime(began, overall, h.clock, nextScan);
    hide Due, Followed, Paced, InTime, Planned, Shutdown.Spent;
    for i := 0 to |turns|
      invariant t.Safe(root) && Due(t, Planned(began, overall)) && h.log == old(h.log) && h.waited == old(h.waited)
      invariant |heard| == |samples| == i && w.confirmed.None? && Told(turns, samples, heard, w, began)
      invariant Kept(t.c, t.source, st, t.State(), turns, samples, heard, g, began)
      invariant Regular(turns, samples, heard, old(h.clock), h.clock, nextScan)
      invariant (w.beamGone ==> began.Some?) && (began.Some? ==> began.value <= h.clock)
      invariant t.uncertain && began.None? ==> nextScan <= h.clock && (i == 0 || turns[i - 1].event.ChildWaitFailed?)
      invariant h.clock >= old(h.clock)
      invariant h.Ideal() ==> h.clock <= nextScan && InTime(began, overall, h.clock, nextScan)
      invariant h.Ideal() ==> Paced(Calls(turns, samples, heard, g), began, h.clock, nextScan)
    {
      ghost var s;
      ghost var clock, due := h.clock, nextScan;
      w, nextScan, s, began := TakeTurn(t, h, turns, turns[i], interrupt, grace, nextScan, w, root, st, samples, heard, began);
      RegularSample(turns, samples, heard, old(h.clock), clock, due, s, h.clock);
      if w.confirmed.Some? {
        samples := samples + [s];
        k := Course(w, samples, heard, began, t.uncertain, h.clock);
        LeftFollowed(t.c, t.source, st, t.State(), turns, k, g, overall, old(h.clock));
        KeptBegan(t.c, t.source, st, t.State(), turns, samples, heard, g, began);
        if h.Ideal() {
          TimeKept(began, overall, h.clock, nextScan);
          LeftMeansThrough(t.c, t.source, st, turns, samples, heard, g, began, h.clock, h.clock);
        }
        return;
      }
      RegularEvent(turns, samples, heard, old(h.clock), clock, due, s, h.clock, nextScan);
      samples, heard := samples + [s], heard + [h.clock];
    }
    k := Course(w, samples, heard, began, t.uncertain, h.clock);
    RegularTimes(turns, samples, heard, old(h.clock), h.clock, nextScan);
    UsedFollowed(t.c, t.source, st, t.State(), turns, k, g, overall, old(h.clock));
    if h.Ideal() {
      TimeKept(began, overall, h.clock, nextScan);
      PacedSooner(Calls(turns, samples, heard, g), began, h.clock, nextScan);
    }
  }

  lemma TimeKept(began: Option<nat>, overall: nat, clock: nat, nextScan: nat)
    requires InTime(began, overall, clock, nextScan)
    ensures began.Some? ==> clock <= began.value + overall + Tracking.SAMPLE_INTERVAL
  {
  }

  lemma RegularTimes(turns: seq<Turn>, samples: seq<Option<Loops.Sample>>, heard: seq<nat>, start: nat, clock: nat,
                     nextScan: nat)
    requires |heard| == |samples| <= |turns| && Regular(turns, samples, heard, start, clock, nextScan)
    ensures Timed(samples, heard, start, clock) && Sampled(turns, samples, heard)
  {
    hide Timed, Sampled;
  }

  lemma LeftFollowed(c: Tracking.Config, o: Tracking.Oracle, st: Tracking.Tracked, now: Tracking.Tracked, turns: seq<Turn>,
                     k: Course, g: Graces, overall: nat, start: nat)
    requires o.Lists() && |k.samples| == |k.heard| + 1 <= |turns|
    requires Told(turns, k.samples, k.heard, k.w, k.began) && Sampled(turns, k.samples, k.heard)
    requires Timed(k.samples, k.heard, start, k.at) && Kept(c, o, st, now, turns, k.samples, k.heard, g, k.began)
    requires MetAt(c, o, st, turns, k.samples, k.heard, g, |k.heard|)
    requires VerdictAt(c, o, st, turns, k.samples, k.heard, g, |k.heard|) == k.w.confirmed
    requires k.w.confirmed.Some? && k.began.Some? && k.began.value <= k.at
    requires k.w.status.Some? || (k.at >= k.began.value + overall && !k.w.confirmed.value)
    ensures Followed(c, o, st, now, turns, k, g, overall, start)
  {
    hide Told, Sampled, Timed, Kept, MetAt, VerdictAt;
  }

  lemma UsedFollowed(c: Tracking.Config, o: Tracking.Oracle, st: Tracking.Tracked, now: Tracking.Tracked, turns: seq<Turn>,
                     k: Course, g: Graces, overall: nat, start: nat)
    requires o.Lists() && |k.heard| == |turns| == |k.samples| && k.w.confirmed.None?
    requires Told(turns, k.samples, k.heard, k.w, k.began) && Sampled(turns, k.samples, k.heard)
    requires Timed(k.samples, k.heard, start, k.at) && Kept(c, o, st, now, turns, k.samples, k.heard, g, k.began)
    requires (k.w.beamGone ==> k.began.Some?) && (k.began.Some? ==> k.began.value <= k.at)
    requires k.uncertain && k.began.None? ==> turns == [] || turns[|turns| - 1].event.ChildWaitFailed?
    ensures Followed(c, o, st, now, turns, k, g, overall, start)
  {
    hide Told, Sampled, Timed, Kept, MetAt, VerdictAt;
  }

  /** What a confirmed report of a tracked run rests on: nothing in the whole log cost the
      run its certainty, the last scan was complete and left no process alive, the root
      was reaped, and the cgroup, if any, was seen empty. */
  ghost predicate Vouched(c: Tracking.Config, trace: seq<Tracking.Event>, processes: map<nat, Record>,
                          waited: Shutdown.Wait, log: seq<Shutdown.Event>, cgroup: bool)
  {
    && !Safety.Failed(c, trace)
    && Safety.Misses(trace) == 0
    && (forall q :: q in processes ==> processes[q].exited)
    && waited.Ended? && Shutdown.Latest(log, Shutdown.RootReaped) == Some(true)
    && (cgroup ==> Shutdown.Latest(log, Shutdown.CgroupDrained) == Some(true))
  }

  /** The state in which the last scan leaves the tracker, and what is made of it. */
  ghost function Final(c: Tracking.Config, o: Tracking.Oracle, left: Tracking.Tracked): Tracking.Tracked
    requires o.Lists()
  {
    Tracking.FinishScan(c, o, left).0
  }

  /** The last scan, the reaping of the root and the end of the cgroup. A root not seen to
      end is killed before it is reaped, and the cgroup before it is awaited. */
  method Settle(t: Tracker, h: Shutdown.Host, grace: nat, cgroup: bool, before: Option<nat>, ghost root: Identity)
    returns (status: Option<nat>, settled: bool)
    requires t.Safe(root) && h.log == []
    modifies t, h
    ensures t.Safe(root) && t.State() == Final(t.c, t.source, old(t.State()))
    ensures settled <==> Vouched(t.c, t.trace, t.processes, h.waited, h.log, cgroup)
    ensures status == (if h.waited.Ended? then Some(h.waited.status) else before)
    ensures h.log != [] && (h.log[0] == Shutdown.RootKilled <==> before.None?)
    ensures cgroup ==> Shutdown.CgroupHit([], h.log)
    ensures Shutdown.Reports(h.log) == 0
    ensures h.clock >= old(h.clock)
    ensures h.Ideal() ==>
      h.clock <= old(h.clock) + Tracking.CONFIRM_GRACE + if cgroup then grace + Shutdown.CGROUP_DRAIN_PROBE else 0
  {
    hide Runs.Safe, Shutdown.Signals, Shutdown.Latest, Shutdown.Reports, Tracking.FinishScan, Shutdown.CgroupHit;
    NothingReported();
    status := before;
    var complete := t.FinishScan(root);
    h.Sleep(0);
    if status.None? {
      Shutdown.Logged(h.log, Shutdown.RootKilled);
      h.Call(Shutdown.RootKilled);
    }
    var reaped := Shutdown.ReapRoot(h, Tracking.CONFIRM_GRACE);
    if reaped.Ended? {
      status := Some(reaped.status);
    }
    ghost var log := h.log;
    var cgroupConfirmed := true;
    if cgroup {
      cgroupConfirmed := Shutdown.FinishCgroup(h, grace);
      Shutdown.HitAfter([], log, h.log, h.log);
    }
    assert h.log[0] == log[0];
    settled := complete && reaped.Ended? && cgroupConfirmed;
  }

  /** Counts the reports the queue has no room for; a last one may find it lost as well. */
  predicate Refused(takes: nat -> bool, n: nat) {
    exists k: nat :: k < n && !takes(k)
  }

  /** Hands the queue the last groups found; one it does not take truncates the history. */
  method AnnounceLast(groups: seq<Identity>, takes: nat -> bool, before: bool) returns (history: bool)
    ensures history == (before || Refused(takes, |groups|))
  {
    history := before;
    for k := 0 to |groups|
      invariant history == (before || Refused(takes, k))
    {
      if !takes(k) {
        history := true;
      }
    }
  }

  /** The drain of a tracked run's output. */
  datatype Drain = Going | PeerGone | Over(truncated: bool)

  method DrainOutput(h: Shutdown.Host, strict: bool, discard: bool, pumps: nat, rounds: seq<Shutdown.Round>)
    returns (d: Drain, ghost used: nat)
    requires Shutdown.Reports(h.log) == 0
    modifies h
    ensures used <= |rounds| && Shutdown.Reports(h.log) <= pumps
    ensures d.PeerGone? <==> strict && !discard && used > 0 && Shutdown.PeerLost(rounds[used - 1])
    ensures d.Going? ==> strict && !discard && Shutdown.AllCalm(rounds) && Shutdown.Reports(h.log) < pumps
    ensures d.Over? ==>
      (d.truncated <==> discard || Shutdown.Reports(h.log) < pumps || (strict && !Shutdown.AllCalm(rounds[..used])))
    ensures d.Over? && Shutdown.Reports(h.log) < pumps ==>
      && Shutdown.GaveUp(h.log, h.clock)
      && (strict && !discard && Shutdown.LastCalm(rounds, used) ==> Shutdown.LastGone(h.log))
    ensures forall probe :: Shutdown.Latest(h.log, probe) == Shutdown.Latest(old(h.log), probe)
    ensures old(h.log) <= h.log && h.waited == old(h.waited) && h.clock >= old(h.clock)
    ensures h.Ideal() && (!strict || discard) ==> h.clock <= old(h.clock) + Shutdown.OUTPUT_DRAIN_GRACE
  {
    hide Shutdown.Signals, Shutdown.Latest, Shutdown.Reports, Shutdown.AllCalm, Shutdown.Settles, Shutdown.GaveUp;
    hide Shutdown.LastGone, Shutdown.LastCalm;
    used := 0;
    if strict && !discard {
      var g;
      g, used := Shutdown.DrainStrict(h, pumps, rounds);
      Shutdown.RoundsUsed(rounds, used, g, Shutdown.Reports(h.log) == pumps, Shutdown.LastGone(h.log));
      OpenCalm(rounds, used, g, Shutdown.Reports(h.log) == pumps, Shutdown.LastGone(h.log));
      d := if g.Open? then Going else if g.disappeared then PeerGone else Over(!g.drained || g.cancelled);
    } else {
      var drained := Shutdown.DrainPumps(h, pumps);
      Shutdown.CalmNone(rounds);
      d := Over(discard || !drained);
    }
  }

  /** How a run ends once its loop is left. */
  ghost predicate Ends(end: End, w: Watched, strict: bool, pumps: nat, rounds: seq<Shutdown.Round>, used: nat,
                       waited: Shutdown.Wait, reports: nat, refused: bool)
    requires used <= |rounds|
  {
    match end
    case Supervising => false
    case Draining => strict && !w.discard && !w.beamGone && Shutdown.AllCalm(rounds) && reports < pumps
    case Silent => w.beamGone || (strict && !w.discard && used > 0 && Shutdown.PeerLost(rounds[used - 1]))
    case Reported(report, historyTruncated) =>
      && !w.beamGone && !(strict && !w.discard && used > 0 && Shutdown.PeerLost(rounds[used - 1]))
      && report.status == (if waited.Ended? then Some(waited.status) else w.status)
      && report.timedOut == w.timedOut
      && (report.truncated <==> w.discard || reports < pumps || (strict && !Shutdown.AllCalm(rounds[..used])))
      && historyTruncated == (w.history || refused)
  }

  /** What a tracked run still owes a peer that is there: the last groups, its output, and
      the report. */
  method Report(h: Shutdown.Host, groups: seq<Identity>, takes: nat -> bool, w: Watched, strict: bool, pumps: nat,
                rounds: seq<Shutdown.Round>, status: Option<nat>, settled: bool) returns (end: End, ghost used: nat)
    requires w.confirmed.Some? && !w.beamGone && Shutdown.Reports(h.log) == 0
    requires status == (if h.waited.Ended? then Some(h.waited.status) else w.status)
    modifies h
    ensures used <= |rounds| && Shutdown.Reports(h.log) <= pumps
    ensures Ends(end, w, strict, pumps, rounds, used, h.waited, Shutdown.Reports(h.log), Refused(takes, |groups|))
    ensures end.Reported? ==> end.report.confirmed == (w.confirmed.value && settled)
    ensures end.Reported? && Shutdown.Reports(h.log) < pumps ==>
      && Shutdown.GaveUp(h.log, h.clock)
      && (strict && !w.discard && Shutdown.LastCalm(rounds, used) ==> Shutdown.LastGone(h.log))
    ensures forall probe :: Shutdown.Latest(h.log, probe) == Shutdown.Latest(old(h.log), probe)
    ensures old(h.log) <= h.log && h.waited == old(h.waited) && h.clock >= old(h.clock)
    ensures h.Ideal() && (!strict || w.discard) ==> h.clock <= old(h.clock) + Shutdown.OUTPUT_DRAIN_GRACE
  {
    hide Shutdown.Reports, Shutdown.Latest, Shutdown.GaveUp, Shutdown.AllCalm, Shutdown.PeerLost, Refused, Ends;
    hide Shutdown.LastCalm, Shutdown.LastGone;
    var history := AnnounceLast(groups, takes, w.history);
    var d;
    d, used := DrainOutput(h, strict, w.discard, pumps, rounds);
    match d {
      case Going => end := Draining;
      case PeerGone => end := Silent;
      case Over(truncated) =>
        end := Reported(Shutdown.Report(status, w.timedOut, w.confirmed.value && settled, truncated), history);
    }
    DrainEnds(end, d, w, strict, pumps, rounds, used, h.waited, Shutdown.Reports(h.log), Refused(takes, |groups|));
  }

  /** The end of a tracked run, once its loop is left. */
  method Finish(t: Tracker, h: Shutdown.Host, grace: nat, cgroup: bool, strict: bool, pumps: nat, w: Watched,
                rounds: seq<Shutdown.Round>, takes: nat -> bool, ghost root: Identity)
    returns (end: End, ghost used: nat)
    requires t.Safe(root) && h.log == [] && w.confirmed.Some?
    modifies t, h
    ensures t.Safe(root)
    ensures h.log != [] && (h.log[0] == Shutdown.RootKilled <==> w.status.None?)
    ensures cgroup ==> Shutdown.CgroupHit([], h.log)
    ensures used <= |rounds| && Shutdown.Reports(h.log) <= pumps
    ensures var final := Final(t.c, t.source, old(t.State()));
            && t.State() == (if w.beamGone then final else final.(pending := []))
            && Ends(end, w, strict, pumps, rounds, used, h.waited, Shutdown.Reports(h.log), Refused(takes, |final.pending|))
    ensures end.Reported? ==>
      (end.report.confirmed <==> w.confirmed.value && Vouched(t.c, t.trace, t.processes, h.waited, h.log, cgroup))
    ensures end.Reported? && Shutdown.Reports(h.log) < pumps ==>
      && Shutdown.GaveUp(h.log, h.clock)
      && (strict && !w.discard && Shutdown.LastCalm(rounds, used) ==> Shutdown.LastGone(h.log))
    ensures h.clock >= old(h.clock)
    ensures h.Ideal() && (!strict || w.discard) ==>
      h.clock <= old(h.clock) + Tracking.CONFIRM_GRACE + (if cgroup then grace + Shutdown.CGROUP_DRAIN_PROBE else 0)
                 + Shutdown.OUTPUT_DRAIN_GRACE
  {
    hide Runs.Safe, Shutdown.Signals, Shutdown.Latest, Shutdown.Reports, Vouched, Shutdown.GaveUp, Tracking.FinishScan;
    hide Shutdown.CgroupHit, Shutdown.AllCalm, Shutdown.PeerLost, Refused, Due, Ends, Shutdown.LastCalm, Shutdown.LastGone;
    hide Final;
    used := 0;
    NothingReported();
    ghost var final := Final(t.c, t.source, t.State());
    var status, settled := Settle(t, h, grace, cgroup, w.status, root);
    if w.beamGone {
      SilentEnds(w, strict, pumps, rounds, h.waited, Shutdown.Reports(h.log), Refused(takes, |final.pending|));
      return Silent, used;
    }
    ghost var log := h.log;
    var groups := t.TakeNewGroups(root);
    end, used := Report(h, groups, takes, w, strict, pumps, rounds, status, settled);
    Stays(t, log, h.log, cgroup);
  }

  lemma SilentEnds(w: Watched, strict: bool, pumps: nat, rounds: seq<Shutdown.Round>, waited: Shutdown.Wait,
                   reports: nat, refused: bool)
    requires w.beamGone
    ensures Ends(Silent, w, strict, pumps, rounds, 0, waited, reports, refused)
  {
  }

  lemma DrainEnds(end: End, d: Drain, w: Watched, strict: bool, pumps: nat, rounds: seq<Shutdown.Round>, used: nat,
                  waited: Shutdown.Wait, reports: nat, refused: bool)
    requires used <= |rounds| && !w.beamGone
    requires d.PeerGone? <==> strict && !w.discard && used > 0 && Shutdown.PeerLost(rounds[used - 1])
    requires d.Going? ==> strict && !w.discard && Shutdown.AllCalm(rounds) && reports < pumps
    requires d.Over? ==>
      && (d.truncated <==> w.discard || reports < pumps || (strict && !Shutdown.AllCalm(rounds[..used])))
      && end.Reported? && end.report.truncated == d.truncated && end.report.timedOut == w.timedOut
      && end.report.status == (if waited.Ended? then Some(waited.status) else w.status)
      && end.historyTruncated == (w.history || refused)
    requires (d.PeerGone? ==> end == Silent) && (d.Going? ==> end == Draining)
    ensures Ends(end, w, strict, pumps, rounds, used, waited, reports, refused)
  {
  }

  /** One tracked run. It stays silent to a peer that was lost; it reports itself confirmed
      exactly when the tracker was, and the last scan, the root and the cgroup bear it out,
      and that is vouched for by the whole log; output is reported truncated exactly when
      it was discarded, a strict drain was ended early, or some pump never reported, which
      takes the whole drain time or all senders gone; the history exactly when a group, new
      in a sample or in the last scan, found no room in the queue; and with instant calls a
      run whose drain has a deadline reports within the time its caller waits from whatever
      began its cleanup. `used` counts the rounds of the strict drain. */
  method Supervise(t: Tracker, h: Shutdown.Host, interrupt: Option<nat>, grace: nat, cgroup: bool, strict: bool,
                   pumps: nat, turns: seq<Turn>, rounds: seq<Shutdown.Round>, takes: nat -> bool, ghost root: Identity)
    returns (end: End, ghost k: Course, ghost used: nat)
    requires t.Safe(root) && t.cleanup.None? && h.log == [] && h.waited == Shutdown.Unfinished
    modifies t, h
    ensures t.Safe(root)
    ensures |k.samples| <= |turns| && k.at <= h.clock && (end.Supervising? <==> k.w.confirmed.None?)
    ensures var left := Left(t.c, t.source, old(t.State()), turns, k, Graces(interrupt, grace));
            && Followed(t.c, t.source, old(t.State()), left, turns, k, Graces(interrupt, grace),
                        Shutdown.Spent(interrupt, grace), old(h.clock))
            && (end.Supervising? ==> t.State() == left)
            && (!end.Supervising? ==>
                  var final := Final(t.c, t.source, left);
                  && t.State() == (if k.w.beamGone then final else final.(pending := [])) && used <= |rounds|
                  && Ends(end, k.w, strict, pumps, rounds, used, h.waited, Shutdown.Reports(h.log),
                          Refused(takes, |final.pending|)))
    ensures end.Reported? ==>
      (end.report.confirmed <==>
       k.w.confirmed == Some(true) && Vouched(t.c, t.trace, t.processes, h.waited, h.log, cgroup))
    ensures !end.Supervising? ==>
      && h.log != [] && (h.log[0] == Shutdown.RootKilled <==> k.w.status.None?)
      && (cgroup ==> Shutdown.CgroupHit([], h.log)) && Shutdown.Reports(h.log) <= pumps
    ensures end.Reported? && Shutdown.Reports(h.log) < pumps ==>
      && Shutdown.GaveUp(h.log, h.clock)
      && (strict && !k.w.discard && Shutdown.LastCalm(rounds, used) ==> Shutdown.LastGone(h.log))
    ensures h.Ideal() && !end.Supervising? ==>
      SeenThrough(t.c, t.source, old(t.State()), Calls(turns, k.samples, k.heard, Graces(interrupt, grace)))
    ensures h.Ideal() && end.Reported? && (!strict || k.w.discard) ==>
      k.began.Some? && h.clock + 2_950 <= k.began.value + Shutdown.CleanupTimeout(grace, interrupt, cgroup)
    ensures h.Ideal() && end.Supervising? && k.began.Some? ==>
      h.clock <= k.began.value + Shutdown.Spent(interrupt, grace) + Tracking.SAMPLE_INTERVAL
  {
    hide Runs.Safe, Shutdown.Reports, Vouched, Followed, Due, Ends, Shutdown.CgroupHit, Refused, Shutdown.GaveUp;
    hide Final, Tracking.Run, SeenThrough, Calls, Shutdown.LastCalm, Shutdown.LastGone;
    used := 0;
    var w;
    w, k := Watch(t, h, interrupt, grace, turns, root);
    FollowedLeaves(t.c, t.source, old(t.State()), t.State(), turns, k, Graces(interrupt, grace),
                   Shutdown.Spent(interrupt, grace), old(h.clock));
    if w.confirmed.None? {
      return Supervising, k, used;
    }
    ghost var left := t.State();
    end, used := Finish(t, h, grace, cgroup, strict, pumps, w, rounds, takes, root);
    NotSupervising(end, w, strict, pumps, rounds, used, h.waited, Shutdown.Reports(h.log),
                   Refused(takes, |Final(t.c, t.source, left).pending|));
  }

  /** Where the loop leaves the tracker. */
  ghost function Left(c: Tracking.Config, o: Tracking.Oracle, st: Tracking.Tracked, turns: seq<Turn>, k: Course,
                      g: Graces): Tracking.Tracked
    requires o.Lists() && |k.samples| <= |turns|
  {
    Tracking.Run(c, o, st, Calls(turns, k.samples, k.heard, g))
  }

  lemma NotSupervising(end: End, w: Watched, strict: bool, pumps: nat, rounds: seq<Shutdown.Round>, used: nat,
                       waited: Shutdown.Wait, reports: nat, refused: bool)
    requires used <= |rounds| && Ends(end, w, strict, pumps, rounds, used, waited, reports, refused)
    ensures !end.Supervising?
  {
  }

  lemma FollowedLeaves(c: Tracking.Config, o: Tracking.Oracle, st: Tracking.Tracked, now: Tracking.Tracked,
                       turns: seq<Turn>, k: Course, g: Graces, overall: nat, start: nat)
    requires o.Lists() && Followed(c, o, st, now, turns, k, g, overall, start)
    ensures k.w.confirmed.Some? ==> k.began.Some?
    ensures |k.samples| <= |turns| && now == Left(c, o, st, turns, k, g)
  {
    hide Told, Timed, Sampled, MetAt, VerdictAt, Tracking.Run, Calls, BegunAt, GoneOn;
  }

  lemma OpenCalm(rounds: seq<Shutdown.Round>, used: nat, g: Shutdown.Gate, all: bool, gone: bool)
    requires Shutdown.Settles(rounds, used, g, all, gone)
    ensures used <= |rounds| && (g.Open? ==> Shutdown.AllCalm(rounds) && !all)
  {
  }

  /** What the drains leave as it was. */
  lemma Stays(t: Tracker, before: seq<Shutdown.Event>, after: seq<Shutdown.Event>, cgroup: bool)
    requires before <= after && forall probe :: Shutdown.Latest(after, probe) == Shutdown.Latest(before, probe)
    ensures Shutdown.CgroupHit([], before) ==> Shutdown.CgroupHit([], after)
    ensures before != [] ==> after[0] == before[0]
    ensures forall waited :: Vouched(t.c, t.trace, t.processes, waited, after, cgroup)
                        == Vouched(t.c, t.trace, t.processes, waited, before, cgroup)
  {
    Shutdown.HitAfter([], [], before, after);
  }

  lemma NothingReported()
    ensures Shutdown.Reports([]) == 0
  {
  }
}
