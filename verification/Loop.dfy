/** What the sampling loop of a tracked run asks of the tracker: the calls of each turn,
    as they follow from what the turn brings, and what their pace comes to. */
module Loops {
  import opened Process
  import opened Tracking
  import Alone
  import Bound
  import Escalation
  import Runs
  import Safety
  import Verdicts

  /** What ends one wait for the next sample. A vanished peer, a failed read of its
      frames and a failed tracking write all count as closed. */
  datatype Incoming = Kill | Ended(status: nat) | Closed | TimedOut | ChildWaitFailed | Other | Quiet

  /** What the queue of the shim's own writer does with one report. */
  datatype Control = Taken | Full | Lost

  /** One turn of the loop: what its sample meets, and what comes after how long. */
  datatype Turn = Turn(peerGone: bool, control: nat -> Control, wait: nat, event: Incoming)

  /** The graces a run was asked to give. */
  datatype Graces = Graces(interrupt: Option<nat>, term: nat)
  {
    function Begin(now: nat): Op {
      DoBegin(now, interrupt, term)
    }
  }

  /** One sample: when it began, when its scan was over, how many groups were new in it,
      whether it began cleanup for lost certainty, and whether it took the tracker one
      pass on. */
  datatype Sample = Sample(from: nat, at: nat, found: nat, lapsed: bool, cleaning: bool)

  // ------------------------------------------------------------- reporting groups

  /** The queue was lost at one of the first `n` reports. */
  predicate Broke(control: nat -> Control, n: nat) {
    exists k: nat :: k < n && control(k).Lost?
  }

  /** The queue was full at one of the first `n` reports, before it was lost. */
  predicate Overflowed(control: nat -> Control, n: nat) {
    exists k: nat :: k < n && control(k).Full? && !Broke(control, k)
  }

  lemma OneMore(control: nat -> Control, n: nat)
    ensures Broke(control, n + 1) == (Broke(control, n) || control(n).Lost?)
    ensures Overflowed(control, n + 1) == (Overflowed(control, n) || (control(n).Full? && !Broke(control, n)))
  {
  }

  lemma NoneYet(control: nat -> Control)
    ensures !Broke(control, 0) && !Overflowed(control, 0)
  {
  }

  // ------------------------------------------------------------ the calls of a turn

  /** A request to end the run that comes before its child has ended. */
  predicate Cancels(e: Incoming, status: Option<nat>) {
    status.None? && (e.Kill? || e.TimedOut?)
  }

  /** What begins cleanup. */
  predicate Begins(e: Incoming, status: Option<nat>) {
    e.Kill? || e.Closed? || e.Ended? || (e.TimedOut? && status.None?)
  }

  /** A peer not lost so far is seen gone when the sample begins. */
  function OpeningOps(turn: Turn, gone: bool, from: nat, g: Graces): seq<Op> {
    if turn.peerGone && !gone then [g.Begin(from)] else []
  }

  /** The scan, the groups handed over, and the failure if the queue was lost meanwhile. */
  ghost function SurveyOps(control: nat -> Control, gone: bool, found: nat): seq<Op> {
    [DoScan, DoTake] + if !gone && Broke(control, found) then [DoFail] else []
  }

  ghost function BeforePass(turn: Turn, gone: bool, s: Sample, g: Graces): seq<Op> {
    OpeningOps(turn, gone, s.from, g) + SurveyOps(turn.control, gone || turn.peerGone, s.found)
    + if s.lapsed then [g.Begin(s.at)] else []
  }

  /** The calls of one sample, the pass of a cleanup last. */
  ghost function SampleOps(turn: Turn, gone: bool, s: Sample, g: Graces): seq<Op> {
    BeforePass(turn, gone, s, g) + if s.cleaning then [DoAdvance(s.at)] else []
  }

  function EventOps(e: Incoming, status: Option<nat>, at: nat, g: Graces): seq<Op> {
    if Begins(e, status) then [g.Begin(at)] else if e.ChildWaitFailed? then [DoFail] else []
  }

  /** What a sample records of the tracker it met: the groups that were new after its scan,
      certainty lost with no cleanup under way, and a cleanup that calls for a pass. */
  ghost predicate Met(c: Config, o: Oracle, st: Tracked, turn: Turn, gone: bool, s: Sample, g: Graces)
    requires o.Lists()
  {
    var scanned := Scan(c, o, Run(c, o, st, OpeningOps(turn, gone, s.from, g)));
    var surveyed := Run(c, o, st, BeforePass(turn, gone, s.(lapsed := false), g));
    && s.from <= s.at && s.found == |scanned.pending|
    && s.lapsed == (surveyed.ledger.uncertain && surveyed.cleanup.None?)
    && s.cleaning == (surveyed.cleanup.Some? || s.lapsed)
  }

  /** The tracker's verdict when its pass ends the loop: it is done, and either the child
      has ended or the deadline has passed. */
  ghost function Verdict(c: Config, o: Oracle, st: Tracked, now: nat, exited: bool): Option<bool>
    requires o.Lists()
  {
    if st.cleanup.None? then None else
    var p := Advance(c, o, st, now).1;
    if p.done && (exited || Expired(st.cleanup.value, now)) then Some(p.confirmed && exited) else None
  }

  /** After any calls: a pass ends the loop from the deadline on, and before it once the child
      has ended and this pass and the one before it were both quiet. What it confirms is
      that the child has ended, with nothing alive and nothing uncertain. */
  lemma LeavesExactly(c: Config, o: Oracle, root: Identity, ops: seq<Op>, now: nat, exited: bool)
    requires o.Lists() && c.groupLimit >= 1 && Run(c, o, Started(c, root), ops).cleanup.Some?
    ensures var st := Run(c, o, Started(c, root), ops); var leave := Verdict(c, o, st, now, exited);
            && (leave.Some? <==> || now >= st.cleanup.value.deadline
                                 || (exited && Verdicts.Quiet(st) && Verdicts.LastQuiet(c, o, Started(c, root), ops)))
            && (leave == Some(true) <==>
                  leave.Some? && exited && (forall q :: q in st.processes ==> st.processes[q].exited)
                  && !Advance(c, o, st, now).0.ledger.uncertain)
  {
    hide Run, Started, Advance, Verdicts.Quiet, Verdicts.LastQuiet;
    Verdicts.DoneExactly(c, o, root, ops, now);
  }

  // ------------------------------------------------------------------ the whole loop

  /** The child's status as last heard in some turns. */
  function StatusOf(turns: seq<Turn>): Option<nat> {
    if turns == [] then None
    else if turns[|turns| - 1].event.Ended? then Some(turns[|turns| - 1].event.status)
    else StatusOf(turns[..|turns| - 1])
  }

  predicate PeerLost(turn: Turn, s: Option<Sample>) {
    s.Some? && (turn.peerGone || Broke(turn.control, s.value.found))
  }

  /** The peer was lost in one of the first `n` turns. */
  ghost predicate Gone(turns: seq<Turn>, samples: seq<Option<Sample>>, n: nat)
    requires n <= |samples| <= |turns|
  {
    exists i :: 0 <= i < n && (PeerLost(turns[i], samples[i]) || turns[i].event.Closed?)
  }

  /** A group was new in this sample and the queue, still there, had no room for its
      report. */
  ghost predicate DroppedAt(turns: seq<Turn>, samples: seq<Option<Sample>>, i: nat)
    requires i < |samples| <= |turns|
  {
    && samples[i].Some? && !Gone(turns, samples, i) && !turns[i].peerGone
    && Overflowed(turns[i].control, samples[i].value.found)
  }

  /** This sample discards output: it sees the peer gone, or begins cleanup for lost
      certainty. */
  ghost predicate DiscardsAt(turns: seq<Turn>, samples: seq<Option<Sample>>, i: nat)
    requires i < |samples| <= |turns|
  {
    samples[i].Some? && ((turns[i].peerGone && !Gone(turns, samples, i)) || samples[i].value.lapsed)
  }

  /** The calls of turn `i`: those of its sample, if it took one, and of its event, if it
      came to that. */
  ghost function CallsAt(turns: seq<Turn>, samples: seq<Option<Sample>>, heard: seq<nat>, g: Graces, i: nat): seq<Op>
    requires i < |samples| <= |turns|
  {
    (if samples[i].Some? then SampleOps(turns[i], Gone(turns, samples, i), samples[i].value, g) else [])
    + if i < |heard| then EventOps(turns[i].event, StatusOf(turns[..i]), heard[i], g) else []
  }

  ghost function CallsTo(turns: seq<Turn>, samples: seq<Option<Sample>>, heard: seq<nat>, g: Graces, n: nat): seq<Op>
    requires n <= |samples| <= |turns|
  {
    if n == 0 then [] else CallsTo(turns, samples, heard, g, n - 1) + CallsAt(turns, samples, heard, g, n - 1)
  }

  /** All calls the loop made: turn by turn, the events at the times they were heard. */
  ghost function Calls(turns: seq<Turn>, samples: seq<Option<Sample>>, heard: seq<nat>, g: Graces): seq<Op>
    requires |samples| <= |turns|
  {
    CallsTo(turns, samples, heard, g, |samples|)
  }

  /** What the sample of turn `i` records is so of the state the turns before left. */
  ghost predicate MetAt(c: Config, o: Oracle, st: Tracked, turns: seq<Turn>, samples: seq<Option<Sample>>, heard: seq<nat>,
                        g: Graces, i: nat)
    requires o.Lists() && i < |samples| <= |turns|
  {
    samples[i].Some? ==>
      Met(c, o, Run(c, o, st, CallsTo(turns, samples, heard, g, i)), turns[i], Gone(turns, samples, i), samples[i].value, g)
  }

  /** What the tracker says of the pass of turn `i`. */
  ghost function VerdictAt(c: Config, o: Oracle, st: Tracked, turns: seq<Turn>, samples: seq<Option<Sample>>,
                           heard: seq<nat>, g: Graces, i: nat): Option<bool>
    requires o.Lists() && i < |samples| <= |turns|
  {
    if samples[i].None? || !samples[i].value.cleaning then None else
    var before := CallsTo(turns, samples, heard, g, i) + BeforePass(turns[i], Gone(turns, samples, i), samples[i].value, g);
    Verdict(c, o, Run(c, o, st, before), samples[i].value.at, StatusOf(turns[..i]).Some?)
  }

  /** The samples so far agree with the tracker, and none of them ended the loop. */
  ghost predicate GoneOn(c: Config, o: Oracle, st: Tracked, turns: seq<Turn>, samples: seq<Option<Sample>>,
                         heard: seq<nat>, g: Graces, n: nat)
    requires o.Lists() && n <= |samples| <= |turns|
  {
    forall i :: 0 <= i < n ==>
      MetAt(c, o, st, turns, samples, heard, g, i) && VerdictAt(c, o, st, turns, samples, heard, g, i).None?
  }

  /** Where the loop stands: the tracker has been through its calls, cleanup began with
      them at `began`, and no sample so far ended the loop. */
  ghost predicate Kept(c: Config, o: Oracle, st: Tracked, now: Tracked, turns: seq<Turn>, samples: seq<Option<Sample>>,
                       heard: seq<nat>, g: Graces, began: Option<nat>)
    requires o.Lists() && |heard| <= |samples| <= |turns|
  {
    && now == Run(c, o, st, Calls(turns, samples, heard, g))
    && BegunAt(Calls(turns, samples, heard, g), began, g)
    && GoneOn(c, o, st, turns, samples, heard, g, |heard|)
  }

  /** A sample comes after the event before it, and before its own turn's. */
  ghost predicate TimedAt(samples: seq<Option<Sample>>, heard: seq<nat>, start: nat, clock: nat, i: nat)
    requires i < |samples| && |heard| <= |samples| <= |heard| + 1
  {
    samples[i].Some? ==>
      && (if i > 0 then heard[i - 1] else start) <= samples[i].value.from <= samples[i].value.at
      && samples[i].value.at <= if i < |heard| then heard[i] else clock
  }

  /** Samples and events come one after the other. */
  ghost predicate Timed(samples: seq<Option<Sample>>, heard: seq<nat>, start: nat, clock: nat)
    requires |heard| <= |samples| <= |heard| + 1
  {
    && start <= clock
    && (forall i :: 0 <= i < |heard| ==> start <= heard[i] <= clock)
    && (forall i, j :: 0 <= i < j < |heard| ==> heard[i] <= heard[j])
    && (forall i :: 0 <= i < |samples| ==> TimedAt(samples, heard, start, clock, i))
  }

  /** What makes the next sample due at once. */
  predicate Urgent(e: Incoming, status: Option<nat>) {
    Begins(e, status) || e.ChildWaitFailed?
  }

  /** A sample is due at a turn whatever the time. */
  predicate DueAt(turns: seq<Turn>, i: nat)
    requires i <= |turns|
  {
    i == 0 || Urgent(turns[i - 1].event, StatusOf(turns[..i - 1]))
  }

  /** A turn that took no sample began less than a sampling interval after one that did. */
  ghost predicate SkippedAt(samples: seq<Option<Sample>>, heard: seq<nat>, i: nat)
    requires i < |samples| && i <= |heard|
  {
    i > 0 && exists j :: 0 <= j < i && samples[j].Some? && heard[i - 1] < heard[j] + SAMPLE_INTERVAL
  }

  /** The first turn takes a sample, and so does each after an urgent event, and each that
      begins a sampling interval after the last. */
  ghost predicate Sampled(turns: seq<Turn>, samples: seq<Option<Sample>>, heard: seq<nat>)
    requires |samples| <= |turns| && |heard| <= |samples| <= |heard| + 1
  {
    forall i :: 0 <= i < |samples| && samples[i].None? ==> !DueAt(turns, i) && SkippedAt(samples, heard, i)
  }

  /** When the next sample is due at the latest. */
  ghost predicate DueBy(samples: seq<Option<Sample>>, heard: seq<nat>, clock: nat, nextScan: nat)
    requires |samples| == |heard|
  {
    nextScan <= clock
    || exists j :: 0 <= j < |samples| && samples[j].Some? && nextScan <= heard[j] + SAMPLE_INTERVAL
  }

  lemma GoneStays(turns: seq<Turn>, samples: seq<Option<Sample>>, more: seq<Option<Sample>>, n: nat)
    requires n <= |samples| <= |more| <= |turns| && samples <= more
    ensures Gone(turns, more, n) == Gone(turns, samples, n)
  {
    assert forall i :: 0 <= i < n ==> samples[i] == more[i];
  }

  lemma GoneMore(turns: seq<Turn>, samples: seq<Option<Sample>>, n: nat)
    requires n < |samples| <= |turns|
    ensures Gone(turns, samples, n + 1) ==
            (Gone(turns, samples, n) || PeerLost(turns[n], samples[n]) || turns[n].event.Closed?)
  {
  }

  lemma {:induction false} CallsStay(turns: seq<Turn>, samples: seq<Option<Sample>>, more: seq<Option<Sample>>,
                                     heard: seq<nat>, longer: seq<nat>, g: Graces, n: nat)
    requires n <= |samples| <= |more| <= |turns| && samples <= more && n <= |heard| && heard <= longer
    ensures CallsTo(turns, more, longer, g, n) == CallsTo(turns, samples, heard, g, n)
  {
    hide Gone, SampleOps, EventOps, StatusOf;
    if n > 0 {
      CallsStay(turns, samples, more, heard, longer, g, n - 1);
      GoneStays(turns, samples, more, n - 1);
      assert samples[n - 1] == more[n - 1] && heard[n - 1] == longer[n - 1];
    }
  }

  /** A sample taken adds its calls. */
  lemma CallsSample(turns: seq<Turn>, samples: seq<Option<Sample>>, heard: seq<nat>, g: Graces, s: Option<Sample>)
    requires |heard| == |samples| < |turns|
    ensures Calls(turns, samples + [s], heard, g) == Calls(turns, samples, heard, g)
              + if s.Some? then SampleOps(turns[|samples|], Gone(turns, samples, |samples|), s.value, g) else []
  {
    hide Gone, SampleOps, EventOps, StatusOf;
    var n := |samples|;
    CallsStay(turns, samples, samples + [s], heard, heard, g, n);
    GoneStays(turns, samples, samples + [s], n);
  }

  /** An event heard adds its calls. */
  lemma CallsEvent(turns: seq<Turn>, samples: seq<Option<Sample>>, heard: seq<nat>, g: Graces, at: nat)
    requires |heard| + 1 == |samples| <= |turns|
    ensures var n := |heard|;
            Calls(turns, samples, heard + [at], g) ==
            Calls(turns, samples, heard, g) + EventOps(turns[n].event, StatusOf(turns[..n]), at, g)
  {
    hide Gone, SampleOps, EventOps, StatusOf;
    CallsStay(turns, samples, samples, heard, heard + [at], g, |heard|);
  }

  lemma GoneOnStays(c: Config, o: Oracle, st: Tracked, turns: seq<Turn>, samples: seq<Option<Sample>>,
                    more: seq<Option<Sample>>, heard: seq<nat>, longer: seq<nat>, g: Graces, n: nat)
    requires o.Lists() && n <= |samples| <= |more| <= |turns| && samples <= more && n <= |heard| + 1 && heard <= longer
    requires GoneOn(c, o, st, turns, samples, heard, g, n)
    ensures GoneOn(c, o, st, turns, more, longer, g, n)
  {
    forall i | 0 <= i < n
      ensures MetAt(c, o, st, turns, more, longer, g, i) && VerdictAt(c, o, st, turns, more, longer, g, i).None?
    {
      TurnStays(c, o, st, turns, samples, more, heard, longer, g, i);
    }
  }

  lemma TurnStays(c: Config, o: Oracle, st: Tracked, turns: seq<Turn>, samples: seq<Option<Sample>>,
                  more: seq<Option<Sample>>, heard: seq<nat>, longer: seq<nat>, g: Graces, i: nat)
    requires o.Lists() && i < |samples| <= |more| <= |turns| && samples <= more && i <= |heard| && heard <= longer
    ensures MetAt(c, o, st, turns, samples, heard, g, i) <==> MetAt(c, o, st, turns, more, longer, g, i)
    ensures VerdictAt(c, o, st, turns, samples, heard, g, i) == VerdictAt(c, o, st, turns, more, longer, g, i)
  {
    hide Met, Verdict, Gone, Run, CallsTo, BeforePass, StatusOf;
    CallsStay(turns, samples, more, heard, longer, g, i);
    GoneStays(turns, samples, more, i);
    assert samples[i] == more[i];
  }

  // --------------------------------------------------------------------- calls in line

  /** The call that begins cleanup; those after it move nothing. */
  function Opening(ops: seq<Op>): (op: Option<Op>)
    ensures op.Some? ==> op.value.DoBegin?
  {
    if ops == [] then None else if ops[0].DoBegin? then Some(ops[0]) else Opening(ops[1..])
  }

  function Until(ops: seq<Op>): seq<Op> {
    if ops == [] || ops[0].DoBegin? then [] else [ops[0]] + Until(ops[1..])
  }

  function Since(ops: seq<Op>): seq<Op> {
    if ops == [] then [] else if ops[0].DoBegin? then ops[1..] else Since(ops[1..])
  }

  lemma {:induction false} Parts(ops: seq<Op>)
    ensures Opening(ops).Some? ==> ops == Until(ops) + [Opening(ops).value] + Since(ops)
    ensures Opening(Until(ops)).None?
    decreases |ops|
  {
    if ops != [] && ops[0].DoBegin? {
      assert ops == [] + [ops[0]] + ops[1..];
    } else if ops != [] {
      var rest := ops[1..];
      Parts(rest);
      OneMoreUntil(ops);
      assert ops == [ops[0]] + rest;
      if Opening(ops).Some? {
        assert [ops[0]] + (Until(rest) + [Opening(rest).value] + Since(rest))
            == Until(ops) + [Opening(ops).value] + Since(ops);
      }
    }
  }

  lemma OneMoreUntil(ops: seq<Op>)
    requires ops != [] && !ops[0].DoBegin?
    ensures Until(ops) == [ops[0]] + Until(ops[1..]) && Opening(Until(ops)) == Opening(Until(ops[1..]))
    ensures Opening(ops) == Opening(ops[1..]) && Since(ops) == Since(ops[1..])
  {
    assert Until(ops)[1..] == Until(ops[1..]);
  }

  lemma {:induction false} PartsJoined(a: seq<Op>, b: seq<Op>)
    ensures Opening(a + b) == if Opening(a).Some? then Opening(a) else Opening(b)
    ensures Since(a + b) == if Opening(a).Some? then Since(a) + b else Since(b)
    decreases |a|
  {
    if a == [] {
      assert a + b == b;
    } else {
      assert (a + b)[1..] == a[1..] + b;
      PartsJoined(a[1..], b);
    }
  }

  lemma {:induction false} PaceJoined(a: seq<Op>, b: seq<Op>, from: nat)
    ensures Bound.SoonApart(a + b, from) <==> Bound.SoonApart(a, from) && Bound.SoonApart(b, Bound.LastPass(a, from))
    ensures Bound.LastPass(a + b, from) == Bound.LastPass(b, Bound.LastPass(a, from))
    decreases |a|
  {
    if a == [] {
      assert a + b == b;
    } else {
      assert (a + b)[1..] == a[1..] + b;
      PaceJoined(a[1..], b, if a[0].DoAdvance? then a[0].now else from);
    }
  }

  predicate NoPass(ops: seq<Op>) {
    forall op :: op in ops ==> !op.DoAdvance?
  }

  lemma {:induction false} NoPassKeepsPace(ops: seq<Op>, from: nat)
    requires NoPass(ops)
    ensures Bound.SoonApart(ops, from) && Bound.LastPass(ops, from) == from
    decreases |ops|
  {
    if ops != [] {
      NoPassKeepsPace(ops[1..], from);
    }
  }

  lemma {:induction false} SinceHolds(ops: seq<Op>)
    ensures forall op :: op in Since(ops) ==> op in ops
    decreases |ops|
  {
    if ops != [] {
      SinceHolds(ops[1..]);
    }
  }

  lemma {:induction false} NoBegin(ops: seq<Op>)
    requires forall op :: op in ops ==> !op.DoBegin?
    ensures Opening(ops).None?
    decreases |ops|
  {
    if ops != [] {
      NoBegin(ops[1..]);
    }
  }

  /** Where a sample begins cleanup, and the one pass it makes, last. */
  lemma SamplePace(turn: Turn, gone: bool, s: Sample, g: Graces, from: nat)
    ensures NoPass(BeforePass(turn, gone, s, g))
    ensures Opening(SampleOps(turn, gone, s, g)) ==
            if turn.peerGone && !gone then Some(g.Begin(s.from)) else if s.lapsed then Some(g.Begin(s.at)) else None
    ensures var ops := SampleOps(turn, gone, s, g); var last := if s.cleaning then s.at else from;
            && (from <= last <= from + SAMPLE_INTERVAL ==> Bound.SoonApart(ops, from)) && Bound.LastPass(ops, from) == last
            && (Opening(ops).Some? && from <= last <= from + SAMPLE_INTERVAL ==>
                  Bound.SoonApart(Since(ops), from) && Bound.LastPass(Since(ops), from) == last)
  {
    hide Opening, Since, Bound.SoonApart, Bound.LastPass, Broke;
    var opening, survey := OpeningOps(turn, gone, s.from, g), SurveyOps(turn.control, gone || turn.peerGone, s.found);
    var lapsed := if s.lapsed then [g.Begin(s.at)] else [];
    var before, pass := BeforePass(turn, gone, s, g), if s.cleaning then [DoAdvance(s.at)] else [];
    assert before == opening + (survey + lapsed);
    NoPassKeepsPace(before, from);
    PaceJoined(before, pass, from);
    OnePass(s.at, from);
    SinceHolds(before);
    NoPassKeepsPace(Since(before), from);
    PaceJoined(Since(before), pass, from);
    NoBegin(survey);
    NoBegin(pass);
    OneBegin(g, s.from);
    OneBegin(g, s.at);
    PartsJoined(survey, lapsed);
    PartsJoined(opening, survey + lapsed);
    PartsJoined(before, pass);
    NoBegin([]);
    NoPassKeepsPace([], from);
    assert [] + pass == pass;
    if !s.lapsed {
      assert survey + lapsed == survey;
    }
  }

  lemma OnePass(at: nat, from: nat)
    ensures Bound.SoonApart([DoAdvance(at)], from) <==> from <= at <= from + SAMPLE_INTERVAL
    ensures Bound.LastPass([DoAdvance(at)], from) == at
  {
    assert [DoAdvance(at)][1..] == [];
    assert Bound.SoonApart([], at) && Bound.LastPass([], at) == at;
  }

  lemma OneBegin(g: Graces, now: nat)
    ensures Opening([g.Begin(now)]) == Some(g.Begin(now)) && Since([g.Begin(now)]) == []
  {
  }

  /** Cleanup began with these calls at this time, or has not yet. */
  predicate BegunAt(ops: seq<Op>, began: Option<nat>, g: Graces) {
    Opening(ops) == if began.Some? then Some(g.Begin(began.value)) else None
  }

  /** The passes so far keep to the sampling interval, and the next sample will. */
  predicate Paced(ops: seq<Op>, began: Option<nat>, clock: nat, nextScan: nat) {
    began.Some? ==>
      && Bound.SoonApart(Since(ops), began.value)
      && Bound.LastPass(Since(ops), began.value) <= clock
      && nextScan <= Bound.LastPass(Since(ops), began.value) + SAMPLE_INTERVAL
  }

  /** When cleanup began, a sample later. */
  function BeganAfter(began: Option<nat>, turn: Turn, gone: bool, s: Sample): Option<nat> {
    if began.Some? then began else if turn.peerGone && !gone then Some(s.from) else if s.lapsed then Some(s.at) else None
  }

  lemma SampleBegins(ops: seq<Op>, began: Option<nat>, turn: Turn, gone: bool, s: Sample, g: Graces)
    requires BegunAt(ops, began, g)
    ensures BegunAt(ops + SampleOps(turn, gone, s, g), BeganAfter(began, turn, gone, s), g)
  {
    hide Opening, SampleOps;
    SamplePace(turn, gone, s, g, 0);
    PartsJoined(ops, SampleOps(turn, gone, s, g));
  }

  lemma SamplePaced(ops: seq<Op>, began: Option<nat>, turn: Turn, gone: bool, s: Sample, g: Graces)
    requires BegunAt(ops, began, g) && Paced(ops, began, s.at, s.at) && s.from == s.at
    requires s.cleaning == BeganAfter(began, turn, gone, s).Some?
    ensures Paced(ops + SampleOps(turn, gone, s, g), BeganAfter(began, turn, gone, s), s.at, s.at + SAMPLE_INTERVAL)
  {
    hide Opening, Since, SampleOps, Bound.SoonApart, Bound.LastPass;
    var sample := SampleOps(turn, gone, s, g);
    PartsJoined(ops, sample);
    if began.Some? {
      SamplePace(turn, gone, s, g, Bound.LastPass(Since(ops), began.value));
      PaceJoined(Since(ops), sample, began.value);
    } else {
      SamplePace(turn, gone, s, g, s.at);
    }
  }

  function BeganThen(began: Option<nat>, e: Incoming, status: Option<nat>, at: nat): Option<nat> {
    if began.None? && Begins(e, status) then Some(at) else began
  }

  lemma EventBegins(ops: seq<Op>, began: Option<nat>, e: Incoming, status: Option<nat>, at: nat, g: Graces)
    requires BegunAt(ops, began, g)
    ensures BegunAt(ops + EventOps(e, status, at, g), BeganThen(began, e, status, at), g)
  {
    hide Opening;
    PartsJoined(ops, EventOps(e, status, at, g));
    OneBegin(g, at);
    NoBegin([DoFail]);
    NoBegin([]);
  }

  lemma EventPaced(ops: seq<Op>, began: Option<nat>, e: Incoming, status: Option<nat>, clock: nat, nextScan: nat, at: nat,
                   scan: nat, g: Graces)
    requires BegunAt(ops, began, g) && Paced(ops, began, clock, nextScan) && clock <= at <= nextScan
    requires scan == nextScan || scan == at
    requires Begins(e, status) ==> scan == at
    ensures Paced(ops + EventOps(e, status, at, g), BeganThen(began, e, status, at), at, scan)
  {
    hide Opening, Since, Bound.SoonApart, Bound.LastPass;
    var event := EventOps(e, status, at, g);
    PartsJoined(ops, event);
    if began.Some? {
      NoPassKeepsPace(event, Bound.LastPass(Since(ops), began.value));
      PaceJoined(Since(ops), event, began.value);
    } else if Begins(e, status) {
      OneBegin(g, at);
      NoPassKeepsPace([], at);
    }
  }

  /** A sample taken, as the tracker's calls have it. */
  lemma KeptSample(c: Config, o: Oracle, st: Tracked, now: Tracked, later: Tracked, turns: seq<Turn>,
                   samples: seq<Option<Sample>>, heard: seq<nat>, g: Graces, began: Option<nat>, s: Sample)
    requires o.Lists() && |heard| == |samples| < |turns|
    requires Kept(c, o, st, now, turns, samples, heard, g, began)
    requires var turn, gone := turns[|samples|], Gone(turns, samples, |samples|);
             Met(c, o, now, turn, gone, s, g) && later == Run(c, o, now, SampleOps(turn, gone, s, g))
    ensures var n := |samples|; var gone, more := Gone(turns, samples, n), samples + [Some(s)];
            && Kept(c, o, st, later, turns, more, heard, g, BeganAfter(began, turns[n], gone, s))
            && MetAt(c, o, st, turns, more, heard, g, n)
            && VerdictAt(c, o, st, turns, more, heard, g, n)
               == if s.cleaning then Verdict(c, o, Run(c, o, now, BeforePass(turns[n], gone, s, g)), s.at,
                                             StatusOf(turns[..n]).Some?) else None
  {
    hide Run, Gone, StatusOf, SampleOps, BeforePass, Met, Verdict, MetAt, VerdictAt, BeganAfter, BegunAt;
    var n, more := |samples|, samples + [Some(s)];
    var gone := Gone(turns, samples, n);
    CallsSample(turns, samples, heard, g, Some(s));
    Runs.RunJoined(c, o, st, Calls(turns, samples, heard, g), SampleOps(turns[n], gone, s, g));
    SampleBegins(Calls(turns, samples, heard, g), began, turns[n], gone, s, g);
    GoneOnStays(c, o, st, turns, samples, more, heard, heard, g, n);
    TurnTaken(c, o, st, now, turns, samples, heard, g, s);
  }

  lemma TurnTaken(c: Config, o: Oracle, st: Tracked, now: Tracked, turns: seq<Turn>, samples: seq<Option<Sample>>,
                  heard: seq<nat>, g: Graces, s: Sample)
    requires o.Lists() && |heard| == |samples| < |turns| && now == Run(c, o, st, Calls(turns, samples, heard, g))
    requires Met(c, o, now, turns[|samples|], Gone(turns, samples, |samples|), s, g)
    ensures var n := |samples|; var gone, more := Gone(turns, samples, n), samples + [Some(s)];
            && MetAt(c, o, st, turns, more, heard, g, n)
            && VerdictAt(c, o, st, turns, more, heard, g, n)
               == if s.cleaning then Verdict(c, o, Run(c, o, now, BeforePass(turns[n], gone, s, g)), s.at,
                                             StatusOf(turns[..n]).Some?) else None
  {
    hide Run, Gone, StatusOf, BeforePass, Met, Verdict;
    var n, more := |samples|, samples + [Some(s)];
    CallsStay(turns, samples, more, heard, heard, g, n);
    GoneStays(turns, samples, more, n);
    Runs.RunJoined(c, o, st, Calls(turns, samples, heard, g), BeforePass(turns[n], Gone(turns, samples, n), s, g));
  }

  /** A turn without a sample. */
  lemma KeptNone(c: Config, o: Oracle, st: Tracked, now: Tracked, turns: seq<Turn>, samples: seq<Option<Sample>>,
                 heard: seq<nat>, g: Graces, began: Option<nat>)
    requires o.Lists() && |heard| == |samples| < |turns|
    requires Kept(c, o, st, now, turns, samples, heard, g, began)
    ensures Kept(c, o, st, now, turns, samples + [None], heard, g, began)
    ensures MetAt(c, o, st, turns, samples + [None], heard, g, |samples|)
    ensures VerdictAt(c, o, st, turns, samples + [None], heard, g, |samples|) == None
    ensures Calls(turns, samples + [None], heard, g) == Calls(turns, samples, heard, g)
  {
    hide Run, Gone, CallsTo, BegunAt;
    CallsSample(turns, samples, heard, g, None);
    assert Calls(turns, samples, heard, g) + [] == Calls(turns, samples, heard, g);
    GoneOnStays(c, o, st, turns, samples, samples + [None], heard, heard, g, |samples|);
  }

  /** An event heard, as the tracker's calls have it. */
  lemma KeptEvent(c: Config, o: Oracle, st: Tracked, now: Tracked, later: Tracked, turns: seq<Turn>,
                  samples: seq<Option<Sample>>, heard: seq<nat>, g: Graces, began: Option<nat>, at: nat)
    requires o.Lists() && |heard| + 1 == |samples| <= |turns|
    requires Kept(c, o, st, now, turns, samples, heard, g, began)
    requires MetAt(c, o, st, turns, samples, heard, g, |heard|) && VerdictAt(c, o, st, turns, samples, heard, g, |heard|).None?
    requires var n := |heard|; later == Run(c, o, now, EventOps(turns[n].event, StatusOf(turns[..n]), at, g))
    ensures var n := |heard|;
            Kept(c, o, st, later, turns, samples, heard + [at], g,
                 BeganThen(began, turns[n].event, StatusOf(turns[..n]), at))
  {
    hide Run, Gone, StatusOf, MetAt, VerdictAt, BeganThen, BegunAt, EventOps, CallsTo;
    var n := |heard|;
    CallsEvent(turns, samples, heard, g, at);
    Runs.RunJoined(c, o, st, Calls(turns, samples, heard, g), EventOps(turns[n].event, StatusOf(turns[..n]), at, g));
    EventBegins(Calls(turns, samples, heard, g), began, turns[n].event, StatusOf(turns[..n]), at, g);
    TurnStays(c, o, st, turns, samples, samples, heard, heard + [at], g, n);
    GoneOnStays(c, o, st, turns, samples, samples, heard, heard + [at], g, n);
  }

  lemma KeptStart(c: Config, o: Oracle, st: Tracked, turns: seq<Turn>, g: Graces)
    requires o.Lists()
    ensures Kept(c, o, st, st, turns, [], [], g, None) && Calls(turns, [], [], g) == []
  {
  }

  lemma TimedSample(samples: seq<Option<Sample>>, heard: seq<nat>, start: nat, clock: nat, s: Option<Sample>, later: nat)
    requires |heard| == |samples| && Timed(samples, heard, start, clock) && clock <= later
    requires s.Some? ==> clock <= s.value.from <= s.value.at <= later
    ensures Timed(samples + [s], heard, start, later)
  {
    var more := samples + [s];
    forall i | 0 <= i < |more| ensures TimedAt(more, heard, start, later, i) {
      if i < |samples| {
        assert TimedAt(samples, heard, start, clock, i);
      }
    }
  }

  lemma TimedEvent(samples: seq<Option<Sample>>, heard: seq<nat>, start: nat, clock: nat, at: nat)
    requires |heard| + 1 == |samples| && Timed(samples, heard, start, clock) && clock <= at
    ensures Timed(samples, heard + [at], start, at)
  {
    var longer, n := heard + [at], |heard|;
    assert longer[n] == at && forall i :: 0 <= i < n ==> longer[i] == heard[i];
    forall i | 0 <= i < |samples| ensures TimedAt(samples, longer, start, at, i) {
      assert TimedAt(samples, heard, start, clock, i);
      assert i > 0 ==> longer[i - 1] == heard[i - 1];
    }
  }

  lemma SampledMore(turns: seq<Turn>, samples: seq<Option<Sample>>, heard: seq<nat>, s: Option<Sample>, clock: nat,
                    nextScan: nat)
    requires |heard| == |samples| < |turns| && Sampled(turns, samples, heard)
    requires (samples != [] ==> clock == heard[|heard| - 1]) && DueBy(samples, heard, clock, nextScan)
    requires (DueAt(turns, |samples|) ==> nextScan <= clock) && s.Some? == (clock >= nextScan)
    ensures Sampled(turns, samples + [s], heard)
  {
    hide DueAt;
    var more, n := samples + [s], |samples|;
    assert DueAt(turns, 0) by {
      FirstDue(turns);
    }
    forall i | 0 <= i < |more| && more[i].None? ensures !DueAt(turns, i) && SkippedAt(more, heard, i) {
      if i < n {
        assert SkippedAt(samples, heard, i);
        var j :| 0 <= j < i && samples[j].Some? && heard[i - 1] < heard[j] + SAMPLE_INTERVAL;
        assert more[j].Some?;
      } else {
        var j :| 0 <= j < n && samples[j].Some? && nextScan <= heard[j] + SAMPLE_INTERVAL;
        assert more[j].Some?;
      }
    }
  }

  lemma FirstDue(turns: seq<Turn>)
    ensures DueAt(turns, 0)
  {
  }

  lemma SampledThen(turns: seq<Turn>, samples: seq<Option<Sample>>, heard: seq<nat>, at: nat)
    requires |heard| + 1 == |samples| <= |turns| && Sampled(turns, samples, heard)
    ensures Sampled(turns, samples, heard + [at])
  {
    hide DueAt;
    var longer := heard + [at];
    forall i | 0 <= i < |samples| && samples[i].None? ensures SkippedAt(samples, longer, i) {
      assert SkippedAt(samples, heard, i);
      var j :| 0 <= j < i && samples[j].Some? && heard[i - 1] < heard[j] + SAMPLE_INTERVAL;
      assert longer[i - 1] == heard[i - 1] && longer[j] == heard[j];
    }
  }

  lemma DueThen(samples: seq<Option<Sample>>, heard: seq<nat>, s: Option<Sample>, clock: nat, nextScan: nat, at: nat,
                scan: nat)
    requires |samples| == |heard| && DueBy(samples, heard, clock, nextScan) && s.Some? == (clock >= nextScan)
    requires clock <= at && (scan <= at || scan <= if s.Some? then at + SAMPLE_INTERVAL else nextScan)
    ensures DueBy(samples + [s], heard + [at], at, scan)
  {
    var more, longer := samples + [s], heard + [at];
    if s.Some? {
      assert more[|samples|].Some? && longer[|samples|] == at;
    } else {
      var j :| 0 <= j < |samples| && samples[j].Some? && nextScan <= heard[j] + SAMPLE_INTERVAL;
      assert more[j].Some? && longer[j] == heard[j];
    }
  }

  /** Between two turns: the times are in order, and the next sample is due in time. */
  ghost predicate Regular(turns: seq<Turn>, samples: seq<Option<Sample>>, heard: seq<nat>, start: nat, clock: nat,
                          nextScan: nat)
    requires |heard| == |samples| <= |turns|
  {
    && Timed(samples, heard, start, clock) && Sampled(turns, samples, heard) && DueBy(samples, heard, clock, nextScan)
    && (DueAt(turns, |samples|) ==> nextScan <= clock) && (heard != [] ==> heard[|heard| - 1] == clock)
  }

  lemma RegularStart(turns: seq<Turn>, clock: nat)
    ensures Regular(turns, [], [], clock, clock, clock)
  {
  }

  lemma RegularSample(turns: seq<Turn>, samples: seq<Option<Sample>>, heard: seq<nat>, start: nat, clock: nat,
                      nextScan: nat, s: Option<Sample>, later: nat)
    requires |heard| == |samples| < |turns| && Regular(turns, samples, heard, start, clock, nextScan) && clock <= later
    requires s.Some? == (clock >= nextScan) && (s.Some? ==> clock <= s.value.from <= s.value.at <= later)
    ensures Timed(samples + [s], heard, start, later) && Sampled(turns, samples + [s], heard)
  {
    hide Timed, Sampled, DueBy, DueAt;
    TimedSample(samples, heard, start, clock, s, later);
    SampledMore(turns, samples, heard, s, clock, nextScan);
  }

  lemma RegularEvent(turns: seq<Turn>, samples: seq<Option<Sample>>, heard: seq<nat>, start: nat, clock: nat,
                     nextScan: nat, s: Option<Sample>, at: nat, scan: nat)
    requires |heard| == |samples| < |turns| && Regular(turns, samples, heard, start, clock, nextScan) && clock <= at
    requires s.Some? == (clock >= nextScan)
    requires Timed(samples + [s], heard, start, at) && Sampled(turns, samples + [s], heard)
    requires scan <= at || scan <= if s.Some? then at + SAMPLE_INTERVAL else nextScan
    requires DueAt(turns, |samples| + 1) ==> scan <= at
    ensures Regular(turns, samples + [s], heard + [at], start, at, scan)
  {
    hide Timed, Sampled, DueBy, DueAt;
    TimedEvent(samples + [s], heard, start, at, at);
    SampledThen(turns, samples + [s], heard, at);
    DueThen(samples, heard, s, clock, nextScan, at, scan);
  }

  // -------------------------------------------------------------- a cleanup seen through

  /** A cleanup as an ideal loop drives it to its end: passes at most one sampling interval
      apart from its start on, until the last one reports that it is done. */
  ghost predicate SeenThrough(c: Config, o: Oracle, st: Tracked, ops: seq<Op>)
    requires o.Lists()
  {
    && Opening(ops).Some? && Bound.SoonApart(Since(ops), Opening(ops).value.now)
    && Since(ops) != []
    && var last := ops[|ops| - 1];
       last.DoAdvance? && Advance(c, o, Run(c, o, st, ops[..|ops| - 1]), last.now).1.done
  }

  /** A loop left after a pass, in its pace, has seen its cleanup through. */
  lemma LeftMeansThrough(c: Config, o: Oracle, st: Tracked, turns: seq<Turn>, samples: seq<Option<Sample>>, heard: seq<nat>,
                         g: Graces, began: Option<nat>, clock: nat, nextScan: nat)
    requires o.Lists() && |heard| + 1 == |samples| <= |turns|
    requires VerdictAt(c, o, st, turns, samples, heard, g, |heard|).Some?
    requires var ops := Calls(turns, samples, heard, g); BegunAt(ops, began, g) && Paced(ops, began, clock, nextScan)
    requires began.Some?
    ensures SeenThrough(c, o, st, Calls(turns, samples, heard, g))
  {
    hide Run, Advance, Gone, StatusOf, BeforePass, Opening, Since, Bound.SoonApart, Bound.LastPass;
    var n := |heard|;
    var ops, s := Calls(turns, samples, heard, g), samples[n].value;
    var before := CallsTo(turns, samples, heard, g, n) + BeforePass(turns[n], Gone(turns, samples, n), s, g);
    assert ops == before + [DoAdvance(s.at)];
    assert ops[..|ops| - 1] == before;
    LastSince(before, DoAdvance(s.at), g.Begin(began.value));
  }

  lemma LastSince(ops: seq<Op>, op: Op, opening: Op)
    requires Opening(ops + [op]) == Some(opening) && !op.DoBegin?
    ensures Since(ops + [op]) != []
  {
    PartsJoined(ops, [op]);
    NoBegin([op]);
  }

  /** The state in which cleanup has just begun. */
  ghost function Begun(c: Config, o: Oracle, st: Tracked, ops: seq<Op>): Tracked
    requires o.Lists() && Opening(ops).Some?
  {
    Apply(c, o, Run(c, o, st, Until(ops)), Opening(ops).value)
  }

  lemma {:induction false} NoneBegun(c: Config, o: Oracle, st: Tracked, ops: seq<Op>)
    requires o.Lists() && st.cleanup.None? && Opening(ops).None?
    ensures Run(c, o, st, ops).cleanup.None?
    decreases |ops|
  {
    hide Scan, AdvanceGroups, AdvanceMembers;
    if ops != [] {
      if ops[0].DoScan? || ops[0].DoFinish? {
        Bound.ScanKeeps(c, o, st);
      }
      NoneBegun(c, o, Apply(c, o, st, ops[0]), ops[1..]);
    }
  }

  lemma RunSince(c: Config, o: Oracle, st: Tracked, ops: seq<Op>)
    requires o.Lists() && Opening(ops).Some?
    ensures Run(c, o, st, ops) == Run(c, o, Begun(c, o, st, ops), Since(ops))
  {
    hide Run, Apply;
    Parts(ops);
    Runs.RunOneMore(c, o, st, Until(ops), Opening(ops).value);
    Runs.RunJoined(c, o, st, Until(ops) + [Opening(ops).value], Since(ops));
  }

  lemma {:induction false} LiveAtLast(c: Config, o: Oracle, st: Tracked, ops: seq<Op>, g: Identity)
    requires o.Lists() && ops != [] && ops[|ops| - 1].DoAdvance? && Bound.StaysLive(c, o, st, ops, g)
    ensures Bound.HasLive(Run(c, o, st, ops[..|ops| - 1]).processes, g.pgid)
    decreases |ops|
  {
    hide Apply, Bound.HasLive;
    if |ops| > 1 {
      var rest := ops[1..];
      LiveAtLast(c, o, Apply(c, o, st, ops[0]), rest, g);
      assert ops[..|ops| - 1][1..] == rest[..|rest| - 1] && rest[|rest| - 1] == ops[|ops| - 1];
    }
  }

  lemma {:induction false} AloneAtLast(c: Config, o: Oracle, st: Tracked, ops: seq<Op>, m: Identity)
    requires o.Lists() && ops != [] && ops[|ops| - 1].DoAdvance? && Alone.StaysAlone(c, o, st, ops, m)
    ensures LiveMember(Run(c, o, st, ops[..|ops| - 1]).processes, m)
    decreases |ops|
  {
    hide Apply, LiveMember, Alone.Unled;
    if |ops| > 1 {
      var rest := ops[1..];
      AloneAtLast(c, o, Apply(c, o, st, ops[0]), rest, m);
      assert ops[..|ops| - 1][1..] == rest[..|rest| - 1] && rest[|rest| - 1] == ops[|ops| - 1];
    }
  }

  /** While a process of the inventory lives, only the deadline ends a cleanup. */
  lemma DoneMeansExpired(c: Config, o: Oracle, st: Tracked, now: nat)
    requires o.Lists() && st.cleanup.Some? && Live(o, st) != [] && Advance(c, o, st, now).1.done
    ensures Expired(st.cleanup.value, now)
  {
    hide AdvanceGroups, AdvanceMembers, Live;
  }

  lemma {:induction false} LastIsLast(ops: seq<Op>, from: nat)
    requires ops != [] && ops[|ops| - 1].DoAdvance?
    ensures Bound.LastPass(ops, from) == ops[|ops| - 1].now
  {
    var init := ops[..|ops| - 1];
    assert ops == init + [ops[|ops| - 1]];
    PaceJoined(init, [ops[|ops| - 1]], from);
  }

  /** A cleanup seen through with a process alive at its last pass runs to its deadline. */
  lemma ReachesDeadline(c: Config, o: Oracle, st: Tracked, ops: seq<Op>)
    requires o.Lists() && st.cleanup.None? && SeenThrough(c, o, st, ops)
    requires Live(o, Run(c, o, st, ops[..|ops| - 1])) != []
    ensures var begun := Begun(c, o, st, ops);
            && begun.cleanup.Some? && begun.cleanup.value.deadline <= Bound.LastPass(Since(ops), Opening(ops).value.now)
    ensures Run(c, o, st, Until(ops)).cleanup.None?
    ensures Run(c, o, st, ops[..|ops| - 1]) == Run(c, o, Begun(c, o, st, ops), Since(ops)[..|Since(ops)| - 1])
  {
    hide Run, Advance, Live, Escalation.SamePlan;
    Parts(ops);
    var op, since := Opening(ops).value, Since(ops);
    NoneBegun(c, o, st, Until(ops));
    var short := ops[..|ops| - 1];
    assert since[|since| - 1] == ops[|ops| - 1];
    assert short == (Until(ops) + [op]) + since[..|since| - 1];
    Runs.RunOneMore(c, o, st, Until(ops), op);
    Runs.RunJoined(c, o, st, Until(ops) + [op], since[..|since| - 1]);
    LastIsLast(since, op.now);
    var begun := Begun(c, o, st, ops);
    Bound.DeadlineHolds(c, o, begun, since[..|since| - 1], 0);
    DoneMeansExpired(c, o, Run(c, o, st, short), ops[|ops| - 1].now);
    SameDeadline(begun.cleanup.value, Run(c, o, st, short).cleanup.value);
  }

  lemma SameDeadline(a: Cleanup, b: Cleanup)
    requires Escalation.SamePlan(a, b)
    ensures a.deadline == b.deadline
  {
  }

  /** A loop that sees a cleanup through sends every group with a live member, whose leader
      stays readable, a KILL before the deadline, in its turn and after whole graces. */
  lemma LoopReachesKill(c: Config, o: Oracle, root: Identity, st: Tracked, ops: seq<Op>, g: Identity)
    requires o.Lists() && Runs.Safe(c, root, st) && st.cleanup.None? && SeenThrough(c, o, st, ops)
    requires Bound.Steady(c, o, g) && g in Begun(c, o, st, ops).groups
    requires Bound.StaysLive(c, o, Begun(c, o, st, ops), Since(ops), g)
    ensures var begun := Begun(c, o, st, ops);
            begun.cleanup.Some? && Bound.KillLogged(begun.cleanup.value, Run(c, o, st, ops), g)
  {
    hide Run, Advance, Live, Bound.StaysLive, Bound.HasLive, Bound.Steady, Bound.KillLogged, Bound.SoonApart, Bound.LastPass;
    hide Safety.Sound, Escalation.Ordered, InGroupOf;
    Parts(ops);
    var op, since, begun := Opening(ops).value, Since(ops), Begun(c, o, st, ops);
    var before := Run(c, o, st, Until(ops));
    assert since[|since| - 1] == ops[|ops| - 1];
    LiveAtLast(c, o, begun, since, g);
    LastPassState(c, o, st, ops);
    Bound.LiveInGroup(o, Run(c, o, st, ops[..|ops| - 1]), g.pgid);
    SomeListed(Live(o, Run(c, o, st, ops[..|ops| - 1])), g.pgid);
    ReachesDeadline(c, o, st, ops);
    Runs.RunKeepsSafe(c, o, st, Until(ops), root);
    assert begun == BeginCleanup(before, op.now, op.interrupt, op.term);
    Bound.CleanupReachesKill(c, o, before, op.now, op.interrupt, op.term, since, g);
    RunSince(c, o, st, ops);
  }

  lemma SomeListed(live: seq<Identity>, pgid: nat)
    requires InGroupOf(live, pgid) != []
    ensures live != []
  {
  }

  lemma LastPassState(c: Config, o: Oracle, st: Tracked, ops: seq<Op>)
    requires o.Lists() && Opening(ops).Some? && Since(ops) != []
    ensures Run(c, o, st, ops[..|ops| - 1]) == Run(c, o, Begun(c, o, st, ops), Since(ops)[..|Since(ops)| - 1])
  {
    hide Run, Apply;
    Parts(ops);
    var op, since := Opening(ops).value, Since(ops);
    assert ops[..|ops| - 1] == (Until(ops) + [op]) + since[..|since| - 1];
    Runs.RunOneMore(c, o, st, Until(ops), op);
    Runs.RunJoined(c, o, st, Until(ops) + [op], since[..|since| - 1]);
  }

  lemma MemberListed(o: Oracle, st: Tracked, m: Identity)
    requires o.Lists() && LiveMember(st.processes, m)
    ensures Live(o, st) != []
  {
    assert Bound.HasLive(st.processes, m.pgid);
    Bound.LiveInGroup(o, st, m.pgid);
    SomeListed(Live(o, st), m.pgid);
  }

  /** The same loop sends every process that stays alive and unchanged, and that no group
      takes along, its own KILL in turn and in time. */
  lemma LoopReachesProcess(c: Config, o: Oracle, root: Identity, st: Tracked, ops: seq<Op>, m: Identity)
    requires o.Lists() && Runs.Safe(c, root, st) && root.Leads() && st.cleanup.None? && SeenThrough(c, o, st, ops)
    requires Alone.SteadyProcess(o, m) && Alone.StaysAlone(c, o, Begun(c, o, st, ops), Since(ops), m)
    ensures var begun := Begun(c, o, st, ops);
            begun.cleanup.Some? && Alone.ToldInTime(begun.cleanup.value, Run(c, o, st, ops).ledger.trace, m)
  {
    hide Run, Advance, Live, Alone.StaysAlone, Alone.SteadyProcess, Alone.ToldInTime, Bound.SoonApart, Bound.LastPass;
    hide LiveMember, Runs.Safe;
    Parts(ops);
    var op, since, begun := Opening(ops).value, Since(ops), Begun(c, o, st, ops);
    var before := Run(c, o, st, Until(ops));
    assert since[|since| - 1] == ops[|ops| - 1];
    AloneAtLast(c, o, begun, since, m);
    LastPassState(c, o, st, ops);
    MemberListed(o, Run(c, o, st, ops[..|ops| - 1]), m);
    ReachesDeadline(c, o, st, ops);
    Runs.RunKeepsSafe(c, o, st, Until(ops), root);
    assert begun == BeginCleanup(before, op.now, op.interrupt, op.term);
    Alone.ProcessReachesKill(c, o, root, before, op.now, op.interrupt, op.term, since, m);
    RunSince(c, o, st, ops);
  }
}
