/** How output is drained once the child is done: which pumps the loop sets free, and what
    exactly makes its report admit to truncated output. */
module Drains {
  import opened Bytes
  import opened Credits
  import opened Outputs
  import opened Process
  import Streams

  predicate Flags(w: World, uncorked: bool, cancelled: bool) {
    && w.out.budget.uncorked == w.err.budget.uncorked == uncorked
    && w.out.budget.cancelled == w.err.budget.cancelled == cancelled
  }

  /** While the loop takes events no pump is let off its credit, and only a tracked loop that
      discards output cancels them. The consumer's credit gates a strict drain alone; any
      other lets go of both pumps at once: uncorked to read to the end if nothing is
      discarded, and cancelled if it is. */
  predicate Handled(c: Config, w: World) {
    match w.phase
    case Running => Flags(w, false, false) || (c.tracked && w.discard && Flags(w, false, true))
    case Gated(_) => c.strict && Flags(w, false, false)
    case Draining(_, forced) => if forced then (c.tracked || c.strict) && Flags(w, false, true)
                                else !c.strict && Flags(w, true, false)
    case Leaving(truncated) => truncated
    case Over => true
  }

  lemma FundedFlags(w: World, source: Streams.Source, n: nat)
    ensures forall u, x :: Flags(Funded(w, source, n), u, x) == Flags(w, u, x)
  {
  }

  lemma MoveFlags(w: World, source: Streams.Source, m: PumpMove)
    requires PumpMay(w.At(source), m)
    ensures forall u, x :: Flags(Pumped(w, source, m), u, x) == Flags(w, u, x)
  {
  }

  lemma MovePhase(w: World, source: Streams.Source, m: PumpMove)
    requires PumpMay(w.At(source), m)
    ensures var t := Pumped(w, source, m); t.phase == w.phase && t.discard == w.discard
  {
    hide Next;
  }

  lemma TakeHandled(c: Config, w: World, e: Event)
    requires Handled(c, w) && (w.phase.Running? || w.phase.Gated?)
    ensures Handled(c, Stepped(c, w, Take(e)))
  {
    if e.Credit? {
      FundedFlags(w, e.source, e.n);
    }
  }

  lemma ScanHandled(c: Config, w: World, uncertain: bool, peerGone: bool, controlGone: bool, group: bool, leave: bool)
    requires Handled(c, w) && w.phase.Running? && c.tracked
    ensures Handled(c, Scanned(c, w, uncertain, peerGone, controlGone, group, leave))
  {
  }

  lemma StepHandled(c: Config, w: World, a: Step)
    requires Handled(c, w) && MayStep(c, w, a)
    ensures Handled(c, Stepped(c, w, a))
  {
    hide TakenUntracked, TakenTracked, TakenGated, Scanned, Pumped, Reported, Do;
    match a
    case Move(source, m) =>
      MoveFlags(w, source, m);
      MovePhase(w, source, m);
    case Take(e) => TakeHandled(c, w, e);
    case Scan(uncertain, peerGone, controlGone, group, leave) =>
      ScanHandled(c, w, uncertain, peerGone, controlGone, group, leave);
    case Report => ReportEnds(c, if w.phase.Leaving? then w else w.(phase := Leaving(w.phase.Draining? && w.phase.forced)));
    case _ =>
  }

  lemma ReportEnds(c: Config, w: World)
    requires w.phase.Leaving?
    ensures Reported(c, w).phase.Over?
  {
  }

  lemma {:induction false} RunHandled(c: Config, start: World, steps: seq<Step>)
    requires Initial(start) && Run(c, start, steps).Some?
    ensures Handled(c, Run(c, start, steps).value)
  {
    hide Handled, Stepped, MayStep;
    if steps == [] {
      StartHandled(c, start);
    } else {
      RunHandled(c, start, steps[..|steps| - 1]);
      StepHandled(c, Run(c, start, steps[..|steps| - 1]).value, steps[|steps| - 1]);
    }
  }

  lemma StartHandled(c: Config, w: World)
    requires Initial(w)
    ensures Handled(c, w)
  {
    assert w.At(Streams.Stdout) == w.out && w.At(Streams.Stderr) == w.err;
  }

  /** In every run, tracked and untracked: once the loop drains, a pump that asks for its next
      read is never kept waiting for credit. It is told to stop if its output is being
      discarded; else it may read a whole buffer, uncharged, whatever credit is left. A pump
      gated by the consumer's credit alone is kept waiting exactly while there is none. */
  lemma DrainServes(c: Config, start: World, steps: seq<Step>, source: Streams.Source)
    requires Initial(start) && Run(c, start, steps).Some?
    requires Run(c, start, steps).value.At(source).place.Asking?
    ensures var w := Run(c, start, steps).value; var p := w.At(source);
            && (w.phase.Draining? ==>
                  && PumpMay(p, Ask)
                  && (!w.phase.forced ==> Next(p, Ask) == p.(place := Reading(BUFFER, false)))
                  && (w.phase.forced && p.gated ==> Next(p, Ask) == p.(place := Ended(End.Cancelled))))
            && (w.phase.Gated? && p.gated ==>
                  && (PumpMay(p, Ask) <==> p.budget.available > 0)
                  && (PumpMay(p, Ask) ==>
                        Next(p, Ask) == p.(place := Reading(if p.budget.available < BUFFER then p.budget.available else BUFFER, true))))
  {
    hide Run;
    RunHandled(c, start, steps);
  }

  /** A loop that has left its events, and has not returned, is never stuck: it can report, or
      take a pump's report, or a pump can go on, or, in a drain the consumer gates, one
      waits for credit. */
  lemma DrainGoesOn(c: Config, start: World, steps: seq<Step>)
    requires Initial(start) && Run(c, start, steps).Some?
    requires var w := Run(c, start, steps).value; !w.phase.Running? && !w.phase.Over?
    ensures var w := Run(c, start, steps).value;
            || MayStep(c, w, Report) || MayStep(c, w, TakeDone)
            || (exists source, m :: MayStep(c, w, Move(source, m)))
            || (w.phase.Gated? && exists source :: w.At(source).place.Asking? && w.At(source).budget.available == 0)
  {
    hide Run;
    RunHandled(c, start, steps);
    RunKept(c, start, steps);
    var w := Run(c, start, steps).value;
    if !w.phase.Leaving? && (forall source :: AtRest(w.At(source))) {
      BothAtRest(c, w);
    } else if !w.phase.Leaving? {
      var source :| !AtRest(w.At(source));
      PumpGoesOn(c, w, source);
    }
  }

  predicate AtRest(p: Pump) {
    p.place.Absent? || (p.place.Ended? && p.announced)
  }

  lemma BothAtRest(c: Config, w: World)
    requires Kept(c, w) && (w.phase.Draining? || w.phase.Gated?) && forall source :: AtRest(w.At(source))
    ensures MayStep(c, w, Report) || MayStep(c, w, TakeDone)
  {
    assert AtRest(w.At(Streams.Stdout)) && AtRest(w.At(Streams.Stderr));
    assert PumpKept(w.At(Streams.Stdout), w.log, Streams.Stdout, w.broken);
    assert PumpKept(w.At(Streams.Stderr), w.log, Streams.Stderr, w.broken);
    hide Honest, DataOf;
  }

  lemma PumpGoesOn(c: Config, w: World, source: Streams.Source)
    requires Handled(c, w) && (w.phase.Draining? || w.phase.Gated?) && !AtRest(w.At(source))
    ensures || (exists m :: MayStep(c, w, Move(source, m)))
            || (w.phase.Gated? && w.At(source).place.Asking? && w.At(source).budget.available == 0)
  {
    match w.At(source).place
    case Asking =>
      assert (w.phase.Gated? && w.At(source).budget.available == 0) || MayStep(c, w, Move(source, Ask));
    case Reading(_, _) => assert MayStep(c, w, Move(source, Eof));
    case Writing(_) => assert MayStep(c, w, Move(source, PumpMove.Write(true)));
    case Ended(_) => assert MayStep(c, w, Move(source, Announce));
  }

  // ------------------------------------------------------------------ truncation

  /** What makes a report admit to truncated output: a drain that ends before every pump has
      reported; a KILL while the consumer's credit gates the drain; a KILL or a timeout
      before it, unless nothing depends on it: a tracked child that has ended already, or
      an untracked drain that is eager anyway; and a sample that finds the tracker
      uncertain. */
  predicate Truncates(c: Config, w: World, a: Step) {
    || a.DrainExpires? || a.DoneGone?
    || (a == Take(Kill) && w.phase.Gated?)
    || ((a == Take(Kill) || a == Take(TimedOut)) && w.phase.Running? && if c.tracked then !w.exited else c.strict)
    || (a.Scan? && a.uncertain)
  }

  /** What leaves no one to report to. */
  predicate LosesPeer(c: Config, w: World, a: Step) {
    || a.PeerGone? || a == Take(Closed)
    || (a == Take(QueueGone) && c.tracked && w.phase.Running?)
    || (a.Scan? && (a.peerGone || (a.group && a.controlGone)))
  }

  /** Some step of the run was of either kind. */
  ghost predicate Cut(c: Config, start: World, steps: seq<Step>) {
    exists i :: 0 <= i < |steps| && Run(c, start, steps[..i]).Some? && Truncates(c, Run(c, start, steps[..i]).value, steps[i])
  }

  ghost predicate Lost(c: Config, start: World, steps: seq<Step>) {
    exists i :: 0 <= i < |steps| && Run(c, start, steps[..i]).Some? && LosesPeer(c, Run(c, start, steps[..i]).value, steps[i])
  }

  lemma OneMore(c: Config, start: World, steps: seq<Step>, w: World)
    requires steps != [] && Run(c, start, steps[..|steps| - 1]) == Some(w)
    ensures var n := |steps| - 1;
            && Cut(c, start, steps) == (Cut(c, start, steps[..n]) || Truncates(c, w, steps[n]))
            && Lost(c, start, steps) == (Lost(c, start, steps[..n]) || LosesPeer(c, w, steps[n]))
  {
    hide Run, Truncates, LosesPeer;
    var n, front := |steps| - 1, steps[..|steps| - 1];
    assert forall i :: 0 <= i < n ==> front[..i] == steps[..i] && front[i] == steps[i];
    assert steps[..n] == front;
  }

  predicate ExitSent(w: World, truncated: bool) {
    Exit(truncated) in Sent(w)
  }

  /** What the loop has made of it so far. */
  predicate Tally(c: Config, w: World, cut: bool, lost: bool) {
    match w.phase
    case Running =>
      && (w.beamGone <==> lost)
      && (!lost ==> if c.tracked || c.strict then w.discard <==> cut else !cut)
    case Gated(_) => !lost && !cut
    case Draining(_, forced) => !lost && (forced <==> cut)
    case Leaving(truncated) => !lost && (truncated <==> cut)
    case Over => (forall t :: ExitSent(w, t) ==> !lost && (t <==> cut)) && (w.broken || lost || ExitSent(w, cut))
  }

  lemma TakeTallied(c: Config, w: World, cut: bool, lost: bool, e: Event)
    requires Tally(c, w, cut, lost) && Kept(c, w) && (w.phase.Running? || w.phase.Gated?)
    ensures Tally(c, Stepped(c, w, Take(e)), cut || Truncates(c, w, Take(e)), lost || LosesPeer(c, w, Take(e)))
  {
    hide Do, PumpKept, Claims, NoDataAfter;
    HonestNoExit(w);
  }

  lemma ScanTallied(c: Config, w: World, cut: bool, lost: bool, a: Step)
    requires Tally(c, w, cut, lost) && Kept(c, w) && a.Scan? && MayStep(c, w, a)
    ensures Tally(c, Stepped(c, w, a), cut || Truncates(c, w, a), lost || LosesPeer(c, w, a))
  {
    hide Do, PumpKept, Claims, NoDataAfter;
    HonestNoExit(w);
  }

  lemma MoveTallied(c: Config, w: World, cut: bool, lost: bool, source: Streams.Source, m: PumpMove)
    requires Tally(c, w, cut, lost) && PumpMay(w.At(source), m)
    ensures Tally(c, Pumped(w, source, m), cut, lost)
  {
    MovePhase(w, source, m);
    MoveSends(w, source, m);
    hide Next, Sent;
  }

  lemma MoveSends(w: World, source: Streams.Source, m: PumpMove)
    requires PumpMay(w.At(source), m)
    ensures var t := Pumped(w, source, m);
            && (t.broken || !w.broken) && t.beamGone == w.beamGone
            && forall x :: ExitSent(t, x) <==> ExitSent(w, x)
  {
    hide Next;
  }

  lemma ControlTallied(c: Config, w: World, cut: bool, lost: bool, ok: bool)
    requires Tally(c, w, cut, lost) && w.control != []
    ensures Tally(c, Stepped(c, w, ControlWrite(ok)), cut, lost)
  {
    ControlSends(c, w, ok);
    hide Sent;
  }

  lemma ControlSends(c: Config, w: World, ok: bool)
    requires w.control != []
    ensures var t := Stepped(c, w, ControlWrite(ok)); forall x :: ExitSent(t, x) ==> ExitSent(w, x)
    ensures ok ==> Sent(Stepped(c, w, ControlWrite(ok))) == Sent(w)
  {
    assert w.control == [w.control[0]] + w.control[1..];
    assert forall f :: f in w.log ==> f in Sent(w);
  }

  lemma ReportTallied(c: Config, w: World, cut: bool, lost: bool)
    requires Tally(c, w, cut, lost) && Kept(c, w) && w.phase.Leaving?
    ensures Tally(c, Reported(c, w), cut, lost)
  {
    hide PumpKept, Claims, NoDataAfter;
    HonestNoExit(w);
    assert Sent(Reported(c, w)) == Sent(w) + [Exit(w.phase.truncated)];
  }

  lemma StepTallied(c: Config, w: World, cut: bool, lost: bool, a: Step)
    requires Tally(c, w, cut, lost) && Kept(c, w) && MayStep(c, w, a)
    ensures Tally(c, Stepped(c, w, a), cut || Truncates(c, w, a), lost || LosesPeer(c, w, a))
  {
    hide TakenUntracked, TakenTracked, TakenGated, Scanned, Pumped, PumpMay, Do, Kept, Reported, Sent;
    match a
    case Move(source, m) => MoveTallied(c, w, cut, lost, source, m);
    case Take(e) => TakeTallied(c, w, cut, lost, e);
    case Scan(_, _, _, _, _) => ScanTallied(c, w, cut, lost, a);
    case PeerGone => GoneTallied(c, w);
    case Report =>
      if w.phase.Leaving? {
        ReportTallied(c, w, cut, lost);
      } else {
        LeavingKept(c, w);
        ReportTallied(c, w.(phase := Leaving(w.phase.Draining? && w.phase.forced)), cut, lost);
      }
    case ControlWrite(ok) => ControlTallied(c, w, cut, lost, ok);
    case _ =>
  }

  lemma GoneTallied(c: Config, w: World)
    requires Kept(c, w) && w.phase.Gated?
    ensures var t := w.Both(Act.Cancelled).(phase := Over); forall x :: !ExitSent(t, x)
  {
    hide PumpKept, Claims, NoDataAfter, Do;
    HonestNoExit(w);
    assert Sent(w.Both(Act.Cancelled).(phase := Over)) == Sent(w);
  }

  lemma {:induction false} RunTallied(c: Config, start: World, steps: seq<Step>)
    requires Initial(start) && Run(c, start, steps).Some?
    ensures Tally(c, Run(c, start, steps).value, Cut(c, start, steps), Lost(c, start, steps))
  {
    hide Tally, Stepped, MayStep, Truncates, LosesPeer, Kept;
    if steps == [] {
      StartTallied(c, start);
    } else {
      var front := steps[..|steps| - 1];
      var w := Run(c, start, front).value;
      RunTallied(c, start, front);
      RunKept(c, start, front);
      OneMore(c, start, steps, w);
      StepTallied(c, w, Cut(c, start, front), Lost(c, start, front), steps[|steps| - 1]);
    }
  }

  lemma StartTallied(c: Config, w: World)
    requires Initial(w)
    ensures Tally(c, w, false, false)
  {
  }

  /** In every run: a report says that output was truncated if and only if something truncated
      it, and none is made once the peer is lost; and a loop that has returned has reported
      unless it lost its peer or a write failed. */
  lemma TruncatedExactly(c: Config, start: World, steps: seq<Step>)
    requires Initial(start) && Run(c, start, steps).Some?
    ensures var w := Run(c, start, steps).value;
            && (forall t :: Exit(t) in Sent(w) ==> !Lost(c, start, steps) && (t <==> Cut(c, start, steps)))
            && (w.phase.Over? && !w.broken && !Lost(c, start, steps) ==> Exit(Cut(c, start, steps)) in Sent(w))
  {
    hide Run, Cut, Lost;
    RunTallied(c, start, steps);
    RunKept(c, start, steps);
    var w := Run(c, start, steps).value;
    if w.phase != Over {
      NotYet(c, w);
    }
    assert forall t :: Exit(t) in Sent(w) <==> ExitSent(w, t);
  }

  lemma NotYet(c: Config, w: World)
    requires Kept(c, w) && w.phase != Over
    ensures forall t :: !ExitSent(w, t)
  {
    hide PumpKept, Claims, NoDataAfter;
    HonestNoExit(w);
  }

  // ---------------------------------------------------------- what pumps and loop do

  /** All that was read from one pipe. */
  function Got(steps: seq<Step>, source: Streams.Source): seq<byte> {
    if steps == [] then []
    else
      var last := steps[|steps| - 1];
      Got(steps[..|steps| - 1], source) + if last.Move? && last.source == source && last.move.Got? then last.move.chunk else []
  }

  predicate Met(steps: seq<Step>, source: Streams.Source, m: PumpMove) {
    Move(source, m) in steps
  }

  lemma MetMore(steps: seq<Step>, a: Step, source: Streams.Source)
    ensures forall m :: Met(steps + [a], source, m) <==> Met(steps, source, m) || a == Move(source, m)
  {
  }

  /** A pump's end is what it met, and what it yielded is what it read. */
  ghost predicate Ends(p: Pump, steps: seq<Step>, source: Streams.Source) {
    && (p.place == Ended(AtEof) <==> Met(steps, source, Eof))
    && (p.place == Ended(ReadFailed) <==> Met(steps, source, Fault))
    && (p.place == Ended(WriteFailed) <==> Met(steps, source, PumpMove.Write(false)))
    && (p.place == Ended(End.Cancelled) ==> p.budget.cancelled)
    && (p.announced <==> Met(steps, source, Announce))
    && p.yielded == Got(steps, source)
  }

  lemma GotMore(steps: seq<Step>, a: Step, source: Streams.Source)
    ensures Got(steps + [a], source)
         == Got(steps, source) + if a.Move? && a.source == source && a.move.Got? then a.move.chunk else []
  {
    assert (steps + [a])[..|steps|] == steps;
  }

  lemma MoveEnds(w: World, source: Streams.Source, m: PumpMove, steps: seq<Step>, other: Streams.Source)
    requires PumpMay(w.At(source), m) && Ends(w.At(other), steps, other)
    ensures Ends(Pumped(w, source, m).At(other), steps + [Move(source, m)], other)
  {
    hide Pumped, Next, Ends;
    MovesOne(w, source, m, other);
    if other == source {
      NextEnds(w.At(source), source, m, steps);
    } else {
      OtherEnds(w.At(other), other, Move(source, m), steps);
    }
  }

  lemma NextEnds(p: Pump, source: Streams.Source, m: PumpMove, steps: seq<Step>)
    requires PumpMay(p, m) && Ends(p, steps, source)
    ensures Ends(Next(p, m), steps + [Move(source, m)], source)
  {
    GotMore(steps, Move(source, m), source);
    MetMore(steps, Move(source, m), source);
    hide Met, Got;
  }

  lemma OtherEnds(p: Pump, source: Streams.Source, a: Step, steps: seq<Step>)
    requires Ends(p, steps, source) && !(a.Move? && a.source == source)
    ensures Ends(p, steps + [a], source)
  {
    GotMore(steps, a, source);
    MetMore(steps, a, source);
    hide Met, Got;
  }

  lemma MovesOne(w: World, source: Streams.Source, m: PumpMove, other: Streams.Source)
    requires PumpMay(w.At(source), m)
    ensures Pumped(w, source, m).At(other) == if other == source then Next(w.At(source), m) else w.At(other)
  {
    hide Next;
  }

  /** The loop's own steps leave every pump where it is. */
  lemma LoopLeaves(c: Config, w: World, a: Step, source: Streams.Source)
    requires MayStep(c, w, a) && !a.Move?
    ensures PlainPump(w.At(source), Stepped(c, w, a).At(source))
  {
    hide TakenUntracked, TakenTracked, TakenGated, Scanned, Do, PlainPump;
    DoPlain(w, source, 0, Act.Cancelled);
    match a
    case Take(e) => TakenPlain(c, w, e);
    case Scan(uncertain, peerGone, controlGone, group, leave) =>
      ScannedPlain(c, w, uncertain, peerGone, controlGone, group, leave);
    case _ =>
  }

  lemma StepEnds(c: Config, w: World, a: Step, steps: seq<Step>, source: Streams.Source)
    requires MayStep(c, w, a) && Ends(w.At(source), steps, source)
    ensures Ends(Stepped(c, w, a).At(source), steps + [a], source)
  {
    hide Got;
    if a.Move? {
      MoveEnds(w, a.source, a.move, steps, source);
    } else {
      LoopLeaves(c, w, a, source);
      OtherEnds(w.At(source), source, a, steps);
      hide Stepped, MayStep, Met;
    }
  }

  /** In every run: a pump has met the end of its pipe, failed to read or failed to write
      exactly if it did, stops early only when cancelled, reports itself done exactly
      once it has, and has read just the bytes it was given. */
  lemma {:induction false} PumpsExactly(c: Config, start: World, steps: seq<Step>, source: Streams.Source)
    requires Initial(start) && Run(c, start, steps).Some?
    ensures Ends(Run(c, start, steps).value.At(source), steps, source)
  {
    hide Stepped, MayStep, Ends;
    if steps == [] {
      NoneEnded(start, source);
    } else {
      var front := steps[..|steps| - 1];
      assert steps == front + [steps[|steps| - 1]];
      PumpsExactly(c, start, front, source);
      StepEnds(c, Run(c, start, front).value, steps[|steps| - 1], front, source);
    }
  }

  lemma NoneEnded(w: World, source: Streams.Source)
    requires Initial(w)
    ensures Ends(w.At(source), [], source)
  {
  }

  /** The loop takes events until it is to leave: untracked, at the child's end or the loss
      of its queue; tracked, when a sample says so. Then it is over if the peer is lost,
      waits on the consumer's credit if the drain is strict and nothing discarded, and
      otherwise drains. */
  lemma LeavesExactly(c: Config, w: World, a: Step)
    requires MayStep(c, w, a) && w.phase.Running?
    ensures var t := Stepped(c, w, a);
            var leaves := if c.tracked then a.Scan? && a.leave else a == Take(ChildExited) || a == Take(QueueGone);
            && (if leaves then Left(c, t) else t.phase.Running?)
            && (t.exited <==> w.exited || a == Take(ChildExited))
  {
    hide Do, AfterUntracked, AfterTracked, Noted, Left;
    if a.Move? {
      MovePhase(w, a.source, a.move);
      MoveKeeps(w, a.source, a.move);
      hide Pumped;
    } else if a.Scan? {
      var v := Noted(w, a.uncertain, a.peerGone, a.controlGone, a.group);
      NotesRunning(w, a);
      TrackedLeaves(c, v);
      TrackedLeaves(c, v.Both(Act.Cancelled));
    } else if !c.tracked {
      UntrackedLeaves(c, w);
      UntrackedLeaves(c, w.(exited := true));
    }
  }

  /** Where the loop stands once it has left. */
  predicate Left(c: Config, t: World) {
    if t.beamGone then t.phase.Over?
    else if c.strict && !t.discard then t.phase.Gated?
    else t.phase.Draining? && (t.phase.forced <==> t.discard && (c.tracked || c.strict))
  }

  lemma NotesRunning(w: World, a: Step)
    requires a.Scan?
    ensures var v := Noted(w, a.uncertain, a.peerGone, a.controlGone, a.group); v.phase == w.phase && v.exited == w.exited
  {
  }

  lemma TrackedLeaves(c: Config, w: World)
    requires c.tracked
    ensures Left(c, AfterTracked(c, w)) && AfterTracked(c, w).exited == w.exited
  {
    hide Do;
  }

  lemma UntrackedLeaves(c: Config, w: World)
    requires !c.tracked
    ensures Left(c, AfterUntracked(c, w)) && AfterUntracked(c, w).exited == w.exited
  {
    hide Do;
  }

  lemma MoveKeeps(w: World, source: Streams.Source, m: PumpMove)
    requires PumpMay(w.At(source), m)
    ensures Pumped(w, source, m).exited == w.exited
  {
    hide Next;
  }

  /** A tracked sample: the peer is lost exactly when it is seen gone or the queue would not
      take the report of a new group; that report is queued exactly when it does; output
      is discarded from a lost peer or an uncertain tracker on, and discarded output
      cancels both pumps at once. */
  lemma SampleExactly(c: Config, w: World, a: Step)
    requires MayStep(c, w, a) && a.Scan?
    ensures var t := Stepped(c, w, a);
            && (t.beamGone <==> w.beamGone || a.peerGone || (a.group && a.controlGone))
            && t.control == w.control + (if a.group && !t.beamGone then [Tracked] else [])
            && (t.discard <==> w.discard || a.peerGone || a.uncertain)
            && (t.discard ==> t.out.budget.cancelled && t.err.budget.cancelled)
            && t.log == w.log && t.done == w.done && t.exited == w.exited
  {
    hide Noted, AfterTracked, Do;
    var v := Noted(w, a.uncertain, a.peerGone, a.controlGone, a.group);
    NotedExactly(w, a);
    BothCancelled(v);
    TrackedKeeps(c, v);
    TrackedKeeps(c, v.Both(Act.Cancelled));
  }

  lemma NotedExactly(w: World, a: Step)
    requires a.Scan?
    ensures var t := Noted(w, a.uncertain, a.peerGone, a.controlGone, a.group);
            && (t.beamGone <==> w.beamGone || a.peerGone || (a.group && a.controlGone))
            && t.control == w.control + (if a.group && !t.beamGone then [Tracked] else [])
            && (t.discard <==> w.discard || a.peerGone || a.uncertain)
            && t.log == w.log && t.done == w.done && t.exited == w.exited
  {
  }

  lemma BothCancelled(w: World)
    ensures var t := w.Both(Act.Cancelled);
            && t == w.(out := t.out, err := t.err) && t.out.budget.cancelled && t.err.budget.cancelled
  {
  }

  /** Leaving keeps what the sample noted. */
  lemma TrackedKeeps(c: Config, w: World)
    ensures var t := AfterTracked(c, w);
            && t == w.(out := t.out, err := t.err, phase := t.phase)
            && (w.out.budget.cancelled ==> t.out.budget.cancelled) && (w.err.budget.cancelled ==> t.err.budget.cancelled)
  {
  }
}
