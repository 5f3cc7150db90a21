/** The same gated pump, three times: as a party to credit flow control, beside the
    supervision loop, and as the loop it is. While it is never uncorked, the last two do
    only what the first can. */
module PumpRuns {
  import opened Bytes
  import opened Credits
  import opened Process
  import opened Streams
  import C = Channels
  import O = Outputs

  /** What happens at the shim's end of a pipe: a CREDIT frame comes in, or a step. */
  datatype Happening = Arrives(n: nat) | Steps(move: C.Move)

  function Played(c: C.Channel, script: seq<Happening>): Option<C.Channel> {
    if script == [] then Some(c)
    else
      match Played(c, script[..|script| - 1])
      case None => None
      case Some(before) => PlayedOne(before, script[|script| - 1])
  }

  function PlayedOne(c: C.Channel, a: Happening): Option<C.Channel> {
    match a
    case Arrives(n) => Some(c.(grants := c.grants + [n]))
    case Steps(move) => if C.Enabled(c, move) then Some(C.Moved(c, move)) else None
  }

  lemma {:induction false} PlayedMore(c: C.Channel, a: seq<Happening>, b: seq<Happening>)
    requires Played(c, a).Some?
    ensures Played(c, a + b) == Played(Played(c, a).value, b)
    decreases |b|
  {
    if b == [] {
      assert a + b == a;
    } else {
      var front := b[..|b| - 1];
      assert (a + b)[..|a + b| - 1] == a + front;
      PlayedMore(c, a, front);
    }
  }

  lemma PlayedTwo(c: C.Channel, a: Happening, b: Happening)
    requires PlayedOne(c, a).Some?
    ensures Played(c, [a]) == PlayedOne(c, a)
    ensures Played(c, [a, b]) == PlayedOne(PlayedOne(c, a).value, b)
  {
    assert [a, b][..1] == [a] && [a][..0] == [];
  }

  function Idle(b: Budget): C.Channel {
    C.Channel([], b, C.Waiting, [], [])
  }

  // --------------------------------------------------- beside the supervision loop

  /** One pump's place says where the other's is. */
  predicate SamePlace(place: O.Place, pump: C.Pump) {
    match place
    case Absent => false
    case Asking => pump.Waiting?
    case Reading(cap, charged) => charged && pump == C.Reading(cap)
    case Writing(chunk) => pump == C.Writing(chunk)
    case Ended(end) => if end.WriteFailed? then pump.Broken? else pump.Done?
  }

  function Chunks(log: seq<O.Frame>, source: Source): seq<seq<byte>> {
    if log == [] then []
    else
      var last := log[|log| - 1];
      Chunks(log[..|log| - 1], source) + if last.Data? && last.source == source then [last.bytes] else []
  }

  /** The pump, its budget, what it has read and what it has put on the wire. */
  predicate Same(w: O.World, source: Source, c: C.Channel) {
    SamePump(w.At(source), c) && c.wire == Chunks(w.log, source) && c.grants == []
  }

  /** What one of the pump's steps is on the other side. */
  function MoveScript(p: O.Pump, m: O.PumpMove): seq<Happening> {
    match m
    case Ask => [Steps(C.Ask(O.BUFFER))]
    case Got(chunk) => [Steps(C.Got(chunk)), Steps(C.Charge)]
    case Interrupted => [Steps(C.Retry)]
    case Eof => [Steps(C.End)]
    case Fault => [Steps(C.End)]
    case Write(ok) => [Steps(if ok then C.Write else C.Fail)]
    case Announce => []
  }

  lemma MoveRefines(w: O.World, source: Source, m: O.PumpMove, c: C.Channel)
    requires Same(w, source, c) && O.PumpMay(w.At(source), m) && !w.At(source).budget.uncorked
    ensures Played(c, MoveScript(w.At(source), m)).Some?
    ensures Same(O.Pumped(w, source, m), source, Played(c, MoveScript(w.At(source), m)).value)
  {
    var p := w.At(source);
    NextRefines(p, m, c);
    if m.Write? && m.ok {
      ChunksMore(w.log, O.Data(source, p.place.chunk), source);
    }
    hide MoveScript, Played, SamePlace, O.Next;
    var t := O.Pumped(w, source, m);
    assert t.At(source) == O.Next(p, m);
  }

  /** The pump alone, on its side of the wire. */
  predicate SamePump(p: O.Pump, c: C.Channel) {
    p.gated && SamePlace(p.place, c.pump) && c.budget == p.budget && c.read == p.yielded
  }

  lemma NextRefines(p: O.Pump, m: O.PumpMove, c: C.Channel)
    requires SamePump(p, c) && O.PumpMay(p, m) && !p.budget.uncorked
    ensures Played(c, MoveScript(p, m)).Some? && SamePump(O.Next(p, m), Played(c, MoveScript(p, m)).value)
    ensures var d := Played(c, MoveScript(p, m)).value;
            d.wire == c.wire + (if m.Write? && m.ok then [p.place.chunk] else []) && d.grants == c.grants
  {
    match m
    case Got(chunk) => PlayedTwo(c, Steps(C.Got(chunk)), Steps(C.Charge));
    case Announce =>
    case Ask => PlayedTwo(c, Steps(C.Ask(O.BUFFER)), Arrives(0));
    case Interrupted => PlayedTwo(c, Steps(C.Retry), Arrives(0));
    case Eof => PlayedTwo(c, Steps(C.End), Arrives(0));
    case Fault => PlayedTwo(c, Steps(C.End), Arrives(0));
    case Write(ok) => PlayedTwo(c, Steps(if ok then C.Write else C.Fail), Arrives(0));
  }

  lemma ChunksMore(log: seq<O.Frame>, f: O.Frame, source: Source)
    ensures Chunks(log + [f], source) == Chunks(log, source) + if f.Data? && f.source == source then [f.bytes] else []
  {
    assert (log + [f])[..|log|] == log;
  }

  /** What another step of the shim is to one pump: a grant, an end to waiting, or
      nothing. */
  function ActScript(before: Budget, after: Budget, a: O.Step): seq<Happening> {
    if before == after then []
    else if a.Take? && a.event.Credit? then [Arrives(a.event.n), Steps(C.Deliver)]
    else [Steps(C.Abort)]
  }

  /** All that is done to a pump's budget but for grants. */
  predicate Ended(b: Budget, d: Budget) {
    d == b || d.uncorked || d == Do(b, Act.Cancelled)
  }

  /** All but its own steps leave a pump alone, unless its budget is granted to, cancelled
      or uncorked. */
  predicate Meddles(p: O.Pump, q: O.Pump, a: O.Step) {
    && q == p.(budget := q.budget)
    && if a.Take? && a.event.Credit? then q.budget == p.budget || q.budget == Do(p.budget, Granted(a.event.n))
       else Ended(p.budget, q.budget)
  }

  predicate Handled(w: O.World, t: O.World, source: Source) {
    && t.At(source) == w.At(source).(budget := t.At(source).budget)
    && Ended(w.At(source).budget, t.At(source).budget) && t.log == w.log
  }

  lemma HandledTwice(w: O.World, t: O.World, u: O.World, source: Source)
    requires Handled(w, t, source) && Handled(t, u, source)
    ensures Handled(w, u, source)
  {
  }

  lemma BothHandled(w: O.World, a: Act, source: Source)
    requires !a.Granted?
    ensures Handled(w, w.Both(a), source)
  {
  }

  lemma Untouched(w: O.World, t: O.World, source: Source)
    requires t.out == w.out && t.err == w.err && t.log == w.log
    ensures Handled(w, t, source)
  {
  }

  lemma AfterUntrackedHandled(cfg: O.Config, w: O.World, source: Source)
    ensures Handled(w, O.AfterUntracked(cfg, w), source)
  {
    hide Handled;
    var u := if cfg.strict then w else w.Both(Act.Uncorked);
    BothHandled(w, Act.Uncorked, source);
    Untouched(w, w, source);
    BothHandled(u, Act.Cancelled, source);
    HandledTwice(w, u, u.Both(Act.Cancelled), source);
    var t := O.AfterUntracked(cfg, w);
    var v := if w.beamGone || (cfg.strict && w.discard) then u.Both(Act.Cancelled) else u;
    Untouched(v, t, source);
    HandledTwice(w, v, t, source);
  }

  lemma AfterTrackedHandled(cfg: O.Config, w: O.World, source: Source)
    ensures Handled(w, O.AfterTracked(cfg, w), source)
  {
    hide Handled;
    var t := O.AfterTracked(cfg, w);
    var a := if w.beamGone || w.discard then Act.Cancelled else Act.Uncorked;
    BothHandled(w, a, source);
    Untouched(w, w, source);
    var v := if !w.beamGone && cfg.strict && !w.discard then w else w.Both(a);
    Untouched(v, t, source);
    HandledTwice(w, v, t, source);
  }

  /** A world in which one pump and the log are as the events left them. */
  lemma TakeMeddles(cfg: O.Config, w: O.World, a: O.Step, source: Source)
    requires a.Take? && O.MayStep(cfg, w, a)
    ensures var t := O.Stepped(cfg, w, a); Meddles(w.At(source), t.At(source), a) && t.log == w.log
  {
    hide O.AfterUntracked;
    var t := O.Stepped(cfg, w, a);
    if a.event.Credit? {
      FundedMeddles(w, a.event.source, a.event.n, source);
    } else if w.phase.Gated? {
      GatedHandled(w, a.event, source);
    } else if cfg.tracked {
      Untouched(w, t, source);
    } else {
      UntrackedHandled(cfg, w, a.event, source);
    }
  }

  lemma FundedMeddles(w: O.World, to: Source, n: nat, source: Source)
    ensures var p, t := w.At(source), O.Funded(w, to, n);
            && t.At(source) == p.(budget := t.At(source).budget) && t.log == w.log
            && (t.At(source).budget == p.budget || t.At(source).budget == Do(p.budget, Granted(n)))
  {
  }

  lemma GatedHandled(w: O.World, e: O.Event, source: Source)
    requires w.phase.Gated? && !e.Credit?
    ensures Handled(w, O.TakenGated(w, e), source)
  {
    hide Handled;
    var t := O.TakenGated(w, e);
    Untouched(w, w, source);
    BothHandled(w, Act.Cancelled, source);
    var v := if e.Kill? || e.Closed? then w.Both(Act.Cancelled) else w;
    Untouched(v, t, source);
    HandledTwice(w, v, t, source);
  }

  lemma UntrackedHandled(cfg: O.Config, w: O.World, e: O.Event, source: Source)
    requires !e.Credit?
    ensures Handled(w, O.TakenUntracked(cfg, w, e), source)
  {
    hide Handled, O.AfterUntracked;
    var u := w.(exited := true);
    Untouched(w, u, source);
    AfterUntrackedHandled(cfg, u, source);
    HandledTwice(w, u, O.AfterUntracked(cfg, u), source);
    AfterUntrackedHandled(cfg, w, source);
    var t := O.TakenUntracked(cfg, w, e);
    if !e.ChildExited? && !e.QueueGone? {
      Untouched(w, t, source);
    }
  }

  /** The flags and the queue as a sample leaves them. */
  function Noted(w: O.World, a: O.Step): O.World
    requires a.Scan?
  {
    O.Noted(w, a.uncertain, a.peerGone, a.controlGone, a.group)
  }

  lemma NotedHandled(w: O.World, a: O.Step, source: Source)
    requires a.Scan?
    ensures Handled(w, Noted(w, a), source)
  {
    Untouched(w, Noted(w, a), source);
  }

  lemma ScanMeddles(cfg: O.Config, w: O.World, a: O.Step, source: Source)
    requires a.Scan? && O.MayStep(cfg, w, a)
    ensures var t := O.Stepped(cfg, w, a); Meddles(w.At(source), t.At(source), a) && t.log == w.log
  {
    ScanSplit(cfg, w, a);
    hide O.AfterTracked, O.Stepped, Handled, Noted, Meddles;
    var v := Noted(w, a);
    NotedHandled(w, a, source);
    var x := if v.discard then v.Both(Act.Cancelled) else v;
    BothHandled(v, Act.Cancelled, source);
    HandledTwice(w, v, v.Both(Act.Cancelled), source);
    AfterTrackedHandled(cfg, x, source);
    HandledTwice(w, x, O.AfterTracked(cfg, x), source);
    HandledMeddles(w, O.Stepped(cfg, w, a), a, source);
  }

  lemma ScanSplit(cfg: O.Config, w: O.World, a: O.Step)
    requires a.Scan? && O.MayStep(cfg, w, a)
    ensures var v := Noted(w, a); var x := if v.discard then v.Both(Act.Cancelled) else v;
            O.Stepped(cfg, w, a) == if a.leave then O.AfterTracked(cfg, x) else x
  {
    hide O.AfterTracked;
  }

  lemma HandledMeddles(w: O.World, t: O.World, a: O.Step, source: Source)
    requires Handled(w, t, source) && !a.Take?
    ensures Meddles(w.At(source), t.At(source), a) && t.log == w.log
  {
  }

  lemma OtherMeddles(cfg: O.Config, w: O.World, a: O.Step, source: Source)
    requires !a.Take? && !a.Scan? && !a.Move? && O.MayStep(cfg, w, a)
    requires forall f :: f in w.control ==> !f.Data?
    ensures var t := O.Stepped(cfg, w, a);
            Meddles(w.At(source), t.At(source), a) && Chunks(t.log, source) == Chunks(w.log, source)
  {
    match a
    case Report => ReportMeddles(cfg, w, source);
    case ControlWrite(ok) =>
      ChunksMore(w.log, w.control[0], source);
      assert w.control[0] in w.control;
    case PeerGone => BothHandled(w, Act.Cancelled, source);
    case _ =>
  }

  lemma ReportMeddles(cfg: O.Config, w: O.World, source: Source)
    requires O.MayStep(cfg, w, O.Report)
    ensures var t := O.Stepped(cfg, w, O.Report);
            t.At(source) == w.At(source) && Chunks(t.log, source) == Chunks(w.log, source)
  {
    hide O.Reported;
    var truncated := if w.phase.Leaving? then w.phase.truncated else w.phase.Draining? && w.phase.forced;
    ReportedMeddles(cfg, w, source);
    ReportedMeddles(cfg, w.(phase := O.Leaving(truncated)), source);
  }

  lemma ReportedMeddles(cfg: O.Config, w: O.World, source: Source)
    ensures w.phase.Leaving? ==>
      var t := O.Reported(cfg, w);
      t.At(source) == w.At(source) && Chunks(t.log, source) == Chunks(w.log, source)
  {
    if w.phase.Leaving? {
      ChunksMore(w.log, O.Exit(w.phase.truncated), source);
    }
  }

  lemma MeddlesRefines(w: O.World, t: O.World, a: O.Step, source: Source, c: C.Channel)
    requires Same(w, source, c) && Meddles(w.At(source), t.At(source), a) && !t.At(source).budget.uncorked
    requires Chunks(t.log, source) == Chunks(w.log, source)
    ensures var script := ActScript(w.At(source).budget, t.At(source).budget, a);
            Played(c, script).Some? && Same(t, source, Played(c, script).value)
  {
    var before, after := w.At(source).budget, t.At(source).budget;
    if before != after {
      if a.Take? && a.event.Credit? {
        PlayedTwo(c, Arrives(a.event.n), Steps(C.Deliver));
        assert [a.event.n][1..] == [] && c.grants + [a.event.n] == [a.event.n];
      } else {
        PlayedTwo(c, Steps(C.Abort), Arrives(0));
      }
    }
  }

  function StepScript(cfg: O.Config, w: O.World, a: O.Step, source: Source): seq<Happening>
    requires O.MayStep(cfg, w, a)
  {
    if a.Move? then if a.source == source then MoveScript(w.At(source), a.move) else []
    else ActScript(w.At(source).budget, O.Stepped(cfg, w, a).At(source).budget, a)
  }

  lemma StepRefines(cfg: O.Config, w: O.World, a: O.Step, source: Source, c: C.Channel)
    requires O.MayStep(cfg, w, a) && forall f :: f in w.control ==> !f.Data?
    requires Same(w, source, c) && !w.At(source).budget.uncorked && !O.Stepped(cfg, w, a).At(source).budget.uncorked
    ensures var script := StepScript(cfg, w, a, source);
            Played(c, script).Some? && Same(O.Stepped(cfg, w, a), source, Played(c, script).value)
  {
    hide MoveScript, ActScript, Meddles;
    match a
    case Move(own, move) =>
      if own == source {
        MoveRefines(w, source, move, c);
      } else {
        OtherPump(w, own, move, source);
      }
    case Take(e) =>
      TakeMeddles(cfg, w, a, source);
      MeddlesRefines(w, O.Stepped(cfg, w, a), a, source, c);
    case Scan(_, _, _, _, _) =>
      ScanMeddles(cfg, w, a, source);
      MeddlesRefines(w, O.Stepped(cfg, w, a), a, source, c);
    case _ =>
      OtherMeddles(cfg, w, a, source);
      MeddlesRefines(w, O.Stepped(cfg, w, a), a, source, c);
  }

  lemma OtherPump(w: O.World, own: Source, move: O.PumpMove, source: Source)
    requires own != source && O.PumpMay(w.At(own), move)
    ensures var t := O.Pumped(w, own, move);
            t.At(source) == w.At(source) && Chunks(t.log, source) == Chunks(w.log, source)
  {
    if move.Write? {
      ChunksMore(w.log, O.Data(own, w.At(own).place.chunk), source);
    }
  }

  const FRESH := Idle(Budget(0, false, false))

  predicate Plays(script: seq<Happening>, w: O.World, source: Source) {
    var played := Played(FRESH, script);
    played.Some? && Same(w, source, played.value)
  }

  /** What any run of the supervision loop and its pumps does to one gated pump, while
      that is never uncorked, is a run of credit flow control on its own pipe: the same
      budget and place, the same bytes read, and on the wire what stands on the log. */
  lemma {:induction false} RunRefines(cfg: O.Config, start: O.World, steps: seq<O.Step>, source: Source)
    requires O.Initial(start) && O.Run(cfg, start, steps).Some?
    requires start.At(source).gated && start.At(source).place.Asking?
    requires !O.Run(cfg, start, steps).value.At(source).budget.uncorked
    ensures exists script :: Plays(script, O.Run(cfg, start, steps).value, source)
  {
    hide O.Stepped, O.MayStep, StepScript, Same, Played;
    if steps == [] {
      StartSame(start, source);
    } else {
      var front, last := steps[..|steps| - 1], steps[|steps| - 1];
      var before := O.Run(cfg, start, front).value;
      StaysUncorked(cfg, before, last, source);
      RunRefines(cfg, start, front, source);
      var script :| Plays(script, before, source);
      ControlPlain(cfg, start, front);
      StepRefines(cfg, before, last, source, Played(FRESH, script).value);
      PlayedMore(FRESH, script, StepScript(cfg, before, last, source));
      assert Plays(script + StepScript(cfg, before, last, source), O.Run(cfg, start, steps).value, source);
    }
  }

  lemma ControlPlain(cfg: O.Config, start: O.World, steps: seq<O.Step>)
    requires O.Initial(start) && O.Run(cfg, start, steps).Some?
    ensures forall f :: f in O.Run(cfg, start, steps).value.control ==> !f.Data?
  {
    hide O.Run, O.Claims;
    O.RunKept(cfg, start, steps);
  }

  lemma StartSame(start: O.World, source: Source)
    requires O.Initial(start) && start.At(source).gated && start.At(source).place.Asking?
    ensures Plays([], start, source)
  {
  }

  /** A pump once uncorked stays so. */
  lemma StaysUncorked(cfg: O.Config, w: O.World, a: O.Step, source: Source)
    requires O.MayStep(cfg, w, a)
    ensures w.At(source).budget.uncorked ==> O.Stepped(cfg, w, a).At(source).budget.uncorked
  {
    hide O.Stepped;
    match a
    case Move(own, move) => MoveStays(cfg, w, own, move, source);
    case Take(_) => TakeMeddles(cfg, w, a, source);
    case Scan(_, _, _, _, _) => ScanMeddles(cfg, w, a, source);
    case Report => ReportMeddles(cfg, w, source);
    case _ => LateStays(cfg, w, a, source);
  }

  lemma MoveStays(cfg: O.Config, w: O.World, own: Source, move: O.PumpMove, source: Source)
    requires O.PumpMay(w.At(own), move)
    ensures w.At(source).budget.uncorked ==> O.Stepped(cfg, w, O.Move(own, move)).At(source).budget.uncorked
  {
  }

  lemma LateStays(cfg: O.Config, w: O.World, a: O.Step, source: Source)
    requires O.MayStep(cfg, w, a) && !a.Take? && !a.Scan? && !a.Move? && !a.Report?
    ensures w.At(source).budget.uncorked ==> O.Stepped(cfg, w, a).At(source).budget.uncorked
  {
    if a.PeerGone? {
      BothHandled(w, Act.Cancelled, source);
    }
  }
}
