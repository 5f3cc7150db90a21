/** What an EXIT report may say about output: the two output pumps, the supervision loop
    with its drain, and the writer they share, as interleaved steps. */
module Outputs {
  import opened Bytes
  import opened Credits
  import opened Process
  import opened Streams

  const BUFFER := 8192

  datatype End = AtEof | ReadFailed | Cancelled | WriteFailed

  /** Where a pump is. A pipe that was not captured has no pump. */
  datatype Place = Absent | Asking | Reading(cap: nat, charged: bool) | Writing(chunk: seq<byte>) | Ended(end: End)

  /** `yielded` is every byte the pump has read. `announced` says it has reported that
      it is done. */
  datatype Pump = Pump(gated: bool, budget: Budget, place: Place, yielded: seq<byte>, announced: bool)

  datatype Frame = Data(source: Source, bytes: seq<byte>) | Tracked | Exit(truncated: bool)

  /** The supervision loop: taking events, waiting for pumps under a deadline or under
      the consumer's credit, about to report, or returned. */
  datatype Phase =
    | Running
    | Draining(left: nat, forced: bool)
    | Gated(left: nat)
    | Leaving(truncated: bool)
    | Over

  datatype Config = Config(tracked: bool, strict: bool)

  /** `done` counts the pumps' reports not yet taken; `control` is the queue of the
      tracked path's own writer; `broken` is set once any write failed. */
  datatype World = World(
    out: Pump,
    err: Pump,
    done: nat,
    phase: Phase,
    exited: bool,
    beamGone: bool,
    discard: bool,
    control: seq<Frame>,
    log: seq<Frame>,
    broken: bool)
  {
    function At(source: Source): Pump {
      if source.Stdout? then out else err
    }

    function With(source: Source, p: Pump): World {
      if source.Stdout? then this.(out := p) else this.(err := p)
    }

    function Both(a: Act): World {
      this.(out := out.(budget := Do(out.budget, a)), err := err.(budget := Do(err.budget, a)))
    }

    function Count(): nat {
      (if out.place.Absent? then 0 else 1) + if err.place.Absent? then 0 else 1
    }
  }

  datatype PumpMove = Ask | Got(chunk: seq<byte>) | Interrupted | Eof | Fault | Write(ok: bool) | Announce

  datatype Event = Kill | Credit(source: Source, n: nat) | Closed | TimedOut | ChildExited | QueueGone | Ignored

  datatype Step =
    | Move(source: Source, move: PumpMove)
    | Take(event: Event)
    | Scan(uncertain: bool, peerGone: bool, controlGone: bool, group: bool, leave: bool)
    | TakeDone
    | DrainExpires
    | PeerGone
    | DoneGone
    | Report
    | ControlWrite(ok: bool)

  // ------------------------------------------------------------------ the pumps

  predicate PumpMay(p: Pump, m: PumpMove) {
    match m
    case Ask => p.place.Asking? && (!p.gated || !Parked(p.budget))
    case Got(chunk) => p.place.Reading? && 1 <= |chunk| <= p.place.cap
    case Interrupted => p.place.Reading?
    case Eof => p.place.Reading?
    case Fault => p.place.Reading?
    case Write(_) => p.place.Writing?
    case Announce => p.place.Ended? && !p.announced
  }

  function Next(p: Pump, m: PumpMove): Pump
    requires PumpMay(p, m)
  {
    match m
    case Ask =>
      p.(place :=
        if !p.gated then Reading(BUFFER, false)
        else if p.budget.cancelled then Ended(End.Cancelled)
        else if p.budget.uncorked then Reading(BUFFER, false)
        else Reading(if p.budget.available < BUFFER then p.budget.available else BUFFER, true))
    case Got(chunk) =>
      var budget :=
        if p.place.charged then p.budget.(available := SaturatingSub(p.budget.available, |chunk|)) else p.budget;
      p.(place := Writing(chunk), yielded := p.yielded + chunk, budget := budget)
    case Interrupted => p.(place := Asking)
    case Eof => p.(place := Ended(AtEof))
    case Fault => p.(place := Ended(ReadFailed))
    case Write(ok) => p.(place := if ok then Asking else Ended(WriteFailed))
    case Announce => p.(announced := true)
  }

  function Pumped(w: World, source: Source, m: PumpMove): World
    requires PumpMay(w.At(source), m)
  {
    var p := w.At(source);
    var t := w.With(source, Next(p, m));
    match m
    case Write(ok) => if ok then t.(log := w.log + [Data(source, p.place.chunk)]) else t.(broken := true)
    case Announce => t.(done := w.done + 1)
    case _ => t
  }

  // --------------------------------------------------------- the supervision loop

  /** Events while the child runs, untracked: the first of its end or the queue's ends
      the loop. */
  function TakenUntracked(c: Config, w: World, e: Event): World {
    match e
    case Kill => w.(discard := true)
    case Credit(source, n) => Funded(w, source, n)
    case Closed => w.(discard := true, beamGone := true)
    case TimedOut => w.(discard := true)
    case ChildExited => AfterUntracked(c, w.(exited := true))
    case QueueGone => AfterUntracked(c, w)
    case Ignored => w
  }

  function Funded(w: World, source: Source, n: nat): World {
    w.With(source, w.At(source).(budget := Do(w.At(source).budget, Granted(n))))
  }

  function AfterUntracked(c: Config, w: World): World {
    var u := if c.strict then w else w.Both(Uncorked);
    if w.beamGone then u.Both(Act.Cancelled).(phase := Over)
    else if !c.strict then u.(phase := Draining(w.Count(), false))
    else if w.discard then u.Both(Act.Cancelled).(phase := Draining(w.Count(), true))
    else u.(phase := Phase.Gated(w.Count()))
  }

  /** Events while a tracked child runs: none ends the loop. A KILL or timeout after the
      child's end no longer discards its output. */
  function TakenTracked(w: World, e: Event): World {
    match e
    case Kill => w.(discard := w.discard || !w.exited)
    case Credit(source, n) => Funded(w, source, n)
    case Closed => w.(discard := true, beamGone := true)
    case TimedOut => w.(discard := w.discard || !w.exited)
    case ChildExited => w.(exited := true)
    case QueueGone => w.(discard := true, beamGone := true)
    case Ignored => w
  }

  /** What a tracked sample takes note of: a vanished peer and an uncertain tracker discard
      output, and a new group is handed to the writer's queue. */
  function Noted(w: World, uncertain: bool, peerGone: bool, controlGone: bool, group: bool): World {
    var t := if peerGone then w.(beamGone := true, discard := true) else w;
    var u :=
      if group && !t.beamGone then if controlGone then t.(beamGone := true) else t.(control := t.control + [Tracked])
      else t;
    if uncertain then u.(discard := true) else u
  }

  /** A tracked sample. Output being discarded cancels the pumps. The tracker says when to
      leave. */
  function Scanned(c: Config, w: World, uncertain: bool, peerGone: bool, controlGone: bool, group: bool, leave: bool): World {
    var v := Noted(w, uncertain, peerGone, controlGone, group);
    var x := if v.discard then v.Both(Act.Cancelled) else v;
    if leave then AfterTracked(c, x) else x
  }

  function AfterTracked(c: Config, w: World): World {
    if w.beamGone then w.Both(Act.Cancelled).(phase := Over)
    else if c.strict && !w.discard then w.(phase := Phase.Gated(w.Count()))
    else w.Both(if w.discard then Act.Cancelled else Uncorked).(phase := Draining(w.Count(), w.discard))
  }

  /** Events while the consumer's credit still gates the drain. */
  function TakenGated(w: World, e: Event): World
    requires w.phase.Gated?
  {
    match e
    case Credit(source, n) => Funded(w, source, n)
    case Kill => w.Both(Act.Cancelled).(phase := Draining(w.phase.left, true))
    case Closed => w.Both(Act.Cancelled).(phase := Over)
    case _ => w
  }

  function Reported(c: Config, w: World): World
    requires w.phase.Leaving?
  {
    var exit := Exit(w.phase.truncated);
    if c.tracked then w.(control := w.control + [exit], phase := Over) else w.(log := w.log + [exit], phase := Over)
  }

  predicate MayStep(c: Config, w: World, a: Step) {
    match a
    case Move(source, move) => PumpMay(w.At(source), move)
    case Take(_) => w.phase.Running? || w.phase.Gated?
    case Scan(_, _, _, _, _) => c.tracked && w.phase.Running?
    case TakeDone => w.done > 0 && (w.phase.Draining? || w.phase.Gated?) && w.phase.left > 0
    case DrainExpires => w.phase.Draining? && w.phase.left > 0
    case PeerGone => w.phase.Gated?
    case DoneGone => w.phase.Gated? && w.phase.left > 0
    case Report => w.phase.Leaving? || ((w.phase.Draining? || w.phase.Gated?) && w.phase.left == 0)
    case ControlWrite(_) => w.control != []
  }

  function Stepped(c: Config, w: World, a: Step): World
    requires MayStep(c, w, a)
  {
    match a
    case Move(source, move) => Pumped(w, source, move)
    case Take(e) =>
      if w.phase.Gated? then TakenGated(w, e)
      else if c.tracked then TakenTracked(w, e)
      else TakenUntracked(c, w, e)
    case Scan(uncertain, peerGone, controlGone, group, leave) =>
      Scanned(c, w, uncertain, peerGone, controlGone, group, leave)
    case TakeDone =>
      w.(done := w.done - 1,
         phase := if w.phase.Gated? then Phase.Gated(w.phase.left - 1) else Draining(w.phase.left - 1, w.phase.forced))
    case DrainExpires => w.(phase := Leaving(true))
    case PeerGone => w.Both(Act.Cancelled).(phase := Over)
    case DoneGone => w.(phase := Leaving(true))
    case Report =>
      if w.phase.Leaving? then Reported(c, w)
      else Reported(c, w.(phase := Leaving(w.phase.Draining? && w.phase.forced)))
    case ControlWrite(ok) =>
      if ok then w.(control := w.control[1..], log := w.log + [w.control[0]])
      else w.(control := [], broken := true)
  }

  predicate Initial(w: World) {
    && w.done == 0 && w.phase == Running && !w.exited && !w.beamGone && !w.discard && !w.broken
    && w.control == [] && w.log == []
    && (forall source ::
          && (w.At(source).place.Asking? || w.At(source).place.Absent?)
          && w.At(source).budget == Budget(0, false, false) && w.At(source).yielded == [] && !w.At(source).announced)
  }

  function Run(c: Config, start: World, steps: seq<Step>): Option<World> {
    if steps == [] then Some(start)
    else
      match Run(c, start, steps[..|steps| - 1])
      case None => None
      case Some(w) =>
        if MayStep(c, w, steps[|steps| - 1]) then Some(Stepped(c, w, steps[|steps| - 1])) else None
  }

  // ------------------------------------------------------------------- invariants

  function DataOf(log: seq<Frame>, source: Source): seq<byte> {
    if log == [] then []
    else
      var last := log[|log| - 1];
      DataOf(log[..|log| - 1], source) + if last.Data? && last.source == source then last.bytes else []
  }

  function InHand(p: Pump): seq<byte> {
    if p.place.Writing? then p.place.chunk else []
  }

  /** A pump's bytes are all on the log but for the chunk in hand, and it ends cancelled
      only when it was. */
  predicate PumpKept(p: Pump, log: seq<Frame>, source: Source, broken: bool) {
    && (!broken ==> DataOf(log, source) + InHand(p) == p.yielded)
    && (p.place == Ended(End.Cancelled) ==> p.budget.cancelled)
    && (p.place == Ended(WriteFailed) ==> broken)
    && (p.announced ==> p.place.Ended?)
    && (p.place.Absent? ==> p.yielded == [])
  }

  predicate Finished(p: Pump) {
    p.place.Absent? || p.place == Ended(AtEof) || p.place == Ended(ReadFailed)
  }

  function Announced(w: World): nat {
    (if w.out.announced then 1 else 0) + if w.err.announced then 1 else 0
  }

  predicate NoneCancelled(w: World) {
    !w.out.budget.cancelled && !w.err.budget.cancelled
  }

  /** No report that claims complete output is on its way before output is complete. */
  predicate Claims(c: Config, w: World) {
    match w.phase
    case Running => (NoneCancelled(w) || (c.tracked && w.discard)) && w.done == Announced(w)
    case Draining(left, forced) => (NoneCancelled(w) || forced) && left + Announced(w) == w.Count() + w.done
    case Gated(left) => NoneCancelled(w) && left + Announced(w) == w.Count() + w.done
    case Leaving(truncated) => !truncated && !w.broken ==> forall source :: Finished(w.At(source))
    case Over => true
  }

  /** What is written, and then what the tracked path's writer still has to write. */
  function Sent(w: World): seq<Frame> {
    w.log + w.control
  }

  predicate NoExit(frames: seq<Frame>) {
    forall f :: f in frames ==> !f.Exit?
  }

  predicate NoDataAfter(frames: seq<Frame>, k: nat) {
    forall j :: k < j < |frames| ==> !frames[j].Data?
  }

  /** EXIT is sent once, by a loop that has returned, and never to a peer that is gone;
      and, unless a write failed, after one that claims complete output no output
      follows, the pumps being done. */
  predicate Honest(w: World) {
    && (w.phase != Over || w.beamGone ==> NoExit(Sent(w)))
    && (w.beamGone ==> w.phase.Running? || w.phase.Over?)
    && (forall i, j :: 0 <= i < j < |Sent(w)| ==> !(Sent(w)[i].Exit? && Sent(w)[j].Exit?))
    && (forall f :: f in w.control ==> !f.Data?)
    && (forall k :: 0 <= k < |Sent(w)| && Sent(w)[k] == Exit(false) && !w.broken ==>
          NoDataAfter(Sent(w), k) && forall source :: Finished(w.At(source)))
  }

  predicate Kept(c: Config, w: World) {
    && (forall source :: PumpKept(w.At(source), w.log, source, w.broken))
    && Claims(c, w) && Honest(w)
    && (!c.tracked ==> w.control == [])
  }

  // ----------------------------------------------------------------------- proofs

  lemma DataMore(log: seq<Frame>, f: Frame, source: Source)
    ensures DataOf(log + [f], source) == DataOf(log, source) + if f.Data? && f.source == source then f.bytes else []
  {
    assert (log + [f])[..|log|] == log;
  }

  /** Asking, reading, writing and reporting. */
  lemma PumpedKept(w: World, source: Source, m: PumpMove, other: Source)
    requires PumpMay(w.At(source), m)
    requires PumpKept(w.At(other), w.log, other, w.broken)
    ensures var t := Pumped(w, source, m); PumpKept(t.At(other), t.log, other, t.broken)
  {
    var chunk := if m.Write? then w.At(source).place.chunk else [];
    DataMore(w.log, Data(source, chunk), other);
    hide DataOf;
    var t := Pumped(w, source, m);
    assert t.At(other) == if other == source then Next(w.At(source), m) else w.At(other);
    if other == source {
      NextKept(w.At(source), m, w.log, source, w.broken, t.log, t.broken);
    } else {
      assert DataOf(w.log, other) + [] == DataOf(w.log, other);
    }
  }

  lemma NextKept(p: Pump, m: PumpMove, log: seq<Frame>, source: Source, broken: bool, log': seq<Frame>, broken': bool)
    requires PumpMay(p, m) && PumpKept(p, log, source, broken)
    requires if m == Write(true) then DataOf(log', source) == DataOf(log, source) + p.place.chunk else log' == log
    requires broken' == (broken || m == Write(false))
    ensures PumpKept(Next(p, m), log', source, broken')
  {
    hide DataOf;
    assert DataOf(log, source) + [] == DataOf(log, source);
  }

  /** A pump's step leaves the loop's own accounts alone. */
  lemma PumpedFacts(w: World, source: Source, m: PumpMove)
    requires PumpMay(w.At(source), m)
    ensures var t := Pumped(w, source, m);
            && t.phase == w.phase && t.discard == w.discard && t.beamGone == w.beamGone && t.control == w.control
            && (w.broken ==> t.broken)
            && NoneCancelled(t) == NoneCancelled(w) && t.Count() == w.Count()
            && Announced(t) - t.done == Announced(w) - w.done
            && (forall other :: Finished(w.At(other)) ==> Finished(t.At(other)))
  {
    NextFacts(w.At(source), m);
    hide Next, PumpMay, Finished;
    var t := Pumped(w, source, m);
    PumpedPlaces(w, source, m);
    if source.Stdout? {
      assert w.At(Stdout) == w.out;
    } else {
      assert w.At(Stderr) == w.err;
    }
    forall other ensures Finished(w.At(other)) ==> Finished(t.At(other)) {
      assert t.At(other) == if other == source then Next(w.At(source), m) else w.At(other);
    }
  }

  lemma PumpedPlaces(w: World, source: Source, m: PumpMove)
    requires PumpMay(w.At(source), m)
    ensures var t := Pumped(w, source, m);
            && t.out == (if source.Stdout? then Next(w.out, m) else w.out)
            && t.err == (if source.Stdout? then w.err else Next(w.err, m))
            && t.done == w.done + (if m.Announce? then 1 else 0)
  {
    hide Next;
  }

  lemma NextFacts(p: Pump, m: PumpMove)
    requires PumpMay(p, m)
    ensures var q := Next(p, m);
            && q.budget.cancelled == p.budget.cancelled && q.place.Absent? == p.place.Absent?
            && q.announced == (p.announced || m.Announce?) && (m.Announce? ==> !p.announced)
            && (Finished(p) ==> Finished(q))
  {
  }

  lemma PumpedClaims(c: Config, w: World, source: Source, m: PumpMove)
    requires PumpMay(w.At(source), m) && Claims(c, w)
    ensures Claims(c, Pumped(w, source, m))
  {
    hide Pumped, PumpMay, NoneCancelled, Announced, Finished;
    PumpedFacts(w, source, m);
  }

  lemma WrittenHonest(w: World, source: Source)
    requires Honest(w) && w.At(source).place.Writing?
    ensures Honest(Pumped(w, source, Write(true)))
  {
    hide NoExit;
    var t := Pumped(w, source, Write(true));
    var n := |w.log|;
    var f := Data(source, w.At(source).place.chunk);
    assert Sent(t) == w.log + [f] + w.control;
    assert forall k :: 0 <= k < |Sent(t)| ==>
      Sent(t)[k] == if k < n then Sent(w)[k] else if k == n then f else Sent(w)[k - 1];
    NoExitWith(w.log, f, w.control);
    assert !Finished(w.At(source));
    forall i, j | 0 <= i < j < |Sent(t)| ensures !(Sent(t)[i].Exit? && Sent(t)[j].Exit?) {
      if i != n && j != n {
        var x, y := if i < n then i else i - 1, if j < n then j else j - 1;
        assert 0 <= x < y < |Sent(w)| && Sent(w)[x] == Sent(t)[i] && Sent(w)[y] == Sent(t)[j];
      }
    }
    forall k | 0 <= k < |Sent(t)| && !t.broken ensures Sent(t)[k] != Exit(false) {
      if k != n {
        var x := if k < n then k else k - 1;
        assert Sent(t)[k] == Sent(w)[x];
      }
    }
  }

  lemma NoExitWith(a: seq<Frame>, f: Frame, b: seq<Frame>)
    requires !f.Exit?
    ensures NoExit(a + b) ==> NoExit(a + [f] + b)
  {
    if NoExit(a + b) {
      forall g | g in a + [f] + b ensures !g.Exit? {
        assert g in a + b || g == f;
      }
    }
  }

  /** Whatever does not touch the frames, the end of the loop or a finished pump. */
  lemma QuietHonest(w: World, t: World)
    requires Honest(w) && t.log == w.log && t.control == w.control
    requires t.phase == Over ==> w.phase == Over || NoExit(Sent(w))
    requires w.phase == Over ==> t.phase == Over
    requires t.beamGone ==> (t.phase.Running? || t.phase.Over?) && NoExit(Sent(w))
    requires w.broken ==> t.broken
    requires forall source :: Finished(w.At(source)) ==> Finished(t.At(source))
    ensures Honest(t)
  {
    hide NoExit;
    assert Sent(t) == Sent(w);
  }

  lemma PumpedHonest(w: World, source: Source, m: PumpMove)
    requires Honest(w) && PumpMay(w.At(source), m)
    ensures Honest(Pumped(w, source, m))
  {
    hide NoExit, NoDataAfter, Finished;
    if m == Write(true) {
      WrittenHonest(w, source);
    } else {
      PumpedFacts(w, source, m);
      QuietHonest(w, Pumped(w, source, m));
    }
  }

  /** Steps of the loop that only change budgets and its own fields. */
  predicate Plain(w: World, t: World) {
    && t.log == w.log && t.control == w.control && t.broken == w.broken
    && PlainPump(w.out, t.out) && PlainPump(w.err, t.err)
  }

  predicate PlainPump(p: Pump, q: Pump) {
    && q.place == p.place && q.yielded == p.yielded && q.announced == p.announced
    && (p.budget.cancelled ==> q.budget.cancelled)
  }

  lemma PlainKept(c: Config, w: World, t: World)
    requires Kept(c, w) && Plain(w, t) && Claims(c, t)
    requires w.phase == Over ==> t.phase == Over
    requires t.phase == Over ==> w.phase == Over || NoExit(Sent(w))
    requires t.beamGone ==> (t.phase.Running? || t.phase.Over?) && NoExit(Sent(w))
    ensures Kept(c, t)
  {
    hide NoExit, NoDataAfter, DataOf, Claims;
    QuietHonest(w, t);
    forall source ensures PumpKept(t.At(source), t.log, source, t.broken) {
      assert PumpKept(w.At(source), w.log, source, w.broken);
    }
  }

  lemma CountSame(w: World, t: World)
    requires Plain(w, t)
    ensures t.Count() == w.Count() && Announced(t) == Announced(w)
  {
  }

  lemma DoPumpPlain(p: Pump, a: Act, b: Act)
    ensures PlainPump(p, p) && PlainPump(p, p.(budget := Do(p.budget, a)))
    ensures PlainPump(p, p.(budget := Do(Do(p.budget, a), b)))
  {
  }

  lemma DoPlain(w: World, source: Source, n: nat, a: Act)
    ensures Plain(w, w) && Plain(w, w.Both(a)) && Plain(w, Funded(w, source, n))
    ensures Plain(w, w.Both(Uncorked).Both(a))
  {
    BothPlain(w, a);
    UncorkedPlain(w, a);
    FundedPlain(w, source, n);
    hide Do, PlainPump;
  }

  lemma BothPlain(w: World, a: Act)
    ensures Plain(w, w) && Plain(w, w.Both(a))
  {
    DoPumpPlain(w.out, a, a);
    DoPumpPlain(w.err, a, a);
    hide Do, PlainPump;
  }

  lemma UncorkedPlain(w: World, a: Act)
    ensures Plain(w, w.Both(Uncorked).Both(a))
  {
    DoPumpPlain(w.out, Uncorked, a);
    DoPumpPlain(w.err, Uncorked, a);
    hide Do, PlainPump;
  }

  lemma FundedPlain(w: World, source: Source, n: nat)
    ensures Plain(w, Funded(w, source, n))
  {
    DoPumpPlain(w.out, Granted(n), Uncorked);
    DoPumpPlain(w.err, Granted(n), Uncorked);
    hide Do, PlainPump;
  }

  /** The phase a loop's step may lead to. */
  predicate Onward(w: World, t: World) {
    && t.done == w.done
    && (w.phase.Running? ==> t.phase.Running? || t.phase.Draining? || t.phase.Gated? || t.phase.Over?)
    && (t.beamGone ==> w.beamGone || t.phase.Running?)
    && (w.beamGone ==> t.phase.Running? || t.phase.Over? || w.phase.Gated?)
  }

  lemma TakenPlain(c: Config, w: World, e: Event)
    requires w.phase.Running? || w.phase.Gated?
    ensures Plain(w, Stepped(c, w, Take(e))) && Onward(w, Stepped(c, w, Take(e)))
  {
    var source, n := if e.Credit? then e.source else Stdout, if e.Credit? then e.n else 0;
    DoPlain(w, source, n, Act.Cancelled);
    DoPlain(w, source, n, Uncorked);
    hide Do, PlainPump;
    if w.phase.Gated? {
    } else if c.tracked {
    } else {
      UntrackedPlain(c, w, e);
    }
  }

  lemma UntrackedPlain(c: Config, w: World, e: Event)
    requires w.phase.Running?
    ensures Plain(w, TakenUntracked(c, w, e)) && Onward(w, TakenUntracked(c, w, e))
  {
    var source, n := if e.Credit? then e.source else Stdout, if e.Credit? then e.n else 0;
    DoPlain(w, source, n, Act.Cancelled);
    DoPlain(w, source, n, Uncorked);
    hide Do, PlainPump;
  }

  lemma TakenKept(c: Config, w: World, e: Event)
    requires Kept(c, w) && (w.phase.Running? || w.phase.Gated?)
    ensures Kept(c, Stepped(c, w, Take(e)))
  {
    hide NoDataAfter, DataOf, PumpKept, Plain, Stepped, Claims, NoExit;
    TakenPlain(c, w, e);
    TakenClaims(c, w, e);
    PlainKept(c, w, Stepped(c, w, Take(e)));
  }

  lemma TakenClaims(c: Config, w: World, e: Event)
    requires Claims(c, w) && (w.phase.Running? || w.phase.Gated?)
    ensures Claims(c, Stepped(c, w, Take(e)))
  {
    hide Plain, Finished, Onward;
    var t := Stepped(c, w, Take(e));
    TakenPlain(c, w, e);
    CountSame(w, t);
    if w.phase.Gated? {
      GatedClaims(c, w, e);
    } else if c.tracked {
      TrackedClaims(c, w, e);
    } else {
      UntrackedClaims(c, w, e);
    }
  }

  lemma GatedClaims(c: Config, w: World, e: Event)
    requires Claims(c, w) && w.phase.Gated?
    requires TakenGated(w, e).Count() == w.Count() && Announced(TakenGated(w, e)) == Announced(w)
    ensures Claims(c, TakenGated(w, e))
  {
    hide Announced;
  }

  lemma TrackedClaims(c: Config, w: World, e: Event)
    requires Claims(c, w) && w.phase.Running? && c.tracked
    requires Announced(TakenTracked(w, e)) == Announced(w)
    ensures Claims(c, TakenTracked(w, e))
  {
    hide Announced;
  }

  lemma UntrackedClaims(c: Config, w: World, e: Event)
    requires Claims(c, w) && w.phase.Running? && !c.tracked
    requires TakenUntracked(c, w, e).Count() == w.Count() && Announced(TakenUntracked(c, w, e)) == Announced(w)
    ensures Claims(c, TakenUntracked(c, w, e))
  {
    hide Announced;
  }

  lemma ScannedPlain(c: Config, w: World, uncertain: bool, peerGone: bool, controlGone: bool, group: bool, leave: bool)
    requires w.phase.Running?
    ensures var u := Scanned(c, w, uncertain, peerGone, controlGone, group, leave);
            var start := if |u.control| > |w.control| then w.(control := w.control + [Tracked]) else w;
            && Plain(start, u) && u.done == w.done
            && (u.phase.Running? || u.phase.Over? || (!u.beamGone && (u.phase.Draining? || u.phase.Gated?)))
  {
    hide PlainPump, Do, Noted, AfterTracked;
    var v := Noted(w, uncertain, peerGone, controlGone, group);
    NotedPlain(w, uncertain, peerGone, controlGone, group);
    var x := if v.discard then v.Both(Act.Cancelled) else v;
    BothPlain(v, Act.Cancelled);
    AfterTrackedPlain(c, x);
    var start := if |v.control| > |w.control| then w.(control := w.control + [Tracked]) else w;
    PlainThen(start, v, x);
    PlainThen(start, x, AfterTracked(c, x));
  }

  lemma NotedPlain(w: World, uncertain: bool, peerGone: bool, controlGone: bool, group: bool)
    ensures var v := Noted(w, uncertain, peerGone, controlGone, group);
            var start := if |v.control| > |w.control| then w.(control := w.control + [Tracked]) else w;
            Plain(start, v) && v.done == w.done && v.phase == w.phase
  {
    BothPlain(w, Act.Cancelled);
    hide PlainPump;
  }

  lemma AfterTrackedPlain(c: Config, w: World)
    ensures var t := AfterTracked(c, w);
            && Plain(w, t) && t.done == w.done
            && (t.phase.Over? || (!t.beamGone && (t.phase.Draining? || t.phase.Gated?)))
  {
    BothPlain(w, Act.Cancelled);
    BothPlain(w, Uncorked);
    hide PlainPump, Do;
  }

  lemma PlainThen(w: World, t: World, u: World)
    requires Plain(w, t) && Plain(t, u)
    ensures Plain(w, u)
  {
  }

  lemma AnnouncedSame(w: World, t: World)
    requires t.out == w.out && t.err == w.err
    ensures Announced(t) == Announced(w) && t.Count() == w.Count()
  {
  }

  lemma ScannedClaims(c: Config, w: World, uncertain: bool, peerGone: bool, controlGone: bool, group: bool, leave: bool)
    requires Claims(c, w) && w.phase.Running? && c.tracked
    ensures Claims(c, Scanned(c, w, uncertain, peerGone, controlGone, group, leave))
  {
    hide Plain, Announced, Finished;
    var u := Scanned(c, w, uncertain, peerGone, controlGone, group, leave);
    ScannedPlain(c, w, uncertain, peerGone, controlGone, group, leave);
    var start := if |u.control| > |w.control| then w.(control := w.control + [Tracked]) else w;
    CountSame(start, u);
    AnnouncedSame(w, start);
  }

  lemma ScannedKept(c: Config, w: World, uncertain: bool, peerGone: bool, controlGone: bool, group: bool, leave: bool)
    requires Kept(c, w) && c.tracked && w.phase.Running?
    ensures Kept(c, Scanned(c, w, uncertain, peerGone, controlGone, group, leave))
  {
    hide NoExit, NoDataAfter, DataOf, PumpKept, Honest, Scanned, Plain, Claims;
    var u := Scanned(c, w, uncertain, peerGone, controlGone, group, leave);
    ScannedPlain(c, w, uncertain, peerGone, controlGone, group, leave);
    ScannedClaims(c, w, uncertain, peerGone, controlGone, group, leave);
    var start := if |u.control| > |w.control| then w.(control := w.control + [Tracked]) else w;
    QueuedKept(c, w);
    HonestNoExit(start);
    PlainKept(c, start, u);
  }

  lemma HonestNoExit(w: World)
    requires Honest(w) && w.phase != Over
    ensures NoExit(Sent(w))
  {
  }

  lemma QueuedKept(c: Config, w: World)
    requires Kept(c, w) && w.phase.Running? && c.tracked
    ensures Kept(c, w.(control := w.control + [Tracked]))
  {
    hide DataOf, PumpKept;
    var t := w.(control := w.control + [Tracked]);
    assert Sent(t) == Sent(w) + [Tracked];
    assert forall source :: t.At(source) == w.At(source);
    assert forall f :: f in Sent(t) ==> f in Sent(w) || f == Tracked;
  }

  /** With every pump's report taken and none cancelled, every pump is at its end. */
  lemma AllFinished(c: Config, w: World)
    requires Kept(c, w) && (w.phase == Draining(0, false) || w.phase == Phase.Gated(0)) && !w.broken
    ensures forall source :: Finished(w.At(source))
  {
    assert w.At(Stdout) == w.out && w.At(Stderr) == w.err;
    assert PumpKept(w.At(Stdout), w.log, Stdout, w.broken) && PumpKept(w.At(Stderr), w.log, Stderr, w.broken);
    hide DataOf;
    assert Announced(w) == w.Count() + w.done;
    forall source ensures Finished(w.At(source)) {
      var p := w.At(source);
      assert p.announced || p.place.Absent?;
      assert p.place.Ended? ==> p.place.end.AtEof? || p.place.end.ReadFailed?;
    }
  }

  lemma AtEnd(c: Config, w: World, t: World)
    requires Kept(c, w) && t == w.(phase := t.phase, done := t.done)
    requires w.phase != Over && t.phase != Over && !w.phase.Running? && !t.phase.Running? && Claims(c, t)
    ensures Kept(c, t)
  {
    hide NoDataAfter, DataOf, PumpKept, NoExit;
    assert Sent(t) == Sent(w);
    assert forall source :: t.At(source) == w.At(source);
  }

  lemma TakeDoneKept(c: Config, w: World)
    requires Kept(c, w) && MayStep(c, w, TakeDone)
    ensures Kept(c, Stepped(c, w, TakeDone))
  {
    hide NoDataAfter, DataOf, PumpKept, Honest;
    AnnouncedSame(w, Stepped(c, w, TakeDone));
    AtEnd(c, w, Stepped(c, w, TakeDone));
  }

  /** The drain is over: what the report will say is what the pumps are. */
  lemma LeavingKept(c: Config, w: World)
    requires Kept(c, w) && (w.phase.Draining? || w.phase.Gated?) && w.phase.left == 0
    ensures Kept(c, w.(phase := Leaving(w.phase.Draining? && w.phase.forced)))
  {
    if !w.broken && !(w.phase.Draining? && w.phase.forced) {
      AllFinished(c, w);
    }
    hide NoDataAfter, DataOf, PumpKept, Honest, Finished;
    var t := w.(phase := Leaving(w.phase.Draining? && w.phase.forced));
    assert forall source :: t.At(source) == w.At(source);
    AtEnd(c, w, t);
  }

  lemma ReportedKept(c: Config, w: World)
    requires Kept(c, w) && w.phase.Leaving?
    ensures Kept(c, Reported(c, w))
  {
    hide Finished, NoDataAfter, NoExit, DataOf, Honest;
    var t := Reported(c, w);
    var exit := Exit(w.phase.truncated);
    forall source ensures PumpKept(t.At(source), t.log, source, t.broken) {
      assert PumpKept(w.At(source), w.log, source, w.broken);
      DataMore(w.log, exit, source);
      assert DataOf(w.log, source) + [] == DataOf(w.log, source);
    }
    ReportedHonest(c, w);
  }

  lemma ReportedHonest(c: Config, w: World)
    requires Kept(c, w) && w.phase.Leaving?
    ensures Honest(Reported(c, w))
  {
    hide Finished, DataOf, PumpKept;
    var t := Reported(c, w);
    var exit := Exit(w.phase.truncated);
    assert Sent(t) == Sent(w) + [exit];
    assert forall source :: t.At(source) == w.At(source);
    assert forall k :: 0 <= k < |Sent(w)| ==> Sent(w)[k] in Sent(w);
  }

  lemma ControlWrittenKept(c: Config, w: World, ok: bool)
    requires Kept(c, w) && w.control != []
    ensures Kept(c, Stepped(c, w, ControlWrite(ok)))
  {
    hide Finished, NoDataAfter, NoExit, DataOf, Honest;
    var t := Stepped(c, w, ControlWrite(ok));
    AnnouncedSame(w, t);
    HeadNotData(w);
    assert forall source :: t.At(source) == w.At(source);
    forall source ensures PumpKept(t.At(source), t.log, source, t.broken) {
      assert PumpKept(w.At(source), w.log, source, w.broken);
      DataMore(w.log, w.control[0], source);
      assert DataOf(w.log, source) + [] == DataOf(w.log, source);
    }
    ControlHonest(c, w, ok);
  }

  lemma HeadNotData(w: World)
    requires Honest(w) && w.control != []
    ensures !w.control[0].Data?
  {
  }

  lemma ControlHonest(c: Config, w: World, ok: bool)
    requires Honest(w) && w.control != []
    ensures Honest(Stepped(c, w, ControlWrite(ok)))
  {
    hide Finished, DataOf;
    var t := Stepped(c, w, ControlWrite(ok));
    assert forall source :: t.At(source) == w.At(source);
    if ok {
      assert w.control == [w.control[0]] + w.control[1..];
      assert Sent(t) == Sent(w);
    } else {
      assert Sent(t) == w.log;
      assert forall k :: 0 <= k < |w.log| ==> Sent(w)[k] == w.log[k];
      assert forall f :: f in w.log ==> f in Sent(w);
    }
  }

  lemma PeerGoneKept(c: Config, w: World)
    requires Kept(c, w) && w.phase.Gated?
    ensures Kept(c, w.Both(Act.Cancelled).(phase := Over))
  {
    BothPlain(w, Act.Cancelled);
    HonestNoExit(w);
    hide Plain, PumpKept, NoExit, NoDataAfter, Do;
    var t := w.Both(Act.Cancelled).(phase := Over);
    assert Plain(w, t) by { PhasePlain(w, w.Both(Act.Cancelled), Over); }
    PlainKept(c, w, t);
  }

  lemma PhasePlain(w: World, t: World, p: Phase)
    requires Plain(w, t)
    ensures Plain(w, t.(phase := p))
  {
  }

  lemma LeaveKept(c: Config, w: World)
    requires Kept(c, w) && (w.phase.Draining? || w.phase.Gated?)
    ensures Kept(c, w.(phase := Leaving(true)))
  {
    hide NoDataAfter, DataOf, PumpKept, Honest, Finished;
    AtEnd(c, w, w.(phase := Leaving(true)));
  }

  lemma PumpedAllKept(c: Config, w: World, source: Source, move: PumpMove)
    requires Kept(c, w) && PumpMay(w.At(source), move)
    ensures Kept(c, Pumped(w, source, move))
  {
    hide Finished, NoDataAfter, NoExit, DataOf, Honest, Claims, Next;
    var t := Pumped(w, source, move);
    forall other ensures PumpKept(t.At(other), t.log, other, t.broken) {
      PumpedKept(w, source, move, other);
    }
    PumpedClaims(c, w, source, move);
    PumpedHonest(w, source, move);
  }

  lemma StepKept(c: Config, w: World, a: Step)
    requires Kept(c, w) && MayStep(c, w, a)
    ensures Kept(c, Stepped(c, w, a))
  {
    hide Kept, Pumped, PumpMay, TakenUntracked, TakenTracked, TakenGated, Scanned, Reported, Plain;
    match a
    case Move(source, move) => PumpedAllKept(c, w, source, move);
    case Take(e) => TakenKept(c, w, e);
    case Scan(uncertain, peerGone, controlGone, group, leave) =>
      ScannedKept(c, w, uncertain, peerGone, controlGone, group, leave);
    case TakeDone => TakeDoneKept(c, w);
    case DrainExpires => LeaveKept(c, w);
    case PeerGone => PeerGoneKept(c, w);
    case DoneGone => LeaveKept(c, w);
    case Report =>
      if w.phase.Leaving? {
        ReportedKept(c, w);
      } else {
        LeavingKept(c, w);
        ReportedKept(c, w.(phase := Leaving(w.phase.Draining? && w.phase.forced)));
      }
    case ControlWrite(ok) => ControlWrittenKept(c, w, ok);
  }

  lemma StartKept(c: Config, w: World)
    requires Initial(w)
    ensures Kept(c, w)
  {
    assert w.At(Stdout) == w.out && w.At(Stderr) == w.err;
    forall source ensures PumpKept(w.At(source), w.log, source, w.broken) {
    }
    assert Sent(w) == [];
  }

  lemma {:induction false} RunKept(c: Config, start: World, steps: seq<Step>)
    requires Initial(start) && Run(c, start, steps).Some?
    ensures Kept(c, Run(c, start, steps).value)
  {
    hide Kept, Stepped, MayStep, Initial;
    if steps == [] {
      StartKept(c, start);
    } else {
      RunKept(c, start, steps[..|steps| - 1]);
      StepKept(c, Run(c, start, steps[..|steps| - 1]).value, steps[|steps| - 1]);
    }
  }

  // ----------------------------------------------------------------- consequences

  lemma {:induction false} NothingAfter(log: seq<Frame>, k: nat, source: Source)
    requires k <= |log| && forall j :: k <= j < |log| ==> !log[j].Data?
    ensures DataOf(log[..k], source) == DataOf(log, source)
    decreases |log|
  {
    if k < |log| {
      var shorter := log[..|log| - 1];
      assert shorter[..k] == log[..k];
      NothingAfter(shorter, k, source);
    } else {
      assert log[..k] == log;
    }
  }

  /** Whenever EXIT says that output was not truncated and no write failed, every pipe's
      pump had met the end of its pipe, and every byte it read stands on the log, in
      order and under its own tag, before the EXIT frame. This holds tracked and
      untracked, strict and eager, over every order of events. */
  lemma CompleteMeansComplete(c: Config, start: World, steps: seq<Step>, k: nat, source: Source)
    requires Initial(start) && Run(c, start, steps).Some?
    requires !Run(c, start, steps).value.broken
    requires k < |Run(c, start, steps).value.log| && Run(c, start, steps).value.log[k] == Exit(false)
    ensures var w := Run(c, start, steps).value;
            Finished(w.At(source)) && DataOf(w.log[..k], source) == w.At(source).yielded
  {
    hide Run, Claims;
    RunKept(c, start, steps);
    var w := Run(c, start, steps).value;
    assert Sent(w)[k] == Exit(false);
    assert NoDataAfter(Sent(w), k);
    assert forall j :: k <= j < |w.log| ==> w.log[j] == Sent(w)[j];
    NothingAfter(w.log, k, source);
    assert PumpKept(w.At(source), w.log, source, w.broken) && Finished(w.At(source));
  }

  /** At most one EXIT is written, none to a peer seen gone, and every byte of output on
      the log was read from its pipe in that order. */
  lemma ReportsOnce(c: Config, start: World, steps: seq<Step>, source: Source)
    requires Initial(start) && Run(c, start, steps).Some?
    ensures var w := Run(c, start, steps).value;
            && (forall i, j :: 0 <= i < |w.log| && 0 <= j < |w.log| && w.log[i].Exit? && w.log[j].Exit? ==> i == j)
            && (w.beamGone ==> forall i :: 0 <= i < |w.log| ==> !w.log[i].Exit?)
            && (!w.broken ==> DataOf(w.log, source) <= w.At(source).yielded)
  {
    hide Run, Claims;
    RunKept(c, start, steps);
    var w := Run(c, start, steps).value;
    assert forall i :: 0 <= i < |w.log| ==> Sent(w)[i] == w.log[i] && w.log[i] in Sent(w);
    assert PumpKept(w.At(source), w.log, source, w.broken);
  }
}
