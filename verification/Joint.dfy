/** One gated pump of the whole shim and the consumer it serves, as one system: the shim
    takes any of its steps, CREDIT frames travel one way and output frames the other. */
module Joints {
  import opened Bytes
  import opened Credits
  import opened Process
  import opened Streams
  import C = Channels
  import O = Outputs
  import R = PumpRuns

  /** The shim, the CREDIT frames on their way to it, how many of the output frames it wrote
      for this pipe the consumer has taken, and the consumer's own account. */
  datatype Joint = Joint(
    w: O.World,
    flight: seq<nat>,
    taken: nat,
    window: nat,
    outstanding: nat,
    granted: nat,
    received: seq<byte>)

  /** The shim steps, or the consumer tops its account up to one window, takes an output
      frame, or takes one and grants its size again at once. */
  datatype Act = Shim(step: O.Step) | TopUp | Take | TakeAndRegrant

  predicate Delivers(a: O.Step, source: Source) {
    a.Take? && a.event.Credit? && a.event.source == source
  }

  /** Credit for this pipe is taken in the order it was sent; all else the shim may do at
      will. */
  predicate May(cfg: O.Config, source: Source, j: Joint, a: Act) {
    match a
    case Shim(step) =>
      && O.MayStep(cfg, j.w, step)
      && (Delivers(step, source) ==> j.flight != [] && j.flight[0] == step.event.n)
    case TopUp => true
    case Take => j.taken < |R.Chunks(j.w.log, source)|
    case TakeAndRegrant => j.taken < |R.Chunks(j.w.log, source)|
  }

  function Send(j: Joint, n: nat): Joint {
    j.(flight := j.flight + [n], outstanding := j.outstanding + n, granted := j.granted + n)
  }

  function Taken(source: Source, j: Joint): Joint
    requires j.taken < |R.Chunks(j.w.log, source)|
  {
    var chunk := R.Chunks(j.w.log, source)[j.taken];
    j.(taken := j.taken + 1, outstanding := SaturatingSub(j.outstanding, |chunk|), received := j.received + chunk)
  }

  function Acted(cfg: O.Config, source: Source, j: Joint, a: Act): Joint
    requires May(cfg, source, j, a)
  {
    match a
    case Shim(step) =>
      j.(w := O.Stepped(cfg, j.w, step), flight := if Delivers(step, source) then j.flight[1..] else j.flight)
    case TopUp => if j.outstanding < j.window then Send(j, j.window - j.outstanding) else j
    case Take => Taken(source, j)
    case TakeAndRegrant => Send(Taken(source, j), |R.Chunks(j.w.log, source)[j.taken]|)
  }

  function Run(cfg: O.Config, source: Source, start: Joint, acts: seq<Act>): Option<Joint> {
    if acts == [] then Some(start)
    else
      match Run(cfg, source, start, acts[..|acts| - 1])
      case None => None
      case Some(j) =>
        if May(cfg, source, j, acts[|acts| - 1]) then Some(Acted(cfg, source, j, acts[|acts| - 1])) else None
  }

  /** A run begins with a gated pump of this pipe and an account that is empty. */
  predicate Initial(j: Joint, source: Source) {
    && O.Initial(j.w) && j.w.At(source).gated && j.w.At(source).place.Asking?
    && j == Joint(j.w, [], 0, j.window, 0, 0, [])
  }

  // ------------------------------------------------------- as credit flow control

  /** The joint system and the two parties to credit flow control agree. */
  ghost predicate Mirrors(j: Joint, source: Source, l: C.Link) {
    && l == C.Link(j.window, j.outstanding, j.granted, j.received, l.channel)
    && R.SamePump(j.w.At(source), l.channel) && l.channel.grants == j.flight
    && j.taken <= |R.Chunks(j.w.log, source)| && l.channel.wire == R.Chunks(j.w.log, source)[j.taken..]
  }

  lemma {:induction false} LinkJoined(l: C.Link, a: seq<C.Act>, b: seq<C.Act>)
    requires C.Run(l, a).Some?
    ensures C.Run(l, a + b) == C.Run(C.Run(l, a).value, b)
    decreases |b|
  {
    if b == [] {
      assert a + b == a;
    } else {
      var front := b[..|b| - 1];
      assert (a + b)[..|a + b| - 1] == a + front;
      LinkJoined(l, a, front);
    }
  }

  lemma LinkOne(l: C.Link, a: C.Act)
    requires C.MayAct(l, a)
    ensures C.Run(l, [a]) == Some(C.Acted(l, a))
  {
    assert [a][..0] == [];
  }

  /** The steps of a pump are the shim's part of the two. */
  function ShimActs(script: seq<R.Happening>): seq<C.Act>
    requires forall h :: h in script ==> h.Steps?
  {
    if script == [] then []
    else ShimActs(script[..|script| - 1]) + [C.Shim(script[|script| - 1].move)]
  }

  lemma {:induction false} ShimPlays(l: C.Link, script: seq<R.Happening>)
    requires (forall h :: h in script ==> h.Steps?) && R.Played(l.channel, script).Some?
    ensures C.Run(l, ShimActs(script)) == Some(l.(channel := R.Played(l.channel, script).value))
    decreases |script|
  {
    if script != [] {
      var front, last := script[..|script| - 1], script[|script| - 1];
      assert last in script && forall h :: h in front ==> h in script;
      ShimPlays(l, front);
      var before := l.(channel := R.Played(l.channel, front).value);
      LinkOne(before, C.Shim(last.move));
      LinkJoined(l, ShimActs(front), [C.Shim(last.move)]);
    }
  }

  lemma ScriptSteps(p: O.Pump, m: O.PumpMove)
    ensures forall h :: h in R.MoveScript(p, m) ==> h.Steps?
  {
  }

  lemma DropMore<T>(s: seq<T>, x: T, n: nat)
    requires n <= |s|
    ensures (s + [x])[n..] == s[n..] + [x]
  {
  }

  /** The pump's own step. */
  lemma MoveMirrors(j: Joint, source: Source, m: O.PumpMove, l: C.Link) returns (acts: seq<C.Act>, r: C.Link)
    requires Mirrors(j, source, l) && O.PumpMay(j.w.At(source), m) && !j.w.At(source).budget.uncorked
    ensures C.Run(l, acts) == Some(r) && Mirrors(j.(w := O.Pumped(j.w, source, m)), source, r)
  {
    hide R.Played, R.MoveScript, R.SamePlace, ShimActs, C.Run;
    var p := j.w.At(source);
    var script := R.MoveScript(p, m);
    R.NextRefines(p, m, l.channel);
    ScriptSteps(p, m);
    ShimPlays(l, script);
    acts, r := ShimActs(script), l.(channel := R.Played(l.channel, script).value);
    WrittenThen(j, source, m);
    assert l.channel.wire + [] == l.channel.wire;
  }

  lemma WrittenThen(j: Joint, source: Source, m: O.PumpMove)
    requires O.PumpMay(j.w.At(source), m) && j.taken <= |R.Chunks(j.w.log, source)|
    ensures var t := O.Pumped(j.w, source, m); var before, after := R.Chunks(j.w.log, source), R.Chunks(t.log, source);
            && t.At(source) == O.Next(j.w.At(source), m) && |before| <= |after|
            && after[j.taken..] == before[j.taken..] + if m.Write? && m.ok then [j.w.At(source).place.chunk] else []
  {
    hide O.Next;
    var before := R.Chunks(j.w.log, source);
    if m.Write? && m.ok {
      var chunk := j.w.At(source).place.chunk;
      R.ChunksMore(j.w.log, O.Data(source, chunk), source);
      DropMore(before, chunk, j.taken);
    } else {
      assert before[j.taken..] + [] == before[j.taken..];
    }
  }

  /** A step that leaves the pump and its pipe alone. */
  lemma StillMirrors(j: Joint, t: O.World, source: Source, l: C.Link)
    requires Mirrors(j, source, l) && t.At(source) == j.w.At(source)
    requires R.Chunks(t.log, source) == R.Chunks(j.w.log, source)
    ensures C.Run(l, []) == Some(l) && Mirrors(j.(w := t), source, l)
  {
  }

  /** A CREDIT frame taken by the loop. */
  lemma DeliverMirrors(j: Joint, t: O.World, source: Source, l: C.Link) returns (r: C.Link)
    requires Mirrors(j, source, l) && j.flight != []
    requires t.At(source) == j.w.At(source).(budget := Do(j.w.At(source).budget, Granted(j.flight[0])))
    requires R.Chunks(t.log, source) == R.Chunks(j.w.log, source)
    ensures C.Run(l, [C.Shim(C.Deliver)]) == Some(r) && Mirrors(j.(w := t, flight := j.flight[1..]), source, r)
  {
    LinkOne(l, C.Shim(C.Deliver));
    r := C.Acted(l, C.Shim(C.Deliver));
  }

  lemma AbortMirrors(j: Joint, t: O.World, source: Source, l: C.Link) returns (r: C.Link)
    requires Mirrors(j, source, l)
    requires t.At(source) == j.w.At(source).(budget := Do(j.w.At(source).budget, Cancelled))
    requires R.Chunks(t.log, source) == R.Chunks(j.w.log, source)
    ensures C.Run(l, [C.Shim(C.Abort)]) == Some(r) && Mirrors(j.(w := t), source, r)
  {
    LinkOne(l, C.Shim(C.Abort));
    r := C.Acted(l, C.Shim(C.Abort));
  }

  /** Whatever the loop is doing, a CREDIT frame for a pipe funds that pipe alone. */
  lemma CreditFunds(cfg: O.Config, w: O.World, to: Source, n: nat, source: Source)
    requires O.MayStep(cfg, w, O.Take(O.Credit(to, n)))
    ensures var t := O.Stepped(cfg, w, O.Take(O.Credit(to, n)));
            && t.At(source) == (if to == source then w.At(source).(budget := Do(w.At(source).budget, Granted(n)))
                                else w.At(source))
            && t.log == w.log
  {
    hide Do, O.AfterUntracked;
    var e := O.Credit(to, n);
    assert O.Stepped(cfg, w, O.Take(e)) == O.Funded(w, to, n) by {
      TakenFunds(cfg, w, to, n);
    }
  }

  lemma TakenFunds(cfg: O.Config, w: O.World, to: Source, n: nat)
    requires O.MayStep(cfg, w, O.Take(O.Credit(to, n)))
    ensures O.Stepped(cfg, w, O.Take(O.Credit(to, n))) == O.Funded(w, to, n)
  {
    hide O.Funded, O.AfterUntracked;
  }

  lemma MeddlesMirrors(j: Joint, t: O.World, a: O.Step, source: Source, l: C.Link) returns (acts: seq<C.Act>, r: C.Link)
    requires Mirrors(j, source, l) && R.Meddles(j.w.At(source), t.At(source), a) && !t.At(source).budget.uncorked
    requires R.Chunks(t.log, source) == R.Chunks(j.w.log, source) && !(a.Take? && a.event.Credit?)
    ensures C.Run(l, acts) == Some(r) && Mirrors(j.(w := t), source, r)
  {
    hide Mirrors, C.Run;
    if t.At(source).budget == j.w.At(source).budget {
      StillMirrors(j, t, source, l);
      acts, r := [], l;
    } else {
      acts := [C.Shim(C.Abort)];
      r := AbortMirrors(j, t, source, l);
    }
  }

  /** One step of the shim. */
  lemma ShimMirrors(cfg: O.Config, j: Joint, a: O.Step, source: Source, l: C.Link) returns (acts: seq<C.Act>, r: C.Link)
    requires May(cfg, source, j, Shim(a)) && Mirrors(j, source, l) && forall f :: f in j.w.control ==> !f.Data?
    requires !j.w.At(source).budget.uncorked && !O.Stepped(cfg, j.w, a).At(source).budget.uncorked
    ensures C.Run(l, acts) == Some(r) && Mirrors(Acted(cfg, source, j, Shim(a)), source, r)
  {
    hide Mirrors, R.Meddles, C.Run;
    match a {
      case Move(own, move) =>
        if own == source {
          acts, r := MoveMirrors(j, source, move, l);
        } else {
          R.OtherPump(j.w, own, move, source);
          StillMirrors(j, O.Stepped(cfg, j.w, a), source, l);
          acts, r := [], l;
        }
      case Take(e) =>
        acts, r := TakeMirrors(cfg, j, a, source, l);
      case Scan(_, _, _, _, _) =>
        R.ScanMeddles(cfg, j.w, a, source);
        acts, r := MeddlesMirrors(j, O.Stepped(cfg, j.w, a), a, source, l);
      case _ =>
        R.OtherMeddles(cfg, j.w, a, source);
        acts, r := MeddlesMirrors(j, O.Stepped(cfg, j.w, a), a, source, l);
    }
  }

  lemma TakeMirrors(cfg: O.Config, j: Joint, a: O.Step, source: Source, l: C.Link) returns (acts: seq<C.Act>, r: C.Link)
    requires a.Take? && May(cfg, source, j, Shim(a)) && Mirrors(j, source, l)
    requires !O.Stepped(cfg, j.w, a).At(source).budget.uncorked
    ensures C.Run(l, acts) == Some(r) && Mirrors(Acted(cfg, source, j, Shim(a)), source, r)
  {
    hide Mirrors, R.Meddles, C.Run, O.Stepped;
    var t := O.Stepped(cfg, j.w, a);
    if a.event.Credit? {
      CreditFunds(cfg, j.w, a.event.source, a.event.n, source);
      if a.event.source == source {
        acts := [C.Shim(C.Deliver)];
        r := DeliverMirrors(j, t, source, l);
      } else {
        StillMirrors(j, t, source, l);
        acts, r := [], l;
      }
    } else {
      R.TakeMeddles(cfg, j.w, a, source);
      acts, r := MeddlesMirrors(j, t, a, source, l);
    }
  }

  /** One act of the consumer. */
  lemma ConsumerMirrors(cfg: O.Config, j: Joint, a: Act, source: Source, l: C.Link) returns (acts: seq<C.Act>, r: C.Link)
    requires !a.Shim? && May(cfg, source, j, a) && Mirrors(j, source, l)
    ensures C.Run(l, acts) == Some(r) && Mirrors(Acted(cfg, source, j, a), source, r)
  {
    hide R.SamePlace, R.Chunks;
    var act := match a case TopUp => C.TopUp case Take => C.Take case _ => C.TakeAndRegrant;
    var chunks := R.Chunks(j.w.log, source);
    if !a.TopUp? {
      assert chunks[j.taken..][0] == chunks[j.taken] && chunks[j.taken..][1..] == chunks[j.taken + 1..];
    }
    LinkOne(l, act);
    acts, r := [act], C.Acted(l, act);
  }

  ghost predicate Plays(script: seq<C.Act>, j: Joint, source: Source) {
    var l := C.Run(C.Fresh(j.window), script);
    l.Some? && Mirrors(j, source, l.value)
  }

  /** The shim's part of a joint run, as a run of the shim alone. */
  function ShimSteps(acts: seq<Act>): seq<O.Step> {
    if acts == [] then []
    else ShimSteps(acts[..|acts| - 1]) + if acts[|acts| - 1].Shim? then [acts[|acts| - 1].step] else []
  }

  lemma {:induction false} ShimRuns(cfg: O.Config, source: Source, start: Joint, acts: seq<Act>)
    requires Run(cfg, source, start, acts).Some?
    ensures O.Run(cfg, start.w, ShimSteps(acts)) == Some(Run(cfg, source, start, acts).value.w)
    ensures Run(cfg, source, start, acts).value.window == start.window
  {
    hide O.Stepped, O.MayStep;
    if acts != [] {
      var front, last := acts[..|acts| - 1], acts[|acts| - 1];
      ShimRuns(cfg, source, start, front);
      if last.Shim? {
        var steps := ShimSteps(acts);
        assert steps[..|steps| - 1] == ShimSteps(front);
      } else {
        assert ShimSteps(acts) == ShimSteps(front);
      }
    }
  }

  lemma ControlPlain(cfg: O.Config, source: Source, start: Joint, acts: seq<Act>)
    requires Initial(start, source) && Run(cfg, source, start, acts).Some?
    ensures forall f :: f in Run(cfg, source, start, acts).value.w.control ==> !f.Data?
  {
    hide Run, O.Run, O.Claims;
    ShimRuns(cfg, source, start, acts);
    O.RunKept(cfg, start.w, ShimSteps(acts));
  }

  /** Whatever the whole shim does, and in whatever order the consumer's credit and its
      output cross, one gated pump and its consumer play credit flow control as long as
      the pump is never uncorked. */
  lemma {:induction false} JointRefines(cfg: O.Config, source: Source, start: Joint, acts: seq<Act>)
    requires Initial(start, source) && Run(cfg, source, start, acts).Some?
    requires !Run(cfg, source, start, acts).value.w.At(source).budget.uncorked
    ensures exists script :: Plays(script, Run(cfg, source, start, acts).value, source)
  {
    hide May, Acted, Mirrors, C.Run;
    var end := Run(cfg, source, start, acts).value;
    ShimRuns(cfg, source, start, acts);
    if acts == [] {
      Begins(start, source);
    } else {
      var front, last := acts[..|acts| - 1], acts[|acts| - 1];
      var before := Run(cfg, source, start, front).value;
      ShimRuns(cfg, source, start, front);
      WasCorked(cfg, source, before, last);
      JointRefines(cfg, source, start, front);
      var script :| Plays(script, before, source);
      ControlPlain(cfg, source, start, front);
      var l := C.Run(C.Fresh(before.window), script).value;
      var more, r := OneMirrors(cfg, before, last, source, l);
      LinkJoined(C.Fresh(before.window), script, more);
      assert Plays(script + more, end, source);
    }
  }

  lemma Begins(j: Joint, source: Source)
    requires Initial(j, source)
    ensures Plays([], j, source)
  {
  }

  lemma OneMirrors(cfg: O.Config, j: Joint, a: Act, source: Source, l: C.Link) returns (acts: seq<C.Act>, r: C.Link)
    requires May(cfg, source, j, a) && Mirrors(j, source, l) && forall f :: f in j.w.control ==> !f.Data?
    requires !j.w.At(source).budget.uncorked && !Acted(cfg, source, j, a).w.At(source).budget.uncorked
    ensures C.Run(l, acts) == Some(r) && Mirrors(Acted(cfg, source, j, a), source, r)
  {
    hide Mirrors, C.Run;
    if a.Shim? {
      acts, r := ShimMirrors(cfg, j, a.step, source, l);
    } else {
      acts, r := ConsumerMirrors(cfg, j, a, source, l);
    }
  }

  lemma WasCorked(cfg: O.Config, source: Source, j: Joint, a: Act)
    requires May(cfg, source, j, a) && !Acted(cfg, source, j, a).w.At(source).budget.uncorked
    ensures !j.w.At(source).budget.uncorked
  {
    hide O.Stepped;
    if a.Shim? {
      R.StaysUncorked(cfg, j.w, a.step, source);
    }
  }

  // ----------------------------------------------------------------- consequences

  /** In any run of the whole shim whose grants come from its consumer, a gated pump never
      uncorked has read no more than was granted, and no more than one window beyond what
      the consumer has received, which is a first part of it. */
  lemma WithinWindow(cfg: O.Config, source: Source, start: Joint, acts: seq<Act>)
    requires Initial(start, source) && start.window < U64 && Run(cfg, source, start, acts).Some?
    requires !Run(cfg, source, start, acts).value.w.At(source).budget.uncorked
    ensures var j := Run(cfg, source, start, acts).value; var read := j.w.At(source).yielded;
            && j.received <= read && |read| <= j.granted
            && |read| - |j.received| <= j.outstanding <= start.window
  {
    hide Run, C.Run;
    JointRefines(cfg, source, start, acts);
    ShimRuns(cfg, source, start, acts);
    var j := Run(cfg, source, start, acts).value;
    var script :| Plays(script, j, source);
    C.RunBalances(j.window, script);
    C.WithinWindow(j.window, script);
  }

  /** And none of the clamps on the way is ever reached: not where credit is added, not
      where a read is charged, and not where a frame is taken off the account. */
  lemma NeverSaturates(cfg: O.Config, source: Source, start: Joint, acts: seq<Act>)
    requires Initial(start, source) && start.window < U64 && Run(cfg, source, start, acts).Some?
    requires !Run(cfg, source, start, acts).value.w.At(source).budget.uncorked
    ensures var j := Run(cfg, source, start, acts).value; var p := j.w.At(source);
            && (j.flight != [] ==> SaturatingAdd(p.budget.available, j.flight[0]) == p.budget.available + j.flight[0])
            && (forall chunk :: O.PumpMay(p, O.Got(chunk)) ==>
                  SaturatingSub(p.budget.available, |chunk|) == p.budget.available - |chunk|)
            && (j.taken < |R.Chunks(j.w.log, source)| ==>
                  var n := |R.Chunks(j.w.log, source)[j.taken]|; SaturatingSub(j.outstanding, n) == j.outstanding - n)
  {
    hide Run, C.Run;
    JointRefines(cfg, source, start, acts);
    ShimRuns(cfg, source, start, acts);
    var j := Run(cfg, source, start, acts).value;
    var script :| Plays(script, j, source);
    C.RunBalances(j.window, script);
    C.NeverSaturates(j.window, script);
    var l := C.Run(C.Fresh(j.window), script).value;
    if j.taken < |R.Chunks(j.w.log, source)| {
      assert l.channel.wire[0] == R.Chunks(j.w.log, source)[j.taken];
    }
  }

  /** Credit is never lost either: while some is outstanding, a pump that has not stopped
      is reading the child, has a frame to write or may ask, or a CREDIT frame or an output
      frame is on its way. With none outstanding it waits: that is the backpressure. */
  lemma NeverStalls(cfg: O.Config, source: Source, start: Joint, acts: seq<Act>)
    requires Initial(start, source) && start.window < U64 && Run(cfg, source, start, acts).Some?
    requires !Run(cfg, source, start, acts).value.w.At(source).budget.uncorked
    requires !Run(cfg, source, start, acts).value.w.At(source).place.Ended?
    ensures var j := Run(cfg, source, start, acts).value; var p := j.w.At(source);
            && (j.outstanding > 0 ==>
                  || p.place.Reading? || p.place.Writing? || O.PumpMay(p, O.Ask)
                  || j.flight != [] || j.taken < |R.Chunks(j.w.log, source)|)
            && (j.outstanding == 0 ==>
                  && j.received == p.yielded && (!p.budget.cancelled ==> !O.PumpMay(p, O.Ask))
                  && forall chunk :: !O.PumpMay(p, O.Got(chunk)))
  {
    hide Run, C.Run;
    JointRefines(cfg, source, start, acts);
    ShimRuns(cfg, source, start, acts);
    var j := Run(cfg, source, start, acts).value;
    var script :| Plays(script, j, source);
    C.RunBalances(j.window, script);
    C.NeverStalls(j.window, script);
    var l := C.Run(C.Fresh(j.window), script).value;
    if j.outstanding == 0 {
      NothingBeyond(l);
    }
  }

  lemma NothingBeyond(l: C.Link)
    requires C.Balanced(l) && C.Unreceived(l.channel) == []
    ensures l.received == l.channel.read
  {
    assert l.received + [] == l.received;
  }
}
