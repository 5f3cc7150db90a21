/** What each call of a pull session is told, and when the session stops: every answer for
    its own reason. */
module Answers {
  import opened Bytes
  import opened Channels
  import opened Lines
  import opened Process
  import opened Pull
  import opened Streams

  /** Step `i` is call number `call`, and another call was waiting. */
  ghost predicate CrossedAt(m: Limits, steps: seq<Pull.Step>, i: nat, call: nat) {
    && i < |steps| && steps[i].Call? && Pull.Run(m, steps[..i]).Some?
    && Pull.Run(m, steps[..i]).value.asked == call && Pull.Run(m, steps[..i]).value.waiter.Some?
  }

  ghost predicate Crossed(m: Limits, steps: seq<Pull.Step>, call: nat) {
    exists i: nat :: CrossedAt(m, steps, i, call)
  }

  /** The next frame of a pipe takes the output, a line or an unfinished line over its
      bound. */
  predicate OverLimit(m: Limits, s: Session, source: Source)
    requires s.At(source).link.channel.wire != []
  {
    var chunk := s.At(source).link.channel.wire[0];
    var p := Split(s.At(source).buffer + chunk);
    || |s.out.link.received| + |s.err.link.received| + |chunk| > m.output
    || |p.rest| > m.line || exists i :: 0 <= i < |p.lines| && |p.lines[i]| > m.line
  }

  /** The last step took in a frame over a limit. */
  predicate Overran(m: Limits, steps: seq<Pull.Step>) {
    && steps != [] && steps[|steps| - 1].Output?
    && var before := Pull.Run(m, steps[..|steps| - 1]);
    && before.Some? && Pull.MayStep(before.value, steps[|steps| - 1])
    && OverLimit(m, before.value, steps[|steps| - 1].source)
  }

  function Asked(steps: seq<Pull.Step>): nat {
    if steps == [] then 0 else Asked(steps[..|steps| - 1]) + if steps[|steps| - 1].Call? then 1 else 0
  }

  ghost predicate Reasoned(m: Limits, steps: seq<Pull.Step>, s: Session) {
    && (forall call: nat :: (call, TimedOut) in s.replies <==> Step.Timeout(call) in steps)
    && (forall call: nat :: (call, Busy) in s.replies <==> Crossed(m, steps, call))
    && (forall call: nat :: (call, Finished) in s.replies ==> s.exited && s.queue == [])
    && (s.exited <==> Step.End in steps) && s.asked == Asked(steps)
    && (s.stopped <==> (s.exited && s.queue == []) || Overran(m, steps))
  }

  lemma CrossedMore(m: Limits, steps: seq<Pull.Step>, s: Session, a: Pull.Step, call: nat)
    requires Pull.Run(m, steps) == Some(s)
    ensures Crossed(m, steps + [a], call) <==> Crossed(m, steps, call) || (a.Call? && s.asked == call && s.waiter.Some?)
  {
    hide Pull.Run;
    var more := steps + [a];
    assert more[..|steps|] == steps && more[|steps|] == a;
    forall i: nat | i < |steps| ensures CrossedAt(m, more, i, call) == CrossedAt(m, steps, i, call) {
      assert more[..i] == steps[..i];
    }
    if Crossed(m, steps, call) {
      var i: nat :| CrossedAt(m, steps, i, call);
      assert CrossedAt(m, more, i, call);
    }
    if a.Call? && s.asked == call && s.waiter.Some? {
      assert CrossedAt(m, more, |steps|, call);
    }
  }

  /** What one step adds to the answers. */
  ghost predicate Adds(s: Session, a: Pull.Step, t: Session) {
    && (forall call: nat :: (call, TimedOut) in t.replies <==> (call, TimedOut) in s.replies || a == Step.Timeout(call))
    && (forall call: nat :: (call, Busy) in t.replies <==>
          (call, Busy) in s.replies || (a.Call? && s.asked == call && s.waiter.Some?))
    && (forall call: nat :: (call, Finished) in t.replies && (call, Finished) !in s.replies ==> t.exited && t.queue == [])
    && (t.exited <==> s.exited || a.End?) && t.asked == s.asked + if a.Call? then 1 else 0
  }

  lemma CallAdds(m: Limits, s: Session)
    requires Kept(m, s) && (s.exited ==> s.queue != []) && !s.stopped
    ensures var t := Recv(m, s); Adds(s, Step.Call, t) && (t.stopped <==> t.exited && t.queue == [])
  {
    hide PipesKept, Answered, Funded, Granted;
    GrantedOnly(m, s.(asked := s.asked + 1, waiter := Some(s.asked)));
    GrantedGoesOn(m, s.(asked := s.asked + 1, waiter := Some(s.asked)));
  }

  lemma GrantedGoesOn(m: Limits, s: Session)
    ensures Granted(m, s).stopped == s.stopped
  {
  }

  lemma EmitAdds(m: Limits, s: Session, source: Source)
    requires Kept(m, s) && !s.exited && !s.stopped && s.At(source).link.channel.wire != []
    ensures var t := Emit(m, s, source); Adds(s, Output(source), t) && (t.stopped <==> OverLimit(m, s, source))
  {
    hide PipesKept, Answered, Funded, Split, Acted;
    KeptTotal(m, s);
  }

  lemma KeptTotal(m: Limits, s: Session)
    requires Kept(m, s)
    ensures s.total == |s.out.link.received| + |s.err.link.received|
  {
    hide PipeBounded, PipeFaithful, Answered, Funded;
  }

  lemma EndAdds(m: Limits, s: Session)
    requires Kept(m, s) && !s.exited && !s.stopped
    ensures var t := Ended(s); Adds(s, Step.End, t) && (t.stopped <==> t.queue == [])
  {
    hide PipesKept, Answered, Funded, Flushed;
    FlushedOnly(s);
  }

  lemma FlushedOnly(s: Session)
    ensures var t := Flushed(s); t.replies == s.replies && t.waiter == s.waiter && t.asked == s.asked && t.exited == s.exited
  {
  }

  lemma StepAdds(m: Limits, s: Session, a: Pull.Step)
    requires Kept(m, s) && (s.exited ==> s.queue != []) && Pull.MayStep(s, a)
    ensures var t := Pull.Stepped(m, s, a);
            && Adds(s, a, t)
            && (t.stopped <==> (t.exited && t.queue == []) || (a.Output? && OverLimit(m, s, a.source)))
  {
    hide Kept, Recv, Emit, Ended, OverLimit, Acted, Enabled;
    match a
    case Call => CallAdds(m, s);
    case Output(source) => EmitAdds(m, s, source);
    case End => EndAdds(m, s);
    case Timeout(call) => WaiterOnly(m, s);
    case Shim(source, move) =>
  }

  lemma WaiterOnly(m: Limits, s: Session)
    requires Kept(m, s)
    ensures s.waiter.Some? ==> !s.exited
  {
    hide PipesKept, Answered, Funded;
  }

  lemma StepReasoned(m: Limits, steps: seq<Pull.Step>, s: Session, a: Pull.Step)
    requires Pull.Run(m, steps) == Some(s) && Kept(m, s) && Reasoned(m, steps, s) && Pull.MayStep(s, a)
    ensures Reasoned(m, steps + [a], Pull.Stepped(m, s, a))
  {
    hide Kept, Pull.Stepped, Pull.Run, Crossed, OverLimit, Acted, Enabled;
    StepAdds(m, s, a);
    var more, t := steps + [a], Pull.Stepped(m, s, a);
    assert more[..|more| - 1] == steps && more[|more| - 1] == a;
    assert forall x :: x in more <==> x in steps || x == a;
    forall call: nat ensures Crossed(m, more, call) <==> Crossed(m, steps, call) || (a.Call? && s.asked == call && s.waiter.Some?) {
      CrossedMore(m, steps, s, a, call);
    }
  }

  /** Over every interleaving: a call is told that it timed out exactly if its own time ran
      out, that the session is busy exactly if another call was waiting when it came, and
      that all is finished only once the child has ended and every line is handed out;
      and the session stops exactly then, or at the frame that goes over a limit. */
  lemma {:induction false} AnsweredRightly(m: Limits, steps: seq<Pull.Step>)
    requires m.Valid() && Pull.Run(m, steps).Some?
    ensures Reasoned(m, steps, Pull.Run(m, steps).value)
  {
    hide Pull.Stepped, Kept, Reasoned;
    if steps == [] {
      StartReasoned(m);
    } else {
      var front, last := steps[..|steps| - 1], steps[|steps| - 1];
      assert steps == front + [last];
      AnsweredRightly(m, front);
      Pull.RunKept(m, front);
      StepReasoned(m, front, Pull.Run(m, front).value, last);
    }
  }

  lemma StartReasoned(m: Limits)
    ensures Reasoned(m, [], Pull.Run(m, []).value)
  {
  }

  // ------------------------------------------------------------------ in order

  /** A step hands out lines from the front of the queue and adds lines at its end: whatever
      order the lines of both pipes came in, they are handed out in. */
  lemma HandsInOrder(m: Limits, s: Session, a: Pull.Step)
    requires Pull.MayStep(s, a)
    ensures InOrder(s, Pull.Stepped(m, s, a))
  {
    hide Split, Acted, Enabled, Marked, ReplyWaiter, Flushed, InOrder;
    match a
    case Call => CallInOrder(m, s);
    case Output(source) =>
      var pipe := s.At(source);
      var p := Split(pipe.buffer + pipe.link.channel.wire[0]);
      var t := s.With(source, Pipe(p.rest, Acted(pipe.link, Take))).(
        total := s.total + |pipe.link.channel.wire[0]|, queue := s.queue + Marked(source, p.lines));
      QueuedInOrder(s, t);
      QueuedInOrder(s, s.(stopped := true));
      ReplyInOrder(t);
      OrderThen(s, t, ReplyWaiter(t));
    case End =>
      var t := Flushed(s).(exited := true);
      FlushedInOrder(s);
      ReplyInOrder(t);
      OrderThen(s, t, ReplyWaiter(t));
      QueuedInOrder(ReplyWaiter(t), Ended(s));
      OrderThen(s, ReplyWaiter(t), Ended(s));
    case Timeout(call) => QueuedInOrder(s, Pull.Stepped(m, s, a));
    case Shim(source, move) => QueuedInOrder(s, Pull.Stepped(m, s, a));
  }

  ghost predicate InOrder(s: Session, t: Session) {
    s.delivered <= t.delivered && s.delivered + s.queue <= t.delivered + t.queue
  }

  lemma OrderThen(s: Session, t: Session, u: Session)
    requires InOrder(s, t) && InOrder(t, u)
    ensures InOrder(s, u)
  {
  }

  lemma QueuedInOrder(s: Session, t: Session)
    requires t.delivered == s.delivered && s.queue <= t.queue
    ensures InOrder(s, t)
  {
  }

  lemma HandedInOrder(s: Session, call: nat)
    requires s.queue != []
    ensures InOrder(s, Handed(s, call))
  {
    assert s.queue == [s.queue[0]] + s.queue[1..];
    var t := Handed(s, call);
    var first := s.queue[0];
    assert first == (first.0, first.1);
    assert t == s.(queue := s.queue[1..]).Answer(call, Line(first.0, first.1));
    assert t.delivered == s.delivered + [first];
    assert t.delivered + t.queue == s.delivered + ([first] + s.queue[1..]);
  }

  lemma CallInOrder(m: Limits, s: Session)
    ensures InOrder(s, Recv(m, s))
  {
    hide InOrder, Granted, Handed;
    var t := s.(asked := s.asked + 1);
    QueuedInOrder(s, t);
    if s.waiter.None? && s.queue != [] {
      HandedInOrder(t, s.asked);
      OrderThen(s, t, Handed(t, s.asked));
      QueuedInOrder(Handed(t, s.asked), Recv(m, s));
      OrderThen(s, Handed(t, s.asked), Recv(m, s));
    } else {
      GrantedOnly(m, t.(waiter := Some(s.asked)));
      QueuedInOrder(s, Recv(m, s));
    }
  }

  lemma ReplyInOrder(s: Session)
    ensures InOrder(s, ReplyWaiter(s))
  {
    hide InOrder, Handed;
    if s.waiter.Some? && s.queue != [] {
      QueuedInOrder(s, s.(waiter := None));
      HandedInOrder(s.(waiter := None), s.waiter.value);
      OrderThen(s, s.(waiter := None), ReplyWaiter(s));
    } else {
      QueuedInOrder(s, ReplyWaiter(s));
    }
  }

  lemma FlushedInOrder(s: Session)
    ensures InOrder(s, Flushed(s).(exited := true))
  {
  }

  lemma {:induction false} LaterInOrder(m: Limits, steps: seq<Pull.Step>, n: nat)
    requires n <= |steps| && Pull.Run(m, steps).Some?
    ensures Pull.Run(m, steps[..n]).Some?
    ensures InOrder(Pull.Run(m, steps[..n]).value, Pull.Run(m, steps).value)
    decreases |steps|
  {
    hide Pull.Stepped, Pull.MayStep;
    if n == |steps| {
      assert steps[..n] == steps;
    } else {
      var front := steps[..|steps| - 1];
      assert front[..n] == steps[..n];
      LaterInOrder(m, front, n);
      HandsInOrder(m, Pull.Run(m, front).value, steps[|steps| - 1]);
    }
  }

  // -------------------------------------------------------------------- credit

  /** Credit is granted to a caller that must wait, and to no one else: each credited pipe is
      topped up to its window. */
  lemma GrantsForCaller(m: Limits, s: Session, a: Pull.Step, source: Source)
    requires Pull.MayStep(s, a)
    ensures var l, k := s.At(source).link, Pull.Stepped(m, s, a).At(source).link;
            var waits := a.Call? && s.waiter.None? && s.queue == [] && !s.exited;
            k.granted == l.granted
                         + if waits && Credited(m, source) && l.outstanding < l.window then l.window - l.outstanding else 0
  {
    hide Split;
  }

  /** A terminal's standard error is never granted any. */
  lemma {:induction false} PtyUngranted(m: Limits, steps: seq<Pull.Step>)
    requires m.pty && Pull.Run(m, steps).Some?
    ensures Pull.Run(m, steps).value.err.link.granted == 0
  {
    hide Pull.Stepped, Pull.MayStep;
    if steps != [] {
      var front := steps[..|steps| - 1];
      PtyUngranted(m, front);
      GrantsForCaller(m, Pull.Run(m, front).value, steps[|steps| - 1], Stderr);
      assert Pull.Run(m, steps).value.err == Pull.Run(m, steps).value.At(Stderr);
    }
  }
}
