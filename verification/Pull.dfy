/** Pull delivery in a duplex session: a queue of lines, one waiting receiver, and read
    credit for each of the child's pipes, together with the shim's end of both. */
module Pull {
  import opened Bytes
  import opened Channels
  import opened Credits
  import opened Lines
  import opened Process
  import opened Streams

  /** One pipe: the unfinished line, and the account of its credit. */
  datatype Pipe = Pipe(buffer: line, link: Link)

  datatype Limits = Limits(line: nat, output: nat, pending: nat, pty: bool)
  {
    /** What the session insists on before it starts. */
    predicate Valid() {
      0 < line < pending < U64 && 0 < output
    }
  }

  datatype Reply = Line(source: Source, text: line) | Finished | Busy | TimedOut

  /** `asked` numbers the calls so far and names each; `replies` is every answer to one,
      `delivered` every line among them. A stopped session does nothing more. */
  datatype Session = Session(
    total: nat,
    out: Pipe,
    err: Pipe,
    queue: seq<(Source, line)>,
    waiter: Option<nat>,
    exited: bool,
    stopped: bool,
    delivered: seq<(Source, line)>,
    asked: nat,
    replies: seq<(nat, Reply)>)
  {
    function At(source: Source): Pipe {
      if source.Stdout? then out else err
    }

    function With(source: Source, p: Pipe): Session {
      if source.Stdout? then this.(out := p) else this.(err := p)
    }

    function Answer(call: nat, r: Reply): Session {
      var told := this.(replies := replies + [(call, r)]);
      if r.Line? then told.(delivered := delivered + [(r.source, r.text)]) else told
    }
  }

  function Start(m: Limits): Session {
    var p := Pipe([], Fresh(m.pending));
    Session(0, p, p, [], None, false, false, [], 0, [])
  }

  // ----------------------------------------------------------------------- steps

  function Granted(m: Limits, s: Session): Session {
    var funded := s.(out := s.out.(link := Acted(s.out.link, TopUp)));
    if m.pty then funded else funded.(err := s.err.(link := Acted(s.err.link, TopUp)))
  }

  /** The front of the queue answers a call. */
  function Handed(s: Session, call: nat): Session
    requires s.queue != []
  {
    var (source, text) := s.queue[0];
    s.(queue := s.queue[1..]).Answer(call, Line(source, text))
  }

  /** A caller asks for a line. */
  function Recv(m: Limits, s: Session): Session {
    var call := s.asked;
    var t := s.(asked := s.asked + 1);
    if s.waiter.Some? then t.Answer(call, Busy)
    else if s.queue != [] then
      var u := Handed(t, call);
      u.(stopped := s.exited && u.queue == [])
    else if s.exited then t.Answer(call, Finished).(stopped := true)
    else Granted(m, t.(waiter := Some(call)))
  }

  function ReplyWaiter(s: Session): Session {
    if s.waiter.None? then s
    else if s.queue != [] then
      Handed(s.(waiter := None), s.waiter.value)
    else if s.exited then s.(waiter := None).Answer(s.waiter.value, Finished)
    else s
  }

  function Marked(source: Source, lines: seq<line>): seq<(Source, line)> {
    seq(|lines|, i requires 0 <= i < |lines| => (source, lines[i]))
  }

  predicate AllWithin(lines: seq<line>, max: nat) {
    forall i :: 0 <= i < |lines| ==> |lines[i]| <= max
  }

  /** One output frame: over a limit it stops the session, otherwise its lines are
      queued, its bytes charged and a waiting receiver answered. */
  function Emit(m: Limits, s: Session, source: Source): Session
    requires s.At(source).link.channel.wire != []
  {
    var pipe := s.At(source);
    var chunk := pipe.link.channel.wire[0];
    var p := Split(pipe.buffer + chunk);
    if s.total + |chunk| > m.output || |p.rest| > m.line || !AllWithin(p.lines, m.line) then s.(stopped := true)
    else
      ReplyWaiter(s.With(source, Pipe(p.rest, Acted(pipe.link, Take))).(
        total := s.total + |chunk|, queue := s.queue + Marked(source, p.lines)))
  }

  function Flushed(s: Session): Session {
    var first := if s.out.buffer == [] then [] else [(Stdout, s.out.buffer)];
    var then_ := if s.err.buffer == [] then [] else [(Stderr, s.err.buffer)];
    s.(out := s.out.(buffer := []), err := s.err.(buffer := []), queue := s.queue + first + then_)
  }

  /** The end of the child, or of the shim itself. What is still unfinished becomes a
      last line of its pipe. */
  function Ended(s: Session): Session {
    var t := ReplyWaiter(Flushed(s).(exited := true));
    t.(stopped := t.queue == [])
  }

  datatype Step =
    | Call
    | Output(source: Source)
    | Shim(source: Source, move: Move)
    | Timeout(call: nat)
    | End

  /** Output comes before the report of the end, which the shim sends last. */
  predicate MayStep(s: Session, a: Step) {
    && !s.stopped
    && match a
       case Call => true
       case Output(source) => !s.exited && s.At(source).link.channel.wire != []
       case Shim(source, move) => Enabled(s.At(source).link.channel, move)
       case Timeout(call) => s.waiter == Some(call)
       case End => !s.exited
  }

  function Stepped(m: Limits, s: Session, a: Step): Session
    requires MayStep(s, a)
  {
    match a
    case Call => Recv(m, s)
    case Output(source) => Emit(m, s, source)
    case Shim(source, move) =>
      s.With(source, s.At(source).(link := Acted(s.At(source).link, Channels.Act.Shim(move))))
    case Timeout(call) => s.(waiter := None).Answer(call, TimedOut)
    case End => Ended(s)
  }

  function Run(m: Limits, steps: seq<Step>): Option<Session> {
    if steps == [] then Some(Start(m))
    else
      match Run(m, steps[..|steps| - 1])
      case None => None
      case Some(before) =>
        if MayStep(before, steps[|steps| - 1]) then Some(Stepped(m, before, steps[|steps| - 1])) else None
  }

  // ------------------------------------------------------------------- invariants

  function LinesOf(q: seq<(Source, line)>, source: Source): seq<line> {
    if q == [] then []
    else
      LinesOf(q[..|q| - 1], source) + if q[|q| - 1].0 == source then [q[|q| - 1].1] else []
  }

  /** The bytes of some lines, newlines not counted. */
  function Size(lines: seq<line>): nat {
    if lines == [] then 0 else Size(lines[..|lines| - 1]) + |lines[|lines| - 1]|
  }

  predicate Credited(m: Limits, source: Source) {
    source.Stdout? || !m.pty
  }

  /** One pipe's credit: balanced with the shim's end, and with what is queued and
      unfinished never more than what one window and one line can hold. */
  predicate PipeBounded(m: Limits, p: Pipe, queued: seq<line>) {
    && Balanced(p.link) && p.link.window == m.pending
    && |p.buffer| <= m.line
    && Size(queued) + |p.buffer| + p.link.outstanding <= m.pending + m.line
  }

  /** A receiver waits only with nothing to give it, and with the pipe funded. */
  predicate PipeFunded(m: Limits, p: Pipe) {
    p.link.outstanding + |p.buffer| >= m.pending
  }

  /** The lines handed over, the lines queued and the unfinished rest are the bytes
      received: each line with its newline, except a last one cut off by the end. */
  predicate PipeFaithful(p: Pipe, lines: seq<line>, exited: bool) {
    || p.link.received == Text(lines) + p.buffer
    || (exited && p.buffer == [] && lines != []
        && p.link.received == Text(lines[..|lines| - 1]) + lines[|lines| - 1])
  }

  ghost predicate PipesKept(m: Limits, s: Session) {
    && (forall source :: PipeBounded(m, s.At(source), LinesOf(s.queue, source)))
    && (forall source :: PipeFaithful(s.At(source), LinesOf(s.delivered + s.queue, source), s.exited))
    && (forall i :: 0 <= i < |s.queue| ==> |s.queue[i].1| <= m.line)
    && s.total == |s.out.link.received| + |s.err.link.received| <= m.output
  }

  ghost predicate Told(replies: seq<(nat, Reply)>, call: nat) {
    exists i :: 0 <= i < |replies| && replies[i].0 == call
  }

  /** The lines among some answers. */
  function Handouts(replies: seq<(nat, Reply)>): seq<(Source, line)> {
    if replies == [] then []
    else
      var last := replies[|replies| - 1].1;
      Handouts(replies[..|replies| - 1]) + if last.Line? then [(last.source, last.text)] else []
  }

  /** Every call made has one answer of its own, but for the one that waits; and the
      lines handed out are those of the answers. */
  ghost predicate Answered(s: Session) {
    && (forall i, j :: 0 <= i < j < |s.replies| ==> s.replies[i].0 != s.replies[j].0)
    && (forall call: nat :: call < s.asked <==> Told(s.replies, call) || s.waiter == Some(call))
    && (s.waiter.Some? ==> !Told(s.replies, s.waiter.value))
    && s.delivered == Handouts(s.replies)
  }

  ghost predicate Funded(m: Limits, s: Session) {
    forall source :: Credited(m, source) ==> PipeFunded(m, s.At(source))
  }

  ghost predicate Kept(m: Limits, s: Session) {
    && PipesKept(m, s) && Answered(s)
    && (s.waiter.Some? ==> s.queue == [] && !s.exited && Funded(m, s))
  }

  // ----------------------------------------------------------------------- proofs

  lemma {:induction false} LinesOfJoined(a: seq<(Source, line)>, b: seq<(Source, line)>, source: Source)
    ensures LinesOf(a + b, source) == LinesOf(a, source) + LinesOf(b, source)
    decreases |b|
  {
    if b == [] {
      assert a + b == a;
    } else {
      var front := b[..|b| - 1];
      assert (a + b)[..|a + b| - 1] == a + front;
      LinesOfJoined(a, front, source);
    }
  }

  lemma {:induction false} LinesOfMarked(source: Source, lines: seq<line>, other: Source)
    ensures LinesOf(Marked(source, lines), other) == if source == other then lines else []
    decreases |lines|
  {
    if lines != [] {
      var front := lines[..|lines| - 1];
      assert Marked(source, lines)[..|lines| - 1] == Marked(source, front);
      LinesOfMarked(source, front, other);
      assert lines == front + [lines[|lines| - 1]];
    }
  }

  lemma {:induction false} SizeJoined(a: seq<line>, b: seq<line>)
    ensures Size(a + b) == Size(a) + Size(b)
    decreases |b|
  {
    if b == [] {
      assert a + b == a;
    } else {
      assert (a + b)[..|a + b| - 1] == a + b[..|b| - 1];
      SizeJoined(a, b[..|b| - 1]);
    }
  }

  lemma {:induction false} SizeText(lines: seq<line>)
    ensures |Text(lines)| == Size(lines) + |lines|
  {
    if lines != [] {
      SizeText(lines[..|lines| - 1]);
    }
  }

  /** Taking the front of the queue takes its line off its own pipe only. */
  lemma PoppedLines(q: seq<(Source, line)>, source: Source)
    requires q != []
    ensures LinesOf(q, source) == (if q[0].0 == source then [q[0].1] else []) + LinesOf(q[1..], source)
    ensures Size(LinesOf(q[1..], source)) <= Size(LinesOf(q, source))
  {
    assert q == [q[0]] + q[1..];
    LinesOfJoined([q[0]], q[1..], source);
    var front := [q[0]];
    assert front == [] + [q[0]] && front[..0] == [];
    assert LinesOf([q[0]], source) == if q[0].0 == source then [q[0].1] else [];
    SizeJoined(if q[0].0 == source then [q[0].1] else [], LinesOf(q[1..], source));
  }

  /** One answer more, to a call that had none. */
  lemma ToldMore(replies: seq<(nat, Reply)>, call: nat, r: Reply)
    ensures forall k: nat :: Told(replies + [(call, r)], k) <==> Told(replies, k) || k == call
    ensures Handouts(replies + [(call, r)]) == Handouts(replies) + if r.Line? then [(r.source, r.text)] else []
  {
    var more := replies + [(call, r)];
    assert more[..|replies|] == replies;
    forall k: nat ensures Told(more, k) <==> Told(replies, k) || k == call {
      if Told(replies, k) {
        var i :| 0 <= i < |replies| && replies[i].0 == k;
        assert more[i].0 == k;
      }
      assert more[|replies|].0 == call;
    }
  }

  /** The call that waits, or one just made, is answered. */
  lemma OneAnswered(s: Session, t: Session, call: nat, r: Reply)
    requires Answered(s) && !Told(s.replies, call)
    requires t.replies == s.replies + [(call, r)]
    requires t.delivered == s.delivered + if r.Line? then [(r.source, r.text)] else []
    requires (s.waiter == Some(call) && t.waiter.None? && t.asked == s.asked)
             || (call == s.asked && t.waiter == s.waiter && t.asked == s.asked + 1)
    ensures Answered(t)
  {
    hide Handouts, Told;
    ToldMore(s.replies, call, r);
    forall i, j | 0 <= i < j < |t.replies| ensures t.replies[i].0 != t.replies[j].0 {
      TellsOne(s.replies, i);
    }
  }

  lemma TellsOne(replies: seq<(nat, Reply)>, i: nat)
    ensures i < |replies| ==> Told(replies, replies[i].0)
  {
  }

  lemma HandedKept(m: Limits, s: Session, call: nat)
    requires PipesKept(m, s) && s.queue != []
    ensures PipesKept(m, Handed(s, call))
  {
    hide LinesOf, Size, PipeFaithful, Balanced;
    var t := Handed(s, call);
    assert t.delivered + t.queue == s.delivered + s.queue;
    forall source ensures PipeBounded(m, t.At(source), LinesOf(t.queue, source)) {
      PoppedLines(s.queue, source);
      assert PipeBounded(m, s.At(source), LinesOf(s.queue, source));
    }
    forall source ensures PipeFaithful(t.At(source), LinesOf(t.delivered + t.queue, source), t.exited) {
      assert t.At(source) == s.At(source);
    }
  }

  /** Answering the waiting receiver restores what an event left open. */
  lemma ReplyKept(m: Limits, s: Session)
    requires PipesKept(m, s) && Answered(s)
    requires s.waiter.Some? && s.queue == [] && !s.exited ==> Funded(m, s)
    ensures Kept(m, ReplyWaiter(s))
  {
    hide PipesKept, Funded, Answered, Told;
    if s.waiter.Some? {
      var call := s.waiter.value;
      assert !Told(s.replies, call) by {
        WaiterUntold(s);
      }
      if s.queue != [] {
        SameKept(m, s, s.(waiter := None));
        HandedKept(m, s.(waiter := None), call);
        OneAnswered(s, ReplyWaiter(s), call, Line(s.queue[0].0, s.queue[0].1));
      } else if s.exited {
        SameKept(m, s, ReplyWaiter(s));
        OneAnswered(s, ReplyWaiter(s), call, Finished);
      }
    }
  }

  lemma WaiterUntold(s: Session)
    requires Answered(s) && s.waiter.Some?
    ensures !Told(s.replies, s.waiter.value)
  {
  }

  lemma NextUntold(s: Session)
    requires Answered(s)
    ensures !Told(s.replies, s.asked)
  {
  }

  /** A call joins those made, to wait. */
  lemma OneWaits(s: Session, t: Session)
    requires Answered(s) && s.waiter.None?
    requires t.asked == s.asked + 1 && t.waiter == Some(s.asked)
    requires t.replies == s.replies && t.delivered == s.delivered
    ensures Answered(t)
  {
    hide Told, Handouts;
  }

  /** Only the pipes, the lines and the totals matter to them. */
  lemma SameKept(m: Limits, s: Session, t: Session)
    requires PipesKept(m, s)
    requires t.out == s.out && t.err == s.err && t.queue == s.queue && t.delivered == s.delivered
    requires t.exited == s.exited && t.total == s.total
    ensures PipesKept(m, t) && (Funded(m, s) ==> Funded(m, t))
  {
    hide PipeBounded, PipeFaithful, LinesOf, PipeFunded;
    forall source
      ensures PipeBounded(m, t.At(source), LinesOf(t.queue, source))
      ensures PipeFaithful(t.At(source), LinesOf(t.delivered + t.queue, source), t.exited)
      ensures Funded(m, s) && Credited(m, source) ==> PipeFunded(m, t.At(source))
    {
      assert t.At(source) == s.At(source);
      assert PipeBounded(m, s.At(source), LinesOf(s.queue, source));
    }
  }

  /** Topping up an empty session's pipe: within its bound, and funded. */
  lemma TopUpBounded(m: Limits, p: Pipe)
    requires PipeBounded(m, p, [])
    ensures var q := p.(link := Acted(p.link, TopUp)); PipeBounded(m, q, []) && PipeFunded(m, q)
    ensures Acted(p.link, TopUp).received == p.link.received
  {
    ActBalances(p.link, TopUp);
  }

  lemma GrantedKept(m: Limits, s: Session)
    requires PipesKept(m, s) && s.queue == []
    ensures PipesKept(m, Granted(m, s)) && Funded(m, Granted(m, s))
  {
    hide PipeBounded, PipeFunded, Balanced, Acted;
    var t := Granted(m, s);
    forall source
      ensures PipeBounded(m, t.At(source), []) && (Credited(m, source) ==> PipeFunded(m, t.At(source)))
      ensures t.At(source).link.received == s.At(source).link.received
      ensures t.At(source).buffer == s.At(source).buffer
      ensures PipeFaithful(t.At(source), LinesOf(t.delivered + t.queue, source), t.exited)
    {
      assert PipeBounded(m, s.At(source), LinesOf(s.queue, source));
      TopUpBounded(m, s.At(source));
      assert PipeFaithful(s.At(source), LinesOf(s.delivered + s.queue, source), s.exited);
    }
    assert s.out == s.At(Stdout) && s.err == s.At(Stderr) && t.out == t.At(Stdout) && t.err == t.At(Stderr);
  }

  lemma RecvKept(m: Limits, s: Session)
    requires Kept(m, s)
    ensures Kept(m, Recv(m, s))
  {
    hide PipesKept, Funded, Granted, Answered, Told;
    var t, r := s.(asked := s.asked + 1), Recv(m, s);
    SameKept(m, s, t);
    NextUntold(s);
    if s.waiter.Some? {
      SameKept(m, s, r);
      OneAnswered(s, r, s.asked, Busy);
    } else if s.queue != [] {
      HandedKept(m, t, s.asked);
      SameKept(m, Handed(t, s.asked), r);
      OneAnswered(s, r, s.asked, Line(s.queue[0].0, s.queue[0].1));
    } else if s.exited {
      SameKept(m, s, r);
      OneAnswered(s, r, s.asked, Finished);
    } else {
      var u := t.(waiter := Some(s.asked));
      SameKept(m, t, u);
      GrantedKept(m, u);
      GrantedOnly(m, u);
      OneWaits(s, r);
    }
  }

  lemma GrantedOnly(m: Limits, s: Session)
    ensures var t := Granted(m, s);
            && t.waiter == s.waiter && t.queue == s.queue && t.exited == s.exited
            && t.asked == s.asked && t.replies == s.replies && t.delivered == s.delivered
  {
  }

  /** One frame split: its lines and new rest are within what was charged for it. */
  lemma FrameCharged(m: Limits, p: Pipe, queued: seq<line>, lines: seq<line>)
    requires PipeBounded(m, p, queued) && p.link.channel.wire != []
    ensures var chunk := p.link.channel.wire[0]; var parts := Split(p.buffer + chunk);
            var q := Pipe(parts.rest, Acted(p.link, Take));
            && (|parts.rest| <= m.line ==> PipeBounded(m, q, queued + parts.lines))
            && (parts.lines == [] && PipeFunded(m, p) ==> PipeFunded(m, q))
            && (p.link.received == Text(lines) + p.buffer ==> q.link.received == Text(lines + parts.lines) + q.buffer)
            && |q.link.received| == |p.link.received| + |chunk|
  {
    hide Split, Text, Size;
    var chunk := p.link.channel.wire[0];
    var parts := Split(p.buffer + chunk);
    TakeBalances(p.link);
    SplitWhole(p.buffer + chunk);
    SizeText(parts.lines);
    SizeJoined(queued, parts.lines);
    TextJoined(lines, parts.lines);
    TextOfNone();
    Regroup(Text(lines), Text(parts.lines), parts.rest, p.buffer, chunk);
  }

  lemma TextOfNone()
    ensures Text([]) == []
  {
  }

  /** A session with one frame taken in, before its receiver is answered. */
  function Absorbed(s: Session, source: Source): Session
    requires s.At(source).link.channel.wire != []
  {
    var pipe := s.At(source);
    var chunk := pipe.link.channel.wire[0];
    var p := Split(pipe.buffer + chunk);
    s.With(source, Pipe(p.rest, Acted(pipe.link, Take))).(
      total := s.total + |chunk|, queue := s.queue + Marked(source, p.lines))
  }

  lemma AbsorbedPipe(m: Limits, s: Session, source: Source, other: Source)
    requires Kept(m, s) && !s.exited && s.At(source).link.channel.wire != []
    requires |Absorbed(s, source).At(source).buffer| <= m.line
    ensures var t := Absorbed(s, source);
            && PipeBounded(m, t.At(other), LinesOf(t.queue, other))
            && PipeFaithful(t.At(other), LinesOf(t.delivered + t.queue, other), t.exited)
            && (Funded(m, s) && t.queue == [] && Credited(m, other) ==> PipeFunded(m, t.At(other)))
  {
    hide PipeBounded, PipeFunded, LinesOf, Split, Text, Acted;
    var pipe := s.At(source);
    var p := Split(pipe.buffer + pipe.link.channel.wire[0]);
    var t := Absorbed(s, source);
    var lines := LinesOf(s.delivered + s.queue, other);
    assert s.delivered + t.queue == (s.delivered + s.queue) + Marked(source, p.lines);
    LinesOfJoined(s.queue, Marked(source, p.lines), other);
    LinesOfJoined(s.delivered + s.queue, Marked(source, p.lines), other);
    LinesOfMarked(source, p.lines, other);
    assert PipeBounded(m, s.At(other), LinesOf(s.queue, other));
    assert PipeFaithful(s.At(other), lines, s.exited);
    assert t.queue == [] ==> |Marked(source, p.lines)| == 0;
    if other == source {
      FrameCharged(m, pipe, LinesOf(s.queue, other), lines);
    } else {
      assert LinesOf(t.queue, other) == LinesOf(s.queue, other);
      assert LinesOf(t.delivered + t.queue, other) == lines;
    }
  }

  lemma AbsorbedTotal(s: Session, source: Source)
    requires s.At(source).link.channel.wire != []
    ensures var t := Absorbed(s, source);
            |t.out.link.received| + |t.err.link.received|
            == |s.out.link.received| + |s.err.link.received| + |s.At(source).link.channel.wire[0]|
  {
    hide Split;
  }

  lemma EmitKept(m: Limits, s: Session, source: Source)
    requires Kept(m, s) && !s.exited && s.At(source).link.channel.wire != []
    ensures Emit(m, s, source).stopped || Kept(m, Emit(m, s, source))
  {
    hide PipeBounded, PipeFunded, PipeFaithful, LinesOf, Split, ReplyWaiter, Acted;
    var pipe := s.At(source);
    var chunk := pipe.link.channel.wire[0];
    var p := Split(pipe.buffer + chunk);
    if !(s.total + |chunk| > m.output || |p.rest| > m.line || !AllWithin(p.lines, m.line)) {
      var t := Absorbed(s, source);
      forall other
        ensures PipeBounded(m, t.At(other), LinesOf(t.queue, other))
        ensures PipeFaithful(t.At(other), LinesOf(t.delivered + t.queue, other), t.exited)
        ensures Funded(m, s) && t.queue == [] && Credited(m, other) ==> PipeFunded(m, t.At(other))
      {
        AbsorbedPipe(m, s, source, other);
      }
      AbsorbedTotal(s, source);
      ReplyKept(m, t);
    }
  }

  /** A shim's step moves no byte the session holds and no credit owed to it. */
  lemma MoveKept(m: Limits, p: Pipe, queued: seq<line>, lines: seq<line>, exited: bool, move: Move)
    requires Enabled(p.link.channel, move)
    requires PipeBounded(m, p, queued) && PipeFaithful(p, lines, exited)
    ensures var q := p.(link := Acted(p.link, Channels.Act.Shim(move)));
            && PipeBounded(m, q, queued) && PipeFaithful(q, lines, exited)
            && (PipeFunded(m, p) ==> PipeFunded(m, q)) && q.link.received == p.link.received
  {
    hide Balanced, Text, Size;
    ActBalances(p.link, Channels.Act.Shim(move));
    MoveKeepsBooks(p.link, move);
  }

  lemma MoveKeepsBooks(l: Link, move: Move)
    requires Enabled(l.channel, move)
    ensures var k := Acted(l, Channels.Act.Shim(move));
            k.outstanding == l.outstanding && k.window == l.window && k.received == l.received
  {
  }

  lemma ShimKept(m: Limits, s: Session, source: Source, move: Move)
    requires Kept(m, s) && Enabled(s.At(source).link.channel, move)
    ensures Kept(m, Stepped(m, s.(stopped := false), Step.Shim(source, move)))
  {
    hide LinesOf, Text, Size, PipeBounded, PipeFaithful, PipeFunded, Answered, Acted, Enabled;
    var t := Stepped(m, s.(stopped := false), Step.Shim(source, move));
    forall other
      ensures PipeBounded(m, t.At(other), LinesOf(t.queue, other))
      ensures PipeFaithful(t.At(other), LinesOf(t.delivered + t.queue, other), t.exited)
      ensures Funded(m, s) && Credited(m, other) ==> PipeFunded(m, t.At(other))
      ensures t.At(other).link.received == s.At(other).link.received
    {
      assert PipeBounded(m, s.At(other), LinesOf(s.queue, other));
      assert PipeFaithful(s.At(other), LinesOf(s.delivered + s.queue, other), s.exited);
      if other == source {
        MoveKept(m, s.At(other), LinesOf(s.queue, other), LinesOf(s.delivered + s.queue, other), s.exited, move);
      }
    }
    assert t.At(Stdout) == t.out && t.At(Stderr) == t.err;
    SameAnswers(s, t);
  }

  lemma SameAnswers(s: Session, t: Session)
    requires Answered(s) && t.asked == s.asked && t.replies == s.replies
    requires t.waiter == s.waiter && t.delivered == s.delivered
    ensures Answered(t)
  {
  }

  function FlushedLine(source: Source, p: Pipe): seq<(Source, line)> {
    if p.buffer == [] then [] else [(source, p.buffer)]
  }

  lemma FlushedLines(s: Session, source: Source)
    ensures Flushed(s).queue == s.queue + (FlushedLine(Stdout, s.out) + FlushedLine(Stderr, s.err))
    ensures LinesOf(FlushedLine(Stdout, s.out) + FlushedLine(Stderr, s.err), source)
         == if s.At(source).buffer == [] then [] else [s.At(source).buffer]
  {
    LinesOfJoined(FlushedLine(Stdout, s.out), FlushedLine(Stderr, s.err), source);
    FlushedLineOf(Stdout, s.out, source);
    FlushedLineOf(Stderr, s.err, source);
    hide LinesOf;
    assert Flushed(s).queue == s.queue + (FlushedLine(Stdout, s.out) + FlushedLine(Stderr, s.err));
  }

  lemma FlushedLineOf(source: Source, p: Pipe, other: Source)
    ensures LinesOf(FlushedLine(source, p), other) == if other == source && p.buffer != [] then [p.buffer] else []
  {
    if p.buffer != [] {
      var one := FlushedLine(source, p);
      assert one[..0] == [];
    }
  }

  /** The unfinished line of a pipe, moved to the queue, is still counted and still
      text. */
  lemma PipeFlushed(m: Limits, p: Pipe, queued: seq<line>, lines: seq<line>)
    requires PipeBounded(m, p, queued) && PipeFaithful(p, lines, false)
    ensures var last: seq<line> := if p.buffer == [] then [] else [p.buffer];
            && PipeBounded(m, p.(buffer := []), queued + last)
            && PipeFaithful(p.(buffer := []), lines + last, true)
  {
    var last: seq<line> := if p.buffer == [] then [] else [p.buffer];
    SizeJoined(queued, last);
    if p.buffer == [] {
      assert lines + last == lines && queued + last == queued;
    } else {
      assert last[..0] == [] && Size(last) == |p.buffer|;
      assert (lines + last)[..|lines|] == lines;
    }
  }

  lemma EndedKept(m: Limits, s: Session)
    requires Kept(m, s) && !s.exited
    ensures Kept(m, Ended(s))
  {
    hide PipeBounded, PipeFaithful, LinesOf, ReplyWaiter, PipeFunded;
    var t := Flushed(s).(exited := true);
    var last := FlushedLine(Stdout, s.out) + FlushedLine(Stderr, s.err);
    forall source
      ensures PipeBounded(m, t.At(source), LinesOf(t.queue, source))
      ensures PipeFaithful(t.At(source), LinesOf(t.delivered + t.queue, source), t.exited)
    {
      FlushedLines(s, source);
      LinesOfJoined(s.queue, last, source);
      assert s.delivered + t.queue == (s.delivered + s.queue) + last;
      LinesOfJoined(s.delivered + s.queue, last, source);
      assert PipeBounded(m, s.At(source), LinesOf(s.queue, source));
      assert PipeFaithful(s.At(source), LinesOf(s.delivered + s.queue, source), s.exited);
      PipeFlushed(m, s.At(source), LinesOf(s.queue, source), LinesOf(s.delivered + s.queue, source));
    }
    FlushedLines(s, Stdout);
    assert PipeBounded(m, s.At(Stdout), LinesOf(s.queue, Stdout)) && PipeBounded(m, s.At(Stderr), LinesOf(s.queue, Stderr));
    BufferShort(m, s.out, LinesOf(s.queue, Stdout));
    BufferShort(m, s.err, LinesOf(s.queue, Stderr));
    ReplyKept(m, t);
    SameKept(m, ReplyWaiter(t), Ended(s));
  }

  lemma BufferShort(m: Limits, p: Pipe, queued: seq<line>)
    requires PipeBounded(m, p, queued)
    ensures |p.buffer| <= m.line
  {
  }

  lemma StepKept(m: Limits, s: Session, a: Step)
    requires Kept(m, s) && MayStep(s, a)
    ensures Stepped(m, s, a).stopped || Kept(m, Stepped(m, s, a))
  {
    hide Kept, PipesKept, Recv, Emit, Ended;
    match a
    case Call => RecvKept(m, s);
    case Output(source) => EmitKept(m, s, source);
    case Shim(source, move) =>
      ShimKept(m, s, source, move);
      assert s.(stopped := false) == s;
    case Timeout(call) => TimeoutKept(m, s, call);
    case End => EndedKept(m, s);
  }

  lemma TimeoutKept(m: Limits, s: Session, call: nat)
    requires Kept(m, s) && s.waiter == Some(call)
    ensures Kept(m, s.(waiter := None).Answer(call, TimedOut))
  {
    hide PipesKept, Funded, Answered, Told;
    var t := s.(waiter := None).Answer(call, TimedOut);
    SameKept(m, s, t);
    WaiterUntold(s);
    OneAnswered(s, t, call, TimedOut);
  }

  lemma StartKept(m: Limits)
    requires m.Valid()
    ensures Kept(m, Start(m))
  {
    var s := Start(m);
    forall source
      ensures PipeBounded(m, s.At(source), LinesOf(s.queue, source))
      ensures PipeFaithful(s.At(source), LinesOf(s.delivered + s.queue, source), s.exited)
    {
      assert s.delivered + s.queue == [];
    }
  }

  /** Over every interleaving of calls, timeouts, output and the shim's own steps. */
  lemma {:induction false} RunKept(m: Limits, steps: seq<Step>)
    requires m.Valid() && Run(m, steps).Some? && !Run(m, steps).value.stopped
    ensures Kept(m, Run(m, steps).value)
  {
    hide Kept, Stepped;
    if steps == [] {
      StartKept(m);
    } else {
      RunKept(m, steps[..|steps| - 1]);
      StepKept(m, Run(m, steps[..|steps| - 1]).value, steps[|steps| - 1]);
    }
  }

  /** While a receiver waits there is nothing to give it, and every credited pipe is
      funded past its longest line: enough may still arrive to finish one. So unless
      that pipe's pump has stopped or is reading the child, some step of the shim or a
      frame is possible: the session itself never holds the receiver up. */
  lemma NeverStalls(m: Limits, steps: seq<Step>, source: Source)
    requires m.Valid() && Run(m, steps).Some? && Credited(m, source)
    requires Run(m, steps).value.waiter.Some? && !Run(m, steps).value.stopped
    ensures var s := Run(m, steps).value; var p := s.At(source); var c := p.link.channel;
            && s.queue == [] && !s.exited
            && p.link.outstanding + |p.buffer| >= m.pending > m.line >= |p.buffer|
            && (c.pump.Done? || c.pump.Broken? || c.pump.Reading?
                || MayStep(s, Output(source))
                || exists move :: MayStep(s, Step.Shim(source, move)))
  {
    hide Run, Balanced;
    RunKept(m, steps);
    var s := Run(m, steps).value;
    var c := s.At(source).link.channel;
    assert PipeBounded(m, s.At(source), LinesOf(s.queue, source)) && PipeFunded(m, s.At(source));
    if !(c.pump.Done? || c.pump.Broken? || c.pump.Reading?) && c.wire == [] {
      if c.grants == [] && c.pump.Waiting? {
        OutstandingMoves(s.At(source).link);
      }
      var move :=
        if c.grants != [] then Deliver
        else if c.pump.Holding? then Charge
        else if c.pump.Writing? then Write
        else Ask(1);
      assert MayStep(s, Step.Shim(source, move));
    }
  }

  lemma OutstandingMoves(l: Link)
    requires Balanced(l) && l.outstanding > 0
    requires l.channel.grants == [] && l.channel.wire == [] && l.channel.pump.Waiting?
    ensures !Parked(l.channel.budget)
  {
  }

  /** Memory: for each pipe, what is queued, unfinished and still owed to the session
      never exceeds one window and one line, and no line is over its bound. */
  lemma StaysBounded(m: Limits, steps: seq<Step>, source: Source)
    requires m.Valid() && Run(m, steps).Some? && !Run(m, steps).value.stopped
    ensures var s := Run(m, steps).value;
            && Size(LinesOf(s.queue, source)) + |s.At(source).buffer| + |Unreceived(s.At(source).link.channel)|
               <= m.pending + m.line
            && (forall i :: 0 <= i < |s.queue| ==> |s.queue[i].1| <= m.line)
            && s.total <= m.output
  {
    hide Run;
    RunKept(m, steps);
    var s := Run(m, steps).value;
    assert PipeBounded(m, s.At(source), LinesOf(s.queue, source));
  }

  /** Every byte a pipe delivered reaches the callers once and in order: the lines
      handed over, then those queued, then the unfinished rest. */
  lemma NothingLost(m: Limits, steps: seq<Step>, source: Source)
    requires m.Valid() && Run(m, steps).Some? && !Run(m, steps).value.stopped
    ensures var s := Run(m, steps).value;
            && PipeFaithful(s.At(source), LinesOf(s.delivered, source) + LinesOf(s.queue, source), s.exited)
            && s.At(source).link.received <= s.At(source).link.channel.read
            && Answered(s)
  {
    hide Run;
    RunKept(m, steps);
    var s := Run(m, steps).value;
    LinesOfJoined(s.delivered, s.queue, source);
    assert PipeBounded(m, s.At(source), LinesOf(s.queue, source));
  }

  /** A waiting receiver is given the first line that a frame completes, at once. */
  lemma FrameServes(m: Limits, steps: seq<Step>, source: Source)
    requires m.Valid() && Run(m, steps).Some? && MayStep(Run(m, steps).value, Output(source))
    requires Run(m, steps).value.waiter.Some?
    ensures var s := Run(m, steps).value; var t := Emit(m, s, source);
            var p := Split(s.At(source).buffer + s.At(source).link.channel.wire[0]);
            t.stopped
            || if p.lines == [] then t.waiter == s.waiter && t.replies == s.replies
               else t.waiter == None && t.replies == s.replies + [(s.waiter.value, Line(source, p.lines[0]))]
                    && t.queue == Marked(source, p.lines[1..])
  {
    hide Run, PipesKept, Funded, Split, Acted;
    RunKept(m, steps);
    var s := Run(m, steps).value;
    var p := Split(s.At(source).buffer + s.At(source).link.channel.wire[0]);
    assert s.queue == [] && !s.exited;
    assert s.queue + Marked(source, p.lines) == Marked(source, p.lines);
    if p.lines != [] {
      assert Marked(source, p.lines)[0] == (source, p.lines[0]);
      assert Marked(source, p.lines)[1..] == Marked(source, p.lines[1..]);
    } else {
      assert Marked(source, p.lines) == [];
    }
  }
}
