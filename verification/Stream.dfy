/** The pulling consumer of a run's output: lines as they complete, under a bound on
    one line and on all of stderr. */
module Streams {
  import opened Bytes
  import opened Lines
  import opened Process
  import Channels

  datatype Source = Stdout | Stderr

  datatype Limit = LineLimit | TotalLimit

  datatype Config = Config(maxLine: Option<nat>, maxStderr: Option<nat>, merge: bool)

  /** `emitted` is every line handed to the consumer so far. A consumer stopped for a
      limit takes no more output. */
  datatype Consumer = Consumer(
    emitted: seq<line>,
    buffer: seq<byte>,
    stderr: seq<byte>,
    stderrBytes: nat,
    stopped: Option<Limit>)

  const FRESH := Consumer([], [], [], 0, None)

  function FindOverlong(lines: seq<line>, max: nat, from: nat): (i: Option<nat>)
    requires from <= |lines|
    ensures i.None? ==> forall k :: from <= k < |lines| ==> |lines[k]| <= max
    ensures i.Some? ==> from <= i.value < |lines| && |lines[i.value]| > max
    ensures i.Some? ==> forall k :: from <= k < i.value ==> |lines[k]| <= max
    decreases |lines| - from
  {
    if from == |lines| then None
    else if |lines[from]| > max then Some(from)
    else FindOverlong(lines, max, from + 1)
  }

  function ConsumeLines(c: Config, s: Consumer, payload: seq<byte>): Consumer {
    var p := Split(s.buffer + payload);
    if c.maxLine.None? then s.(emitted := s.emitted + p.lines, buffer := p.rest)
    else
      var overlong := FindOverlong(p.lines, c.maxLine.value, 0);
      if overlong.Some? then Stop(s.(emitted := s.emitted + p.lines[..overlong.value]), LineLimit)
      else if |p.rest| > c.maxLine.value then Stop(s.(emitted := s.emitted + p.lines), LineLimit)
      else s.(emitted := s.emitted + p.lines, buffer := p.rest)
  }

  function Stop(s: Consumer, l: Limit): Consumer {
    s.(buffer := [], stopped := Some(l))
  }

  function ConsumeStderr(c: Config, s: Consumer, payload: seq<byte>): Consumer {
    if c.maxStderr.None? then s.(stderr := s.stderr + payload)
    else
      var remaining := if s.stderrBytes < c.maxStderr.value then c.maxStderr.value - s.stderrBytes else 0;
      var kept := if |payload| < remaining then payload else payload[..remaining];
      var counted := s.(stderrBytes := s.stderrBytes + |kept|);
      var after :=
        if c.merge then ConsumeLines(c, counted, kept) else counted.(stderr := counted.stderr + kept);
      if |payload| > remaining && after.stopped.None? then Stop(after, TotalLimit) else after
  }

  /** One output frame. */
  function Feed(c: Config, s: Consumer, source: Source, payload: seq<byte>): Consumer {
    if s.stopped.Some? then s
    else if source.Stdout? then ConsumeLines(c, s, payload)
    else ConsumeStderr(c, s, payload)
  }

  datatype Frame = Frame(source: Source, payload: seq<byte>)

  function FeedAll(c: Config, frames: seq<Frame>): Consumer {
    if frames == [] then FRESH
    else
      var last := frames[|frames| - 1];
      Feed(c, FeedAll(c, frames[..|frames| - 1]), last.source, last.payload)
  }

  /** The lines an ended run hands over last. */
  function Final(s: Consumer): seq<seq<byte>> {
    if s.buffer == [] then [] else [s.buffer]
  }

  // ---------------------------------------------------- cutting makes no difference

  predicate Sane(c: Config, s: Consumer) {
    && NL !in s.buffer
    && (c.maxLine.Some? ==> |s.buffer| <= c.maxLine.value)
    && (c.maxStderr.Some? ==> s.stderrBytes <= c.maxStderr.value)
  }

  lemma FeedSane(c: Config, s: Consumer, source: Source, payload: seq<byte>)
    requires Sane(c, s)
    ensures Sane(c, Feed(c, s, source, payload))
  {
  }

  /** Where one text ends too long, whatever follows ends at the same place. */
  lemma LongStays(p: Parts, b: seq<byte>, max: nat)
    requires FindOverlong(p.lines, max, 0).Some? || |p.rest| > max
    ensures var q := Split(p.rest + b); var lines := p.lines + q.lines;
            var first := FindOverlong(p.lines, max, 0); var i := FindOverlong(lines, max, 0);
            if first.Some? then i == first
            else if i.Some? then i.value == |p.lines|
            else q.lines == [] && |q.rest| > max
  {
    var q := Split(p.rest + b);
    var lines := p.lines + q.lines;
    var first := FindOverlong(p.lines, max, 0);
    var i := FindOverlong(lines, max, 0);
    assert forall k :: 0 <= k < |p.lines| ==> lines[k] == p.lines[k];
    if first.Some? {
      assert lines[first.value] == p.lines[first.value];
    } else {
      RestLeads(p.rest, b);
      if q.lines != [] {
        assert lines[|p.lines|] == q.lines[0];
      }
    }
  }

  /** An unfinished rest begins whatever line it ends up in. */
  lemma RestLeads(rest: line, b: seq<byte>)
    ensures var q := Split(rest + b); if q.lines == [] then rest <= q.rest else rest <= q.lines[0]
    decreases |b|
  {
    if b == [] {
      assert rest + b == rest == Whole(Parts([], rest));
      SplitUnique(Parts([], rest));
    } else {
      assert (rest + b)[..|rest + b| - 1] == rest + b[..|b| - 1];
      RestLeads(rest, b[..|b| - 1]);
    }
  }

  /** Where no text so far is too long, what follows is judged on its own. */
  lemma ShortPasses(p: Parts, q: Parts, max: nat)
    requires FindOverlong(p.lines, max, 0).None?
    ensures var i, j := FindOverlong(p.lines + q.lines, max, 0), FindOverlong(q.lines, max, 0);
            if j.None? then i.None? else i == Some(|p.lines| + j.value)
  {
    var lines := p.lines + q.lines;
    var i, j := FindOverlong(lines, max, 0), FindOverlong(q.lines, max, 0);
    hide FindOverlong;
    assert forall k :: 0 <= k < |p.lines| ==> lines[k] == p.lines[k];
    assert forall k :: 0 <= k < |q.lines| ==> lines[|p.lines| + k] == q.lines[k];
    if i.Some? {
      assert q.lines[i.value - |p.lines|] == lines[i.value];
    }
  }

  lemma LinesCut(c: Config, s: Consumer, a: seq<byte>, b: seq<byte>)
    requires Sane(c, s) && s.stopped.None?
    ensures var first := ConsumeLines(c, s, a);
            ConsumeLines(c, s, a + b) == if first.stopped.Some? then first else ConsumeLines(c, first, b)
  {
    hide Split, FindOverlong;
    var p := Split(s.buffer + a);
    var q := Split(p.rest + b);
    assert s.buffer + (a + b) == (s.buffer + a) + b;
    SplitLater(s.buffer + a, b);
    assert s.emitted + (p.lines + q.lines) == (s.emitted + p.lines) + q.lines;
    if c.maxLine.Some? {
      var max := c.maxLine.value;
      var i := FindOverlong(p.lines + q.lines, max, 0);
      if FindOverlong(p.lines, max, 0).Some? || |p.rest| > max {
        LongStays(p, b, max);
        var first := FindOverlong(p.lines, max, 0);
        if first.Some? {
          OverlongIn(p.lines, max);
          assert (p.lines + q.lines)[..first.value] == p.lines[..first.value];
        } else if i.Some? {
          assert (p.lines + q.lines)[..i.value] == p.lines;
        } else {
          assert p.lines + q.lines == p.lines;
        }
      } else {
        ShortPasses(p, q, max);
        var j := FindOverlong(q.lines, max, 0);
        if j.Some? {
          assert (p.lines + q.lines)[..i.value] == p.lines + q.lines[..j.value];
          assert s.emitted + (p.lines + q.lines[..j.value]) == (s.emitted + p.lines) + q.lines[..j.value];
        }
      }
    }
  }

  lemma OverlongIn(lines: seq<line>, max: nat)
    ensures FindOverlong(lines, max, 0).Some? ==> FindOverlong(lines, max, 0).value < |lines|
  {
  }

  /** What can still be told about a consumer: once stopped, its stderr count is never
      looked at again. */
  function View(s: Consumer): Consumer {
    if s.stopped.Some? then s.(stderrBytes := 0) else s
  }

  lemma StderrCut(c: Config, s: Consumer, a: seq<byte>, b: seq<byte>)
    requires Sane(c, s) && s.stopped.None?
    ensures var first := ConsumeStderr(c, s, a);
            View(ConsumeStderr(c, s, a + b)) == View(if first.stopped.Some? then first else ConsumeStderr(c, first, b))
  {
    hide ConsumeLines;
    assert s.stderr + (a + b) == (s.stderr + a) + b;
    if c.maxStderr.Some? {
      var remaining := c.maxStderr.value - s.stderrBytes;
      if |a| > remaining {
        assert (a + b)[..remaining] == a[..remaining];
      } else {
        var k := if |b| < remaining - |a| then |b| else remaining - |a|;
        assert b[..|b|] == b && a[..|a|] == a;
        var kept := b[..k];
        assert (a + b)[..|a| + k] == a + kept && (a + b)[..|a + b|] == a + b;
        assert s.stderr + (a + kept) == (s.stderr + a) + kept;
        if c.merge {
          MergedCut(c, s, a, kept);
        }
      }
    }
  }

  /** Merged stderr within its bound: counting first and splitting after. */
  lemma MergedCut(c: Config, s: Consumer, a: seq<byte>, kept: seq<byte>)
    requires Sane(c, s) && s.stopped.None?
    ensures var first := ConsumeLines(c, s.(stderrBytes := s.stderrBytes + |a|), a);
            var whole := ConsumeLines(c, s.(stderrBytes := s.stderrBytes + |a + kept|), a + kept);
            && first.stderrBytes == s.stderrBytes + |a|
            && if first.stopped.Some? then whole == first.(stderrBytes := s.stderrBytes + |a + kept|)
               else whole == ConsumeLines(c, first.(stderrBytes := first.stderrBytes + |kept|), kept)
  {
    hide ConsumeLines;
    LinesCut(c, s, a, kept);
    LinesCount(c, s, a, s.stderrBytes + |a|);
    LinesCount(c, s, a + kept, s.stderrBytes + |a + kept|);
    LinesCount(c, ConsumeLines(c, s, a), kept, s.stderrBytes + |a + kept|);
  }

  /** Line splitting does not look at the stderr count. */
  lemma LinesCount(c: Config, s: Consumer, a: seq<byte>, n: nat)
    ensures ConsumeLines(c, s.(stderrBytes := n), a) == ConsumeLines(c, s, a).(stderrBytes := n)
    ensures ConsumeLines(c, s, a).stderrBytes == s.stderrBytes
  {
  }

  /** One frame or the same bytes in two: no difference. */
  lemma FeedCut(c: Config, s: Consumer, source: Source, a: seq<byte>, b: seq<byte>)
    requires Sane(c, s)
    ensures View(Feed(c, s, source, a + b)) == View(Feed(c, Feed(c, s, source, a), source, b))
  {
    hide ConsumeLines, ConsumeStderr;
    if s.stopped.None? {
      if source.Stdout? {
        LinesCut(c, s, a, b);
      } else {
        StderrCut(c, s, a, b);
      }
    }
  }

  lemma FeedViewed(c: Config, s: Consumer, t: Consumer, source: Source, payload: seq<byte>)
    requires View(s) == View(t)
    ensures View(Feed(c, s, source, payload)) == View(Feed(c, t, source, payload))
  {
    hide ConsumeLines, ConsumeStderr;
  }

  // ------------------------------------------------------ one byte at a time, and all

  function Tag(source: Source, payload: seq<byte>): seq<(Source, byte)> {
    seq(|payload|, i requires 0 <= i < |payload| => (source, payload[i]))
  }

  /** The bytes of some frames, each with the pipe it came from. */
  function Tagged(frames: seq<Frame>): seq<(Source, byte)> {
    if frames == [] then []
    else
      var last := frames[|frames| - 1];
      Tagged(frames[..|frames| - 1]) + Tag(last.source, last.payload)
  }

  function FeedBytes(c: Config, bytes: seq<(Source, byte)>): Consumer {
    if bytes == [] then FRESH
    else
      var last := bytes[|bytes| - 1];
      Feed(c, FeedBytes(c, bytes[..|bytes| - 1]), last.0, [last.1])
  }

  lemma {:induction false} FeedBytesSane(c: Config, bytes: seq<(Source, byte)>)
    ensures Sane(c, FeedBytes(c, bytes))
  {
    hide Feed;
    if bytes != [] {
      FeedBytesSane(c, bytes[..|bytes| - 1]);
      var last := bytes[|bytes| - 1];
      FeedSane(c, FeedBytes(c, bytes[..|bytes| - 1]), last.0, [last.1]);
    }
  }

  lemma FeedNothing(c: Config, s: Consumer, source: Source)
    requires Sane(c, s)
    ensures Feed(c, s, source, []) == s
  {
    assert s.buffer + [] == s.buffer == Whole(Parts([], s.buffer));
    SplitUnique(Parts([], s.buffer));
    assert s.emitted + [] == s.emitted && s.stderr + [] == s.stderr;
  }

  /** A frame is its bytes fed one by one. */
  lemma {:induction false} FrameIsBytes(c: Config, before: seq<(Source, byte)>, source: Source, payload: seq<byte>)
    ensures View(FeedBytes(c, before + Tag(source, payload))) == View(Feed(c, FeedBytes(c, before), source, payload))
    decreases |payload|
  {
    hide Feed;
    var tagged := Tag(source, payload);
    FeedBytesSane(c, before);
    if payload == [] {
      assert before + tagged == before;
      FeedNothing(c, FeedBytes(c, before), source);
    } else {
      var front, b := payload[..|payload| - 1], payload[|payload| - 1];
      var fewer := Tag(source, front);
      assert tagged == fewer + [(source, b)] && payload == front + [b];
      assert (before + tagged)[..|before + tagged| - 1] == before + fewer;
      FrameIsBytes(c, before, source, front);
      FeedViewed(c, FeedBytes(c, before + fewer), Feed(c, FeedBytes(c, before), source, front), source, [b]);
      FeedCut(c, FeedBytes(c, before), source, front, [b]);
    }
  }

  lemma {:induction false} FeedAllBytes(c: Config, frames: seq<Frame>)
    ensures View(FeedAll(c, frames)) == View(FeedBytes(c, Tagged(frames)))
  {
    hide Feed;
    if frames != [] {
      var front, last := frames[..|frames| - 1], frames[|frames| - 1];
      FeedAllBytes(c, front);
      FeedViewed(c, FeedAll(c, front), FeedBytes(c, Tagged(front)), last.source, last.payload);
      FrameIsBytes(c, Tagged(front), last.source, last.payload);
    }
  }

  /** Lines, verdict, stderr and unfinished rest depend on the bytes received and their
      order alone, never on how they were cut into frames. */
  lemma CutIndependent(c: Config, one: seq<Frame>, other: seq<Frame>)
    requires Tagged(one) == Tagged(other)
    ensures View(FeedAll(c, one)) == View(FeedAll(c, other))
  {
    FeedAllBytes(c, one);
    FeedAllBytes(c, other);
  }

  // ------------------------------------------------------------ what the bytes mean

  function Errs(bytes: seq<(Source, byte)>): seq<byte> {
    if bytes == [] then []
    else
      Errs(bytes[..|bytes| - 1]) + if bytes[|bytes| - 1].0.Stderr? then [bytes[|bytes| - 1].1] else []
  }

  predicate Overflowed(c: Config, bytes: seq<(Source, byte)>) {
    c.maxStderr.Some? && |Errs(bytes)| > c.maxStderr.value
  }

  /** The text a run's lines are cut from: stdout and, where merged under a bound,
      stderr, up to the first stderr byte over the bound. */
  function Gathered(c: Config, bytes: seq<(Source, byte)>): seq<byte> {
    if bytes == [] then []
    else
      var front, last := bytes[..|bytes| - 1], bytes[|bytes| - 1];
      if Overflowed(c, bytes) then Gathered(c, front)
      else if last.0.Stdout? || (c.merge && c.maxStderr.Some?) then Gathered(c, front) + [last.1]
      else Gathered(c, front)
  }

  /** Nothing in a text is too long, finished or not. */
  predicate Short(c: Config, text: seq<byte>) {
    c.maxLine.Some? ==>
      && (forall l :: l in Split(text).lines ==> |l| <= c.maxLine.value)
      && |Split(text).rest| <= c.maxLine.value
  }

  /** `emitted` is exactly the lines before the first one over the bound, or all of
      them where only the unfinished rest is over it. */
  predicate UpToLong(c: Config, text: seq<byte>, emitted: seq<line>) {
    && c.maxLine.Some?
    && var p := Split(text);
    && emitted <= p.lines
    && (forall l :: l in emitted ==> |l| <= c.maxLine.value)
    && if |emitted| < |p.lines| then |p.lines[|emitted|]| > c.maxLine.value else |p.rest| > c.maxLine.value
  }

  /** What a consumer that has taken these bytes must look like. */
  predicate Faithful(c: Config, bytes: seq<(Source, byte)>, s: Consumer) {
    var text := Gathered(c, bytes);
    match s.stopped
    case None =>
      && !Overflowed(c, bytes) && Short(c, text)
      && s.emitted == Split(text).lines && s.buffer == Split(text).rest
      && (c.maxStderr.Some? ==> s.stderrBytes == |Errs(bytes)|)
      && s.stderr == (if c.merge && c.maxStderr.Some? then [] else Errs(bytes))
    case Some(LineLimit) => UpToLong(c, text, s.emitted)
    case Some(TotalLimit) =>
      && Overflowed(c, bytes) && Short(c, text) && s.emitted == Split(text).lines
      && s.stderr == (if c.merge then [] else Errs(bytes)[..c.maxStderr.value])
  }

  lemma SplitByte(text: seq<byte>, b: byte)
    ensures Split(text + [b]) == Grown(Split(text), b)
  {
    assert (text + [b])[..|text|] == text;
  }

  lemma SplitRest(rest: line)
    ensures Split(rest) == Parts([], rest)
  {
    assert Whole(Parts([], rest)) == rest;
    SplitUnique(Parts([], rest));
  }

  lemma LongPersists(c: Config, text: seq<byte>, emitted: seq<line>, b: byte)
    requires UpToLong(c, text, emitted)
    ensures UpToLong(c, text + [b], emitted)
  {
    SplitByte(text, b);
  }

  /** One byte of text: either it makes the unfinished rest too long, or the lines and
      the rest are those of the longer text. */
  lemma LineByte(c: Config, text: seq<byte>, s: Consumer, b: byte)
    requires s.stopped.None? && Short(c, text) && s.emitted == Split(text).lines && s.buffer == Split(text).rest
    ensures var t := ConsumeLines(c, s, [b]);
            && t.stderr == s.stderr && t.stderrBytes == s.stderrBytes
            && if t.stopped.Some? then t.stopped == Some(LineLimit) && UpToLong(c, text + [b], t.emitted)
               else Short(c, text + [b]) && t.emitted == Split(text + [b]).lines && t.buffer == Split(text + [b]).rest
  {
    SplitByte(text, b);
    SplitRest(s.buffer);
    SplitByte(s.buffer, b);
    var p := Split(s.buffer + [b]);
    assert p.lines == if b == NL then [s.buffer] else [];
    if c.maxLine.Some? {
      assert FindOverlong(p.lines, c.maxLine.value, 0).None?;
    }
    assert s.emitted + [] == s.emitted;
  }

  lemma ErrsByte(bytes: seq<(Source, byte)>, source: Source, b: byte)
    ensures Errs(bytes + [(source, b)]) == Errs(bytes) + if source.Stderr? then [b] else []
  {
    assert (bytes + [(source, b)])[..|bytes|] == bytes;
  }

  lemma GatheredByte(c: Config, bytes: seq<(Source, byte)>, source: Source, b: byte)
    ensures var more := bytes + [(source, b)];
            Gathered(c, more) ==
            if !Overflowed(c, more) && (source.Stdout? || (c.merge && c.maxStderr.Some?)) then Gathered(c, bytes) + [b]
            else Gathered(c, bytes)
  {
    assert (bytes + [(source, b)])[..|bytes|] == bytes;
  }

  lemma ByteFaithful(c: Config, bytes: seq<(Source, byte)>, s: Consumer, source: Source, b: byte)
    requires Faithful(c, bytes, s) && Sane(c, s)
    ensures Faithful(c, bytes + [(source, b)], Feed(c, s, source, [b]))
  {
    hide ConsumeLines, UpToLong, Short;
    ErrsByte(bytes, source, b);
    GatheredByte(c, bytes, source, b);
    var text := Gathered(c, bytes);
    match s.stopped
    case Some(LineLimit) => LongPersists(c, text, s.emitted, b);
    case Some(TotalLimit) =>
    case None =>
      if source.Stdout? {
        LineByte(c, text, s, b);
      } else if c.maxStderr.Some? {
        ErrByteFaithful(c, bytes, s, b);
      }
  }

  lemma ErrByteFaithful(c: Config, bytes: seq<(Source, byte)>, s: Consumer, b: byte)
    requires Faithful(c, bytes, s) && Sane(c, s) && s.stopped.None? && c.maxStderr.Some?
    ensures Faithful(c, bytes + [(Stderr, b)], ConsumeStderr(c, s, [b]))
  {
    if s.stderrBytes < c.maxStderr.value {
      ErrByteKept(c, bytes, s, b);
    } else {
      ErrByteOver(c, bytes, s, b);
    }
  }

  lemma ErrByteKept(c: Config, bytes: seq<(Source, byte)>, s: Consumer, b: byte)
    requires Faithful(c, bytes, s) && Sane(c, s) && s.stopped.None?
    requires c.maxStderr.Some? && s.stderrBytes < c.maxStderr.value
    ensures Faithful(c, bytes + [(Stderr, b)], ConsumeStderr(c, s, [b]))
  {
    hide ConsumeLines, UpToLong, Short;
    ErrsByte(bytes, Stderr, b);
    GatheredByte(c, bytes, Stderr, b);
    hide Errs, Gathered, Split;
    assert [b][..1] == [b];
    if c.merge {
      LineByte(c, Gathered(c, bytes), s.(stderrBytes := s.stderrBytes + 1), b);
    }
  }

  lemma ErrByteOver(c: Config, bytes: seq<(Source, byte)>, s: Consumer, b: byte)
    requires Faithful(c, bytes, s) && Sane(c, s) && s.stopped.None?
    requires c.maxStderr.Some? && s.stderrBytes >= c.maxStderr.value
    ensures Faithful(c, bytes + [(Stderr, b)], ConsumeStderr(c, s, [b]))
  {
    hide ConsumeLines, UpToLong, Short;
    ErrsByte(bytes, Stderr, b);
    GatheredByte(c, bytes, Stderr, b);
    hide Errs, Gathered, Split;
    assert [b][..0] == [] && s.stderr + [] == s.stderr;
    assert (Errs(bytes) + [b])[..c.maxStderr.value] == Errs(bytes);
    LinesNothing(c, s);
  }

  lemma LinesNothing(c: Config, s: Consumer)
    requires Sane(c, s)
    ensures ConsumeLines(c, s, []) == s
  {
    assert s.buffer + [] == s.buffer;
    SplitRest(s.buffer);
    assert s.emitted + [] == s.emitted;
  }

  lemma {:induction false} BytesFaithful(c: Config, bytes: seq<(Source, byte)>)
    ensures Faithful(c, bytes, FeedBytes(c, bytes))
  {
    hide Feed;
    if bytes == [] {
      assert Split([]) == Parts([], []);
    } else {
      var front, last := bytes[..|bytes| - 1], bytes[|bytes| - 1];
      BytesFaithful(c, front);
      FeedBytesSane(c, front);
      ByteFaithful(c, front, FeedBytes(c, front), last.0, last.1);
      assert bytes == front + [(last.0, last.1)];
    }
  }

  /** Whatever frames arrive: the consumer is stopped for a line exactly when the text
      gathered holds an over-long one, having handed over the lines before the first
      such; stopped for stderr exactly when more arrived than the bound; and otherwise
      holds every line and the unfinished rest of all of it. */
  lemma FeedAllFaithful(c: Config, frames: seq<Frame>)
    ensures Faithful(c, Tagged(frames), FeedAll(c, frames))
    ensures FeedAll(c, frames).stopped == Some(LineLimit) <==> !Short(c, Gathered(c, Tagged(frames)))
    ensures FeedAll(c, frames).stopped == Some(TotalLimit) <==>
              Short(c, Gathered(c, Tagged(frames))) && Overflowed(c, Tagged(frames))
  {
    hide Feed, FeedAll, FeedBytes, Tagged, Gathered;
    var bytes := Tagged(frames);
    FeedAllBytes(c, frames);
    BytesFaithful(c, bytes);
    FaithfulView(c, bytes, FeedBytes(c, bytes), FeedAll(c, frames));
    FaithfulVerdict(c, bytes, FeedAll(c, frames));
  }

  lemma FaithfulView(c: Config, bytes: seq<(Source, byte)>, s: Consumer, t: Consumer)
    requires Faithful(c, bytes, s) && View(s) == View(t)
    ensures Faithful(c, bytes, t)
  {
    hide UpToLong, Short, Gathered, Split;
  }

  lemma FaithfulVerdict(c: Config, bytes: seq<(Source, byte)>, s: Consumer)
    requires Faithful(c, bytes, s)
    ensures s.stopped == Some(LineLimit) <==> !Short(c, Gathered(c, bytes))
    ensures s.stopped == Some(TotalLimit) <==> Short(c, Gathered(c, bytes)) && Overflowed(c, bytes)
  {
    hide UpToLong, Short, Gathered, Split;
    LongOrShort(c, Gathered(c, bytes), s.emitted);
  }

  lemma LongOrShort(c: Config, text: seq<byte>, emitted: seq<line>)
    ensures UpToLong(c, text, emitted) ==> !Short(c, text)
  {
    if UpToLong(c, text, emitted) && |emitted| < |Split(text).lines| {
      assert Split(text).lines[|emitted|] in Split(text).lines;
    }
  }

  /** With no bound on lines, an ended run gives its whole text back: every line it
      handed over with its newline, and the last one bare. */
  lemma NothingLost(c: Config, frames: seq<Frame>)
    requires c.maxLine.None? && FeedAll(c, frames).stopped.None?
    ensures var s := FeedAll(c, frames);
            Text(s.emitted) + Channels.Join(Final(s)) == Gathered(c, Tagged(frames))
  {
    hide Feed;
    FeedAllFaithful(c, frames);
    SplitWhole(Gathered(c, Tagged(frames)));
    var s := FeedAll(c, frames);
    if s.buffer != [] {
      assert [s.buffer][1..] == [];
      assert Channels.Join([s.buffer]) == s.buffer + Channels.Join([]);
    }
  }
}
