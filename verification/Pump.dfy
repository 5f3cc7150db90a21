/** The loops that move a child's output onto the framed stream, eagerly or as read
    credit allows. */
module Pumps {
  import opened Bytes
  import opened Credits
  import opened Frames
  import opened Process
  import C = Channels
  import R = PumpRuns

  const BUFFER := 8192

  /** How the child's pipe answers: with bytes to be read, an interruption or an error.
      After its last answer it is at its end. */
  datatype Offer = Ready(data: seq<byte>) | Interruption | Failing

  datatype Chunk = Chunk(data: seq<byte>) | Retry | Error

  datatype End = AtEof | ReadFailed | WriteFailed | Stopped | StillParked

  /** Every byte a pipe still holds. */
  function Held(offers: seq<Offer>): seq<byte> {
    if offers == [] then []
    else (if offers[0].Ready? then offers[0].data else []) + Held(offers[1..])
  }

  /** The bytes a pipe yields before it first fails. */
  function Readable(offers: seq<Offer>): seq<byte> {
    if offers == [] || offers[0].Failing? then []
    else (if offers[0].Ready? then offers[0].data else []) + Readable(offers[1..])
  }

  function Weight(offers: seq<Offer>): nat {
    if offers == [] then 0
    else 1 + (if offers[0].Ready? then |offers[0].data| else 0) + Weight(offers[1..])
  }

  class Pipe {
    var offers: seq<Offer>

    constructor (offers: seq<Offer>)
      ensures this.offers == offers
    {
      this.offers := offers;
    }

    /** One read of at most `cap` bytes; an empty chunk is the end, and an error is what
        the pipe answers next. */
    method Read(cap: nat) returns (c: Chunk)
      requires cap > 0
      modifies this
      ensures c.Chunk? ==> |c.data| <= cap && Held(old(offers)) == c.data + Held(offers)
      ensures !c.Chunk? ==> Held(old(offers)) == Held(offers)
      ensures if c.Chunk? && c.data == [] then offers == old(offers) == [] else Weight(offers) < Weight(old(offers))
      ensures if c.Error? then Failing in old(offers) && Readable(old(offers)) == []
              else (Failing in offers <==> Failing in old(offers))
      ensures c.Chunk? ==> Readable(old(offers)) == c.data + Readable(offers)
      ensures c.Retry? ==> Readable(old(offers)) == Readable(offers)
    {
      if offers == [] {
        return Chunk([]);
      }
      var first := offers[0];
      match first
      case Interruption =>
        offers := offers[1..];
        c := Retry;
      case Failing =>
        offers := offers[1..];
        c := Error;
      case Ready(data) =>
        if data == [] {
          offers := offers[1..];
          return Retry;
        }
        var n := if |data| <= cap then |data| else cap;
        c := Chunk(data[..n]);
        Split(offers, n);
        offers := (if n < |data| then [Ready(data[n..])] else []) + offers[1..];
    }

    /** Taking the first bytes of an offer leaves the rest to be read. */
    static lemma Split(offers: seq<Offer>, n: nat)
      requires offers != [] && offers[0].Ready? && 0 < n <= |offers[0].data|
      ensures var data := offers[0].data; var rest := (if n < |data| then [Ready(data[n..])] else []) + offers[1..];
              && Held(offers) == data[..n] + Held(rest) && Readable(offers) == data[..n] + Readable(rest)
              && Weight(rest) < Weight(offers) && (Failing in rest <==> Failing in offers)
    {
      var data, after := offers[0].data, offers[1..];
      var rest := (if n < |data| then [Ready(data[n..])] else []) + after;
      assert data == data[..n] + data[n..];
      assert offers == [offers[0]] + after;
      if n < |data| {
        assert rest[1..] == after;
        assert Held(offers) == data[..n] + (data[n..] + Held(after));
        assert Readable(offers) == data[..n] + (data[n..] + Readable(after));
      } else {
        assert rest == after && data[..n] == data;
      }
    }
  }

  function Payloads(frames: seq<Frame>): seq<byte> {
    if frames == [] then [] else Payloads(frames[..|frames| - 1]) + frames[|frames| - 1].payload
  }

  lemma {:induction false} EncodeMore(frames: seq<Frame>, f: Frame)
    ensures EncodeAll(frames + [f]) == EncodeAll(frames) + Encode(f)
  {
    hide Encode;
    if frames == [] {
      assert (frames + [f])[1..] == [];
      assert frames + [f] == [f];
      assert EncodeAll([f]) == Encode(f) + EncodeAll([]);
    } else {
      assert (frames + [f])[1..] == frames[1..] + [f];
      EncodeMore(frames[1..], f);
      assert Encode(frames[0]) + (EncodeAll(frames[1..]) + Encode(f)) == EncodeAll(frames) + Encode(f);
    }
  }

  lemma PayloadsMore(frames: seq<Frame>, f: Frame)
    ensures Payloads(frames + [f]) == Payloads(frames) + f.payload
  {
    assert (frames + [f])[..|frames|] == frames;
  }

  /** What a pump has done so far: whole frames of one tag on the stream, carrying the
      pipe's bytes in order, each frame readable again. */
  ghost predicate Forwards(tag: byte, held: seq<byte>, out: seq<byte>, frames: seq<Frame>, now: seq<byte>, rest: seq<byte>) {
    && now == out + EncodeAll(frames)
    && Payloads(frames) + rest == held
    && forall f :: f in frames ==> f.tag == tag && 0 < |f.payload| <= BUFFER
  }

  lemma ForwardsMore(tag: byte, held: seq<byte>, out: seq<byte>, frames: seq<Frame>, now: seq<byte>, data: seq<byte>, rest: seq<byte>)
    requires Forwards(tag, held, out, frames, now, data + rest) && 0 < |data| <= BUFFER
    ensures Forwards(tag, held, out, frames + [Frame(tag, data)], now + Encode(Frame(tag, data)), rest)
  {
    EncodeMore(frames, Frame(tag, data));
    PayloadsMore(frames, Frame(tag, data));
    hide EncodeAll, Encode, Payloads;
    assert Payloads(frames) + (data + rest) == (Payloads(frames) + data) + rest;
    assert out + (EncodeAll(frames) + Encode(Frame(tag, data))) == out + EncodeAll(frames) + Encode(Frame(tag, data));
  }

  lemma ForwardsNothing(tag: byte, held: seq<byte>, out: seq<byte>)
    ensures Forwards(tag, held, out, [], out, held)
  {
    assert out + EncodeAll([]) == out && Payloads([]) + held == held;
  }

  /** Reads as fast as the pipe allows. Unless a write fails, everything is forwarded that
      comes before the pipe's end or its first error, which alone ends the pump early; a
      failed write loses its one chunk. */
  method PumpEager(pipe: Pipe, sink: Sink, tag: byte) returns (end: End, ghost frames: seq<Frame>)
    modifies pipe, sink
    ensures end == AtEof || end == ReadFailed || end == WriteFailed
    ensures end != WriteFailed ==>
      && Forwards(tag, Held(old(pipe.offers)), old(sink.out), frames, sink.out, Held(pipe.offers))
      && Payloads(frames) == Readable(old(pipe.offers)) && (end == ReadFailed <==> Failing in old(pipe.offers))
    ensures end == AtEof ==> Payloads(frames) == Held(old(pipe.offers))
    ensures old(sink.room).None? ==> end != WriteFailed
  {
    hide Held, Weight, Forwards, Payloads, Readable;
    frames := [];
    ForwardsNothing(tag, Held(pipe.offers), sink.out);
    NoneRead(pipe.offers);
    while true
      invariant Forwards(tag, Held(old(pipe.offers)), old(sink.out), frames, sink.out, Held(pipe.offers))
      invariant Payloads(frames) + Readable(pipe.offers) == Readable(old(pipe.offers))
      invariant Failing in pipe.offers <==> Failing in old(pipe.offers)
      invariant old(sink.room).None? ==> sink.room.None?
      decreases Weight(pipe.offers)
    {
      var c := pipe.Read(BUFFER);
      match c {
        case Retry =>
        case Error =>
          end := ReadFailed;
          return;
        case Chunk(data) =>
          if data == [] {
            end := AtEof;
            NoneLeft(pipe.offers);
            AllForwarded(tag, Held(old(pipe.offers)), old(sink.out), frames, sink.out, Held(pipe.offers));
            return;
          }
          ForwardsMore(tag, Held(old(pipe.offers)), old(sink.out), frames, sink.out, data, Held(pipe.offers));
          ReadMore(frames, Frame(tag, data), Readable(pipe.offers));
          var ok := WriteFrame(sink, tag, data);
          if !ok {
            end := WriteFailed;
            return;
          }
          frames := frames + [Frame(tag, data)];
      }
    }
  }

  lemma NoneRead(offers: seq<Offer>)
    ensures Payloads([]) + Readable(offers) == Readable(offers)
  {
    hide Readable;
  }

  lemma NoneLeft(offers: seq<Offer>)
    ensures offers == [] ==> Readable(offers) == [] && Held(offers) == []
  {
  }

  lemma ReadMore(frames: seq<Frame>, f: Frame, rest: seq<byte>)
    ensures Payloads(frames + [f]) + rest == Payloads(frames) + (f.payload + rest)
  {
    PayloadsMore(frames, f);
    hide Payloads;
  }

  lemma AllForwarded(tag: byte, held: seq<byte>, out: seq<byte>, frames: seq<Frame>, now: seq<byte>, rest: seq<byte>)
    requires Forwards(tag, held, out, frames, now, rest) && rest == []
    ensures Payloads(frames) == held
  {
    assert Payloads(frames) + [] == Payloads(frames);
  }

  function Given(acts: seq<Act>): nat {
    if acts == [] then 0
    else Given(acts[..|acts| - 1]) + if acts[|acts| - 1].Granted? then acts[|acts| - 1].n else 0
  }

  lemma {:induction false} DoGiven(b: Budget, acts: seq<Act>)
    ensures DoAll(b, acts).available <= b.available + Given(acts)
    ensures DoAll(b, acts).uncorked <==> b.uncorked || Uncorked in acts
    ensures DoAll(b, acts).cancelled <==> b.cancelled || Cancelled in acts
  {
    if acts != [] {
      var front, last := acts[..|acts| - 1], acts[|acts| - 1];
      assert acts == front + [last];
      DoGiven(b, front);
    }
  }

  // ---------------------------------------------------------------- what is waited for

  /** What is done to the budget during one wait. */
  function ActsAt(others: seq<seq<Act>>, i: nat): seq<Act> {
    if i < |others| then others[i] else []
  }

  /** What was granted during some waits. */
  function GivenIn(waits: seq<seq<Act>>): nat {
    if waits == [] then 0 else GivenIn(waits[..|waits| - 1]) + Given(waits[|waits| - 1])
  }

  ghost predicate DoneIn(waits: seq<seq<Act>>, a: Act) {
    exists i :: 0 <= i < |waits| && a in waits[i]
  }

  /** Each wait saw a first part of what was done during it, and the budget's flags and
      credit come from that alone. */
  ghost predicate Heeded(others: seq<seq<Act>>, waits: seq<seq<Act>>, first: Budget, now: Budget) {
    && (forall i :: 0 <= i < |waits| ==> waits[i] <= ActsAt(others, i))
    && (now.uncorked <==> first.uncorked || DoneIn(waits, Uncorked))
    && (now.cancelled <==> first.cancelled || DoneIn(waits, Cancelled))
    && now.available <= first.available + GivenIn(waits)
  }

  lemma HeededMore(others: seq<seq<Act>>, waits: seq<seq<Act>>, first: Budget, now: Budget, acts: seq<Act>)
    requires Heeded(others, waits, first, now) && acts <= ActsAt(others, |waits|)
    ensures Heeded(others, waits + [acts], first, DoAll(now, acts))
    ensures GivenIn(waits + [acts]) == GivenIn(waits) + Given(acts)
    ensures DoAll(now, acts).available <= now.available + Given(acts)
  {
    DoGiven(now, acts);
    DoneMore(waits, acts, Uncorked);
    DoneMore(waits, acts, Cancelled);
    hide DoneIn, DoAll;
    assert (waits + [acts])[..|waits|] == waits;
  }

  lemma DoneMore(waits: seq<seq<Act>>, acts: seq<Act>, a: Act)
    ensures DoneIn(waits + [acts], a) <==> DoneIn(waits, a) || a in acts
  {
    var more := waits + [acts];
    assert more[|waits|] == acts;
    if DoneIn(waits, a) {
      var i :| 0 <= i < |waits| && a in waits[i];
      assert more[i] == waits[i];
    }
  }

  lemma HeededNothing(others: seq<seq<Act>>, first: Budget)
    ensures Heeded(others, [], first, first) && GivenIn([]) == 0
  {
  }

  lemma HeededLess(others: seq<seq<Act>>, waits: seq<seq<Act>>, first: Budget, now: Budget, less: Budget)
    requires Heeded(others, waits, first, now) && less == now.(available := less.available)
    requires less.available <= now.available
    ensures Heeded(others, waits, first, less)
  {
    hide DoneIn;
  }

  // ------------------------------------------------- the gated loop as flow control

  function Chunks(frames: seq<Frame>): seq<seq<byte>> {
    seq(|frames|, i requires 0 <= i < |frames| => frames[i].payload)
  }

  /** The script of happenings leads flow control on this pipe, from the first budget, to
      where the loop stands: its budget, its place, what it has read and what it wrote. */
  ghost predicate Plays(first: Budget, script: seq<R.Happening>, budget: Budget, place: C.Pump, frames: seq<Frame>) {
    R.Played(R.Idle(first), script)
      == Some(C.Channel([], budget, place, Chunks(frames), Payloads(frames) + C.InHand(place)))
  }

  /** Where the loop's end leaves the pump. */
  predicate Rests(end: End, place: C.Pump) {
    match end
    case WriteFailed => place.Broken?
    case StillParked => place.Waiting?
    case _ => place.Done?
  }

  lemma PlaysNothing(first: Budget)
    ensures Plays(first, [], first, C.Waiting, [])
  {
    var none: seq<Frame> := [];
    assert Chunks(none) == [] && Payloads(none) + C.InHand(C.Waiting) == [];
  }

  function ActScript(a: Act): seq<R.Happening> {
    match a
    case Granted(n) => [R.Arrives(n), R.Steps(C.Deliver)]
    case Uncorked => []
    case Cancelled => [R.Steps(C.Abort)]
  }

  function ActScripts(acts: seq<Act>): seq<R.Happening> {
    if acts == [] then [] else ActScripts(acts[..|acts| - 1]) + ActScript(acts[|acts| - 1])
  }

  lemma PlaysAct(first: Budget, script: seq<R.Happening>, budget: Budget, place: C.Pump, frames: seq<Frame>, a: Act)
    requires Plays(first, script, budget, place, frames) && !a.Uncorked?
    ensures Plays(first, script + ActScript(a), Do(budget, a), place, frames)
  {
    hide R.Played, Payloads;
    var c := R.Played(R.Idle(first), script).value;
    R.PlayedMore(R.Idle(first), script, ActScript(a));
    match a
    case Granted(n) =>
      R.PlayedTwo(c, R.Arrives(n), R.Steps(C.Deliver));
      assert [] + [n] == [n] && [n][1..] == [];
    case Cancelled => R.PlayedTwo(c, R.Steps(C.Abort), R.Arrives(0));
  }

  lemma {:induction false} PlaysActs(first: Budget, script: seq<R.Happening>, budget: Budget, place: C.Pump,
                                     frames: seq<Frame>, acts: seq<Act>)
    requires Plays(first, script, budget, place, frames) && !DoAll(budget, acts).uncorked
    ensures Plays(first, script + ActScripts(acts), DoAll(budget, acts), place, frames)
  {
    hide Plays, ActScript;
    if acts == [] {
      assert script + ActScripts(acts) == script;
    } else {
      var front := acts[..|acts| - 1];
      PlaysActs(first, script, budget, place, frames, front);
      PlaysAct(first, script + ActScripts(front), DoAll(budget, front), place, frames, acts[|acts| - 1]);
      assert script + ActScripts(acts) == script + ActScripts(front) + ActScript(acts[|acts| - 1]);
    }
  }

  /** One step of the pump that neither reads nor writes. */
  lemma PlaysStep(first: Budget, script: seq<R.Happening>, budget: Budget, place: C.Pump, frames: seq<Frame>, move: C.Move)
    requires Plays(first, script, budget, place, frames) && !budget.uncorked
    requires match move
             case Ask(max) => place.Waiting? && max > 0 && !Parked(budget)
             case Retry => place.Reading?
             case End => place.Reading?
             case _ => false
    ensures Plays(first, script + [R.Steps(move)], budget, Left(budget, place, move), frames)
  {
    hide R.Played, Payloads;
    var c := R.Played(R.Idle(first), script).value;
    R.PlayedMore(R.Idle(first), script, [R.Steps(move)]);
    R.PlayedTwo(c, R.Steps(move), R.Arrives(0));
  }

  /** A read that brought nothing, while the budget is not uncorked. */
  lemma PlaysOn(first: Budget, script: seq<R.Happening>, budget: Budget, place: C.Pump, frames: seq<Frame>, move: C.Move)
    returns (more: seq<R.Happening>, at: C.Pump)
    requires !budget.uncorked ==> Plays(first, script, budget, place, frames) && place.Reading?
    requires move.Retry? || move.End?
    ensures at == if move.Retry? then C.Waiting else C.Done
    ensures !budget.uncorked ==> Plays(first, more, budget, at, frames)
  {
    hide Plays;
    more, at := script + [R.Steps(move)], Left(budget, place, move);
    if !budget.uncorked {
      PlaysStep(first, script, budget, place, frames, move);
    }
  }

  function Left(budget: Budget, place: C.Pump, move: C.Move): C.Pump {
    match move
    case Ask(max) =>
      if budget.cancelled then C.Done
      else C.Reading(if budget.available < max then budget.available else max)
    case Retry => C.Waiting
    case _ => C.Done
  }

  /** A chunk read and charged. */
  lemma PlaysGot(first: Budget, script: seq<R.Happening>, budget: Budget, place: C.Pump, frames: seq<Frame>, data: seq<byte>)
    requires Plays(first, script, budget, place, frames) && place.Reading? && 1 <= |data| <= place.cap
    ensures Plays(first, script + [R.Steps(C.Got(data)), R.Steps(C.Charge)],
                  budget.(available := SaturatingSub(budget.available, |data|)), C.Writing(data), frames)
  {
    hide R.Played, Payloads;
    var c := R.Played(R.Idle(first), script).value;
    R.PlayedMore(R.Idle(first), script, [R.Steps(C.Got(data)), R.Steps(C.Charge)]);
    R.PlayedTwo(c, R.Steps(C.Got(data)), R.Steps(C.Charge));
    assert Payloads(frames) + [] + data == Payloads(frames) + data;
  }

  /** A chunk written, or lost to a failed write. */
  lemma PlaysWritten(first: Budget, script: seq<R.Happening>, budget: Budget, frames: seq<Frame>, f: Frame, ok: bool)
    requires Plays(first, script, budget, C.Writing(f.payload), frames)
    ensures Plays(first, script + [R.Steps(if ok then C.Write else C.Fail)], budget,
                  if ok then C.Waiting else C.Broken(f.payload), if ok then frames + [f] else frames)
  {
    hide R.Played;
    var c := R.Played(R.Idle(first), script).value;
    var step := R.Steps(if ok then C.Write else C.Fail);
    R.PlayedMore(R.Idle(first), script, [step]);
    R.PlayedTwo(c, step, R.Arrives(0));
    PayloadsMore(frames, f);
    assert Chunks(frames + [f]) == Chunks(frames) + [f.payload];
    assert Payloads(frames + [f]) + [] == Payloads(frames) + f.payload;
  }

  /** Waits for a permit while the supervisor acts; a pump still parked has seen it all. */
  method Permitted(credit: Credit, acts: seq<Act>, ghost first: Budget, ghost before: seq<R.Happening>,
                   ghost frames: seq<Frame>)
    returns (permit: Option<Permit>, ghost heeded: seq<Act>, ghost script: seq<R.Happening>, ghost place: C.Pump)
    requires !credit.uncorked ==> Plays(first, before, credit.Value(), C.Waiting, frames)
    modifies credit
    ensures heeded <= acts && credit.Value() == DoAll(old(credit.Value()), heeded)
    ensures if permit.None? then Parked(credit.Value()) && heeded == acts else Grants(credit.Value(), BUFFER, permit.value)
    ensures !credit.uncorked ==>
      && Plays(first, script, credit.Value(), place, frames)
      && place == if permit.None? then C.Waiting else if permit.value.Cancel? then C.Done else C.Reading(permit.value.cap)
  {
    hide Plays, DoAll;
    script, place := before, C.Waiting;
    ghost var start := credit.Value();
    var used;
    permit, used := credit.AwaitPermit(BUFFER, acts);
    heeded := acts[..used];
    DoGiven(start, heeded);
    if !credit.uncorked {
      PlaysActs(first, script, start, C.Waiting, frames, heeded);
      script := script + ActScripts(heeded);
      if permit.Some? {
        PlaysStep(first, script, credit.Value(), C.Waiting, frames, C.Ask(BUFFER));
        script, place := script + [R.Steps(C.Ask(BUFFER))], Left(credit.Value(), C.Waiting, C.Ask(BUFFER));
      }
    }
  }

  /** One chunk, charged if it was read on credit, and written. */
  method ForwardChunk(sink: Sink, tag: byte, data: seq<byte>, credit: Credit, charge: bool, ghost first: Budget,
                      ghost before: seq<R.Happening>, ghost at: C.Pump, ghost frames: seq<Frame>)
    returns (ok: bool, ghost script: seq<R.Happening>, ghost place: C.Pump)
    requires 0 < |data| <= BUFFER
    requires charge ==> Plays(first, before, credit.Value(), at, frames) && at.Reading? && |data| <= at.cap
    modifies sink, credit
    ensures ok ==> sink.out == old(sink.out) + Encode(Frame(tag, data))
    ensures old(sink.room).None? ==> ok && sink.room.None?
    ensures credit.uncorked == old(credit.uncorked) && credit.cancelled == old(credit.cancelled)
    ensures credit.available == (if charge then SaturatingSub(old(credit.available), |data|) else old(credit.available))
    ensures charge ==> Plays(first, script, credit.Value(), place, if ok then frames + [Frame(tag, data)] else frames)
    ensures charge ==> place == if ok then C.Waiting else C.Broken(data)
  {
    hide Plays;
    script, place := before, at;
    if charge {
      PlaysGot(first, script, credit.Value(), place, frames, data);
      script, place := script + [R.Steps(C.Got(data)), R.Steps(C.Charge)], C.Writing(data);
      credit.Consume(|data|);
    }
    ok := WriteFrame(sink, tag, data);
    if charge {
      PlaysWritten(first, script, credit.Value(), frames, Frame(tag, data), ok);
      script := script + [R.Steps(if ok then C.Write else C.Fail)];
      place := if ok then C.Waiting else C.Broken(data);
    }
  }

  /** What a gated pump keeps to between two waits: `whole` is what the pipe held at first,
      `offers` what it still holds. */
  ghost predicate Standing(tag: byte, whole: seq<Offer>, out: seq<byte>, first: Budget, others: seq<seq<Act>>,
                           offers: seq<Offer>, now: seq<byte>, frames: seq<Frame>, waits: seq<seq<Act>>, b: Budget)
  {
    && Forwards(tag, Held(whole), out, frames, now, Held(offers))
    && Payloads(frames) + Readable(offers) == Readable(whole) && (Failing in offers <==> Failing in whole)
    && Heeded(others, waits, first, b)
    && (!b.uncorked ==> |Payloads(frames)| + b.available <= first.available + GivenIn(waits))
  }

  lemma StandingFirst(tag: byte, whole: seq<Offer>, out: seq<byte>, first: Budget, others: seq<seq<Act>>)
    ensures Standing(tag, whole, out, first, others, whole, out, [], [], first)
  {
    hide Held, Readable, Heeded, Forwards;
    ForwardsNothing(tag, Held(whole), out);
    NoneRead(whole);
    HeededNothing(others, first);
  }

  lemma StandingWaits(tag: byte, whole: seq<Offer>, out: seq<byte>, first: Budget, others: seq<seq<Act>>,
                      offers: seq<Offer>, now: seq<byte>, frames: seq<Frame>, waits: seq<seq<Act>>, b: Budget,
                      acts: seq<Act>)
    requires Standing(tag, whole, out, first, others, offers, now, frames, waits, b)
    requires acts <= ActsAt(others, |waits|)
    ensures Standing(tag, whole, out, first, others, offers, now, frames, waits + [acts], DoAll(b, acts))
  {
    hide Held, Readable, Heeded, Forwards, Payloads, DoAll, GivenIn;
    HeededMore(others, waits, first, b, acts);
    DoGiven(b, acts);
  }

  lemma StandingReads(tag: byte, whole: seq<Offer>, out: seq<byte>, first: Budget, others: seq<seq<Act>>,
                      offers: seq<Offer>, now: seq<byte>, frames: seq<Frame>, waits: seq<seq<Act>>, b: Budget,
                      rest: seq<Offer>, data: seq<byte>, less: Budget)
    requires Standing(tag, whole, out, first, others, offers, now, frames, waits, b)
    requires Held(offers) == data + Held(rest) && Readable(offers) == data + Readable(rest)
    requires (Failing in rest <==> Failing in offers) && |data| <= BUFFER
    requires less == b.(available := less.available) && less.available <= b.available
    requires !b.uncorked ==> less.available + |data| <= b.available
    ensures data == [] ==> Standing(tag, whole, out, first, others, rest, now, frames, waits, b)
    ensures data != [] ==> Standing(tag, whole, out, first, others, rest, now + Encode(Frame(tag, data)),
                                    frames + [Frame(tag, data)], waits, less)
    ensures Heeded(others, waits, first, less)
  {
    hide Held, Readable, Heeded, Payloads, GivenIn, Encode;
    HeededLess(others, waits, first, b, less);
    assert data == [] ==> Held(offers) == Held(rest) && Readable(offers) == Readable(rest);
    if data != [] {
      ForwardsMore(tag, Held(whole), out, frames, now, data, Held(rest));
      ReadMore(frames, Frame(tag, data), Readable(rest));
      PayloadsMore(frames, Frame(tag, data));
      hide Forwards;
    }
  }

  lemma StandingEnds(tag: byte, whole: seq<Offer>, out: seq<byte>, first: Budget, others: seq<seq<Act>>,
                     offers: seq<Offer>, now: seq<byte>, frames: seq<Frame>, waits: seq<seq<Act>>, b: Budget)
    requires Standing(tag, whole, out, first, others, offers, now, frames, waits, b)
    ensures Forwards(tag, Held(whole), out, frames, now, Held(offers)) && Heeded(others, waits, first, b)
    ensures !b.uncorked ==> |Payloads(frames)| + b.available <= first.available + GivenIn(waits)
    ensures Failing in offers <==> Failing in whole
    ensures Readable(offers) == [] ==> Payloads(frames) == Readable(whole)
    ensures offers == [] ==> Payloads(frames) == Held(whole) && Failing !in whole
  {
    hide Heeded, Payloads, GivenIn;
    NoneLeft(offers);
    hide Held, Readable;
    if offers == [] {
      AllForwarded(tag, Held(whole), out, frames, now, Held(offers));
    }
    assert Payloads(frames) + [] == Payloads(frames);
  }

  /** Where the pipe fails, all that could be read before is forwarded. */
  lemma StandingFails(tag: byte, whole: seq<Offer>, out: seq<byte>, first: Budget, others: seq<seq<Act>>,
                      offers: seq<Offer>, now: seq<byte>, frames: seq<Frame>, waits: seq<seq<Act>>, b: Budget,
                      rest: seq<Offer>)
    requires Standing(tag, whole, out, first, others, offers, now, frames, waits, b)
    requires Failing in offers && Readable(offers) == [] && Held(offers) == Held(rest)
    ensures Forwards(tag, Held(whole), out, frames, now, Held(rest))
    ensures Payloads(frames) == Readable(whole) && Failing in whole
  {
    hide Heeded, GivenIn, Payloads, Held, Readable, Forwards;
    assert Payloads(frames) + [] == Payloads(frames);
  }

  /** One permitted read, and what it brought on to the sink, unless that ends the pump. */
  method TakeChunk(pipe: Pipe, sink: Sink, tag: byte, credit: Credit, permit: Permit, ghost whole: seq<Offer>,
                   ghost out: seq<byte>, ghost first: Budget, ghost others: seq<seq<Act>>, ghost before: seq<Frame>,
                   ghost waits: seq<seq<Act>>, ghost played: seq<R.Happening>, ghost at: C.Pump)
    returns (end: Option<End>, ghost frames: seq<Frame>, ghost script: seq<R.Happening>, ghost place: C.Pump)
    requires Grants(credit.Value(), BUFFER, permit) && !permit.Cancel?
    requires Standing(tag, whole, out, first, others, pipe.offers, sink.out, before, waits, credit.Value())
    requires !credit.uncorked ==> Plays(first, played, credit.Value(), at, before) && at == C.Reading(permit.cap)
    modifies pipe, sink, credit
    ensures end.None? ==>
      && Standing(tag, whole, out, first, others, pipe.offers, sink.out, frames, waits, credit.Value())
      && Weight(pipe.offers) < Weight(old(pipe.offers))
    ensures end.None? && !credit.uncorked ==> place == C.Waiting
    ensures end.Some? && end.value != WriteFailed ==>
      && Forwards(tag, Held(whole), out, frames, sink.out, Held(pipe.offers))
      && (!credit.uncorked ==> |Payloads(frames)| + credit.available <= first.available + GivenIn(waits))
    ensures end.Some? ==> end.value == AtEof || end.value == ReadFailed || end.value == WriteFailed
    ensures end == Some(AtEof) ==> Payloads(frames) == Held(whole) && Failing !in whole
    ensures end == Some(ReadFailed) ==> Payloads(frames) == Readable(whole) && Failing in whole
    ensures !credit.uncorked ==> Plays(first, script, credit.Value(), place, frames)
    ensures end.Some? && !credit.uncorked ==> Rests(end.value, place)
    ensures Heeded(others, waits, first, credit.Value())
    ensures old(sink.room).None? ==> end != Some(WriteFailed) && sink.room.None?
  {
    hide Held, Weight, Forwards, Payloads, Plays, Readable, Heeded, GivenIn, Standing, Encode;
    end, frames, script, place := None, before, played, at;
    ghost var offers, full, written := pipe.offers, credit.Value(), sink.out;
    StandingEnds(tag, whole, out, first, others, offers, written, frames, waits, full);
    var c := pipe.Read(if permit.Read? then permit.cap else BUFFER);
    match c {
      case Retry =>
        StandingReads(tag, whole, out, first, others, offers, written, frames, waits, full, pipe.offers, [], full);
        script, place := PlaysOn(first, script, full, place, frames, C.Retry);
      case Error =>
        StandingFails(tag, whole, out, first, others, offers, written, frames, waits, full, pipe.offers);
        script, place := PlaysOn(first, script, full, place, frames, C.End);
        end := Some(ReadFailed);
      case Chunk(data) =>
        if data == [] {
          script, place := PlaysOn(first, script, full, place, frames, C.End);
          return Some(AtEof), frames, script, place;
        }
        var ok;
        ok, script, place := ForwardChunk(sink, tag, data, credit, permit.Read?, first, script, place, frames);
        StandingReads(tag, whole, out, first, others, offers, written, frames, waits, full, pipe.offers, data, credit.Value());
        if ok {
          frames := frames + [Frame(tag, data)];
        } else {
          end := Some(WriteFailed);
        }
    }
  }

  /** Reads only as credit allows: while the budget is never uncorked, no more is read
      in all than was granted in all, nothing read is lost but what a failed write loses,
      and all that happens is a run of credit flow control on this pipe. It ends at the
      pipe's end or first error, when cancelled, at a failed write, or parked. `others` is
      what the supervisor does during each wait, and `waits` as much of it as the pump
      waited for. */
  method PumpGated(pipe: Pipe, sink: Sink, tag: byte, credit: Credit, others: seq<seq<Act>>)
    returns (end: End, ghost frames: seq<Frame>, ghost waits: seq<seq<Act>>, ghost script: seq<R.Happening>,
             ghost place: C.Pump)
    modifies pipe, sink, credit
    ensures end != WriteFailed ==>
      Forwards(tag, Held(old(pipe.offers)), old(sink.out), frames, sink.out, Held(pipe.offers))
    ensures end == AtEof ==> Payloads(frames) == Held(old(pipe.offers)) && Failing !in old(pipe.offers)
    ensures end == ReadFailed ==> Payloads(frames) == Readable(old(pipe.offers)) && Failing in old(pipe.offers)
    ensures end == Stopped ==> credit.cancelled
    ensures end == StillParked ==> Parked(credit.Value()) && waits != [] && Last(waits) == ActsAt(others, |waits| - 1)
    ensures Heeded(others, waits, old(credit.Value()), credit.Value())
    ensures !credit.uncorked && end != WriteFailed ==>
      |Payloads(frames)| + credit.available <= old(credit.available) + GivenIn(waits)
    ensures !credit.uncorked ==> Plays(old(credit.Value()), script, credit.Value(), place, frames) && Rests(end, place)
    ensures old(sink.room).None? ==> end != WriteFailed
  {
    hide Held, Weight, Forwards, Payloads, Plays, Readable, Heeded, DoAll, GivenIn, Standing, Encode;
    frames, waits, script, place := [], [], [], C.Waiting;
    ghost var first, whole, out := credit.Value(), pipe.offers, sink.out;
    StandingFirst(tag, whole, out, first, others);
    PlaysNothing(first);
    var i := 0;
    while true
      invariant i == |waits|
      invariant Standing(tag, whole, out, first, others, pipe.offers, sink.out, frames, waits, credit.Value())
      invariant !credit.uncorked ==> Plays(first, script, credit.Value(), C.Waiting, frames)
      invariant old(sink.room).None? ==> sink.room.None?
      decreases Weight(pipe.offers)
    {
      ghost var before, now := pipe.offers, credit.Value();
      var permit;
      ghost var heeded;
      permit, heeded, script, place := Permitted(credit, ActsAt(others, i), first, script, frames);
      StandingWaits(tag, whole, out, first, others, before, sink.out, frames, waits, now, heeded);
      waits, i := waits + [heeded], i + 1;
      StandingEnds(tag, whole, out, first, others, before, sink.out, frames, waits, credit.Value());
      if permit.None? {
        end := StillParked;
        return;
      }
      if permit.value.Cancel? {
        end := Stopped;
        return;
      }
      var ended;
      ended, frames, script, place :=
        TakeChunk(pipe, sink, tag, credit, permit.value, whole, out, first, others, frames, waits, script, place);
      if ended.Some? {
        end := ended.value;
        return;
      }
    }
  }

  function Last(waits: seq<seq<Act>>): seq<Act>
    requires waits != []
  {
    waits[|waits| - 1]
  }

  /** What a pump put on the stream reads back as exactly its frames. */
  lemma ForwardedReadsBack(tag: byte, held: seq<byte>, frames: seq<Frame>, now: seq<byte>, rest: seq<byte>)
    requires Forwards(tag, held, [], frames, now, rest)
    ensures ParseAll(now) == Stream(frames, None) && Payloads(ParseAll(now).frames) <= held
  {
    RoundTrip(frames);
    assert [] + EncodeAll(frames) == EncodeAll(frames);
  }
}
