/** The framed byte stream: a four-byte length, a tag and a payload. */
module Frames {
  import opened Bytes
  import opened Process

  const MAX_FRAME_LEN := 64 * 1024 * 1024

  datatype Frame = Frame(tag: byte, payload: seq<byte>)

  datatype Failure = InvalidData | UnexpectedEof | Broken

  datatype Result<+T> = Success(value: T) | Failure(error: Failure)

  // ------------------------------------------------------- what the bytes mean

  /** A written frame. The length field is 32 bits wide, whatever the payload. */
  function Encode(f: Frame): seq<byte> {
    Big(|f.payload| + 1, 4) + [f.tag] + f.payload
  }

  /** The first frame of a stream. */
  function Parse(data: seq<byte>): Result<Option<Frame>> {
    if data == [] then Success(None)
    else if |data| < 4 then Failure(UnexpectedEof)
    else
      var len := Value(data[..4]);
      if len == 0 || len > MAX_FRAME_LEN then Failure(InvalidData)
      else if |data| < 4 + len then Failure(UnexpectedEof)
      else Success(Some(Frame(data[4], data[5..4 + len])))
  }

  /** Every frame of a stream, and how reading it ended. */
  datatype Stream = Stream(frames: seq<Frame>, end: Option<Failure>)

  function ParseAll(data: seq<byte>): Stream
    decreases |data|
  {
    match Parse(data)
    case Failure(e) => Stream([], Some(e))
    case Success(None) => Stream([], None)
    case Success(Some(f)) =>
      var s := ParseAll(data[5 + |f.payload|..]);
      Stream([f] + s.frames, s.end)
  }

  function EncodeAll(frames: seq<Frame>): seq<byte> {
    if frames == [] then [] else Encode(frames[0]) + EncodeAll(frames[1..])
  }

  predicate Fits(f: Frame) {
    |f.payload| + 1 <= MAX_FRAME_LEN
  }

  lemma LengthField(f: Frame, rest: seq<byte>)
    ensures (Encode(f) + rest)[..4] == Big(|f.payload| + 1, 4)
    ensures Value((Encode(f) + rest)[..4]) == (|f.payload| + 1) % 0x1_0000_0000
  {
    BigValue(|f.payload| + 1, 4);
    Powers();
  }

  /** A written frame reads back, with everything after it, exactly when it is within
      the length cap; past 32 bits its length even wraps. */
  lemma ParseEncoded(f: Frame, rest: seq<byte>)
    ensures Parse(Encode(f) + rest) == Success(Some(f)) <==> Fits(f)
    ensures Fits(f) ==> (Encode(f) + rest)[5 + |f.payload|..] == rest
  {
    LengthField(f, rest);
    var data := Encode(f) + rest;
    assert data[4] == f.tag && data[5..5 + |f.payload|] == f.payload;
    if |f.payload| + 1 < 0x1_0000_0000 {
      assert (|f.payload| + 1) % 0x1_0000_0000 == |f.payload| + 1;
    }
  }

  lemma ParseAllEncoded(f: Frame, rest: seq<byte>)
    requires Fits(f)
    ensures ParseAll(Encode(f) + rest) == Stream([f] + ParseAll(rest).frames, ParseAll(rest).end)
  {
    hide Parse, Encode;
    ParseEncoded(f, rest);
  }

  lemma ParseAllNothing()
    ensures ParseAll([]) == Stream([], None)
  {
  }

  lemma ParseAllCut(f: Frame, n: nat)
    requires Fits(f) && n < |Encode(f)|
    ensures ParseAll(Encode(f)[..n]) == Stream([], if n == 0 then None else Some(UnexpectedEof))
  {
    ParseCut(f, n);
  }

  /** Frames written one after another read back as written, then a clean end. */
  lemma {:induction false} RoundTrip(frames: seq<Frame>)
    requires forall f :: f in frames ==> Fits(f)
    ensures ParseAll(EncodeAll(frames)) == Stream(frames, None)
  {
    hide Parse, Encode, ParseAll;
    if frames == [] {
      ParseAllNothing();
    } else {
      ParseAllEncoded(frames[0], EncodeAll(frames[1..]));
      RoundTrip(frames[1..]);
      assert frames == [frames[0]] + frames[1..];
    }
  }

  /** A stream cut short of a whole frame: nothing there, or an error, never a frame. */
  lemma ParseCut(f: Frame, n: nat)
    requires Fits(f) && n < |Encode(f)|
    ensures Parse(Encode(f)[..n]) == if n == 0 then Success(None) else Failure(UnexpectedEof)
  {
    LengthField(f, []);
    assert Encode(f) + [] == Encode(f);
    if n >= 4 {
      assert Encode(f)[..n][..4] == Encode(f)[..4];
    }
  }

  /** Where a cut falls: the number of whole frames before it. */
  function Whole(frames: seq<Frame>, n: nat): (k: nat)
    ensures k <= |frames|
  {
    if frames == [] || n < |Encode(frames[0])| then 0 else 1 + Whole(frames[1..], n - |Encode(frames[0])|)
  }

  /** Cut anywhere, the stream gives the whole frames before the cut, and then a clean
      end exactly when the cut falls between two frames. */
  lemma {:induction false} Truncated(frames: seq<Frame>, n: nat)
    requires (forall f :: f in frames ==> Fits(f)) && n <= |EncodeAll(frames)|
    ensures var k := Whole(frames, n);
            && |EncodeAll(frames[..k])| <= n
            && ParseAll(EncodeAll(frames)[..n])
               == Stream(frames[..k], if |EncodeAll(frames[..k])| == n then None else Some(UnexpectedEof))
  {
    hide Parse, Encode, ParseAll;
    if frames == [] {
      ParseAllNothing();
      assert EncodeAll(frames)[..n] == [];
    } else if n < |Encode(frames[0])| {
      assert EncodeAll(frames)[..n] == Encode(frames[0])[..n];
      ParseAllCut(frames[0], n);
    } else {
      var f, m := frames[0], n - |Encode(frames[0])|;
      var k := Whole(frames[1..], m);
      Truncated(frames[1..], m);
      assert EncodeAll(frames)[..n] == Encode(f) + EncodeAll(frames[1..])[..m];
      ParseAllEncoded(f, EncodeAll(frames[1..])[..m]);
      assert frames[..k + 1] == [f] + frames[1..][..k];
      assert frames[..k + 1][1..] == frames[1..][..k];
    }
  }

  // ---------------------------------------------------------------- the reader

  /** How the system answers one read: with some of what there is, with an
      interruption, or with an error. */
  datatype Attempt = Some_(atMost: nat) | Interrupted | Fails

  datatype Answer = Got(n: nat) | Again | Fault

  class Source {
    var rest: seq<byte>
    var plan: seq<Attempt>

    constructor (rest: seq<byte>, plan: seq<Attempt>)
      ensures this.rest == rest && this.plan == plan
    {
      this.rest, this.plan := rest, plan;
    }

    ghost predicate Steady()
      reads this
    {
      Fails !in plan
    }

    /** One read into a buffer from a place on. When the plan has run out, reads give
        all that is asked for. */
    method Read(buf: array<byte>, from: nat) returns (a: Answer)
      requires from < buf.Length
      modifies this, buf
      ensures |plan| <= |old(plan)| && (old(Steady()) ==> Steady())
      ensures a.Got? ==>
        && a.n <= |old(rest)| && from + a.n <= buf.Length && (a.n == 0 ==> old(rest) == [])
        && rest == old(rest)[a.n..] && buf[..from + a.n] == old(buf[..from]) + old(rest)[..a.n]
      ensures !a.Got? ==> |plan| < |old(plan)| && rest == old(rest) && buf[..] == old(buf[..])
      ensures a.Fault? ==> !old(Steady())
    {
      var n := buf.Length - from;
      if plan != [] {
        var attempt := plan[0];
        plan := plan[1..];
        match attempt
        case Interrupted => return Again;
        case Fails => return Fault;
        case Some_(atMost) => n := if atMost == 0 then 1 else if atMost < n then atMost else n;
      }
      n := if n < |rest| then n else |rest|;
      forall i | 0 <= i < n {
        buf[from + i] := rest[i];
      }
      Poured(old(buf[..]), buf[..], rest, from, n);
      rest := rest[n..];
      a := Got(n);
    }

    static lemma Poured(before: seq<byte>, after: seq<byte>, rest: seq<byte>, from: nat, n: nat)
      requires |before| == |after| && from + n <= |after| && n <= |rest|
      requires forall i :: 0 <= i < from ==> after[i] == before[i]
      requires forall i :: 0 <= i < n ==> after[from + i] == rest[i]
      ensures after[..from + n] == before[..from] + rest[..n]
    {
      forall i | 0 <= i < from + n ensures after[i] == (before[..from] + rest[..n])[i] {
        if i >= from {
          assert after[from + (i - from)] == rest[i - from];
        }
      }
    }
  }

  lemma Filled(data: seq<byte>, filled: nat, n: nat)
    requires filled + n <= |data|
    ensures data[..filled + n] == data[..filled] + data[filled..][..n]
    ensures data[filled + n..] == data[filled..][n..]
  {
  }

  /** Fills a buffer, or finds the stream already at its end, or fails part way. */
  method ReadExactOrEof(src: Source, buf: array<byte>) returns (r: Result<bool>)
    modifies src, buf
    ensures old(src.Steady()) ==> src.Steady() && r != Failure(Broken)
    ensures r.Success? && r.value ==>
      |old(src.rest)| >= buf.Length && buf[..] == old(src.rest)[..buf.Length] && src.rest == old(src.rest)[buf.Length..]
    ensures r == Success(false) ==> buf.Length > 0 && old(src.rest) == [] && src.rest == []
    ensures r.Failure? && r.error != Broken ==> r.error == UnexpectedEof && 0 < |old(src.rest)| < buf.Length
  {
    var filled := 0;
    while filled < buf.Length
      invariant filled <= buf.Length && filled <= |old(src.rest)|
      invariant buf[..filled] == old(src.rest)[..filled] && src.rest == old(src.rest)[filled..]
      invariant old(src.Steady()) ==> src.Steady()
      decreases |src.plan| + (buf.Length - filled)
    {
      ghost var before := src.rest;
      var a := src.Read(buf, filled);
      match a
      case Got(n) =>
        if n == 0 {
          return if filled == 0 then Success(false) else Failure(UnexpectedEof);
        }
        Filled(old(src.rest), filled, n);
        filled := filled + n;
      case Again =>
        assert buf[..filled] == buf[..][..filled];
      case Fault => return Failure(Broken);
    }
    assert buf[..] == buf[..filled];
    r := Success(true);
  }

  /** Reads one frame. Whatever the pattern of short reads and interruptions, it is the
      frame the bytes mean, or the error they mean; only a failing read can hide it. */
  method ReadFrame(src: Source) returns (r: Result<Option<Frame>>)
    modifies src
    ensures old(src.Steady()) ==> src.Steady() && r == Parse(old(src.rest))
    ensures r != Failure(Broken) ==> r == Parse(old(src.rest))
    ensures r.Success? && r.value.Some? ==> src.rest == old(src.rest)[5 + |r.value.value.payload|..]
  {
    var lenBuf := new byte[4](_ => 0);
    var head := ReadExactOrEof(src, lenBuf);
    match head {
      case Failure(e) => return Failure(e);
      case Success(more) =>
        if !more {
          return Success(None);
        }
    }
    var len := Value(lenBuf[..]);
    if len == 0 {
      return Failure(InvalidData);
    }
    if len > MAX_FRAME_LEN {
      return Failure(InvalidData);
    }
    var body := new byte[len](_ => 0);
    var full := ReadExactOrEof(src, body);
    match full {
      case Failure(e) => return Failure(e);
      case Success(more) =>
        if !more {
          return Failure(UnexpectedEof);
        }
    }
    ghost var data := old(src.rest);
    assert body[..] == data[4..][..len];
    assert src.rest == data[4 + len..];
    assert body[1..] == body[..][1..] == data[5..4 + len];
    r := Success(Some(Frame(body[0], body[1..])));
  }

  /** Reads frames until the stream ends or fails. */
  method ReadAll(src: Source) returns (frames: seq<Frame>, end: Option<Failure>)
    modifies src
    ensures end != Some(Broken) ==> Stream(frames, end) == ParseAll(old(src.rest))
    ensures old(src.Steady()) ==> Stream(frames, end) == ParseAll(old(src.rest))
    ensures frames <= ParseAll(old(src.rest)).frames
  {
    frames := [];
    ghost var total := ParseAll(src.rest);
    while true
      invariant old(src.Steady()) ==> src.Steady()
      invariant total == Stream(frames + ParseAll(src.rest).frames, ParseAll(src.rest).end)
      decreases |src.rest|
    {
      ghost var before := src.rest;
      var r := ReadFrame(src);
      match r
      case Failure(e) => return frames, Some(e);
      case Success(None) => return frames, None;
      case Success(Some(f)) =>
        assert ParseAll(before).frames == [f] + ParseAll(src.rest).frames;
        assert frames + ([f] + ParseAll(src.rest).frames) == (frames + [f]) + ParseAll(src.rest).frames;
        frames := frames + [f];
    }
  }

  // ---------------------------------------------------------------- the writer

  /** A writer that may stop taking bytes. */
  class Sink {
    var out: seq<byte>
    var room: Option<nat>

    constructor (room: Option<nat>)
      ensures out == [] && this.room == room
    {
      out, this.room := [], room;
    }

    method WriteAll(bytes: seq<byte>) returns (ok: bool)
      modifies this
      ensures old(out) <= out <= old(out) + bytes
      ensures ok ==> out == old(out) + bytes
      ensures old(room).None? ==> ok && room.None?
    {
      if room.None? || |bytes| <= room.value {
        out := out + bytes;
        room := if room.None? then None else Some(room.value - |bytes|);
        return true;
      }
      out, room := out + bytes[..room.value], Some(0);
      ok := false;
    }
  }

  /** Writes one frame: all of it, or a part of it and no success. */
  method WriteFrame(w: Sink, tag: byte, payload: seq<byte>) returns (ok: bool)
    modifies w
    ensures old(w.out) <= w.out <= old(w.out) + Encode(Frame(tag, payload))
    ensures ok ==> w.out == old(w.out) + Encode(Frame(tag, payload))
    ensures old(w.room).None? ==> ok && w.room.None?
  {
    ghost var start := w.out;
    var len := (|payload| + 1) % 0x1_0000_0000;
    SameField(|payload| + 1);
    ok := w.WriteAll(Big(len, 4));
    if !ok {
      return;
    }
    ok := w.WriteAll([tag]);
    if !ok {
      return;
    }
    ok := w.WriteAll(payload);
  }

  lemma SameField(n: nat)
    ensures Big(n % 0x1_0000_0000, 4) == Big(n, 4)
  {
    BigValue(n, 4);
    BigValue(n % 0x1_0000_0000, 4);
    Powers();
    ValueBig(Big(n, 4));
    ValueBig(Big(n % 0x1_0000_0000, 4));
  }
}
