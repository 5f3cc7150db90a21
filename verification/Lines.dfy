/** Splitting text into lines, whole or as it arrives. */
module Lines {
  import opened Bytes

  const NL: byte := 10

  type line = s: seq<byte> | NL !in s

  /** The finished lines of a text and the unfinished rest after its last newline. */
  datatype Parts = Parts(lines: seq<line>, rest: line)

  function Grown(p: Parts, b: byte): Parts {
    if b == NL then Parts(p.lines + [p.rest], []) else Parts(p.lines, p.rest + [b])
  }

  function Split(data: seq<byte>): Parts {
    if data == [] then Parts([], []) else Grown(Split(data[..|data| - 1]), data[|data| - 1])
  }

  /** The text of some finished lines. */
  function Text(lines: seq<line>): seq<byte> {
    if lines == [] then [] else Text(lines[..|lines| - 1]) + lines[|lines| - 1] + [NL]
  }

  function Whole(p: Parts): seq<byte> {
    Text(p.lines) + p.rest
  }

  lemma TextAppended(lines: seq<line>, l: line)
    ensures Text(lines + [l]) == Text(lines) + l + [NL]
  {
    assert (lines + [l])[..|lines|] == lines;
  }

  lemma {:induction false} TextJoined(a: seq<line>, b: seq<line>)
    ensures Text(a + b) == Text(a) + Text(b)
    decreases |b|
  {
    if b == [] {
      assert a + b == a;
    } else {
      var front, last := b[..|b| - 1], b[|b| - 1];
      assert a + b == (a + front) + [last] && b == front + [last];
      TextJoined(a, front);
      TextAppended(a + front, last);
      TextAppended(front, last);
    }
  }

  /** Splitting loses nothing: joining the lines with newlines gives the text back. */
  lemma {:induction false} SplitWhole(data: seq<byte>)
    ensures Whole(Split(data)) == data
  {
    if data != [] {
      var front, b := data[..|data| - 1], data[|data| - 1];
      SplitWhole(front);
      assert data == front + [b];
      if b == NL {
        TextAppended(Split(front).lines, Split(front).rest);
      }
    }
  }

  /** And it is the only way to do so: lines hold no newline, so any lines and rest
      with this text are the ones splitting finds. */
  lemma {:induction false} SplitUnique(p: Parts)
    ensures Split(Whole(p)) == p
    decreases |p.lines|, |p.rest|
  {
    var data := Whole(p);
    if p.rest != [] {
      var b := p.rest[|p.rest| - 1];
      var shorter: line := p.rest[..|p.rest| - 1];
      assert p.rest == shorter + [b];
      assert data[..|data| - 1] == Whole(Parts(p.lines, shorter));
      assert b in p.rest;
      SplitUnique(Parts(p.lines, shorter));
    } else if p.lines != [] {
      var front, last := p.lines[..|p.lines| - 1], p.lines[|p.lines| - 1];
      assert p.lines == front + [last];
      assert data[..|data| - 1] == Whole(Parts(front, last));
      SplitUnique(Parts(front, last));
    }
  }

  /** What arrives later only touches the rest: the lines already split stay. */
  lemma {:induction false} SplitLater(a: seq<byte>, b: seq<byte>)
    ensures var p, q := Split(a), Split(Split(a).rest + b);
            Split(a + b) == Parts(p.lines + q.lines, q.rest)
  {
    hide Split, Text;
    var p, q := Split(a), Split(Split(a).rest + b);
    var both := Parts(p.lines + q.lines, q.rest);
    SplitWhole(a);
    SplitWhole(p.rest + b);
    TextJoined(p.lines, q.lines);
    Regroup(Text(p.lines), Text(q.lines), q.rest, p.rest, b);
    SplitUnique(both);
  }

  lemma Regroup(x: seq<byte>, y: seq<byte>, z: seq<byte>, r: seq<byte>, b: seq<byte>)
    requires y + z == r + b
    ensures x + y + z == x + r + b
  {
    assert x + y + z == x + (y + z);
    assert x + r + b == x + (r + b);
  }
}
