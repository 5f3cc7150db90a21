/** Credit flow control between a consumer and one gated output pump, as a protocol
    of interleaved steps: CREDIT frames travel one way, output frames the other, and
    neither end sees the other's account. */
module Channels {
  import opened Bytes
  import opened Credits
  import opened Process

  /** Where the pump is in its loop. Between asking and charging, the bytes it reads are
      still counted as available. A pump whose writer failed keeps its last chunk. */
  datatype Pump =
    | Waiting
    | Reading(cap: nat)
    | Holding(chunk: seq<byte>)
    | Writing(chunk: seq<byte>)
    | Broken(chunk: seq<byte>)
    | Done

  /** `read` is every byte the pump has read from the child. */
  datatype Channel = Channel(
    grants: seq<nat>,
    budget: Budget,
    pump: Pump,
    wire: seq<seq<byte>>,
    read: seq<byte>)

  datatype Move =
    | Deliver
    | Ask(max: nat)
    | Got(chunk: seq<byte>)
    | Retry
    | End
    | Charge
    | Write
    | Fail
    | Abort

  predicate Enabled(c: Channel, m: Move) {
    match m
    case Deliver => c.grants != []
    case Ask(max) => c.pump.Waiting? && max > 0 && !Parked(c.budget)
    case Got(chunk) => c.pump.Reading? && 1 <= |chunk| <= c.pump.cap
    case Retry => c.pump.Reading?
    case End => c.pump.Reading?
    case Charge => c.pump.Holding?
    case Write => c.pump.Writing?
    case Fail => c.pump.Writing?
    case Abort => true
  }

  /** One step of the shim, as its pump and its supervisor take it on a pipe that is
      never uncorked. */
  function Moved(c: Channel, m: Move): Channel
    requires Enabled(c, m)
  {
    match m
    case Deliver => c.(grants := c.grants[1..], budget := Do(c.budget, Granted(c.grants[0])))
    case Ask(max) =>
      if c.budget.cancelled then c.(pump := Done)
      else c.(pump := Reading(if c.budget.available < max then c.budget.available else max))
    case Got(chunk) => c.(pump := Holding(chunk), read := c.read + chunk)
    case Retry => c.(pump := Waiting)
    case End => c.(pump := Done)
    case Charge =>
      c.(pump := Writing(c.pump.chunk),
         budget := c.budget.(available := SaturatingSub(c.budget.available, |c.pump.chunk|)))
    case Write => c.(pump := Waiting, wire := c.wire + [c.pump.chunk])
    case Fail => c.(pump := Broken(c.pump.chunk))
    case Abort => c.(budget := Do(c.budget, Cancelled))
  }

  function Sum(s: seq<nat>): nat {
    if s == [] then 0 else s[0] + Sum(s[1..])
  }

  function Join(s: seq<seq<byte>>): seq<byte> {
    if s == [] then [] else s[0] + Join(s[1..])
  }

  /** What the pump has in hand, charged or not. */
  function InHand(p: Pump): seq<byte> {
    if p.Holding? || p.Writing? || p.Broken? then p.chunk else []
  }

  function Charged(p: Pump): nat {
    if p.Writing? || p.Broken? then |p.chunk| else 0
  }

  /** Bytes read from the child that the consumer has not received. */
  function Unreceived(c: Channel): seq<byte> {
    Join(c.wire) + InHand(c.pump)
  }

  /** What the consumer must still believe it has granted and not received. */
  function Owed(c: Channel): nat {
    Sum(c.grants) + c.budget.available + Charged(c.pump) + |Join(c.wire)|
  }

  predicate Fits(c: Channel) {
    && !c.budget.uncorked
    && Sum(c.grants) + c.budget.available < U64
    && (c.pump.Reading? ==> c.pump.cap <= c.budget.available)
    && (c.pump.Holding? ==> |c.pump.chunk| <= c.budget.available)
  }

  // ------------------------------------------------------------------ both ends

  /** The consumer's account of one pipe beside the channel it cannot see. `granted`
      and `received` are everything so far. */
  datatype Link = Link(window: nat, outstanding: nat, granted: nat, received: seq<byte>, channel: Channel)

  /** The consumer tops the account up to one window, takes an output frame, or takes
      one and grants its size again at once. */
  datatype Act = Shim(move: Move) | TopUp | Take | TakeAndRegrant

  predicate MayAct(l: Link, a: Act) {
    match a
    case Shim(m) => Enabled(l.channel, m)
    case TopUp => true
    case Take => l.channel.wire != []
    case TakeAndRegrant => l.channel.wire != []
  }

  function Send(l: Link, n: nat): Link {
    l.(outstanding := l.outstanding + n, granted := l.granted + n,
       channel := l.channel.(grants := l.channel.grants + [n]))
  }

  function Taken(l: Link): Link
    requires l.channel.wire != []
  {
    l.(outstanding := SaturatingSub(l.outstanding, |l.channel.wire[0]|),
       received := l.received + l.channel.wire[0],
       channel := l.channel.(wire := l.channel.wire[1..]))
  }

  function Acted(l: Link, a: Act): Link
    requires MayAct(l, a)
  {
    match a
    case Shim(m) => l.(channel := Moved(l.channel, m))
    case TopUp => if l.outstanding < l.window then Send(l, l.window - l.outstanding) else l
    case Take => Taken(l)
    case TakeAndRegrant => Send(Taken(l), |l.channel.wire[0]|)
  }

  /** A whole run, or nothing where some act was not possible. */
  function Run(l: Link, acts: seq<Act>): Option<Link> {
    if acts == [] then Some(l)
    else
      match Run(l, acts[..|acts| - 1])
      case None => None
      case Some(before) =>
        if MayAct(before, acts[|acts| - 1]) then Some(Acted(before, acts[|acts| - 1])) else None
  }

  function Fresh(window: nat): Link {
    Link(window, 0, 0, [], Channel([], Budget(0, false, false), Waiting, [], []))
  }

  /** The account is exactly what is on the way, in the budget or on its way back; no
      byte is lost, reordered or made up; and no more than a window is out. */
  predicate Balanced(l: Link) {
    && Fits(l.channel)
    && l.outstanding == Owed(l.channel) <= l.window < U64
    && l.granted == l.outstanding + |l.received|
    && l.received + Unreceived(l.channel) == l.channel.read
  }

  // --------------------------------------------------------------------- proofs

  lemma {:induction false} SumSplit(s: seq<nat>, n: nat)
    ensures Sum(s + [n]) == Sum(s) + n
  {
    if s == [] {
      assert s + [n] == [n];
      assert Sum([n]) == n + Sum([]) by { assert [n][1..] == []; }
    } else {
      SumSplit(s[1..], n);
      assert (s + [n])[1..] == s[1..] + [n];
    }
  }

  lemma {:induction false} JoinSplit(s: seq<seq<byte>>, x: seq<byte>)
    ensures Join(s + [x]) == Join(s) + x
  {
    if s == [] {
      assert s + [x] == [x] && [x][1..] == [];
      assert Join([x]) == x + Join([]);
    } else {
      JoinSplit(s[1..], x);
      assert (s + [x])[1..] == s[1..] + [x];
      assert s[0] + (Join(s[1..]) + x) == (s[0] + Join(s[1..])) + x;
    }
  }

  /** No step of the shim creates or destroys credit. */
  lemma MoveConserves(c: Channel, m: Move)
    requires Fits(c) && Enabled(c, m)
    ensures Fits(Moved(c, m)) && Owed(Moved(c, m)) == Owed(c)
  {
    if m.Write? {
      JoinSplit(c.wire, c.pump.chunk);
    }
  }

  /** Reading extends what is on its way to the consumer by just what was read, and no
      other step changes it. */
  lemma MoveKeepsBytes(c: Channel, m: Move, received: seq<byte>)
    requires Enabled(c, m) && received + Unreceived(c) == c.read
    ensures received + Unreceived(Moved(c, m)) == Moved(c, m).read
  {
    match m
    case Write =>
      JoinSplit(c.wire, c.pump.chunk);
      assert Unreceived(Moved(c, m)) == Unreceived(c);
    case Got(chunk) =>
      assert Unreceived(Moved(c, m)) == Unreceived(c) + chunk;
      assert received + (Unreceived(c) + chunk) == (received + Unreceived(c)) + chunk;
    case _ =>
      assert Unreceived(Moved(c, m)) == Unreceived(c);
  }

  lemma TakeBalances(l: Link)
    requires Balanced(l) && l.channel.wire != []
    ensures Balanced(Taken(l)) && Taken(l).outstanding + |l.channel.wire[0]| == l.outstanding
  {
    var c, c' := l.channel, Taken(l).channel;
    assert Join(c.wire) == c.wire[0] + Join(c'.wire);
    assert l.received + (c.wire[0] + Join(c'.wire) + InHand(c.pump)) == (l.received + c.wire[0]) + Unreceived(c');
  }

  lemma SendBalances(l: Link, n: nat)
    requires Balanced(l) && l.outstanding + n <= l.window
    ensures Balanced(Send(l, n))
  {
    SumSplit(l.channel.grants, n);
  }

  lemma ActBalances(l: Link, a: Act)
    requires Balanced(l) && MayAct(l, a)
    ensures Balanced(Acted(l, a)) && Acted(l, a).window == l.window
  {
    match a
    case Shim(m) =>
      MoveConserves(l.channel, m);
      MoveKeepsBytes(l.channel, m, l.received);
    case TopUp =>
      if l.outstanding < l.window {
        SendBalances(l, l.window - l.outstanding);
      }
    case Take => TakeBalances(l);
    case TakeAndRegrant =>
      TakeBalances(l);
      SendBalances(Taken(l), |l.channel.wire[0]|);
  }

  /** Conservation over every run: however grants, CREDIT frames, permits, short reads,
      charges and output frames interleave, the account balances. */
  lemma {:induction false} RunBalances(window: nat, acts: seq<Act>)
    requires window < U64 && Run(Fresh(window), acts).Some?
    ensures Balanced(Run(Fresh(window), acts).value)
    ensures Run(Fresh(window), acts).value.window == window
  {
    if acts != [] {
      RunBalances(window, acts[..|acts| - 1]);
      ActBalances(Run(Fresh(window), acts[..|acts| - 1]).value, acts[|acts| - 1]);
    }
  }

  /** What the shim holds for the consumer never exceeds one window, nor what was read
      in all what was granted in all. */
  lemma WithinWindow(window: nat, acts: seq<Act>)
    requires window < U64 && Run(Fresh(window), acts).Some?
    ensures var l := Run(Fresh(window), acts).value;
            && |Unreceived(l.channel)| <= l.outstanding <= window
            && |l.channel.read| <= l.granted
            && l.received <= l.channel.read
  {
    RunBalances(window, acts);
  }

  /** None of the three clamps in the protocol is ever reached: credit added never
      overflows, a read never exceeds the credit it is charged to, and a frame never
      exceeds the account it is taken from. */
  lemma NeverSaturates(window: nat, acts: seq<Act>)
    requires window < U64 && Run(Fresh(window), acts).Some?
    ensures var l := Run(Fresh(window), acts).value; var c := l.channel;
            && (c.grants != [] ==>
                  SaturatingAdd(c.budget.available, c.grants[0]) == c.budget.available + c.grants[0])
            && (c.pump.Holding? ==>
                  SaturatingSub(c.budget.available, |c.pump.chunk|) == c.budget.available - |c.pump.chunk|)
            && (c.wire != [] ==> SaturatingSub(l.outstanding, |c.wire[0]|) == l.outstanding - |c.wire[0]|)
  {
    RunBalances(window, acts);
  }

  /** Credit is never lost. While some is outstanding, a pump that has not stopped is
      reading the child, or some step of the shim or the consumer is possible. With
      none outstanding the pump cannot read: that is the backpressure. */
  lemma NeverStalls(window: nat, acts: seq<Act>)
    requires window < U64 && Run(Fresh(window), acts).Some?
    requires !Run(Fresh(window), acts).value.channel.pump.Done? && !Run(Fresh(window), acts).value.channel.pump.Broken?
    ensures var l := Run(Fresh(window), acts).value; l.outstanding > 0 ==>
      || l.channel.pump.Reading?
      || l.channel.grants != [] || l.channel.wire != []
      || Enabled(l.channel, Ask(1)) || Enabled(l.channel, Charge) || Enabled(l.channel, Write)
    ensures var l := Run(Fresh(window), acts).value; l.outstanding == 0 ==>
      && Unreceived(l.channel) == []
      && (forall chunk :: !Enabled(l.channel, Got(chunk)))
      && (!l.channel.budget.cancelled ==> Parked(l.channel.budget))
  {
    RunBalances(window, acts);
  }

  /** A pipe funded once, as a bounded stderr is, yields no more than that in the whole
      run. */
  lemma FundedOnce(window: nat, acts: seq<Act>)
    requires window < U64 && Run(Fresh(window), acts).Some?
    requires acts != [] && acts[0] == TopUp && forall i :: 0 < i < |acts| ==> acts[i].Shim? || acts[i].Take?
    ensures var l := Run(Fresh(window), acts).value; l.granted == window && |l.channel.read| <= window
  {
    GrantedOnce(window, acts);
    WithinWindow(window, acts);
  }

  lemma {:induction false} GrantedOnce(window: nat, acts: seq<Act>)
    requires Run(Fresh(window), acts).Some?
    requires acts != [] && acts[0] == TopUp && forall i :: 0 < i < |acts| ==> acts[i].Shim? || acts[i].Take?
    ensures Run(Fresh(window), acts).value.granted == window
  {
    var front := acts[..|acts| - 1];
    if front == [] {
      assert Run(Fresh(window), front) == Some(Fresh(window));
    } else {
      GrantedOnce(window, front);
    }
  }
}
