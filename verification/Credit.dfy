/** The read budget one output pump shares with the supervisor. */
module Credits {
  import opened Bytes
  import opened Process

  const U64 := 0x1_0000_0000_0000_0000

  function SaturatingAdd(a: nat, b: nat): nat {
    if a + b < U64 then a + b else U64 - 1
  }

  function SaturatingSub(a: nat, b: nat): nat {
    if b <= a then a - b else 0
  }

  /** The value the lock guards. */
  datatype Budget = Budget(available: nat, uncorked: bool, cancelled: bool)

  datatype Permit = Read(cap: nat) | Uncork | Cancel

  /** What the supervisor's handles may do while the pump is parked. */
  datatype Act = Granted(n: nat) | Uncorked | Cancelled

  function Do(b: Budget, a: Act): Budget {
    match a
    case Granted(n) => b.(available := SaturatingAdd(b.available, n))
    case Uncorked => b.(uncorked := true)
    case Cancelled => b.(cancelled := true)
  }

  function DoAll(b: Budget, acts: seq<Act>): Budget {
    if acts == [] then b else Do(DoAll(b, acts[..|acts| - 1]), acts[|acts| - 1])
  }

  predicate Parked(b: Budget) {
    b.available == 0 && !b.uncorked && !b.cancelled
  }

  /** What an unparked pump is told: cancellation before uncorking before credit, and
      never more than the credit or the buffer. */
  predicate Grants(b: Budget, max: nat, p: Permit) {
    match p
    case Cancel => b.cancelled
    case Uncork => b.uncorked && !b.cancelled
    case Read(cap) =>
      && !b.uncorked && !b.cancelled && b.available > 0
      && cap <= b.available && cap <= max && (cap == b.available || cap == max)
  }

  lemma DoneWith(b: Budget, acts: seq<Act>, n: nat)
    requires n < |acts|
    ensures DoAll(b, acts[..n + 1]) == Do(DoAll(b, acts[..n]), acts[n])
  {
    assert acts[..n + 1][..n] == acts[..n];
  }

  class Credit {
    var available: nat
    var uncorked: bool
    var cancelled: bool

    ghost function Value(): Budget
      reads this
    {
      Budget(available, uncorked, cancelled)
    }

    constructor ()
      ensures Value() == Budget(0, false, false)
    {
      available, uncorked, cancelled := 0, false, false;
    }

    method Grant(n: nat)
      modifies this
      ensures Value() == Do(old(Value()), Granted(n))
      ensures available == (if old(available) + n <= 0xFFFF_FFFF_FFFF_FFFF then old(available) + n else 0xFFFF_FFFF_FFFF_FFFF)
      ensures uncorked == old(uncorked) && cancelled == old(cancelled)
    {
      available := SaturatingAdd(available, n);
    }

    method Uncork()
      modifies this
      ensures Value() == Do(old(Value()), Uncorked)
      ensures uncorked && available == old(available) && cancelled == old(cancelled)
    {
      uncorked := true;
    }

    method Cancel()
      modifies this
      ensures Value() == Do(old(Value()), Cancelled)
      ensures cancelled && available == old(available) && uncorked == old(uncorked)
    {
      cancelled := true;
    }

    method Perform(a: Act)
      modifies this
      ensures Value() == Do(old(Value()), a)
    {
      match a
      case Granted(n) => Grant(n);
      case Uncorked => Uncork();
      case Cancelled => Cancel();
    }

    /** Waits for a permit while the other handles act. The pump wakes at the very
        first act that leaves it something to do, and stays parked as long as there is
        none; nothing is deducted. `None` is a pump still parked when the acts end. */
    method AwaitPermit(max: nat, others: seq<Act>) returns (p: Option<Permit>, used: nat)
      modifies this
      ensures used <= |others| && Value() == DoAll(old(Value()), others[..used])
      ensures p.Some? ==> Grants(Value(), max, p.value)
      ensures p.None? ==> used == |others| && Parked(Value())
      ensures forall k :: 0 <= k < used ==> Parked(DoAll(old(Value()), others[..k]))
    {
      used := 0;
      while true
        invariant used <= |others| && Value() == DoAll(old(Value()), others[..used])
        invariant forall k :: 0 <= k < used ==> Parked(DoAll(old(Value()), others[..k]))
        decreases |others| - used
      {
        if cancelled {
          return Some(Permit.Cancel), used;
        }
        if uncorked {
          return Some(Permit.Uncork), used;
        }
        if available > 0 {
          return Some(Read(if available < max then available else max)), used;
        }
        if used == |others| {
          return None, used;
        }
        DoneWith(old(Value()), others, used);
        Perform(others[used]);
        used := used + 1;
      }
    }

    method Consume(n: nat)
      modifies this
      ensures Value() == old(Value()).(available := SaturatingSub(old(available), n))
      ensures available == if n <= old(available) then old(available) - n else 0
    {
      available := SaturatingSub(available, n);
    }
  }

  // ---------------------------------------------------------------- on the wire

  function EncodeCredit(n: nat): seq<byte> {
    Big(n, 8)
  }

  function ParseGrant(payload: seq<byte>): Option<nat> {
    if |payload| == 8 then Some(Value(payload)) else None
  }

  /** A grant survives the wire exactly when it fits 64 bits; otherwise its high bits
      are lost. */
  lemma GrantRoundTrip(n: nat)
    ensures ParseGrant(EncodeCredit(n)) == Some(n % U64)
    ensures ParseGrant(EncodeCredit(n)) == Some(n) <==> n < U64
  {
    BigValue(n, 8);
    Powers();
  }

  /** A payload parses exactly when it is some grant's encoding. */
  lemma ParsesIffEncoded(payload: seq<byte>)
    ensures ParseGrant(payload).Some? <==> exists n | 0 <= n < U64 :: payload == EncodeCredit(n)
    ensures ParseGrant(payload).Some? ==> payload == EncodeCredit(ParseGrant(payload).value)
  {
    if |payload| == 8 {
      ValueBig(payload);
      ValueBounded(payload);
      Powers();
      assert payload == EncodeCredit(Value(payload));
    }
  }
}
