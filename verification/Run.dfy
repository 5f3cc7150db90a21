/** Collecting a bounded run's output: what is kept of it, when the run is cancelled and
    how long it may take after that. */
module Capture {
  import opened Bytes
  import opened Process
  import opened Streams

  const WINDOW := 8192

  datatype Reason = Timeout | IdleTimeout | MaxOutput | ObserverOverflow

  datatype Config = Config(
    strict: bool, merge: bool, max: Option<nat>, idle: Option<nat>, timeoutAt: nat, cleanup: nat)

  /** `clock` answers the `looks`-th reading. `grants` and `kills` are the frames sent,
      `taken` every output byte consumed and `seen` those consumed while nothing had
      cancelled the run. */
  datatype Run = Run(
    stdout: seq<byte>,
    stderr: seq<byte>,
    bytes: nat,
    idleAt: Option<nat>,
    backstop: nat,
    reason: Option<Reason>,
    truncated: bool,
    looks: nat,
    kills: nat,
    grants: seq<(Source, nat)>,
    seen: seq<(Source, byte)>,
    taken: seq<(Source, byte)>,
    over: bool)

  /** What reaches the collector in one turn: an output frame (and whether the observer
      is swamped), some other frame, nothing before the wait ends, or the end. */
  datatype Turn = Output(source: Source, payload: seq<byte>, swamped: bool) | Other | Nothing | Ending

  ghost predicate Monotone(clock: nat -> nat) {
    forall i, j :: i <= j ==> clock(i) <= clock(j)
  }

  function Start(c: Config, now: nat): Run {
    Run([], [], 0, if c.idle.Some? then Some(now + c.idle.value) else None, c.timeoutAt + c.cleanup,
        None, false, 0, 0, if c.strict then [(Stdout, WINDOW), (Stderr, WINDOW)] else [], [], [], false)
  }

  function Cancel(c: Config, clock: nat -> nat, r: Run, reason: Reason): Run {
    var limit := clock(r.looks) + c.cleanup;
    r.(kills := r.kills + 1, looks := r.looks + 1, reason := Some(reason),
       backstop := if limit < r.backstop then limit else r.backstop)
  }

  function CheckDeadlines(c: Config, clock: nat -> nat, r: Run): Run {
    if !c.strict || r.reason.Some? then r
    else
      var s := r.(looks := r.looks + 1);
      if clock(r.looks) >= c.timeoutAt then Cancel(c, clock, s, Timeout)
      else if r.idleAt.None? then s
      else
        var t := s.(looks := s.looks + 1);
        if clock(s.looks) >= r.idleAt.value then Cancel(c, clock, t, IdleTimeout) else t
  }

  function Kept(c: Config, r: Run, size: nat): (kept: nat)
    ensures kept <= size
  {
    if c.max.None? then size
    else
      var room := if r.bytes < c.max.value then c.max.value - r.bytes else 0;
      if size < room then size else room
  }

  function Stored(c: Config, r: Run, source: Source, bytes: seq<byte>): Run {
    if c.merge || source.Stdout? then r.(stdout := r.stdout + bytes) else r.(stderr := r.stderr + bytes)
  }

  function Take(c: Config, clock: nat -> nat, r: Run, source: Source, payload: seq<byte>, swamped: bool): Run {
    var t := r.(taken := r.taken + Tag(source, payload));
    if r.reason.Some? then t.(truncated := true)
    else
      var kept := Kept(c, r, |payload|);
      var stored := Stored(c, t, source, payload[..kept]).(
        seen := t.seen + Tag(source, payload), bytes := r.bytes + kept,
        idleAt := if c.idle.Some? then Some(clock(r.looks) + c.idle.value) else None,
        looks := if c.idle.Some? then r.looks + 1 else r.looks);
      var u :=
        if kept < |payload| then Cancel(c, clock, stored.(truncated := true), MaxOutput)
        else if swamped then Cancel(c, clock, stored.(truncated := true), ObserverOverflow)
        else stored;
      if c.strict && u.reason.None? then u.(grants := u.grants + [(source, |payload|)]) else u
  }

  /** One turn of the loop: deadlines first, then the backstop, then what arrived. */
  function Collect(c: Config, clock: nat -> nat, r: Run, t: Turn): Run {
    if r.over then r
    else
      var s := CheckDeadlines(c, clock, r);
      var u := s.(looks := s.looks + 2);
      if clock(s.looks + 1) >= s.backstop then u.(over := true)
      else
        match t
        case Output(source, payload, swamped) => Take(c, clock, u, source, payload, swamped)
        case Other => u
        case Nothing => u
        case Ending => u.(over := true)
  }

  function CollectAll(c: Config, clock: nat -> nat, start: Run, turns: seq<Turn>): Run {
    if turns == [] then start
    else Collect(c, clock, CollectAll(c, clock, start, turns[..|turns| - 1]), turns[|turns| - 1])
  }

  // ------------------------------------------------------------------- invariants

  /** The first bytes of what was seen, up to the bound. */
  function Prefix(c: Config, seen: seq<(Source, byte)>): seq<(Source, byte)> {
    if c.max.Some? && c.max.value < |seen| then seen[..c.max.value] else seen
  }

  /** The bytes that go to one of the two results. */
  function Into(c: Config, bytes: seq<(Source, byte)>, target: Source): seq<byte> {
    if bytes == [] then []
    else
      var last := bytes[|bytes| - 1];
      Into(c, bytes[..|bytes| - 1], target)
      + if (if c.merge then Stdout else last.0) == target then [last.1] else []
  }

  function Granted(grants: seq<(Source, nat)>, source: Source): nat {
    if grants == [] then 0
    else
      Granted(grants[..|grants| - 1], source)
      + if grants[|grants| - 1].0 == source then grants[|grants| - 1].1 else 0
  }

  function From(bytes: seq<(Source, byte)>, source: Source): nat {
    if bytes == [] then 0
    else From(bytes[..|bytes| - 1], source) + if bytes[|bytes| - 1].0 == source then 1 else 0
  }

  predicate Captures(c: Config, r: Run) {
    && r.stdout == Into(c, Prefix(c, r.seen), Stdout) && r.stderr == Into(c, Prefix(c, r.seen), Stderr)
    && r.bytes == |Prefix(c, r.seen)|
    && r.seen <= r.taken
    && (r.reason.None? ==> r.seen == r.taken)
    && (r.reason == Some(MaxOutput) <==> c.max.Some? && c.max.value < |r.seen|)
  }

  predicate KillsOnce(r: Run) {
    r.kills == if r.reason.Some? then 1 else 0
  }

  /** Credit granted on each pipe beyond what came back: a window until the run is
      cancelled, and never more. */
  predicate CreditBounded(c: Config, r: Run) {
    c.strict ==> forall source ::
      if r.reason.None? then Granted(r.grants, source) == WINDOW + From(r.taken, source)
      else Granted(r.grants, source) <= WINDOW + From(r.taken, source)
  }

  predicate Sound(c: Config, r: Run) {
    Captures(c, r) && KillsOnce(r) && CreditBounded(c, r)
  }

  // ----------------------------------------------------------------------- proofs

  lemma {:induction false} IntoJoined(c: Config, a: seq<(Source, byte)>, b: seq<(Source, byte)>, target: Source)
    ensures Into(c, a + b, target) == Into(c, a, target) + Into(c, b, target)
    decreases |b|
  {
    if b == [] {
      assert a + b == a;
    } else {
      var front := b[..|b| - 1];
      assert (a + b)[..|a + b| - 1] == a + front;
      IntoJoined(c, a, front, target);
    }
  }

  lemma {:induction false} IntoTagged(c: Config, source: Source, payload: seq<byte>, target: Source)
    ensures Into(c, Tag(source, payload), target)
         == if (if c.merge then Stdout else source) == target then payload else []
    decreases |payload|
  {
    if payload != [] {
      var front := payload[..|payload| - 1];
      assert Tag(source, payload)[..|payload| - 1] == Tag(source, front);
      IntoTagged(c, source, front, target);
      assert payload == front + [payload[|payload| - 1]];
    }
  }

  lemma {:induction false} FromTagged(bytes: seq<(Source, byte)>, source: Source, payload: seq<byte>, other: Source)
    ensures From(bytes + Tag(source, payload), other)
         == From(bytes, other) + if source == other then |payload| else 0
    decreases |payload|
  {
    if payload == [] {
      assert bytes + Tag(source, payload) == bytes;
    } else {
      var front := payload[..|payload| - 1];
      assert (bytes + Tag(source, payload))[..|bytes| + |front|] == bytes + Tag(source, front);
      FromTagged(bytes, source, front, other);
    }
  }

  lemma GrantedMore(grants: seq<(Source, nat)>, source: Source, n: nat, other: Source)
    ensures Granted(grants + [(source, n)], other) == Granted(grants, other) + if source == other then n else 0
  {
    assert (grants + [(source, n)])[..|grants|] == grants;
  }

  /** What is kept of a frame is what it adds to the bounded prefix. */
  lemma KeptIsPrefix(c: Config, r: Run, source: Source, payload: seq<byte>)
    requires r.bytes == |Prefix(c, r.seen)|
    ensures Prefix(c, r.seen + Tag(source, payload))
         == Prefix(c, r.seen) + Tag(source, payload[..Kept(c, r, |payload|)])
    ensures Kept(c, r, |payload|) < |payload| ==> c.max.Some? && c.max.value < |r.seen| + |payload|
    ensures c.max.Some? && |r.seen| <= c.max.value < |r.seen| + |payload| ==> Kept(c, r, |payload|) < |payload|
  {
    var kept := Kept(c, r, |payload|);
    var p := Prefix(c, r.seen);
    var q := Prefix(c, r.seen + Tag(source, payload));
    assert |q| == |p| + kept;
    assert forall i :: 0 <= i < |p| ==> q[i] == p[i];
    assert forall i :: 0 <= i < kept ==> q[|p| + i] == Tag(source, payload[..kept])[i];
  }

  lemma TakeCaptures(c: Config, clock: nat -> nat, r: Run, source: Source, payload: seq<byte>, swamped: bool)
    requires Captures(c, r)
    ensures Captures(c, Take(c, clock, r, source, payload, swamped))
  {
    hide Into;
    if r.reason.None? {
      var kept := Kept(c, r, |payload|);
      hide Kept;
      KeptIsPrefix(c, r, source, payload);
      forall target
        ensures Into(c, Prefix(c, r.seen + Tag(source, payload)), target)
             == Into(c, Prefix(c, r.seen), target)
                + if (if c.merge then Stdout else source) == target then payload[..kept] else []
      {
        IntoJoined(c, Prefix(c, r.seen), Tag(source, payload[..kept]), target);
        IntoTagged(c, source, payload[..kept], target);
      }
    }
  }

  lemma TakeCredit(c: Config, clock: nat -> nat, r: Run, source: Source, payload: seq<byte>, swamped: bool)
    requires CreditBounded(c, r)
    ensures CreditBounded(c, Take(c, clock, r, source, payload, swamped))
  {
    hide Kept, From, Granted;
    var t := Take(c, clock, r, source, payload, swamped);
    forall other
      ensures From(t.taken, other) == From(r.taken, other) + if source == other then |payload| else 0
      ensures Granted(r.grants + [(source, |payload|)], other)
           == Granted(r.grants, other) + if source == other then |payload| else 0
    {
      FromTagged(r.taken, source, payload, other);
      GrantedMore(r.grants, source, |payload|, other);
    }
  }

  lemma CollectSound(c: Config, clock: nat -> nat, r: Run, t: Turn)
    requires Sound(c, r)
    ensures Sound(c, Collect(c, clock, r, t))
  {
    hide Take, Into, From, Granted;
    if !r.over {
      var s := CheckDeadlines(c, clock, r);
      var u := s.(looks := s.looks + 2);
      assert Sound(c, u);
      if clock(s.looks + 1) < s.backstop && t.Output? {
        TakeCaptures(c, clock, u, t.source, t.payload, t.swamped);
        TakeCredit(c, clock, u, t.source, t.payload, t.swamped);
        TakeKills(c, clock, u, t.source, t.payload, t.swamped);
      }
    }
  }

  lemma TakeKills(c: Config, clock: nat -> nat, r: Run, source: Source, payload: seq<byte>, swamped: bool)
    requires KillsOnce(r)
    ensures KillsOnce(Take(c, clock, r, source, payload, swamped))
  {
  }

  /** Over every run: the results are exactly the first bytes that arrived before any
      cancellation, up to the bound; the run is cancelled for its size exactly when
      more than that arrived; KILL is sent once if at all; and each pipe is owed at
      most its window. */
  lemma {:induction false} CapturesFirst(c: Config, clock: nat -> nat, now: nat, turns: seq<Turn>)
    ensures Sound(c, CollectAll(c, clock, Start(c, now), turns))
  {
    hide Sound, Collect;
    if turns == [] {
      StartSound(c, now);
    } else {
      CapturesFirst(c, clock, now, turns[..|turns| - 1]);
      CollectSound(c, clock, CollectAll(c, clock, Start(c, now), turns[..|turns| - 1]), turns[|turns| - 1]);
    }
  }

  lemma StartSound(c: Config, now: nat)
    ensures Sound(c, Start(c, now))
  {
    forall source | c.strict ensures Granted(Start(c, now).grants, source) == WINDOW {
      var first := [(Stdout, WINDOW)];
      assert Start(c, now).grants == first + [(Stderr, WINDOW)];
      GrantedMore([], Stdout, WINDOW, source);
      assert [] + first == first;
      GrantedMore(first, Stderr, WINDOW, source);
    }
  }

  /** A run never takes back why it was cancelled, lets its backstop slip or sheds what
      it kept; and what is over stays over. */
  predicate Since(r: Run, s: Run) {
    && (r.reason.Some? ==> s.reason == r.reason && s.grants == r.grants && s.seen == r.seen)
    && s.backstop <= r.backstop
    && r.kills <= s.kills && r.taken <= s.taken && r.stdout <= s.stdout && r.stderr <= s.stderr
    && r.looks <= s.looks
    && (r.over ==> s == r)
  }

  lemma CheckSince(c: Config, clock: nat -> nat, r: Run)
    requires !r.over
    ensures Since(r, CheckDeadlines(c, clock, r)) && !CheckDeadlines(c, clock, r).over
  {
  }

  lemma TakeSince(c: Config, clock: nat -> nat, r: Run, source: Source, payload: seq<byte>, swamped: bool)
    requires !r.over
    ensures Since(r, Take(c, clock, r, source, payload, swamped))
  {
    hide Kept;
  }

  lemma CollectSince(c: Config, clock: nat -> nat, r: Run, t: Turn)
    ensures Since(r, Collect(c, clock, r, t))
  {
    hide CheckDeadlines, Take;
    if !r.over {
      CheckSince(c, clock, r);
      var s := CheckDeadlines(c, clock, r);
      var u := s.(looks := s.looks + 2);
      assert Since(r, u);
      if t.Output? {
        TakeSince(c, clock, u, t.source, t.payload, t.swamped);
        assert Since(u, Take(c, clock, u, t.source, t.payload, t.swamped));
      }
    }
  }

  lemma {:induction false} NeverReconsiders(c: Config, clock: nat -> nat, start: Run, turns: seq<Turn>, k: nat)
    requires k <= |turns|
    ensures Since(CollectAll(c, clock, start, turns[..k]), CollectAll(c, clock, start, turns))
    decreases |turns| - k
  {
    hide Collect;
    if k < |turns| {
      assert turns[..k + 1][..k] == turns[..k];
      CollectSince(c, clock, CollectAll(c, clock, start, turns[..k]), turns[k]);
      NeverReconsiders(c, clock, start, turns, k + 1);
    } else {
      assert turns[..k] == turns;
    }
  }

  /** No frame is consumed once the backstop has been reached: a turn that takes output
      read the clock before it, and a cancelled run is over within its cleanup time of
      the cancelling turn, at the first turn from then on. */
  lemma BackstopFirst(c: Config, clock: nat -> nat, r: Run, t: Turn)
    requires Monotone(clock)
    ensures var s := Collect(c, clock, r, t);
            && (s.taken != r.taken ==> clock(CheckDeadlines(c, clock, r).looks + 1) < r.backstop)
            && (clock(r.looks) >= r.backstop ==> s.over && s.taken == r.taken)
            && (r.reason.None? && s.reason.Some? ==> CancelledIn(c, clock, r, s))
  {
    hide CheckDeadlines, Take, CancelledIn;
    if !r.over {
      CheckSince(c, clock, r);
      CheckCancels(c, clock, r);
      var u := CheckDeadlines(c, clock, r);
      var v := u.(looks := u.looks + 2);
      assert clock(u.looks + 1) >= clock(r.looks);
      CancelledLater(c, clock, r, u, v);
      CancelledLater(c, clock, r, u, v.(over := true));
      if t.Output? {
        TakeSince(c, clock, v, t.source, t.payload, t.swamped);
        TakeCancels(c, clock, v, t.source, t.payload, t.swamped);
        CancelledLater(c, clock, r, u, Take(c, clock, v, t.source, t.payload, t.swamped));
        CancelledEarlier(c, clock, r, v, Take(c, clock, v, t.source, t.payload, t.swamped));
      }
    }
  }

  /** The run was cancelled between two states, and from that moment has its cleanup
      time and no more. */
  ghost predicate CancelledIn(c: Config, clock: nat -> nat, r: Run, s: Run) {
    exists at: nat :: r.looks <= at < s.looks && s.backstop <= clock(at) + c.cleanup
  }

  lemma CheckCancels(c: Config, clock: nat -> nat, r: Run)
    ensures var u := CheckDeadlines(c, clock, r);
            && u.taken == r.taken
            && (r.reason.None? && u.reason.Some? ==> CancelledIn(c, clock, r, u))
  {
    var u := CheckDeadlines(c, clock, r);
    if r.reason.None? && u.reason.Some? {
      assert r.looks <= u.looks - 1 < u.looks && u.backstop <= clock(u.looks - 1) + c.cleanup;
    }
  }

  lemma TakeCancels(c: Config, clock: nat -> nat, r: Run, source: Source, payload: seq<byte>, swamped: bool)
    ensures var u := Take(c, clock, r, source, payload, swamped);
            r.reason.None? && u.reason.Some? ==> CancelledIn(c, clock, r, u)
  {
    hide Kept;
    var u := Take(c, clock, r, source, payload, swamped);
    if r.reason.None? && u.reason.Some? {
      assert r.looks <= u.looks - 1 < u.looks && u.backstop <= clock(u.looks - 1) + c.cleanup;
    }
  }

  lemma CancelledLater(c: Config, clock: nat -> nat, r: Run, u: Run, s: Run)
    requires u.looks <= s.looks && s.backstop <= u.backstop
    ensures CancelledIn(c, clock, r, u) ==> CancelledIn(c, clock, r, s)
  {
  }

  lemma CancelledEarlier(c: Config, clock: nat -> nat, r: Run, u: Run, s: Run)
    requires r.looks <= u.looks
    ensures CancelledIn(c, clock, u, s) ==> CancelledIn(c, clock, r, s)
  {
  }

  /** Deadlines come before output: a turn that starts past the run's time, or its idle
      time, cancels the run for that reason before anything of the turn is looked at, so
      no amount of queued output holds a deadline off. */
  lemma DeadlineFirst(c: Config, clock: nat -> nat, r: Run, t: Turn)
    requires Monotone(clock) && c.strict && !r.over && r.reason.None?
    ensures clock(r.looks) >= c.timeoutAt ==>
      Collect(c, clock, r, t).reason == Some(Timeout) && Collect(c, clock, r, t).seen == r.seen
    ensures clock(r.looks) < c.timeoutAt && r.idleAt.Some? && clock(r.looks) >= r.idleAt.value ==>
      Collect(c, clock, r, t).reason == Some(IdleTimeout) && Collect(c, clock, r, t).seen == r.seen
  {
    hide Take;
    var s := CheckDeadlines(c, clock, r);
    assert clock(r.looks + 1) >= clock(r.looks);
    var u := s.(looks := s.looks + 2);
    if t.Output? && !u.over {
      TakeSince(c, clock, u, t.source, t.payload, t.swamped);
    }
  }

  // ------------------------------------------------------------------ each turn exactly

  /** A frame of this turn counts towards the results: output, taken before anything has
      cancelled the run, if by itself it may then do so. */
  predicate Counts(r: Run, t: Turn, s: Run) {
    && t.Output? && !s.over && r.reason.None?
    && (s.reason.None? || s.reason.value.MaxOutput? || s.reason.value.ObserverOverflow?)
  }

  /** A clock reading of this turn. */
  predicate Read(r: Run, s: Run, at: nat) {
    r.looks <= at < s.looks
  }

  /** Why this turn cancels a run that was not cancelled, reason by reason. */
  ghost predicate CancelsFor(c: Config, clock: nat -> nat, r: Run, t: Turn, s: Run) {
    && (s.reason == Some(Timeout) <==> c.strict && clock(r.looks) >= c.timeoutAt)
    && (s.reason == Some(IdleTimeout) <==>
          && c.strict && clock(r.looks) < c.timeoutAt
          && r.idleAt.Some? && clock(r.looks + 1) >= r.idleAt.value)
    && (s.reason == Some(MaxOutput) <==> Counts(r, t, s) && c.max.Some? && c.max.value < |r.seen| + |t.payload|)
    && (s.reason == Some(ObserverOverflow) <==>
          Counts(r, t, s) && t.swamped && !(c.max.Some? && c.max.value < |r.seen| + |t.payload|))
  }

  /** When the backstop moves: a cancelled run has its cleanup time from then, if that is
      sooner. */
  ghost predicate BackstopMoves(c: Config, clock: nat -> nat, r: Run, s: Run) {
    if s.reason == r.reason then s.backstop == r.backstop
    else exists at: nat :: Read(r, s, at) && Cleanup(c, clock, r, s, at)
  }

  predicate Cleanup(c: Config, clock: nat -> nat, r: Run, s: Run, at: nat) {
    s.backstop == if clock(at) + c.cleanup < r.backstop then clock(at) + c.cleanup else r.backstop
  }

  /** The idle time starts anew at a frame that counts, and at nothing else. */
  ghost predicate IdleMoves(c: Config, clock: nat -> nat, r: Run, t: Turn, s: Run) {
    if c.idle.Some? && Counts(r, t, s) then exists at: nat :: Read(r, s, at) && s.idleAt == Some(clock(at) + c.idle.value)
    else s.idleAt == if Counts(r, t, s) then None else r.idleAt
  }

  lemma TakeReasons(c: Config, clock: nat -> nat, r: Run, source: Source, payload: seq<byte>, swamped: bool)
    requires Captures(c, r) && r.reason.None?
    ensures var s := Take(c, clock, r, source, payload, swamped);
            && !s.over == !r.over
            && (s.reason == if c.max.Some? && c.max.value < |r.seen| + |payload| then Some(MaxOutput)
                            else if swamped then Some(ObserverOverflow) else None)
            && (s.truncated <==> r.truncated || s.reason.Some?)
            && BackstopMoves(c, clock, r, s)
            && (if c.idle.Some? then exists at: nat :: Read(r, s, at) && s.idleAt == Some(clock(at) + c.idle.value)
                else s.idleAt.None?)
  {
    hide Into;
    KeptIsPrefix(c, r, source, payload);
    hide Kept;
    var s := Take(c, clock, r, source, payload, swamped);
    if c.idle.Some? {
      assert Read(r, s, r.looks) && s.idleAt == Some(clock(r.looks) + c.idle.value);
    }
    if s.reason.Some? {
      assert Read(r, s, s.looks - 1) && Cleanup(c, clock, r, s, s.looks - 1);
    }
  }

  /** What the deadlines do to a run not cancelled yet. */
  lemma CheckReasons(c: Config, clock: nat -> nat, r: Run)
    requires r.reason.None?
    ensures var u := CheckDeadlines(c, clock, r);
            && u == r.(looks := u.looks, kills := u.kills, reason := u.reason, backstop := u.backstop)
            && (u.reason == Some(Timeout) <==> c.strict && clock(r.looks) >= c.timeoutAt)
            && (u.reason == Some(IdleTimeout) <==>
                  && c.strict && clock(r.looks) < c.timeoutAt
                  && r.idleAt.Some? && clock(r.looks + 1) >= r.idleAt.value)
            && (u.reason.Some? ==> u.reason.value.Timeout? || u.reason.value.IdleTimeout?)
            && BackstopMoves(c, clock, r, u) && r.looks <= u.looks
  {
    var u := CheckDeadlines(c, clock, r);
    if u.reason.Some? {
      assert Read(r, u, u.looks - 1) && Cleanup(c, clock, r, u, u.looks - 1);
    }
  }

  /** A moment of a shorter stretch of a turn is one of the turn. */
  lemma Within(c: Config, clock: nat -> nat, r: Run, u: Run, v: Run, s: Run)
    requires r.looks <= u.looks <= v.looks <= s.looks
    requires u.reason == r.reason && u.backstop == r.backstop && s.reason == v.reason && s.backstop == v.backstop
    requires BackstopMoves(c, clock, u, v)
    ensures BackstopMoves(c, clock, r, s)
  {
    if v.reason != u.reason {
      var at: nat :| Read(u, v, at) && Cleanup(c, clock, u, v, at);
      assert Read(r, s, at) && Cleanup(c, clock, r, s, at);
    }
  }

  /** A cancelled run keeps nothing more, and says so. */
  lemma TakeLate(c: Config, clock: nat -> nat, r: Run, source: Source, payload: seq<byte>, swamped: bool)
    requires r.reason.Some?
    ensures Take(c, clock, r, source, payload, swamped) == r.(taken := r.taken + Tag(source, payload), truncated := true)
  {
  }

  /** A turn of a run not cancelled yet: it cancels the run for a reason exactly when that
      reason holds, deadlines first; it moves the backstop only then, and the idle time
      only for a frame that counts; output that is not all kept, or follows a
      cancellation, marks the results as truncated; and it is the last turn only at the
      end or past the backstop. */
  lemma TurnExactly(c: Config, clock: nat -> nat, r: Run, t: Turn)
    requires Captures(c, r) && !r.over && r.reason.None?
    ensures var s := Collect(c, clock, r, t);
            && CancelsFor(c, clock, r, t, s) && BackstopMoves(c, clock, r, s) && IdleMoves(c, clock, r, t, s)
            && (s.truncated <==> r.truncated || (t.Output? && !s.over && s.reason.Some?))
            && (s.over ==> t.Ending? || (s.looks > 0 && clock(s.looks - 1) >= s.backstop)) && (t.Ending? ==> s.over)
  {
    hide CheckDeadlines, Take, Into, Prefix, BackstopMoves;
    CheckReasons(c, clock, r);
    var u := CheckDeadlines(c, clock, r);
    var v := u.(looks := u.looks + 2);
    var s := Collect(c, clock, r, t);
    if t.Output? && clock(u.looks + 1) < u.backstop {
      if v.reason.None? {
        TakeReasons(c, clock, v, t.source, t.payload, t.swamped);
        TakeSince(c, clock, v, t.source, t.payload, t.swamped);
        SameBackstop(c, clock, r, u);
        Within(c, clock, r, v, s, s);
        if c.idle.Some? {
          IdleLater(c, clock, r, v, s);
        }
      } else {
        TakeLate(c, clock, v, t.source, t.payload, t.swamped);
        Within(c, clock, r, r, u, s);
      }
    } else {
      Within(c, clock, r, r, u, s);
    }
  }

  lemma SameBackstop(c: Config, clock: nat -> nat, r: Run, u: Run)
    requires BackstopMoves(c, clock, r, u) && u.reason == r.reason
    ensures u.backstop == r.backstop
  {
  }

  lemma IdleLater(c: Config, clock: nat -> nat, r: Run, v: Run, s: Run)
    requires r.looks <= v.looks && c.idle.Some?
    requires exists at: nat :: Read(v, s, at) && s.idleAt == Some(clock(at) + c.idle.value)
    ensures exists at: nat :: Read(r, s, at) && s.idleAt == Some(clock(at) + c.idle.value)
  {
    var at: nat :| Read(v, s, at) && s.idleAt == Some(clock(at) + c.idle.value);
    assert Read(r, s, at);
  }

  /** A turn of a run cancelled already: it cancels nothing, keeps nothing more, and marks
      what it takes as lost. */
  lemma TurnAfter(c: Config, clock: nat -> nat, r: Run, t: Turn)
    requires !r.over && r.reason.Some?
    ensures var s := Collect(c, clock, r, t);
            && s.reason == r.reason && s.backstop == r.backstop && s.idleAt == r.idleAt
            && s.stdout == r.stdout && s.stderr == r.stderr
            && (s.truncated <==> r.truncated || (t.Output? && !s.over))
            && (s.over <==> t.Ending? || clock(r.looks + 1) >= r.backstop)
  {
  }

  /** This turn takes output of a run that is cancelled by the end of the turn. */
  ghost predicate LosesAt(c: Config, clock: nat -> nat, start: Run, turns: seq<Turn>, i: nat) {
    && i < |turns| && turns[i].Output?
    && var s := CollectAll(c, clock, start, turns[..i + 1]);
    !s.over && s.reason.Some?
  }

  /** Over every run: the results are marked as truncated exactly if output was taken in the
      turn that cancelled the run or in a later one. */
  lemma {:induction false} TruncatedExactly(c: Config, clock: nat -> nat, now: nat, turns: seq<Turn>)
    ensures var start := Start(c, now);
            CollectAll(c, clock, start, turns).truncated <==> exists i: nat :: LosesAt(c, clock, start, turns, i)
  {
    hide Collect, Start;
    var start := Start(c, now);
    if turns == [] {
      StartWhole(c, now);
    } else {
      var n := |turns| - 1;
      var front := turns[..n];
      var r := CollectAll(c, clock, start, front);
      TruncatedExactly(c, clock, now, front);
      CapturesFirst(c, clock, now, front);
      TurnTruncates(c, clock, r, turns[n]);
      forall i: nat | i < n ensures LosesAt(c, clock, start, turns, i) == LosesAt(c, clock, start, front, i) {
        assert turns[..i + 1] == front[..i + 1] && turns[i] == front[i];
      }
      assert turns[..n + 1] == turns;
      if CollectAll(c, clock, start, turns).truncated && !r.truncated {
        assert LosesAt(c, clock, start, turns, n);
      }
      if r.truncated {
        var i: nat :| LosesAt(c, clock, start, front, i);
        assert LosesAt(c, clock, start, turns, i);
      }
    }
  }

  lemma StartWhole(c: Config, now: nat)
    ensures !Start(c, now).truncated
  {
  }

  lemma TurnTruncates(c: Config, clock: nat -> nat, r: Run, t: Turn)
    requires Sound(c, r)
    ensures var s := Collect(c, clock, r, t);
            s.truncated <==> r.truncated || (t.Output? && !s.over && s.reason.Some?)
  {
    hide Collect, Captures, CreditBounded;
    if r.over {
      OverStays(c, clock, r, t);
    } else if r.reason.None? {
      hide CancelsFor, BackstopMoves, IdleMoves;
      TurnExactly(c, clock, r, t);
    } else {
      TurnAfter(c, clock, r, t);
    }
  }

  lemma OverStays(c: Config, clock: nat -> nat, r: Run, t: Turn)
    requires r.over
    ensures Collect(c, clock, r, t) == r
  {
  }
}
