/** Ending an untracked run: the bounded waits, the staged kill of its process group,
    the cgroup and pump drains, and the loop that puts them together. */
module Shutdown {
  import opened Process

  const CONFIRM_WINDOW := 500
  const OUTPUT_DRAIN_GRACE := 1_000
  const CLEANUP_MARGIN := 5_000
  const CGROUP_DRAIN_PROBE := 500
  const STRICT_POLL := 10

  datatype Wait = Unfinished | Ended(status: nat) | WaitFailed

  datatype Arrival = After(ms: nat) | Never | Gone

  /** The system's answers, each numbered by the calls before it, and the time each
      call takes beyond what it asks for. */
  datatype Machine = Machine(
    groupAlive: nat -> bool,
    drained: nat -> bool,
    wait: nat -> Wait,
    pump: nat -> Arrival,
    drift: nat -> nat)

  datatype Probe = GroupGone | CgroupDrained | RootReaped

  datatype Event =
    | Sent(signal: nat, at: nat)
    | Probed(probe: Probe, ok: bool)
    | CgroupKilled
    | CgroupRemoved
    | Draining(at: nat)
    | PumpDone
    | PumpsGone
    | RootKilled
    | Took(e: Incoming)

  class Host {
    const machine: Machine
    var calls: nat
    var clock: nat
    var waited: Wait
    ghost var log: seq<Event>

    constructor (machine: Machine)
      ensures this.machine == machine && log == [] && waited == Unfinished
    {
      this.machine, calls, clock, waited, log := machine, 0, 0, Unfinished, [];
    }

    /** Calls are instant and sleeps exact. */
    ghost predicate Ideal() {
      forall t :: machine.drift(t) == 0
    }

    method Call(ghost e: Event)
      modifies `calls, `clock, `log
      ensures calls == old(calls) + 1 && log == old(log) + [e]
      ensures clock >= old(clock) && (Ideal() ==> clock == old(clock))
    {
      calls, clock := calls + 1, clock + machine.drift(calls);
      log := log + [e];
    }

    method Check(probe: Probe) returns (ok: bool)
      modifies `calls, `clock, `log, `waited
      ensures log == old(log) + [Probed(probe, ok)]
      ensures if probe.RootReaped? then ok == (waited != Unfinished) else waited == old(waited)
      ensures clock >= old(clock) && (Ideal() ==> clock == old(clock))
    {
      match probe {
        case GroupGone => ok := !machine.groupAlive(calls);
        case CgroupDrained => ok := machine.drained(calls);
        case RootReaped =>
          waited := machine.wait(calls);
          ok := waited != Unfinished;
      }
      Call(Probed(probe, ok));
    }

    method Sleep(ms: nat)
      modifies `calls, `clock
      ensures clock >= old(clock) + ms && (Ideal() ==> clock == old(clock) + ms)
    {
      calls, clock := calls + 1, clock + ms + machine.drift(calls);
    }

    /** Waits for one pump's report, no longer than asked, unless all that could send one
        are gone. */
    method RecvDone(limit: nat) returns (ok: bool, gone: bool)
      modifies `calls, `clock, `log
      ensures log == (if ok then old(log) + [PumpDone] else if gone then old(log) + [PumpsGone] else old(log))
      ensures !(ok && gone)
      ensures !ok && !gone ==> clock >= old(clock) + limit
      ensures clock >= old(clock) && (Ideal() ==> clock <= old(clock) + limit)
    {
      var arrival := machine.pump(calls);
      match arrival
      case Gone =>
        Call(PumpsGone);
        ok, gone := false, true;
      case Never =>
        Sleep(limit);
        ok, gone := false, false;
      case After(ms) =>
        ok, gone := ms <= limit, false;
        Sleep(if ms <= limit then ms else limit);
        if ok {
          Call(PumpDone);
        }
    }
  }

  // ------------------------------------------------------------ reading the log

  function Signals(log: seq<Event>): seq<(nat, nat)> {
    if log == [] then []
    else
      var last := log[|log| - 1];
      Signals(log[..|log| - 1]) + if last.Sent? then [(last.signal, last.at)] else []
  }

  /** The latest answer to a probe. */
  function Latest(log: seq<Event>, probe: Probe): Option<bool> {
    if log == [] then None
    else
      var last := log[|log| - 1];
      if last.Probed? && last.probe == probe then Some(last.ok) else Latest(log[..|log| - 1], probe)
  }

  function Reports(log: seq<Event>): nat {
    if log == [] then 0 else Reports(log[..|log| - 1]) + if log[|log| - 1].PumpDone? then 1 else 0
  }

  /** The events taken so far. */
  function Taken(log: seq<Event>): seq<Incoming> {
    if log == [] then [] else Taken(log[..|log| - 1]) + if log[|log| - 1].Took? then [log[|log| - 1].e] else []
  }

  predicate NoneTaken(log: seq<Event>, from: nat) {
    forall k :: from <= k < |log| ==> !log[k].Took?
  }

  lemma {:induction false} TakenSame(before: seq<Event>, after: seq<Event>)
    requires before <= after && NoneTaken(after, |before|)
    ensures Taken(after) == Taken(before)
    decreases |after|
  {
    if |before| < |after| {
      TakenSame(before, after[..|after| - 1]);
    } else {
      assert after == before;
    }
  }

  lemma Logged(log: seq<Event>, e: Event)
    ensures Signals(log + [e]) == Signals(log) + if e.Sent? then [(e.signal, e.at)] else []
    ensures Reports(log + [e]) == Reports(log) + if e.PumpDone? then 1 else 0
    ensures forall probe ::
      Latest(log + [e], probe) == if e.Probed? && e.probe == probe then Some(e.ok) else Latest(log, probe)
  {
    assert (log + [e])[..|log|] == log;
  }

  /** What a stretch of the log may leave alone. */
  predicate Same(before: seq<Event>, after: seq<Event>) {
    Signals(after) == Signals(before) && Reports(after) == Reports(before)
  }

  predicate Elsewhere(before: seq<Event>, after: seq<Event>, probe: Probe) {
    forall other :: other != probe ==> Latest(after, other) == Latest(before, other)
  }

  /** From one log to a longer one the cgroup was killed. */
  ghost predicate CgroupHit(before: seq<Event>, after: seq<Event>) {
    before <= after && exists k :: |before| <= k < |after| && after[k] == CgroupKilled
  }

  predicate LastGone(log: seq<Event>) {
    log != [] && log[|log| - 1] == PumpsGone
  }

  /** Waiting for the pumps came to nothing: all that could report were seen gone, or the
      whole drain time went by with nothing but reports. */
  ghost predicate GaveUp(log: seq<Event>, clock: nat) {
    || LastGone(log)
    || exists k :: 0 <= k < |log| && log[k].Draining? && log[k].at + OUTPUT_DRAIN_GRACE <= clock
                   && forall j :: k < j < |log| ==> log[j].PumpDone?
  }

  // ---------------------------------------------------------------- bounded waits

  /** Polls until the probe succeeds or the deadline passes. The probe is asked at least
      once, its last answer is the result, and a failure means the whole time passed. */
  method WaitUntil(h: Host, timeout: nat, interval: nat, probe: Probe) returns (done: bool)
    requires interval > 0
    modifies h
    ensures Same(old(h.log), h.log) && Elsewhere(old(h.log), h.log, probe)
    ensures old(h.log) < h.log && h.log[|old(h.log)|].Probed? && NoneTaken(h.log, |old(h.log)|)
    ensures Latest(h.log, probe) == Some(done)
    ensures CgroupRemoved in h.log ==> CgroupRemoved in old(h.log)
    ensures if probe.RootReaped? then done == (h.waited != Unfinished) else h.waited == old(h.waited)
    ensures !done ==> h.clock >= old(h.clock) + timeout
    ensures h.clock >= old(h.clock) && (h.Ideal() ==> h.clock <= old(h.clock) + timeout)
  {
    var deadline := h.clock + timeout;
    while true
      invariant Same(old(h.log), h.log) && Elsewhere(old(h.log), h.log, probe) && old(h.log) <= h.log
      invariant |old(h.log)| < |h.log| ==> h.log[|old(h.log)|].Probed?
      invariant NoneTaken(h.log, |old(h.log)|)
      invariant CgroupRemoved in h.log ==> CgroupRemoved in old(h.log)
      invariant !probe.RootReaped? ==> h.waited == old(h.waited)
      invariant h.clock >= old(h.clock) && (h.Ideal() ==> h.clock <= deadline)
      decreases if h.clock < deadline then deadline - h.clock else 0
    {
      ghost var before := h.log;
      done := h.Check(probe);
      Logged(before, Probed(probe, done));
      if done {
        return;
      }
      if h.clock >= deadline {
        return;
      }
      var left := deadline - h.clock;
      h.Sleep(if interval < left then interval else left);
    }
  }

  // -------------------------------------------------------------- the group kill

  function GraceAfter(signal: nat, interrupt: Option<nat>, grace: nat): nat {
    if signal == SIGINT && interrupt.Some? then interrupt.value
    else if signal == SIGTERM then grace
    else CONFIRM_WINDOW
  }

  function Ladder(interrupt: Option<nat>): seq<nat> {
    (if interrupt.Some? then [SIGINT] else []) + [SIGTERM, SIGKILL]
  }

  /** Signals climb the ladder from its first rung, each after the whole grace of the
      one before. */
  predicate Climbs(sent: seq<(nat, nat)>, interrupt: Option<nat>, grace: nat) {
    && |sent| <= |Ladder(interrupt)|
    && (forall i :: 0 <= i < |sent| ==> sent[i].0 == Ladder(interrupt)[i])
    && (forall i :: 0 <= i < |sent| - 1 ==> sent[i + 1].1 >= sent[i].1 + GraceAfter(sent[i].0, interrupt, grace))
  }

  method SendGroup(h: Host, signal: nat)
    modifies h`calls, h`clock, h`log
    ensures h.log == old(h.log) + [Sent(signal, old(h.clock))]
    ensures h.clock >= old(h.clock) && (h.Ideal() ==> h.clock == old(h.clock))
  {
    h.Call(Sent(signal, h.clock));
  }

  method KillCgroup(h: Host, cgroup: bool)
    modifies h`calls, h`clock, h`log
    ensures h.log == if cgroup then old(h.log) + [CgroupKilled] else old(h.log)
    ensures h.clock >= old(h.clock) && (h.Ideal() ==> h.clock == old(h.clock))
  {
    if cgroup {
      h.Call(CgroupKilled);
    }
  }

  /** One rung: the signal, then the wait for the group to go. */
  method Rung(h: Host, signal: nat, grace: nat, interval: nat) returns (gone: bool)
    requires interval > 0
    modifies h
    ensures Signals(h.log) == Signals(old(h.log)) + [(signal, old(h.clock))]
    ensures Latest(h.log, GroupGone) == Some(gone) && Elsewhere(old(h.log), h.log, GroupGone)
    ensures Reports(h.log) == Reports(old(h.log)) && h.waited == old(h.waited) && old(h.log) < h.log
    ensures h.log[|old(h.log)|].Sent? && NoneTaken(h.log, |old(h.log)|)
    ensures CgroupRemoved in h.log ==> CgroupRemoved in old(h.log)
    ensures !gone ==> h.clock >= old(h.clock) + grace
    ensures h.clock >= old(h.clock) && (h.Ideal() ==> h.clock <= old(h.clock) + grace)
  {
    Logged(h.log, Sent(signal, h.clock));
    SendGroup(h, signal);
    gone := WaitUntil(h, grace, interval, GroupGone);
  }

  /** Escalates against the process group until it is seen gone. Whatever the system
      answers: at least one signal, none skipped, each in its time; the result is the
      last look at the group; only after KILL and its window is it given up; and last of
      all the cgroup is killed, which reaches what has left the group. */
  method KillGroup(h: Host, grace: nat, cgroup: bool, interrupt: Option<nat>)
    returns (confirmed: bool, ghost sent: seq<(nat, nat)>)
    modifies h
    ensures Signals(h.log) == Signals(old(h.log)) + sent
    ensures sent != [] && Climbs(sent, interrupt, grace)
    ensures !confirmed ==> |sent| == |Ladder(interrupt)| && h.clock >= sent[|sent| - 1].1 + CONFIRM_WINDOW
    ensures Latest(h.log, GroupGone) == Some(confirmed) && Elsewhere(old(h.log), h.log, GroupGone)
    ensures Reports(h.log) == Reports(old(h.log)) && h.waited == old(h.waited)
    ensures CgroupRemoved in h.log ==> CgroupRemoved in old(h.log)
    ensures old(h.log) < h.log && (cgroup ==> h.log[|h.log| - 1] == CgroupKilled)
    ensures h.log[|old(h.log)|].Sent? && NoneTaken(h.log, |old(h.log)|)
    ensures h.clock >= old(h.clock)
    ensures h.Ideal() ==> h.clock <= old(h.clock) + Spent(interrupt, grace)
  {
    hide Signals, Latest, Climbs, Reports, Elsewhere;
    ghost var start := Signals(h.log);
    sent := [];
    ElsewhereSelf(h.log, GroupGone);
    ghost var first := h.log;
    ClimbsNone(interrupt, grace);
    if interrupt.Some? {
      ClimbsNext(sent, interrupt, grace, SIGINT, h.clock);
      sent := sent + [(SIGINT, h.clock)];
      confirmed := Rung(h, SIGINT, interrupt.value, 10);
      assert Signals(h.log) == start + sent;
      if confirmed {
        Logged(h.log, CgroupKilled);
        ElsewhereAfter(first, h.log, GroupGone, CgroupKilled);
        KillCgroup(h, cgroup);
        return;
      }
    }
    ClimbsNext(sent, interrupt, grace, SIGTERM, h.clock);
    ghost var middle := h.log;
    sent := sent + [(SIGTERM, h.clock)];
    confirmed := Rung(h, SIGTERM, grace, 20);
    ElsewhereThen(first, middle, h.log, GroupGone);
    assert Signals(h.log) == start + sent;
    if !confirmed {
      ClimbsNext(sent, interrupt, grace, SIGKILL, h.clock);
      middle := h.log;
      sent := sent + [(SIGKILL, h.clock)];
      confirmed := Rung(h, SIGKILL, CONFIRM_WINDOW, 10);
      ElsewhereThen(first, middle, h.log, GroupGone);
      assert Signals(h.log) == start + sent;
    }
    Logged(h.log, CgroupKilled);
    ElsewhereAfter(first, h.log, GroupGone, CgroupKilled);
    KillCgroup(h, cgroup);
  }

  lemma ElsewhereSelf(log: seq<Event>, probe: Probe)
    ensures Elsewhere(log, log, probe)
  {
  }

  lemma ElsewhereThen(a: seq<Event>, b: seq<Event>, c: seq<Event>, probe: Probe)
    requires Elsewhere(a, b, probe) && Elsewhere(b, c, probe)
    ensures Elsewhere(a, c, probe)
  {
    hide Latest;
  }

  lemma ElsewhereAfter(a: seq<Event>, b: seq<Event>, probe: Probe, e: Event)
    requires Elsewhere(a, b, probe) && !e.Probed?
    ensures Elsewhere(a, b + [e], probe)
  {
    Logged(b, e);
    hide Latest;
  }

  lemma ClimbsNone(interrupt: Option<nat>, grace: nat)
    ensures Climbs([], interrupt, grace)
  {
  }

  lemma ClimbsNext(sent: seq<(nat, nat)>, interrupt: Option<nat>, grace: nat, signal: nat, at: nat)
    requires Climbs(sent, interrupt, grace) && |sent| < |Ladder(interrupt)| && signal == Ladder(interrupt)[|sent|]
    requires sent != [] ==> at >= sent[|sent| - 1].1 + GraceAfter(sent[|sent| - 1].0, interrupt, grace)
    ensures Climbs(sent + [(signal, at)], interrupt, grace)
  {
    hide GraceAfter, Ladder;
  }

  function Spent(interrupt: Option<nat>, grace: nat): nat {
    (if interrupt.Some? then interrupt.value else 0) + grace + CONFIRM_WINDOW
  }

  /** Kills the cgroup and then awaits it. It is removed exactly when it was seen empty. */
  method FinishCgroup(h: Host, grace: nat) returns (drained: bool)
    modifies h
    ensures Same(old(h.log), h.log) && Latest(h.log, CgroupDrained) == Some(drained)
    ensures Elsewhere(old(h.log), h.log, CgroupDrained) && h.waited == old(h.waited)
    ensures CgroupRemoved !in old(h.log) ==> (CgroupRemoved in h.log <==> drained)
    ensures old(h.log) + [CgroupKilled] <= h.log && CgroupHit(old(h.log), h.log)
    ensures h.clock >= old(h.clock) && (h.Ideal() ==> h.clock <= old(h.clock) + grace + CGROUP_DRAIN_PROBE)
  {
    ghost var before := h.log;
    KillCgroup(h, true);
    Logged(before, CgroupKilled);
    ghost var killed := h.log;
    assert killed[|before|] == CgroupKilled;
    drained := WaitUntil(h, grace + CGROUP_DRAIN_PROBE, 20, CgroupDrained);
    if drained {
      before := h.log;
      h.Call(CgroupRemoved);
      Logged(before, CgroupRemoved);
    }
    assert h.log[|old(h.log)|] == killed[|old(h.log)|];
  }

  /** Reaps the root, giving up only after the whole grace. */
  method ReapRoot(h: Host, grace: nat) returns (w: Wait)
    modifies h
    ensures Same(old(h.log), h.log) && Elsewhere(old(h.log), h.log, RootReaped)
    ensures old(h.log) < h.log && h.log[|old(h.log)|].Probed?
    ensures w == h.waited && Latest(h.log, RootReaped) == Some(w != Unfinished)
    ensures CgroupRemoved in h.log ==> CgroupRemoved in old(h.log)
    ensures w.Unfinished? ==> h.clock >= old(h.clock) + grace
    ensures h.clock >= old(h.clock) && (h.Ideal() ==> h.clock <= old(h.clock) + grace)
  {
    var _ := WaitUntil(h, grace, 50, RootReaped);
    w := h.waited;
  }

  /** Waits for the pumps' reports under one deadline, and gives up only when that has
      passed or no report can come. */
  method DrainPumps(h: Host, pumps: nat) returns (all: bool)
    modifies h
    ensures all ==> Reports(h.log) == Reports(old(h.log)) + pumps
    ensures !all ==> Reports(h.log) < Reports(old(h.log)) + pumps && GaveUp(h.log, h.clock)
    ensures Signals(h.log) == Signals(old(h.log)) && (forall probe :: Latest(h.log, probe) == Latest(old(h.log), probe))
    ensures h.waited == old(h.waited) && (CgroupRemoved in h.log <==> CgroupRemoved in old(h.log))
    ensures old(h.log) + [Draining(old(h.clock))] <= h.log
    ensures h.clock >= old(h.clock) && (h.Ideal() ==> h.clock <= old(h.clock) + OUTPUT_DRAIN_GRACE)
  {
    hide Reports, Signals, Latest;
    var deadline := h.clock + OUTPUT_DRAIN_GRACE;
    ghost var k := |h.log|;
    Logged(h.log, Draining(h.clock));
    h.log := h.log + [Draining(h.clock)];
    for i := 0 to pumps
      invariant Reports(h.log) == Reports(old(h.log)) + i
      invariant Signals(h.log) == Signals(old(h.log)) && (forall probe :: Latest(h.log, probe) == Latest(old(h.log), probe))
      invariant h.waited == old(h.waited) && (CgroupRemoved in h.log <==> CgroupRemoved in old(h.log))
      invariant old(h.log) + [Draining(old(h.clock))] <= h.log && h.log[k] == Draining(old(h.clock))
      invariant forall j :: k < j < |h.log| ==> h.log[j].PumpDone?
      invariant h.clock >= old(h.clock) && (h.Ideal() ==> h.clock <= deadline)
    {
      if h.clock >= deadline {
        return false;
      }
      ghost var before := h.log;
      var ok, gone := h.RecvDone(deadline - h.clock);
      Logged(before, PumpDone);
      Logged(before, PumpsGone);
      if !ok {
        return false;
      }
    }
    all := true;
  }

  // -------------------------------------------------------------- the strict drain

  datatype Incoming = Kill | TimedOut | Closed | ChildExited(status: nat) | Other

  /** One turn of the strict drain: whether the peer is seen gone, and what has arrived. */
  datatype Round = Round(peerGone: bool, events: seq<Incoming>)

  /** What the drain under the consumer's credit came to; `Open` while it goes on. */
  datatype Gate = Open | Gate(drained: bool, cancelled: bool, disappeared: bool)

  /** The first event that ends a strict drain, if there is one. */
  function Decisive(events: seq<Incoming>): (end: Option<Incoming>)
    ensures end.None? <==> NoneEnds(events)
    ensures end.Some? ==> exists j :: 0 <= j < |events| && FirstEnds(events, j) && events[j] == end.value
  {
    if events == [] then None
    else if events[0].Kill? || events[0].Closed? then Some(events[0])
    else
      var end := Decisive(events[1..]);
      EndsLater(events);
      end
  }

  predicate NoneEnds(events: seq<Incoming>) {
    forall i :: 0 <= i < |events| ==> !events[i].Kill? && !events[i].Closed?
  }

  /** The first KILL or lost peer among the events. */
  predicate FirstEnds(events: seq<Incoming>, j: nat)
    requires j < |events|
  {
    (events[j].Kill? || events[j].Closed?) && NoneEnds(events[..j])
  }

  lemma EndsLater(events: seq<Incoming>)
    requires events != [] && !events[0].Kill? && !events[0].Closed?
    ensures NoneEnds(events) <==> NoneEnds(events[1..])
    ensures forall j :: 0 <= j < |events| - 1 && FirstEnds(events[1..], j) ==> FirstEnds(events, j + 1) && events[j + 1] == events[1..][j]
  {
    var rest := events[1..];
    assert forall i :: 0 < i < |events| ==> events[i] == rest[i - 1];
    forall j | 0 <= j < |rest| && FirstEnds(rest, j) ensures FirstEnds(events, j + 1) {
      var front := events[..j + 1];
      forall i | 0 <= i < |front| ensures !front[i].Kill? && !front[i].Closed? {
        assert i > 0 ==> front[i] == rest[..j][i - 1];
      }
    }
  }

  predicate Calm(r: Round) {
    !r.peerGone && NoneEnds(r.events)
  }

  predicate AllCalm(rounds: seq<Round>) {
    forall r :: r in rounds ==> Calm(r)
  }

  predicate PeerLost(r: Round) {
    r.peerGone || exists j :: 0 <= j < |r.events| && FirstEnds(r.events, j) && r.events[j].Closed?
  }

  /** A strict drain ends complete when every pump has reported with nothing to end it
      before; otherwise in the round that ended it: silently when the peer is gone, under
      the ordinary deadline after a KILL, and after a calm round only when no report can
      come, all that could send one being gone. */
  ghost predicate Settles(rounds: seq<Round>, used: nat, g: Gate, all: bool, gone: bool) {
    && used <= |rounds|
    && match g
       case Open => used == |rounds| && AllCalm(rounds) && !all
       case Gate(drained, cancelled, disappeared) =>
         if !cancelled then drained && !disappeared && AllCalm(rounds[..used]) && all
         else
           && used > 0 && AllCalm(rounds[..used - 1])
           && (disappeared <==> PeerLost(rounds[used - 1]))
           && (disappeared ==> !drained)
           && (!disappeared ==> drained == all)
           && (Calm(rounds[used - 1]) ==> !all && gone)
  }

  lemma CalmMore(rounds: seq<Round>, i: nat)
    requires i < |rounds| && AllCalm(rounds[..i]) && Calm(rounds[i])
    ensures AllCalm(rounds[..i + 1])
  {
    assert rounds[..i + 1] == rounds[..i] + [rounds[i]];
  }

  lemma DecisiveFirst(events: seq<Incoming>, j: nat)
    requires j < |events| && Decisive(events[..j]).None?
    ensures events[j].Kill? || events[j].Closed? ==> Decisive(events) == Some(events[j])
    ensures !(events[j].Kill? || events[j].Closed?) ==> Decisive(events[..j + 1]).None?
    decreases j
  {
    if j > 0 {
      assert events[..j][0] == events[0] && events[..j][1..] == events[1..][..j - 1];
      DecisiveFirst(events[1..], j - 1);
      assert events[..j + 1][1..] == events[1..][..j];
    } else {
      assert events[..1][1..] == [];
    }
  }

  predicate LastCalm(rounds: seq<Round>, used: nat) {
    0 < used <= |rounds| && Calm(rounds[used - 1])
  }

  /** Waits for the pumps under the consumer's own pace, until they have all reported or
      something ends the wait. */
  method DrainStrict(h: Host, pumps: nat, rounds: seq<Round>) returns (g: Gate, ghost used: nat)
    modifies h
    ensures Reports(h.log) <= Reports(old(h.log)) + pumps
    ensures Settles(rounds, used, g, Reports(h.log) == Reports(old(h.log)) + pumps, LastGone(h.log))
    ensures g.Gate? && !g.disappeared && Reports(h.log) < Reports(old(h.log)) + pumps ==> GaveUp(h.log, h.clock)
    ensures g.Open? || !g.cancelled ==>
      h.clock >= old(h.clock) + STRICT_POLL * (used - (Reports(h.log) - Reports(old(h.log))))
    ensures Signals(h.log) == Signals(old(h.log)) && (forall probe :: Latest(h.log, probe) == Latest(old(h.log), probe))
    ensures h.waited == old(h.waited) && (CgroupRemoved in h.log <==> CgroupRemoved in old(h.log))
    ensures old(h.log) <= h.log && h.clock >= old(h.clock)
  {
    hide Reports, Signals, Latest, Decisive;
    var completed := 0;
    used := 0;
    for i := 0 to |rounds|
      invariant used == i && AllCalm(rounds[..i]) && completed <= pumps
      invariant Reports(h.log) == Reports(old(h.log)) + completed
      invariant Signals(h.log) == Signals(old(h.log)) && (forall probe :: Latest(h.log, probe) == Latest(old(h.log), probe))
      invariant h.waited == old(h.waited) && (CgroupRemoved in h.log <==> CgroupRemoved in old(h.log))
      invariant old(h.log) <= h.log && h.clock >= old(h.clock)
      invariant h.clock >= old(h.clock) + STRICT_POLL * (i - completed)
    {
      if completed == pumps {
        return Gate(true, false, false), used;
      }
      used := i + 1;
      if rounds[i].peerGone {
        return Gate(false, true, true), used;
      }
      var end := Heed(rounds[i].events);
      if end == Some(Kill) {
        var all := DrainPumps(h, pumps - completed);
        return Gate(all, true, false), used;
      }
      if end == Some(Closed) {
        return Gate(false, true, true), used;
      }
      CalmMore(rounds, i);
      ghost var before := h.log;
      var ok, gone := h.RecvDone(STRICT_POLL);
      Logged(before, PumpDone);
      Logged(before, PumpsGone);
      if gone {
        return Gate(false, true, false), used;
      }
      if ok {
        completed := completed + 1;
      }
    }
    assert rounds[..|rounds|] == rounds;
    if completed == pumps {
      return Gate(true, false, false), used;
    }
    g := Open;
  }

  /** Reads what has arrived, up to the first event that ends the drain. */
  method Heed(events: seq<Incoming>) returns (end: Option<Incoming>)
    ensures end == Decisive(events)
  {
    for j := 0 to |events|
      invariant Decisive(events[..j]).None?
    {
      DecisiveFirst(events, j);
      if events[j].Kill? || events[j].Closed? {
        return Some(events[j]);
      }
    }
    assert events[..|events|] == events;
    end := None;
  }

  // ------------------------------------------------------------------- the budget

  /** How long the calling side waits for EXIT after asking for the run's end. */
  function CleanupTimeout(grace: nat, interrupt: Option<nat>, cgroup: bool): nat {
    grace + (if interrupt.Some? then interrupt.value else 0)
    + (if cgroup then grace + CGROUP_DRAIN_PROBE else 0) + CLEANUP_MARGIN
  }

  // ------------------------------------------------------------ an untracked run

  datatype Report = Report(status: Option<nat>, timedOut: bool, confirmed: bool, truncated: bool)

  /** How a run ends: reported, in silence, or with its strict drain still going on. */
  datatype End = Reported(report: Report) | Silent | Waiting

  /** The events up to and with the child's end, which ends the loop. */
  function Heard(events: seq<Incoming>): seq<Incoming> {
    if events == [] then []
    else if events[0].ChildExited? then [events[0]]
    else [events[0]] + Heard(events[1..])
  }

  /** The status the child ended with, if it was heard. */
  function ExitOf(events: seq<Incoming>): Option<nat> {
    if events == [] then None
    else if events[0].ChildExited? then Some(events[0].status)
    else ExitOf(events[1..])
  }

  predicate Cancels(e: Incoming) {
    e.Kill? || e.TimedOut? || e.Closed?
  }

  predicate Heeded(heard: seq<Incoming>) {
    exists e :: e in heard && (e.Kill? || e.TimedOut? || e.Closed?)
  }

  predicate Ending(heard: seq<Incoming>) {
    exists e :: e in heard && e.ChildExited?
  }

  lemma HeardMore(heard: seq<Incoming>, e: Incoming)
    ensures Heeded(heard + [e]) == (Heeded(heard) || Cancels(e))
    ensures Ending(heard + [e]) == (Ending(heard) || e.ChildExited?)
    ensures forall x :: x in heard + [e] <==> x in heard || x == e
  {
    assert e in heard + [e];
    forall x | x in heard ensures x in heard + [e] {
    }
  }

  lemma HeardNext(events: seq<Incoming>, i: nat, heard: seq<Incoming>)
    requires i < |events|
    ensures heard + Heard(events[i..]) ==
            (heard + [events[i]]) + if events[i].ChildExited? then [] else Heard(events[i + 1..])
    ensures ExitOf(events[i..]) == if events[i].ChildExited? then Some(events[i].status) else ExitOf(events[i + 1..])
  {
    assert events[i..][0] == events[i] && events[i..][1..] == events[i + 1..];
  }

  /** Where the loop stands: what it heard, and what it did about it. */
  ghost predicate Underway(log: seq<Event>, heard: seq<Incoming>, interrupt: Option<nat>, grace: nat, groupConfirmed: bool) {
    && Climbs(Signals(log), interrupt, grace) && Reports(log) == 0
    && (Signals(log) != [] <==> Heeded(heard) || Ending(heard))
    && groupConfirmed == (Signals(log) == [] || Latest(log, GroupGone) == Some(true))
    && Latest(log, CgroupDrained) == None && CgroupRemoved !in log
  }

  lemma BeginUnderway(interrupt: Option<nat>, grace: nat)
    ensures Underway([], [], interrupt, grace, true)
  {
  }

  /** An event was taken that calls for the end of the run. */
  predicate Calling(e: Event) {
    e.Took? && (e.e.Kill? || e.e.TimedOut? || e.e.Closed? || e.e.ChildExited?)
  }

  /** None was among the first `n`. */
  predicate QuietTo(log: seq<Event>, n: nat)
    requires n <= |log|
  {
    forall j :: 0 <= j < n ==> !Calling(log[j])
  }

  /** The kill follows at once on the first event that calls for it, and on nothing else. */
  predicate Prompt(log: seq<Event>) {
    && (forall k :: 0 <= k < |log| && Calling(log[k]) && QuietTo(log, k) ==> k + 1 < |log| && log[k + 1].Sent?)
    && (forall k :: 0 <= k < |log| && log[k].Sent? ==> !QuietTo(log, k))
  }

  lemma PromptOn(log: seq<Event>, e: Incoming, after: seq<Event>, killed: bool)
    requires Prompt(log) && log + [Took(e)] <= after && NoneTaken(after, |log| + 1)
    requires if killed then |after| > |log| + 1 && after[|log| + 1].Sent? && Calling(Took(e))
             else after == log + [Took(e)] && (Calling(Took(e)) ==> !QuietTo(log, |log|))
    ensures Prompt(after) && (QuietTo(after, |after|) <==> QuietTo(log, |log|) && !Calling(Took(e)))
  {
    var n := |log|;
    assert after[n] == Took(e);
    assert forall j :: 0 <= j < n ==> after[j] == log[j];
    forall k | 0 <= k <= n ensures QuietTo(after, k) == QuietTo(log, k) {
    }
  }

  /** The loop of an untracked run: it ends with the child, or with its events. */
  method Loop(h: Host, grace: nat, cgroup: bool, interrupt: Option<nat>, events: seq<Incoming>)
    returns (status: Option<nat>, timedOut: bool, beamGone: bool, groupConfirmed: bool, discard: bool)
    requires h.log == []
    modifies h
    ensures Underway(h.log, Heard(events), interrupt, grace, groupConfirmed)
    ensures Taken(h.log) == Heard(events) && Prompt(h.log)
    ensures timedOut == (TimedOut in Heard(events)) && beamGone == (Closed in Heard(events))
    ensures discard == Heeded(Heard(events)) && status == ExitOf(events)
    ensures h.waited == old(h.waited)
    ensures h.Ideal() ==> h.clock <= old(h.clock) + Spent(interrupt, grace)
  {
    hide Underway;
    timedOut, beamGone, groupConfirmed, discard := false, false, true, false;
    status := None;
    var cleanupStarted := false;
    ghost var heard: seq<Incoming> := [];
    BeginUnderway(interrupt, grace);
    hide Prompt, QuietTo, Taken, NoneTaken, Heard, ExitOf, Heeded, Ending;
    NoneAtFirst();
    for i := 0 to |events|
      invariant Heard(events) == heard + Heard(events[i..])
      invariant status == None && !Ending(heard) && ExitOf(events) == ExitOf(events[i..])
      invariant timedOut == (TimedOut in heard) && beamGone == (Closed in heard)
      invariant cleanupStarted == discard == Heeded(heard)
      invariant Underway(h.log, heard, interrupt, grace, groupConfirmed)
      invariant Taken(h.log) == heard && Prompt(h.log) && (QuietTo(h.log, |h.log|) <==> !cleanupStarted)
      invariant h.waited == old(h.waited)
      invariant h.Ideal() ==> h.clock <= old(h.clock) + if cleanupStarted then Spent(interrupt, grace) else 0
    {
      var e := events[i];
      ghost var earlier := h.log;
      h.Call(Took(e));
      TookUnderway(earlier, e, heard, interrupt, grace, groupConfirmed);
      ghost var killed := false;
      HeardNext(events, i, heard);
      HeardMore(heard, e);
      ghost var before := heard;
      heard := heard + [e];
      match e {
        case Kill => discard := true;
        case TimedOut => discard, timedOut := true, true;
        case Closed => discard, beamGone := true, true;
        case ChildExited(s) => status := Some(s);
        case Other =>
      }
      if !cleanupStarted && (Cancels(e) || e.ChildExited?) {
        ghost var log := h.log;
        ghost var sent;
        ghost var already := groupConfirmed;
        groupConfirmed, sent := KillGroup(h, grace, cgroup, interrupt);
        KilledUnderway(log, h.log, before, e, interrupt, grace, already, groupConfirmed, sent);
        cleanupStarted := Cancels(e);
        TakenSame(log, h.log);
        killed := true;
      } else {
        StillUnderway(h.log, before, e, interrupt, grace, groupConfirmed);
      }
      PromptOn(earlier, e, h.log, killed);
      if status.Some? {
        assert heard + [] == heard;
        return;
      }
    }
    assert events[|events|..] == [] && heard + [] == heard;
  }

  lemma NoneAtFirst()
    ensures Prompt([]) && Taken([]) == [] && QuietTo([], 0)
    ensures !Heeded([]) && !Ending([]) && Heard([]) == [] && ExitOf([]) == None
  {
  }

  lemma TookUnderway(log: seq<Event>, e: Incoming, heard: seq<Incoming>, interrupt: Option<nat>, grace: nat, confirmed: bool)
    requires Underway(log, heard, interrupt, grace, confirmed)
    ensures Underway(log + [Took(e)], heard, interrupt, grace, confirmed)
    ensures Taken(log + [Took(e)]) == Taken(log) + [e]
  {
    Logged(log, Took(e));
    assert (log + [Took(e)])[..|log|] == log;
    hide Climbs, Heeded, Ending;
  }

  lemma KilledUnderway(log: seq<Event>, after: seq<Event>, heard: seq<Incoming>, e: Incoming, interrupt: Option<nat>,
                       grace: nat, already: bool, confirmed: bool, sent: seq<(nat, nat)>)
    requires Underway(log, heard, interrupt, grace, already) && !Heeded(heard) && !Ending(heard)
    requires Cancels(e) || e.ChildExited?
    requires Signals(after) == Signals(log) + sent && sent != [] && Climbs(sent, interrupt, grace)
    requires Reports(after) == Reports(log) && Latest(after, GroupGone) == Some(confirmed)
    requires Elsewhere(log, after, GroupGone) && (CgroupRemoved in after ==> CgroupRemoved in log)
    ensures Underway(after, heard + [e], interrupt, grace, confirmed)
  {
    HeardMore(heard, e);
    assert [] + sent == sent;
  }

  lemma StillUnderway(log: seq<Event>, heard: seq<Incoming>, e: Incoming, interrupt: Option<nat>, grace: nat,
                      confirmed: bool)
    requires Underway(log, heard, interrupt, grace, confirmed)
    requires Heeded(heard) || !(Cancels(e) || e.ChildExited?)
    ensures Underway(log, heard + [e], interrupt, grace, confirmed)
  {
    HeardMore(heard, e);
  }

  /** Ending the cgroup, if there is one. */
  method EndCgroup(h: Host, grace: nat, cgroup: bool) returns (confirmed: bool)
    requires CgroupRemoved !in h.log
    modifies h
    ensures Same(old(h.log), h.log) && Elsewhere(old(h.log), h.log, CgroupDrained) && h.waited == old(h.waited)
    ensures if cgroup then Latest(h.log, CgroupDrained) == Some(confirmed) else h.log == old(h.log) && confirmed
    ensures CgroupRemoved in h.log <==> cgroup && confirmed
    ensures old(h.log) <= h.log && (cgroup ==> CgroupHit(old(h.log), h.log))
    ensures h.clock >= old(h.clock)
    ensures h.Ideal() ==> h.clock <= old(h.clock) + if cgroup then grace + CGROUP_DRAIN_PROBE else 0
  {
    confirmed := true;
    if cgroup {
      confirmed := FinishCgroup(h, grace);
    }
  }

  /** One untracked run, from the events it hears to its report; the list of events ends
      where the queue does. The group is killed at most once, at the first event that
      calls for it, and the cgroup, if any, when the child is over; nothing is reported
      exactly when the peer closed or is lost in the drain; a confirmed report means the
      group, and the cgroup if any, was last seen gone; output is reported truncated
      exactly when the run was cancelled under a strict drain, a strict drain was ended
      early, or some pump never reported, which takes the whole drain time or all senders
      gone; and with instant calls a cancelled run reports
      within the time the caller waits. `used` counts the rounds of the strict drain. */
  method Supervise(h: Host, grace: nat, cgroup: bool, interrupt: Option<nat>, strict: bool, pumps: nat,
                   events: seq<Incoming>, rounds: seq<Round>) returns (r: End, ghost used: nat)
    requires h.log == []
    modifies h
    ensures Climbs(Signals(h.log), interrupt, grace)
    ensures Signals(h.log) != [] <==> Heeded(Heard(events)) || Ending(Heard(events))
    ensures cgroup ==> CgroupHit([], h.log)
    ensures used <= |rounds| && Reports(h.log) <= pumps
    ensures r.Silent? <==>
      || Closed in Heard(events)
      || (strict && !Heeded(Heard(events)) && used > 0 && PeerLost(rounds[used - 1]))
    ensures r.Waiting? ==> strict && !Heeded(Heard(events)) && used == |rounds| && AllCalm(rounds) && Reports(h.log) < pumps
    ensures r.Reported? ==>
      && r.report.timedOut == (TimedOut in Heard(events))
      && r.report.confirmed == ((Signals(h.log) == [] || Latest(h.log, GroupGone) == Some(true))
                                && (cgroup ==> Latest(h.log, CgroupDrained) == Some(true)))
      && r.report.status == ExitOf(events)
      && (r.report.truncated <==>
            || Reports(h.log) < pumps
            || (strict && (Heeded(Heard(events)) || !AllCalm(rounds[..used]))))
    ensures r.Reported? && Reports(h.log) < pumps ==>
      && GaveUp(h.log, h.clock)
      && (strict && !Heeded(Heard(events)) && LastCalm(rounds, used) ==> LastGone(h.log))
    ensures CgroupRemoved in h.log <==> cgroup && Latest(h.log, CgroupDrained) == Some(true)
    ensures h.Ideal() && (!strict || Heeded(Heard(events))) ==>
      h.clock + 3_500 <= old(h.clock) + CleanupTimeout(grace, interrupt, cgroup)
  {
    hide Heard, Heeded, Ending, ExitOf, Climbs, Signals, Reports, Latest, CgroupHit, AllCalm, Decisive;
    used := 0;
    var status, timedOut, beamGone, groupConfirmed, discard := Loop(h, grace, cgroup, interrupt, events);
    ghost var log := h.log;
    var cgroupConfirmed := EndCgroup(h, grace, cgroup);
    ghost var ended := h.log;
    HitAfter([], log, ended, ended);
    if beamGone {
      return Silent, used;
    }
    var truncated;
    if strict && !discard {
      var g;
      g, used := DrainStrict(h, pumps, rounds);
      HitAfter([], log, ended, h.log);
      RoundsUsed(rounds, used, g, Reports(h.log) == pumps, LastGone(h.log));
      if g.Open? {
        return Waiting, used;
      }
      if g.disappeared {
        return Silent, used;
      }
      truncated := !g.drained || g.cancelled;
    } else {
      var drained := DrainPumps(h, pumps);
      HitAfter([], log, ended, h.log);
      CalmNone(rounds);
      truncated := !drained || strict;
    }
    r := Reported(Report(status, timedOut, groupConfirmed && cgroupConfirmed, truncated));
  }

  lemma HitAfter(a: seq<Event>, b: seq<Event>, c: seq<Event>, d: seq<Event>)
    requires a <= b && b <= c && c <= d
    ensures CgroupHit(b, c) ==> CgroupHit(a, d)
  {
    if CgroupHit(b, c) {
      var k :| |b| <= k < |c| && c[k] == CgroupKilled;
      assert d[k] == CgroupKilled;
    }
  }

  lemma CalmNone(rounds: seq<Round>)
    ensures AllCalm(rounds[..0])
  {
  }

  /** The round that ended a strict drain is what shows that something did. */
  lemma RoundsUsed(rounds: seq<Round>, used: nat, g: Gate, all: bool, gone: bool)
    requires Settles(rounds, used, g, all, gone)
    ensures g.Gate? && !g.disappeared && LastCalm(rounds, used) && !all ==> gone
    ensures g.Gate? && !g.disappeared ==> ((!g.drained || g.cancelled) <==> !all || !AllCalm(rounds[..used]))
    ensures (used > 0 && PeerLost(rounds[used - 1])) <==> (g.Gate? && g.disappeared)
  {
    if used > 0 {
      assert rounds[used - 1] in rounds[..used];
      assert rounds[..used] == rounds[..used - 1] + [rounds[used - 1]];
      assert PeerLost(rounds[used - 1]) ==> !Calm(rounds[used - 1]);
    }
  }
}
