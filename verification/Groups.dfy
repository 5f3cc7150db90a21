/** Checking and stopping process groups recorded earlier: one short-lived call
    that holds nothing but the identities it was given. */
module Groups {
  import opened Process

  const POLL := 20
  const CONFIRM_WINDOW := 500

  /** A recorded group, or why it cannot be understood. Parsing only lets through
      leaders with a pid that kill(2) takes. */
  datatype Recorded = Group(identity: Identity) | Invalid
  {
    predicate Parsed() {
      Group? ==> identity.Leads() && 1 <= identity.pid <= MAX_PID
    }
  }

  datatype State = Gone | Led | Leaderless(members: seq<Identity>) | Unknown
  {
    predicate Present() {
      Led? || Leaderless?
    }
  }

  /** The system's answers, each numbered by the calls before it, and the time each
      call takes. */
  datatype Oracle = Oracle(
    earlierBoot: (nat, nat) -> Answer<bool>,
    stat: (nat, nat) -> Answer<Option<Stat>>,
    members: (nat, nat) -> Answer<seq<nat>>,
    kill: (nat, int, nat) -> bool,
    drift: nat -> nat)
  {
    function Look(t: nat, pid: nat): Answer<Option<Record>> {
      match stat(t, pid)
      case Err(f) => Err(f)
      case Ok(None) => Ok(None)
      case Ok(Some(s)) => Ok(Some(Record(Identity(pid, s.pgid, s.start), s.ppid, s.exited)))
    }
  }

  /** The call log. `Observed` and `Stage` are notes of what was concluded and begun, and
      when. */
  datatype Event =
    | Booted(earlier: Answer<bool>)
    | Listed(pgid: nat, pids: Answer<seq<nat>>)
    | Read(pid: nat, record: Answer<Option<Record>>)
    | Killed(entry: nat, target: int, signal: nat, member: Identity, ok: bool)
    | Observed(entry: nat, state: State, at: nat)
    | Stage(signal: nat, grace: nat, at: nat)

  /** The stages of a stop: each signal with the grace that follows it. */
  function Stages(interrupt: Option<nat>, term: nat): (s: seq<(nat, nat)>)
    ensures 2 <= |s| <= 3 && forall i :: 0 <= i < |s| ==> s[i].0 in {SIGINT, SIGTERM, SIGKILL}
  {
    (if interrupt.Some? then [(SIGINT, interrupt.value)] else []) + [(SIGTERM, term), (SIGKILL, CONFIRM_WINDOW)]
  }

  // ------------------------------------------------------------ what a log may hold

  function Begun(log: seq<Event>): nat {
    if log == [] then 0
    else Begun(log[..|log| - 1]) + if log[|log| - 1].Stage? then 1 else 0
  }

  /** What was last concluded about an entry. */
  function LastSeen(log: seq<Event>, entry: nat): Option<State> {
    if log == [] then None
    else
      var last := log[|log| - 1];
      if last.Observed? && last.entry == entry then Some(last.state) else LastSeen(log[..|log| - 1], entry)
  }

  predicate FoundLive(e: Event, pid: nat) {
    e.Read? && e.pid == pid && e.record.Ok? && e.record.value.Some? && !e.record.value.value.exited
  }

  /** A signal follows at once a read that authorizes it: the whole group's when the
      recorded leader itself was read alive, one member's when that member was read
      alive, unreplaced and still in the group. It carries the signal of the stage
      begun last, and no entry already seen gone or unknown is signalled. */
  ghost predicate MayKill(recorded: seq<Recorded>, stages: seq<(nat, nat)>, before: seq<Event>, e: Event)
    requires e.Killed?
  {
    && e.entry < |recorded| && recorded[e.entry].Group?
    && before != []
    && var expected, last := recorded[e.entry].identity, before[|before| - 1];
    && 1 <= Begun(before) <= |stages| && e.signal == stages[Begun(before) - 1].0
    && LastSeen(before, e.entry).Some?
    && (LastSeen(before, e.entry).value.Led? || LastSeen(before, e.entry).value.Leaderless?)
    && FoundLive(last, if e.target < 0 then expected.pid else e.member.pid)
    && var found := last.record.value.value.identity;
    if e.target < 0 then
      e.target == 0 - expected.pgid && found == expected && 1 <= expected.pgid <= MAX_PID
    else
      e.target == e.member.pid <= MAX_PID && found.SameProcess(e.member) && found.pgid == expected.pgid
  }

  predicate LiveIn(e: Event, pgid: nat) {
    e.Read? && FoundLive(e, e.pid) && e.record.value.value.identity.pgid == pgid
  }

  ghost predicate FoundIn(log: seq<Event>, from: nat, pgid: nat, m: Identity) {
    exists j :: from <= j < |log| && LiveIn(log[j], pgid) && log[j].record.value.value.identity == m
  }

  /** The processes of a listing were read in order, and all before `n` without error. */
  ghost predicate ReadInOrder(events: seq<Event>, n: nat) {
    && events != [] && events[0].Listed? && events[0].pids.Ok? && |events| <= 1 + |events[0].pids.value|
    && forall i :: 1 <= i < |events| ==>
         events[i].Read? && events[i].pid == events[0].pids.value[i - 1] && (i < n ==> events[i].record.Ok?)
  }

  /** Every process of a listing was read, in order and without error. */
  ghost predicate AllRead(events: seq<Event>) {
    ReadInOrder(events, |events|) && |events| == 1 + |events[0].pids.value|
  }

  /** The answers to a member listing say a group is in this state: unknown at the
      first answer that fails, otherwise exactly the members found alive in it. */
  ghost predicate Counted(pgid: nat, s: State, events: seq<Event>) {
    && events != []
    && events[0].Listed? && events[0].pgid == pgid
    && match s
       case Led => false
       case Unknown =>
         || (|events| == 1 && events[0].pids.Err?)
         || (|events| > 1 && ReadInOrder(events, |events| - 1) && events[|events| - 1].record.Err?)
       case Gone => AllRead(events) && forall i :: 1 <= i < |events| ==> !LiveIn(events[i], pgid)
       case Leaderless(members) =>
         && AllRead(events) && members != []
         && forall m :: m in members <==> FoundIn(events, 1, pgid, m)
  }

  /** The answers to one look say a recorded group is in this state. It is gone when
      recorded before the last boot, when another process holds its leader's pid, or
      when it has no leader and no live member; it is led when the very leader
      recorded is alive in it. A leader that exited or moved leaves the members to
      decide. */
  ghost predicate Justified(r: Recorded, s: State, events: seq<Event>) {
    if r.Invalid? then s.Unknown? && events == []
    else
      var expected := r.identity;
      && events != [] && events[0].Booted?
      && if events[0].earlier != Ok(false) then
           |events| == 1 && s == if events[0].earlier.Ok? then Gone else Unknown
         else
           && |events| >= 2 && events[1].Read? && events[1].pid == expected.pid
           && match events[1].record
              case Err(_) => s.Unknown? && |events| == 2
              case Ok(None) => Counted(expected.pgid, s, events[2..])
              case Ok(Some(leader)) =>
                if !leader.identity.SameProcess(expected) then s.Gone? && |events| == 2
                else if leader.identity == expected && !leader.exited then s.Led? && |events| == 2
                else Counted(expected.pgid, s, events[2..])
  }

  ghost predicate Allowed(recorded: seq<Recorded>, stages: seq<(nat, nat)>, before: seq<Event>, e: Event) {
    match e
    case Booted(_) => true
    case Listed(_, _) => true
    case Read(_, _) => true
    case Killed(_, _, _, _, _) => MayKill(recorded, stages, before, e)
    case Observed(entry, s, _) =>
      && entry < |recorded| && LastSeen(before, entry) != Some(Gone)
      && exists from | 0 <= from <= |before| :: Justified(recorded[entry], s, before[from..])
    case Stage(signal, grace, _) => Begun(before) < |stages| && (signal, grace) == stages[Begun(before)]
  }

  ghost predicate Lawful(recorded: seq<Recorded>, stages: seq<(nat, nat)>, log: seq<Event>) {
    forall k :: 0 <= k < |log| ==> Allowed(recorded, stages, log[..k], log[k])
  }

  /** This read shows a member of a group still itself, alive and in it. */
  predicate Verified(e: Event, m: Identity, pgid: nat) {
    && FoundLive(e, m.pid) && m.pid <= MAX_PID
    && e.record.value.value.identity.SameProcess(m) && e.record.value.value.identity.pgid == pgid
  }

  predicate LeaderFound(e: Event, expected: Identity) {
    FoundLive(e, expected.pid) && e.record.value.value.identity == expected
  }

  /** The calls that signal some members, exactly: each is read again in turn and, if
      that shows it unchanged, signalled at once. */
  ghost predicate Round(events: seq<Event>, entry: nat, pgid: nat, live: seq<Identity>, signal: nat)
    decreases |live|
  {
    if live == [] then events == []
    else
      var m, rest := live[|live| - 1], live[..|live| - 1];
      && events != []
      && var n := |events| - 1;
      if events[n].Killed? then
        && n > 0 && Verified(events[n - 1], m, pgid)
        && events[n] == Killed(entry, m.pid, signal, m, events[n].ok)
        && Round(events[..n - 1], entry, pgid, rest, signal)
      else
        && events[n].Read? && events[n].pid == m.pid && !Verified(events[n], m, pgid)
        && Round(events[..n], entry, pgid, rest, signal)
  }

  /** The members a listing showed, whose calls end at `n`, and the round among them. */
  ghost predicate FallsBack(events: seq<Event>, n: nat, s: State, entry: nat, pgid: nat, signal: nat) {
    && n <= |events| && Counted(pgid, s, events[..n])
    && Round(events[n..], entry, pgid, if s.Leaderless? then s.members else [], signal)
  }

  ghost predicate Fallback(events: seq<Event>, entry: nat, pgid: nat, signal: nat) {
    exists n: nat, s :: FallsBack(events, n, s, entry, pgid, signal)
  }

  /** The calls that signal a group whose leader was seen alive, exactly: the leader is
      read again; if it is the one recorded the whole group is signalled; and unless that
      went through, the members are listed and signalled one by one. */
  ghost predicate LedRound(events: seq<Event>, entry: nat, expected: Identity, signal: nat) {
    && events != [] && events[0].Read? && events[0].pid == expected.pid
    && if LeaderFound(events[0], expected) then
         && |events| >= 2 && events[1].Killed?
         && events[1] == Killed(entry, 0 - expected.pgid, signal, expected, events[1].ok)
         && if events[1].ok then |events| == 2 else Fallback(events[2..], entry, expected.pgid, signal)
       else
         Fallback(events[1..], entry, expected.pgid, signal)
  }

  /** What signalling one entry comes to, exactly. */
  ghost predicate Served(recorded: Recorded, state: State, events: seq<Event>, entry: nat, signal: nat) {
    if recorded.Invalid? then events == []
    else
      match state
      case Led => LedRound(events, entry, recorded.identity, signal)
      case Leaderless(members) => Round(events, entry, recorded.identity.pgid, members, signal)
      case _ => events == []
  }

  /** The signals of a stage, exactly: the first `n` entries served in order. */
  ghost predicate Rounds(recorded: seq<Recorded>, states: seq<State>, events: seq<Event>, signal: nat, n: nat)
    requires n <= |recorded| && n <= |states|
    decreases n
  {
    if n == 0 then events == []
    else
      exists k | 0 <= k <= |events| ::
        && Rounds(recorded, states, events[..k], signal, n - 1)
        && Served(recorded[n - 1], states[n - 1], events[k..], n - 1, signal)
  }

  /** A look found an entry in some state. */
  predicate Sees(e: Event, i: nat, s: State) {
    e.Observed? && e.entry == i && e.state == s
  }

  /** From one place in the log on, some look was made at this time or later. */
  ghost predicate LookedLate(log: seq<Event>, from: nat, due: nat) {
    exists k :: from <= k < |log| && log[k].Observed? && log[k].at >= due
  }

  /** Looks begin at one time, and each later one follows another within the interval. */
  ghost predicate Timely(log: seq<Event>, from: nat, start: nat) {
    forall k :: from <= k < |log| && log[k].Observed? ==> log[k].at == start || Follows(log, from, k)
  }

  ghost predicate Follows(log: seq<Event>, from: nat, k: nat)
    requires k < |log| && log[k].Observed?
  {
    exists j :: from <= j < k && log[j].Observed? && log[j].at <= log[k].at <= log[j].at + POLL
  }

  /** From one place in the log on, an entry was looked at and found as it now stands. */
  ghost predicate LookedAt(log: seq<Event>, from: nat, i: nat, s: State) {
    exists k :: from <= k < |log| && Sees(log[k], i, s)
  }

  /** States after looking again: what was gone stays so, all others date from then. */
  ghost predicate Looked(log: seq<Event>, from: nat, before: seq<State>, after: seq<State>) {
    && |after| == |before|
    && forall i :: 0 <= i < |before| ==>
         if before[i].Gone? then after[i].Gone? else LookedAt(log, from, i, after[i])
  }

  /** One stage, from its note at `k`, with its signals over at `e`, up to where the next
      began at `end`: every entry then present was served, every entry not then gone was
      looked at again after the signals, and nothing else was signalled. It ended with
      none present, or with a look when its whole grace had passed. */
  ghost predicate Staged(recorded: seq<Recorded>, log: seq<Event>, k: nat, e: nat, end: nat,
                         before: seq<State>, after: seq<State>)
  {
    && k < e <= end <= |log| && log[k].Stage? && |before| == |recorded|
    && (forall i :: 0 <= i < |recorded| ==> LastSeen(log[..k], i) == Some(before[i]))
    && (forall i :: 0 <= i < |recorded| && i < |after| ==> LastSeen(log[..end], i) == Some(after[i]))
    && Rounds(recorded, before, log[k + 1..e], log[k].signal, |recorded|)
    && Looked(log[..end], e, before, after)
    && (AnyPresent(after) ==> LookedLate(log[..end], e, log[k].at + log[k].grace))
    && (forall m :: k < m < end ==> !log[m].Stage?)
    && (forall m :: e <= m < end ==> !log[m].Killed?)
    && (end == |log| || log[end].Stage?)
  }

  /** Each stage that was begun was run: all it found present were served, and all it did
      not find gone were looked at again before the next. */
  ghost predicate Thorough(recorded: seq<Recorded>, log: seq<Event>) {
    forall k :: 0 <= k < |log| && log[k].Stage? ==> RunAt(recorded, log, k)
  }

  ghost predicate RunAt(recorded: seq<Recorded>, log: seq<Event>, k: nat) {
    exists e: nat, end: nat, before, after :: Staged(recorded, log, k, e, end, before, after)
  }

  lemma StagedStays(recorded: seq<Recorded>, log: seq<Event>, longer: seq<Event>, k: nat)
    requires log <= longer && RunAt(recorded, log, k)
    requires |log| == |longer| || longer[|log|].Stage?
    ensures RunAt(recorded, longer, k)
  {
    var e: nat, end: nat, before, after :| Staged(recorded, log, k, e, end, before, after);
    assert longer[..end] == log[..end] && longer[..k] == log[..k] && longer[k + 1..e] == log[k + 1..e];
    assert Staged(recorded, longer, k, e, end, before, after);
  }

  lemma Appended(recorded: seq<Recorded>, stages: seq<(nat, nat)>, log: seq<Event>, e: Event)
    requires Lawful(recorded, stages, log) && Allowed(recorded, stages, log, e)
    ensures Lawful(recorded, stages, log + [e])
  {
    var longer := log + [e];
    forall k | 0 <= k < |longer| ensures Allowed(recorded, stages, longer[..k], longer[k]) {
      if k < |log| {
        assert longer[..k] == log[..k];
      } else {
        assert longer[..k] == log;
      }
    }
  }

  lemma Noted(log: seq<Event>, e: Event, entry: nat)
    ensures Begun(log + [e]) == Begun(log) + if e.Stage? then 1 else 0
    ensures LastSeen(log + [e], entry) ==
            if e.Observed? && e.entry == entry then Some(e.state) else LastSeen(log, entry)
  {
    assert (log + [e])[..|log|] == log;
  }

  // ------------------------------------------------------------------- consequences

  /** Once an entry is seen gone, it is neither looked at nor signalled again, and
      gone is what it is reported as. */
  lemma {:induction false} GoneIsFinal(recorded: seq<Recorded>, stages: seq<(nat, nat)>, log: seq<Event>, k: nat,
                                       entry: nat)
    requires Lawful(recorded, stages, log) && k < |log| && Sees(log[k], entry, Gone)
    ensures LastSeen(log, entry) == Some(Gone)
    ensures forall m :: k < m < |log| && (log[m].Killed? || log[m].Observed?) ==> log[m].entry != entry
    decreases |log|
  {
    var before := log[..|log| - 1];
    assert forall m :: 0 <= m < |before| ==> before[..m] == log[..m] && before[m] == log[m];
    if k < |log| - 1 {
      GoneIsFinal(recorded, stages, before, k, entry);
      assert Allowed(recorded, stages, log[..|log| - 1], log[|log| - 1]);
    }
  }

  function Rank(signal: nat): nat {
    if signal == SIGINT then 0 else if signal == SIGTERM then 1 else 2
  }

  lemma {:induction false} BegunGrows(log: seq<Event>, k: nat)
    requires k <= |log|
    ensures Begun(log[..k]) <= Begun(log)
    decreases |log| - k
  {
    if k < |log| {
      BegunGrows(log, k + 1);
      assert log[..k + 1][..k] == log[..k];
    } else {
      assert log[..k] == log;
    }
  }

  lemma StagesRanked(interrupt: Option<nat>, term: nat, i: nat, j: nat)
    requires i <= j < |Stages(interrupt, term)|
    ensures Rank(Stages(interrupt, term)[i].0) <= Rank(Stages(interrupt, term)[j].0)
  {
  }

  /** Signals only escalate: no entry is sent an earlier stage's signal after a later
      one, and INT is sent only where it was asked for. */
  lemma SignalsEscalate(recorded: seq<Recorded>, interrupt: Option<nat>, term: nat, log: seq<Event>, j: nat, k: nat)
    requires Lawful(recorded, Stages(interrupt, term), log)
    requires j <= k < |log| && log[j].Killed? && log[k].Killed?
    ensures Rank(log[j].signal) <= Rank(log[k].signal)
    ensures log[k].signal == SIGINT ==> interrupt.Some?
  {
    assert Allowed(recorded, Stages(interrupt, term), log[..j], log[j]);
    assert Allowed(recorded, Stages(interrupt, term), log[..k], log[k]);
    BegunGrows(log[..k], j);
    assert log[..k][..j] == log[..j];
    StagesRanked(interrupt, term, Begun(log[..j]) - 1, Begun(log[..k]) - 1);
  }

  // ------------------------------------------------------------------------ the call

  class Host {
    const oracle: Oracle
    var calls: nat
    var clock: nat
    ghost var log: seq<Event>

    /** Calls take no time: what is left is sleeping. */
    ghost predicate Ideal() {
      forall t :: oracle.drift(t) == 0
    }

    constructor (oracle: Oracle)
      ensures this.oracle == oracle && log == []
    {
      this.oracle, calls, clock, log := oracle, 0, 0, [];
    }

    method Call(ghost e: Event)
      modifies this
      ensures calls == old(calls) + 1 && log == old(log) + [e]
      ensures clock >= old(clock) && (Ideal() ==> clock == old(clock))
    {
      calls, clock := calls + 1, clock + oracle.drift(calls);
      log := log + [e];
    }

    ghost method Note(e: Event)
      modifies `log
      ensures log == old(log) + [e]
    {
      log := log + [e];
    }

    method Look(pid: nat) returns (a: Answer<Option<Record>>)
      modifies this
      ensures log == old(log) + [Read(pid, a)]
      ensures a.Ok? && a.value.Some? ==> a.value.value.identity.pid == pid
      ensures clock >= old(clock) && (Ideal() ==> clock == old(clock))
    {
      a := oracle.Look(calls, pid);
      Call(Read(pid, a));
    }

    method Sleep(ms: nat)
      modifies `calls, `clock
      ensures clock >= old(clock) + ms && (Ideal() ==> clock == old(clock) + ms)
    {
      calls, clock := calls + 1, clock + ms + oracle.drift(calls);
    }
  }

  /** One request: what was recorded, its stages, and the host it runs on. `Quiet`
      says what looking around may add to the log. */
  ghost predicate Quiet(before: seq<Event>, after: seq<Event>) {
    before <= after && forall k :: |before| <= k < |after| ==> after[k].Booted? || after[k].Listed? || after[k].Read?
  }

  lemma QuietKeeps(recorded: seq<Recorded>, stages: seq<(nat, nat)>, before: seq<Event>, after: seq<Event>)
    requires Quiet(before, after) && Lawful(recorded, stages, before)
    ensures Lawful(recorded, stages, after) && Begun(after) == Begun(before)
    ensures forall entry :: LastSeen(after, entry) == LastSeen(before, entry)
    decreases |after|
  {
    if |after| > |before| {
      var shorter := after[..|after| - 1];
      assert after == shorter + [after[|after| - 1]];
      QuietKeeps(recorded, stages, before, shorter);
      Appended(recorded, stages, shorter, after[|after| - 1]);
      forall entry ensures LastSeen(after, entry) == LastSeen(before, entry) {
        Noted(shorter, after[|after| - 1], entry);
      }
      Noted(shorter, after[|after| - 1], 0);
    } else {
      assert after == before;
    }
  }

  /** The live members of a group, each read once; any unreadable one leaves the
      group unknown. */
  method Members(h: Host, pgid: nat) returns (s: State)
    modifies h
    ensures Quiet(old(h.log), h.log) && Counted(pgid, s, h.log[|old(h.log)|..])
    ensures h.clock >= old(h.clock) && (h.Ideal() ==> h.clock == old(h.clock))
  {
    var pids := h.oracle.members(h.calls, pgid);
    h.Call(Listed(pgid, pids));
    if pids.Err? {
      return Unknown;
    }
    var live: seq<Identity> := [];
    ghost var start := |h.log|;
    for i := 0 to |pids.value|
      invariant Quiet(old(h.log), h.log) && |h.log| == start + i && start == |old(h.log)| + 1
      invariant h.log[start - 1] == Listed(pgid, pids)
      invariant forall j :: start <= j < start + i ==>
        h.log[j].Read? && h.log[j].pid == pids.value[j - start] && h.log[j].record.Ok?
      invariant forall m :: m in live <==> FoundIn(h.log, start, pgid, m)
      invariant h.clock >= old(h.clock) && (h.Ideal() ==> h.clock == old(h.clock))
    {
      ghost var before := h.log;
      var a := h.Look(pids.value[i]);
      if a.Err? {
        return Unknown;
      }
      FoundMore(before, Read(pids.value[i], a), start, pgid);
      if a.value.Some? && a.value.value.identity.pgid == pgid && !a.value.value.exited {
        live := live + [a.value.value.identity];
      }
    }
    s := if live == [] then Gone else Leaderless(live);
    CountedUp(pgid, pids.value, live, h.log, start);
  }

  lemma CountedUp(pgid: nat, pids: seq<nat>, live: seq<Identity>, log: seq<Event>, start: nat)
    requires 1 <= start <= |log| == start + |pids| && log[start - 1] == Listed(pgid, Ok(pids))
    requires forall j :: start <= j < |log| ==> log[j].Read? && log[j].pid == pids[j - start] && log[j].record.Ok?
    requires forall m :: m in live <==> FoundIn(log, start, pgid, m)
    ensures Counted(pgid, if live == [] then Gone else Leaderless(live), log[start - 1..])
  {
    var events := log[start - 1..];
    assert forall i :: 1 <= i < |events| ==> events[i] == log[start - 1 + i];
    forall m ensures m in live <==> FoundIn(events, 1, pgid, m) {
      if FoundIn(log, start, pgid, m) {
        var j :| start <= j < |log| && LiveIn(log[j], pgid) && log[j].record.value.value.identity == m;
        assert events[j - start + 1] == log[j];
      }
      if FoundIn(events, 1, pgid, m) {
        var i :| 1 <= i < |events| && LiveIn(events[i], pgid) && events[i].record.value.value.identity == m;
        assert log[start - 1 + i] == events[i];
      }
    }
    forall i | 1 <= i < |events| && LiveIn(events[i], pgid) ensures live != [] {
      assert FoundIn(events, 1, pgid, events[i].record.value.value.identity);
    }
  }

  lemma FoundMore(log: seq<Event>, e: Event, start: nat, pgid: nat)
    requires start <= |log|
    ensures forall m :: FoundIn(log + [e], start, pgid, m) <==>
              FoundIn(log, start, pgid, m) || (LiveIn(e, pgid) && e.record.value.value.identity == m)
  {
    var longer := log + [e];
    forall m
      ensures FoundIn(longer, start, pgid, m) <==>
              FoundIn(log, start, pgid, m) || (LiveIn(e, pgid) && e.record.value.value.identity == m)
    {
      if FoundIn(log, start, pgid, m) {
        var j :| start <= j < |log| && LiveIn(log[j], pgid) && log[j].record.value.value.identity == m;
        assert longer[j] == log[j];
      }
      if LiveIn(e, pgid) && e.record.value.value.identity == m {
        assert longer[|log|] == e;
      }
    }
  }

  lemma JustifiedBy(r: Recorded, s: State, log: seq<Event>, from: nat)
    requires r.Group? && from + 2 <= |log| && log[from] == Booted(Ok(false)) && log[from + 1].Read?
    requires log[from + 1].pid == r.identity.pid && log[from + 1].record.Ok?
    requires var leader := log[from + 1].record.value;
             leader.Some? ==> leader.value.identity.SameProcess(r.identity)
                              && (leader.value.identity != r.identity || leader.value.exited)
    requires Counted(r.identity.pgid, s, log[from + 2..])
    ensures Justified(r, s, log[from..])
  {
    hide Counted;
    var events := log[from..];
    assert events[0] == log[from] && events[1] == log[from + 1];
    assert events[2..] == log[from + 2..];
  }

  /** Looks at a recorded group once, without signalling it. */
  method Look(h: Host, r: Recorded) returns (s: State)
    modifies h
    ensures Quiet(old(h.log), h.log) && Justified(r, s, h.log[|old(h.log)|..])
    ensures s.Present() ==> r.Group?
    ensures h.clock >= old(h.clock) && (h.Ideal() ==> h.clock == old(h.clock))
  {
    hide Counted;
    ghost var from := |h.log|;
    if r.Invalid? {
      return Unknown;
    }
    var expected := r.identity;
    var earlier := h.oracle.earlierBoot(h.calls, expected.start);
    h.Call(Booted(earlier));
    assert h.log[from..] == [Booted(earlier)];
    if earlier.Err? {
      return Unknown;
    }
    if earlier.value {
      return Gone;
    }
    var a := h.Look(expected.pid);
    assert h.log[from..] == [Booted(earlier), Read(expected.pid, a)];
    match a
    case Err(_) => s := Unknown;
    case Ok(None) =>
      s := Members(h, expected.pgid);
      JustifiedBy(r, s, h.log, from);
    case Ok(Some(leader)) =>
      if !leader.identity.SameProcess(expected) {
        s := Gone;
      } else if leader.identity.pgid == expected.pgid && !leader.exited {
        s := Led;
      } else {
        // The leader's pid is still held, so the group id still names this group.
        s := Members(h, expected.pgid);
        JustifiedBy(r, s, h.log, from);
      }
  }

  /** The state of a request under way: lawful so far, with each entry's state the one
      last concluded. */
  ghost predicate Current(recorded: seq<Recorded>, stages: seq<(nat, nat)>, log: seq<Event>, states: seq<State>) {
    && Lawful(recorded, stages, log)
    && |states| == |recorded|
    && (forall i :: 0 <= i < |states| ==> LastSeen(log, i) == Some(states[i]))
  }

  lemma StaysCurrent(recorded: seq<Recorded>, stages: seq<(nat, nat)>, before: seq<Event>, after: seq<Event>,
                     states: seq<State>)
    requires Current(recorded, stages, before, states) && Quiet(before, after)
    ensures Current(recorded, stages, after, states) && Begun(after) == Begun(before)
  {
    QuietKeeps(recorded, stages, before, after);
  }

  /** Reading the recorded leader alive lets its group be signalled. */
  lemma MayKillGroup(recorded: seq<Recorded>, stages: seq<(nat, nat)>, log: seq<Event>, states: seq<State>, entry: nat,
                     signal: nat, a: Answer<Option<Record>>, ok: bool)
    requires Current(recorded, stages, log, states) && 1 <= Begun(log) <= |stages|
    requires entry < |recorded| && recorded[entry].Group? && recorded[entry].Parsed() && states[entry].Present()
    requires signal == stages[Begun(log) - 1].0
    requires log != [] && log[|log| - 1] == Read(recorded[entry].identity.pid, a)
    requires a.Ok? && a.value.Some? && a.value.value.identity == recorded[entry].identity && !a.value.value.exited
    ensures MayKill(recorded, stages, log, Killed(entry, 0 - recorded[entry].identity.pgid, signal, recorded[entry].identity, ok))
  {
    hide Lawful, LastSeen, Begun;
    assert LastSeen(log, entry) == Some(states[entry]);
  }

  lemma MayKillMember(recorded: seq<Recorded>, stages: seq<(nat, nat)>, log: seq<Event>, states: seq<State>, entry: nat,
                      signal: nat, member: Identity, a: Answer<Option<Record>>, ok: bool)
    requires Current(recorded, stages, log, states) && 1 <= Begun(log) <= |stages|
    requires entry < |recorded| && recorded[entry].Group? && states[entry].Present()
    requires signal == stages[Begun(log) - 1].0
    requires log != [] && log[|log| - 1] == Read(member.pid, a) && member.pid <= MAX_PID
    requires a.Ok? && a.value.Some? && !a.value.value.exited
    requires a.value.value.identity.SameProcess(member) && a.value.value.identity.pgid == recorded[entry].identity.pgid
    ensures MayKill(recorded, stages, log, Killed(entry, member.pid, signal, member, ok))
  {
    hide Lawful, LastSeen, Begun;
    assert LastSeen(log, entry) == Some(states[entry]);
  }

  lemma Sent(recorded: seq<Recorded>, stages: seq<(nat, nat)>, log: seq<Event>, states: seq<State>, e: Event)
    requires Current(recorded, stages, log, states) && e.Killed? && MayKill(recorded, stages, log, e)
    ensures Current(recorded, stages, log + [e], states) && Begun(log + [e]) == Begun(log)
  {
    Appended(recorded, stages, log, e);
    forall i | 0 <= i < |states| ensures LastSeen(log + [e], i) == Some(states[i]) {
      Noted(log, e, i);
    }
    Noted(log, e, 0);
  }

  lemma RoundSkips(events: seq<Event>, entry: nat, pgid: nat, live: seq<Identity>, signal: nat, m: Identity, e: Event)
    requires Round(events, entry, pgid, live, signal) && e.Read? && e.pid == m.pid && !Verified(e, m, pgid)
    ensures Round(events + [e], entry, pgid, live + [m], signal)
  {
    assert (live + [m])[..|live|] == live && (events + [e])[..|events|] == events;
  }

  lemma RoundSends(events: seq<Event>, entry: nat, pgid: nat, live: seq<Identity>, signal: nat, m: Identity, e: Event,
                   ok: bool)
    requires Round(events, entry, pgid, live, signal) && e.Read? && e.pid == m.pid && Verified(e, m, pgid)
    ensures Round(events + [e, Killed(entry, m.pid, signal, m, ok)], entry, pgid, live + [m], signal)
  {
    var more := events + [e, Killed(entry, m.pid, signal, m, ok)];
    assert (live + [m])[..|live|] == live && more[..|more| - 2] == events;
  }

  /** Signals one member if it still reads back as recorded. */
  method SignalMember(h: Host, recorded: seq<Recorded>, stages: seq<(nat, nat)>, states: seq<State>, entry: nat,
                      m: Identity, signal: nat)
    requires Current(recorded, stages, h.log, states) && 1 <= Begun(h.log) <= |stages|
    requires signal == stages[Begun(h.log) - 1].0
    requires entry < |recorded| && recorded[entry].Group? && states[entry].Present()
    modifies h
    ensures Current(recorded, stages, h.log, states) && Begun(h.log) == old(Begun(h.log))
    ensures old(h.log) <= h.log
    ensures Round(h.log[|old(h.log)|..], entry, recorded[entry].identity.pgid, [m], signal)
    ensures h.clock >= old(h.clock) && (h.Ideal() ==> h.clock == old(h.clock))
  {
    hide Lawful, Current, MayKill, LastSeen, Round, Begun;
    var pgid := recorded[entry].identity.pgid;
    ghost var before := h.log;
    RoundNothing(entry, pgid, signal);
    var a := h.Look(m.pid);
    StaysCurrent(recorded, stages, before, h.log, states);
    var verified := a.Ok? && a.value.Some? && a.value.value.identity.SameProcess(m)
                    && a.value.value.identity.pgid == pgid && !a.value.value.exited && m.pid <= MAX_PID;
    if verified {
      var ok := h.oracle.kill(h.calls, m.pid, signal);
      MayKillMember(recorded, stages, h.log, states, entry, signal, m, a, ok);
      ghost var e := Killed(entry, m.pid, signal, m, ok);
      Sent(recorded, stages, h.log, states, e);
      h.Call(e);
      RoundSends([], entry, pgid, [], signal, m, Read(m.pid, a), ok);
      assert h.log[|before|..] == [] + [Read(m.pid, a), e];
    } else {
      RoundSkips([], entry, pgid, [], signal, m, Read(m.pid, a));
      assert h.log[|before|..] == [] + [Read(m.pid, a)];
    }
    assert [] + [m] == [m];
  }

  /** Signals each member that still reads back as recorded. */
  method SignalMembers(h: Host, recorded: seq<Recorded>, stages: seq<(nat, nat)>, states: seq<State>, entry: nat,
                       live: seq<Identity>, signal: nat)
    requires Current(recorded, stages, h.log, states) && 1 <= Begun(h.log) <= |stages|
    requires signal == stages[Begun(h.log) - 1].0
    requires entry < |recorded| && recorded[entry].Group? && states[entry].Present()
    modifies h
    ensures Current(recorded, stages, h.log, states) && Begun(h.log) == old(Begun(h.log))
    ensures old(h.log) <= h.log
    ensures Round(h.log[|old(h.log)|..], entry, recorded[entry].identity.pgid, live, signal)
    ensures h.clock >= old(h.clock) && (h.Ideal() ==> h.clock == old(h.clock))
  {
    hide Lawful, Current, MayKill, LastSeen, Round, Begun;
    var pgid := recorded[entry].identity.pgid;
    ghost var from := |h.log|;
    RoundNothing(entry, pgid, signal);
    assert h.log[from..] == [];
    for i := 0 to |live|
      invariant old(h.log) <= h.log
      invariant Round(h.log[from..], entry, pgid, live[..i], signal)
      invariant Current(recorded, stages, h.log, states) && Begun(h.log) == old(Begun(h.log))
      invariant h.clock >= old(h.clock) && (h.Ideal() ==> h.clock == old(h.clock))
    {
      ghost var before := h.log;
      SignalMember(h, recorded, stages, states, entry, live[i], signal);
      RoundMore(before[from..], h.log[|before|..], entry, pgid, live[..i], live[i], signal);
      assert h.log[from..] == before[from..] + h.log[|before|..] && live[..i + 1] == live[..i] + [live[i]];
    }
    assert live[..|live|] == live;
  }

  lemma RoundMore(events: seq<Event>, more: seq<Event>, entry: nat, pgid: nat, live: seq<Identity>, m: Identity,
                  signal: nat)
    requires Round(events, entry, pgid, live, signal) && Round(more, entry, pgid, [m], signal)
    ensures Round(events + more, entry, pgid, live + [m], signal)
  {
    assert [m][..0] == [];
    if more[|more| - 1].Killed? {
      assert more == [more[0], more[1]];
      RoundSends(events, entry, pgid, live, signal, m, more[0], more[1].ok);
    } else {
      assert more == [more[0]];
      RoundSkips(events, entry, pgid, live, signal, m, more[0]);
    }
  }

  lemma RoundNothing(entry: nat, pgid: nat, signal: nat)
    ensures Round([], entry, pgid, [], signal)
  {
  }

  /** Lists the members of a group and signals each that still reads back. */
  method SignalListed(h: Host, recorded: seq<Recorded>, stages: seq<(nat, nat)>, states: seq<State>, entry: nat,
                      signal: nat)
    requires Current(recorded, stages, h.log, states) && 1 <= Begun(h.log) <= |stages|
    requires signal == stages[Begun(h.log) - 1].0
    requires entry < |recorded| == |states| && recorded[entry].Group? && states[entry].Present()
    modifies h
    ensures Current(recorded, stages, h.log, states) && Begun(h.log) == old(Begun(h.log))
    ensures old(h.log) <= h.log
    ensures Fallback(h.log[|old(h.log)|..], entry, recorded[entry].identity.pgid, signal)
    ensures h.clock >= old(h.clock) && (h.Ideal() ==> h.clock == old(h.clock))
  {
    hide Lawful, Current, MayKill, Counted, LastSeen, Begun, Round;
    var pgid := recorded[entry].identity.pgid;
    ghost var start := h.log;
    var s := Members(h, pgid);
    StaysCurrent(recorded, stages, start, h.log, states);
    ghost var listed := h.log;
    if s.Leaderless? {
      SignalMembers(h, recorded, stages, states, entry, s.members, signal);
    } else {
      RoundNothing(entry, pgid, signal);
    }
    ghost var events, n := h.log[|start|..], |listed| - |start|;
    assert events[..n] == listed[|start|..] && events[n..] == h.log[|listed|..];
    assert FallsBack(events, n, s, entry, pgid, signal);
  }

  /** Signals a group whose leader was seen alive: the whole group if the leader still
      reads back as recorded, otherwise, or if that is refused, its members. */
  method SignalLed(h: Host, recorded: seq<Recorded>, stages: seq<(nat, nat)>, states: seq<State>, entry: nat,
                   signal: nat)
    requires Current(recorded, stages, h.log, states) && 1 <= Begun(h.log) <= |stages|
    requires signal == stages[Begun(h.log) - 1].0
    requires entry < |recorded| == |states| && recorded[entry].Group? && recorded[entry].Parsed() && states[entry].Led?
    modifies h
    ensures Current(recorded, stages, h.log, states) && Begun(h.log) == old(Begun(h.log))
    ensures old(h.log) <= h.log && LedRound(h.log[|old(h.log)|..], entry, recorded[entry].identity, signal)
    ensures h.clock >= old(h.clock) && (h.Ideal() ==> h.clock == old(h.clock))
  {
    hide Lawful, Current, MayKill, LastSeen, Fallback, Begun;
    var expected := recorded[entry].identity;
    ghost var start := h.log;
    var a := h.Look(expected.pid);
    StaysCurrent(recorded, stages, start, h.log, states);
    if a.Ok? && a.value.Some? && a.value.value.identity == expected && !a.value.value.exited {
      var ok := h.oracle.kill(h.calls, 0 - expected.pgid, signal);
      ghost var e := Killed(entry, 0 - expected.pgid, signal, expected, ok);
      MayKillGroup(recorded, stages, h.log, states, entry, signal, a, ok);
      Sent(recorded, stages, h.log, states, e);
      h.Call(e);
      if ok {
        assert h.log[|start|..] == [Read(expected.pid, a), e];
        return;
      }
    }
    // A refusal, or a leader that no longer reads back: fall through to the members.
    ghost var before := h.log;
    SignalListed(h, recorded, stages, states, entry, signal);
    ghost var events, n := h.log[|start|..], |before| - |start|;
    assert events[n..] == h.log[|before|..] && events[..n] == before[|start|..];
    assert events[0] == before[|start|];
  }

  /** Signals a present group after verifying it again. The next look decides what
      became of it. */
  method Signal(h: Host, recorded: seq<Recorded>, stages: seq<(nat, nat)>, states: seq<State>, entry: nat, signal: nat)
    requires Current(recorded, stages, h.log, states) && 1 <= Begun(h.log) <= |stages|
    requires signal == stages[Begun(h.log) - 1].0
    requires entry < |recorded| == |states| && recorded[entry].Group? && recorded[entry].Parsed() && states[entry].Present()
    modifies h
    ensures Current(recorded, stages, h.log, states) && Begun(h.log) == old(Begun(h.log))
    ensures old(h.log) <= h.log && Served(recorded[entry], states[entry], h.log[|old(h.log)|..], entry, signal)
    ensures h.clock >= old(h.clock) && (h.Ideal() ==> h.clock == old(h.clock))
  {
    hide Lawful, Current, Round, LedRound, Begun;
    if states[entry].Leaderless? {
      SignalMembers(h, recorded, stages, states, entry, states[entry].members, signal);
    } else {
      SignalLed(h, recorded, stages, states, entry, signal);
    }
  }

  // ----------------------------------------------------- what a fallback comes to

  /** Where the reads among some events stand, in order. */
  function Reads(events: seq<Event>): (at: seq<nat>)
    ensures forall i :: 0 <= i < |at| ==> at[i] < |events| && events[at[i]].Read?
  {
    if events == [] then []
    else
      var n := |events| - 1;
      Reads(events[..n]) + if events[n].Read? then [n] else []
  }

  /** The event after one of the reads is the signal to the member it was for. */
  ghost predicate SentAfter(events: seq<Event>, k: nat, entry: nat, m: Identity, signal: nat) {
    && k + 1 < |events| && events[k + 1].Killed?
    && events[k + 1] == Killed(entry, m.pid, signal, m, events[k + 1].ok)
  }

  /** Each member has one read, its own, and is signalled right after it exactly when
      that read shows it still itself, alive and in the group. */
  ghost predicate Paired(events: seq<Event>, entry: nat, pgid: nat, live: seq<Identity>, signal: nat) {
    && |Reads(events)| == |live|
    && forall i :: 0 <= i < |live| ==>
         && events[Reads(events)[i]].pid == live[i].pid
         && (Verified(events[Reads(events)[i]], live[i], pgid) <==>
             SentAfter(events, Reads(events)[i], entry, live[i], signal))
  }

  /** The member at `i` was signalled, and that is the event at `k`. */
  ghost predicate Struck(events: seq<Event>, entry: nat, live: seq<Identity>, signal: nat, i: nat, k: nat) {
    && i < |Reads(events)| && i < |live| && Reads(events)[i] + 1 == k
    && SentAfter(events, Reads(events)[i], entry, live[i], signal)
  }

  /** Every signal among some events is one of those to the members. */
  ghost predicate OnlyMembers(events: seq<Event>, entry: nat, live: seq<Identity>, signal: nat) {
    forall k :: 0 <= k < |events| && events[k].Killed? ==> exists i :: Struck(events, entry, live, signal, i, k)
  }

  /** A round is exact: a member is signalled just when its own read shows it still
      itself, alive and in the group, and nothing else is signalled. */
  lemma {:induction false} RoundExact(events: seq<Event>, entry: nat, pgid: nat, live: seq<Identity>, signal: nat)
    requires Round(events, entry, pgid, live, signal)
    ensures Paired(events, entry, pgid, live, signal) && OnlyMembers(events, entry, live, signal)
    decreases |live|
  {
    hide FoundLive, Paired, OnlyMembers, Reads;
    if live == [] {
      NothingPaired(entry, pgid, signal);
    } else {
      var n := |events| - 1;
      var cut := if events[n].Killed? then n - 1 else n;
      RoundExact(events[..cut], entry, pgid, live[..|live| - 1], signal);
      ReadLive(events[cut], live[|live| - 1].pid);
      PairedMore(events, cut, entry, pgid, live, signal);
      OnlyMore(events, cut, entry, pgid, live, signal);
    }
  }

  lemma ReadLive(e: Event, pid: nat)
    ensures FoundLive(e, pid) ==> e.Read? && e.pid == pid
  {
  }

  lemma NothingPaired(entry: nat, pgid: nat, signal: nat)
    ensures Paired([], entry, pgid, [], signal) && OnlyMembers([], entry, [], signal)
  {
  }

  /** A round's last read, at `cut`, with the signal that may follow it. */
  ghost predicate Ends(events: seq<Event>, cut: nat, entry: nat, m: Identity, signal: nat) {
    && cut < |events| && events[cut].Read? && events[cut].pid == m.pid
    && (|events| == cut + 1 || (|events| == cut + 2 && SentAfter(events, cut, entry, m, signal)))
  }

  lemma PairedMore(events: seq<Event>, cut: nat, entry: nat, pgid: nat, live: seq<Identity>, signal: nat)
    requires live != [] && Ends(events, cut, entry, live[|live| - 1], signal)
    requires Verified(events[cut], live[|live| - 1], pgid) <==> |events| == cut + 2
    requires Paired(events[..cut], entry, pgid, live[..|live| - 1], signal)
    ensures Paired(events, entry, pgid, live, signal)
  {
    hide Verified, Reads;
    var fewer, rest := events[..cut], live[..|live| - 1];
    ReadsGrow(events, cut);
    forall i | 0 <= i < |live|
      ensures events[Reads(events)[i]].pid == live[i].pid
      ensures Verified(events[Reads(events)[i]], live[i], pgid) <==> SentAfter(events, Reads(events)[i], entry, live[i], signal)
    {
      if i < |rest| {
        var k := Reads(fewer)[i];
        assert Reads(events)[i] == k && fewer[k] == events[k] && live[i] == rest[i];
        if k + 1 < cut {
          assert fewer[k + 1] == events[k + 1];
        }
      }
    }
  }

  lemma OnlyMore(events: seq<Event>, cut: nat, entry: nat, pgid: nat, live: seq<Identity>, signal: nat)
    requires live != [] && Ends(events, cut, entry, live[|live| - 1], signal)
    requires Paired(events[..cut], entry, pgid, live[..|live| - 1], signal)
    requires OnlyMembers(events[..cut], entry, live[..|live| - 1], signal)
    ensures OnlyMembers(events, entry, live, signal)
  {
    hide Reads, Verified;
    var fewer, rest := events[..cut], live[..|live| - 1];
    ReadsGrow(events, cut);
    forall k | 0 <= k < |events| && events[k].Killed? ensures exists i :: Struck(events, entry, live, signal, i, k) {
      if k < cut {
        assert fewer[k] == events[k];
        var i :| Struck(fewer, entry, rest, signal, i, k);
        assert Struck(events, entry, live, signal, i, k);
      } else {
        assert Struck(events, entry, live, signal, |rest|, k);
      }
    }
  }

  lemma ReadsGrow(events: seq<Event>, cut: nat)
    requires cut < |events| && events[cut].Read?
    requires cut + 1 == |events| || (cut + 2 == |events| && events[cut + 1].Killed?)
    ensures Reads(events) == Reads(events[..cut]) + [cut]
  {
    if cut + 2 == |events| {
      assert events[..cut + 1][..cut] == events[..cut];
    }
  }

  /** The group as a whole was signalled, and the system took it. */
  ghost predicate WentThrough(events: seq<Event>, expected: Identity) {
    |events| >= 2 && LeaderFound(events[0], expected) && events[1].Killed? && events[1].ok
  }

  /** The members a listing found alive. */
  function Shown(s: State): seq<Identity> {
    if s.Leaderless? then s.members else []
  }

  /** From one event to another the members were counted, and from there on each that
      was found alive was signalled exactly when its own read still allowed it. */
  ghost predicate MembersOnly(events: seq<Event>, from: nat, n: nat, s: State, entry: nat, pgid: nat, signal: nat) {
    && from <= n <= |events| && Counted(pgid, s, events[from..n])
    && Paired(events[n..], entry, pgid, Shown(s), signal) && OnlyMembers(events[n..], entry, Shown(s), signal)
  }

  /** None of the members' own reads still allows a signal. */
  ghost predicate NoneVerified(events: seq<Event>, pgid: nat, live: seq<Identity>) {
    forall i :: 0 <= i < |live| && i < |Reads(events)| ==> !Verified(events[Reads(events)[i]], live[i], pgid)
  }

  ghost predicate NoneSignalled(events: seq<Event>) {
    forall k :: 0 <= k < |events| ==> !events[k].Killed?
  }

  /** When a group seen led is not signalled as a whole, because its leader no longer
      reads back or the system refused, a process is signalled on its behalf exactly when
      a listing then shows it alive in the group and its own read, after that, shows it
      still itself, alive and in it. So none is signalled exactly when no such read does.
      When the group is signalled as a whole, no process is signalled by itself. */
  lemma FallbackExact(events: seq<Event>, entry: nat, expected: Identity, signal: nat)
    requires LedRound(events, entry, expected, signal)
    ensures WentThrough(events, expected) ==> |events| == 2
    ensures !WentThrough(events, expected) ==>
              exists n: nat, s ::
                && MembersOnly(events, if LeaderFound(events[0], expected) then 2 else 1, n, s, entry, expected.pgid, signal)
                && (NoneSignalled(events[if LeaderFound(events[0], expected) then 2 else 1..]) <==>
                    NoneVerified(events[n..], expected.pgid, Shown(s)))
  {
    hide Counted, Round, Paired, OnlyMembers, MembersOnly, NoneSignalled, NoneVerified, Reads, LeaderFound;
    if !WentThrough(events, expected) {
      var from := if LeaderFound(events[0], expected) then 2 else 1;
      assert Fallback(events[from..], entry, expected.pgid, signal);
      var n, s := FallbackDivides(events, from, entry, expected.pgid, signal);
    }
  }

  lemma FallbackDivides(events: seq<Event>, from: nat, entry: nat, pgid: nat, signal: nat) returns (n: nat, s: State)
    requires from <= |events| && Fallback(events[from..], entry, pgid, signal)
    ensures MembersOnly(events, from, n, s, entry, pgid, signal)
    ensures NoneSignalled(events[from..]) <==> NoneVerified(events[n..], pgid, Shown(s))
  {
    hide Counted, Round, Paired, OnlyMembers, NoneSignalled, NoneVerified, Reads;
    var rest := events[from..];
    var k: nat;
    k, s :| FallsBack(rest, k, s, entry, pgid, signal);
    n := from + k;
    assert events[n..] == rest[k..] && events[from..n] == rest[..k];
    RoundExact(rest[k..], entry, pgid, Shown(s), signal);
    CountingQuiet(pgid, s, rest[..k]);
    NoneEither(rest, k, entry, pgid, Shown(s), signal);
  }

  lemma CountingQuiet(pgid: nat, s: State, events: seq<Event>)
    requires Counted(pgid, s, events)
    ensures NoneSignalled(events)
  {
  }

  lemma NoneEither(rest: seq<Event>, n: nat, entry: nat, pgid: nat, live: seq<Identity>, signal: nat)
    requires n <= |rest| && NoneSignalled(rest[..n])
    requires Paired(rest[n..], entry, pgid, live, signal) && OnlyMembers(rest[n..], entry, live, signal)
    ensures NoneSignalled(rest) <==> NoneVerified(rest[n..], pgid, live)
  {
    hide Reads, Verified;
    var events := rest[n..];
    if NoneSignalled(rest) {
      forall i | 0 <= i < |live| ensures !Verified(events[Reads(events)[i]], live[i], pgid) {
        var k := Reads(events)[i] + 1;
        assert k < |events| ==> events[k] == rest[n + k];
      }
    } else {
      var k :| 0 <= k < |rest| && rest[k].Killed?;
      assert events[k - n] == rest[k];
      var i: nat :| Struck(events, entry, live, signal, i, k - n);
      assert Verified(events[Reads(events)[i]], live[i], pgid);
    }
  }

  /** A lawful run in which a group is seen led, its leader is gone when read again, and
      a process of it is signalled all the same: so it is the group-wide signal alone
      that always has the recorded leader behind it. */
  lemma SignalledWithoutLeader()
    ensures var leader, m := Identity(5, 5, 1), Identity(6, 5, 2);
            var alive := Ok(Some(Record(m, 1, false)));
            var led := [Read(5, Ok(None)), Listed(5, Ok([6])), Read(6, alive), Read(6, alive), Killed(0, 6, SIGTERM, m, true)];
            var log := [Booted(Ok(false)), Read(5, Ok(Some(Record(leader, 1, false)))), Observed(0, Led, 0), Stage(SIGTERM, 0, 0)] + led;
            && Lawful([Group(leader)], Stages(None, 0), log)
            && LedRound(led, 0, leader, SIGTERM) && !LeaderFound(led[0], leader)
  {
    hide Fallback, Lawful, Begun, LastSeen;
    var leader, m := Identity(5, 5, 1), Identity(6, 5, 2);
    var recorded, stages := [Group(leader)], Stages(None, 0);
    var alive: Answer<Option<Record>> := Ok(Some(Record(m, 1, false)));
    var begun: seq<Event> :=
      [Booted(Ok(false)), Read(5, Ok(Some(Record(leader, 1, false)))), Observed(0, Led, 0), Stage(SIGTERM, 0, 0)];
    var listing: seq<Event> := [Listed(5, Ok([6])), Read(6, alive)];
    var kill := Killed(0, 6, SIGTERM, m, true);
    var before := begun + [Read(5, Ok(None))] + listing + [Read(6, alive)];
    assert Quiet(begun, before);
    SeenLed(leader, begun);
    QuietKeeps(recorded, stages, begun, before);
    Appended(recorded, stages, before, kill);
    MembersSeen(m, listing, kill);
    var led := [Read(5, Ok(None))] + listing + [Read(6, alive), kill];
    assert led[1..] == listing + [Read(6, alive), kill];
    assert begun + led == before + [kill];
    assert led == [Read(5, Ok(None)), Listed(5, Ok([6])), Read(6, alive), Read(6, alive), kill];
  }

  lemma SeenLed(leader: Identity, begun: seq<Event>)
    requires leader == Identity(5, 5, 1)
    requires begun == [Booted(Ok(false)), Read(5, Ok(Some(Record(leader, 1, false)))), Observed(0, Led, 0), Stage(SIGTERM, 0, 0)]
    ensures Lawful([Group(leader)], Stages(None, 0), begun) && Begun(begun) == 1 && LastSeen(begun, 0) == Some(Led)
  {
    var recorded, stages := [Group(leader)], Stages(None, 0);
    var look := begun[..2];
    var looked := look + [Observed(0, Led, 0)];
    assert Quiet([], look) && look == [begun[0], begun[1]];
    QuietKeeps(recorded, stages, [], look);
    assert Justified(recorded[0], Led, look[0..]);
    Appended(recorded, stages, look, Observed(0, Led, 0));
    Noted(look, Observed(0, Led, 0), 0);
    Appended(recorded, stages, looked, Stage(SIGTERM, 0, 0));
    Noted(looked, Stage(SIGTERM, 0, 0), 0);
    assert begun == looked + [Stage(SIGTERM, 0, 0)];
  }

  lemma MembersSeen(m: Identity, listing: seq<Event>, kill: Event)
    requires m == Identity(6, 5, 2) && kill == Killed(0, 6, SIGTERM, m, true)
    requires listing == [Listed(5, Ok([6])), Read(6, Ok(Some(Record(m, 1, false))))]
    ensures Fallback(listing + [listing[1], kill], 0, 5, SIGTERM)
  {
    var events, s := listing + [listing[1], kill], Leaderless([m]);
    assert LiveIn(listing[1], 5);
    forall x ensures x in [m] <==> FoundIn(listing, 1, 5, x) {
      if x == m {
        assert LiveIn(listing[1], 5) && listing[1].record.value.value.identity == x;
      }
    }
    RoundNothing(0, 5, SIGTERM);
    RoundSends([], 0, 5, [], SIGTERM, m, listing[1], true);
    assert events[..2] == listing && events[2..] == [] + [listing[1], kill] && [] + [m] == [m];
    assert FallsBack(events, 2, s, 0, 5, SIGTERM);
  }

  lemma MayConclude(recorded: seq<Recorded>, stages: seq<(nat, nat)>, log: seq<Event>, i: nat, s: State, at: nat)
    requires i < |recorded| && LastSeen(log, i) != Some(Gone)
    requires exists from | 0 <= from <= |log| :: Justified(recorded[i], s, log[from..])
    ensures Allowed(recorded, stages, log, Observed(i, s, at))
  {
  }

  lemma Concluded(recorded: seq<Recorded>, stages: seq<(nat, nat)>, log: seq<Event>, states: seq<State>, i: nat, s: State,
                  at: nat)
    requires Lawful(recorded, stages, log) && i < |states| <= |recorded| && LastSeen(log, i) != Some(Gone)
    requires exists from | 0 <= from <= |log| :: Justified(recorded[i], s, log[from..])
    requires forall j :: 0 <= j < |states| && j != i ==> LastSeen(log, j) == Some(states[j])
    ensures Lawful(recorded, stages, log + [Observed(i, s, at)]) && Begun(log + [Observed(i, s, at)]) == Begun(log)
    ensures forall j :: 0 <= j < |states| ==> LastSeen(log + [Observed(i, s, at)], j) == Some(states[i := s][j])
    ensures forall j :: j >= |states| ==> LastSeen(log + [Observed(i, s, at)], j) == LastSeen(log, j)
  {
    hide Lawful, Justified;
    MayConclude(recorded, stages, log, i, s, at);
    Appended(recorded, stages, log, Observed(i, s, at));
    forall j ensures LastSeen(log + [Observed(i, s, at)], j) == if i == j then Some(s) else LastSeen(log, j) {
      Noted(log, Observed(i, s, at), j);
    }
    Noted(log, Observed(i, s, at), 0);
  }

  /** Nothing was signalled and no stage begun between one log and a longer one. */
  ghost predicate Peaceful(before: seq<Event>, after: seq<Event>) {
    before <= after && forall k :: |before| <= k < |after| ==> !after[k].Killed? && !after[k].Stage?
  }

  lemma PeacefulThen(a: seq<Event>, b: seq<Event>, c: seq<Event>)
    requires Peaceful(a, b) && (b == c || Peaceful(b, c))
    ensures Peaceful(a, c) && a <= b <= c
  {
  }

  /** Every look since one place was made between two times, the last of them, if any, at
      the later one. */
  ghost predicate Dated(log: seq<Event>, from: nat, start: nat, now: nat) {
    && from <= |log|
    && (forall k :: from <= k < |log| && log[k].Observed? ==> start <= log[k].at <= now)
    && (from < |log| ==> log[|log| - 1].Observed? && log[|log| - 1].at == now)
  }

  /** Looks again at every group not already seen gone. */
  method Refresh(h: Host, recorded: seq<Recorded>, stages: seq<(nat, nat)>, before: seq<State>)
    returns (states: seq<State>)
    requires Current(recorded, stages, h.log, before)
    requires forall i :: 0 <= i < |before| && before[i].Present() ==> recorded[i].Group?
    modifies h
    ensures Current(recorded, stages, h.log, states) && Begun(h.log) == old(Begun(h.log))
    ensures forall i :: 0 <= i < |states| && states[i].Present() ==> recorded[i].Group?
    ensures Peaceful(old(h.log), h.log) && Looked(h.log, |old(h.log)|, before, states)
    ensures Dated(h.log, |old(h.log)|, old(h.clock), h.clock)
    ensures h.clock >= old(h.clock) && (h.Ideal() ==> h.clock == old(h.clock))
  {
    hide Lawful, LookedAt, Begun, LastSeen, Justified;
    states := before;
    for i := 0 to |recorded|
      invariant Current(recorded, stages, h.log, states) && Begun(h.log) == old(Begun(h.log))
      invariant forall j :: 0 <= j < |states| && states[j].Present() ==> recorded[j].Group?
      invariant Peaceful(old(h.log), h.log) && Dated(h.log, |old(h.log)|, old(h.clock), h.clock)
      invariant forall j :: 0 <= j < |before| && before[j].Gone? ==> states[j] == before[j]
      invariant forall j :: 0 <= j < i && !before[j].Gone? ==> LookedAt(h.log, |old(h.log)|, j, states[j])
      invariant forall j :: i <= j < |before| ==> states[j] == before[j]
      invariant h.clock >= old(h.clock) && (h.Ideal() ==> h.clock == old(h.clock))
    {
      if !states[i].Gone? {
        ghost var log, earlier := h.log, states;
        var s := Look(h, recorded[i]);
        StaysCurrent(recorded, stages, log, h.log, states);
        assert LastSeen(h.log, i) == Some(states[i]);
        assert 0 <= |log| <= |h.log|;
        Concluded(recorded, stages, h.log, states, i, s, h.clock);
        h.Note(Observed(i, s, h.clock));
        states := states[i := s];
        LookedNow(h.log, |old(h.log)|, i, s);
        forall j | 0 <= j < i && !before[j].Gone? ensures LookedAt(h.log, |old(h.log)|, j, states[j]) {
          LookedStays(log, h.log, |old(h.log)|, j, earlier[j]);
        }
      }
    }
  }

  lemma LookedNow(log: seq<Event>, from: nat, i: nat, s: State)
    requires from < |log| && Sees(log[|log| - 1], i, s)
    ensures LookedAt(log, from, i, s)
  {
  }

  lemma LookedStays(log: seq<Event>, longer: seq<Event>, from: nat, i: nat, s: State)
    requires log <= longer && LookedAt(log, from, i, s)
    ensures LookedAt(longer, from, i, s)
  {
    var k :| from <= k < |log| && Sees(log[k], i, s);
    assert longer[k] == log[k];
  }

  /** Looking twice is looking since the first. */
  lemma LookedTwice(log: seq<Event>, longer: seq<Event>, from: nat, again: nat, a: seq<State>, b: seq<State>, c: seq<State>)
    requires log <= longer && from <= again && Looked(log, from, a, b) && Looked(longer, again, b, c)
    ensures Looked(longer, from, a, c)
  {
    forall i | 0 <= i < |a| && !a[i].Gone? ensures LookedAt(longer, from, i, c[i]) {
      if b[i].Gone? {
        LookedStays(log, longer, from, i, b[i]);
      } else {
        var k :| again <= k < |longer| && Sees(longer[k], i, c[i]);
      }
    }
  }

  predicate AnyPresent(states: seq<State>) {
    exists i :: 0 <= i < |states| && (states[i].Led? || states[i].Leaderless?)
  }

  method SomePresent(states: seq<State>) returns (any: bool)
    ensures any == AnyPresent(states)
  {
    for i := 0 to |states|
      invariant forall j :: 0 <= j < i ==> !states[j].Present()
    {
      if states[i].Present() {
        return true;
      }
    }
    return false;
  }

  method LookAll(h: Host, recorded: seq<Recorded>, stages: seq<(nat, nat)>) returns (states: seq<State>)
    requires h.log == []
    modifies h
    ensures Current(recorded, stages, h.log, states) && Begun(h.log) == 0
    ensures forall i :: 0 <= i < |states| && states[i].Present() ==> recorded[i].Group?
    ensures h.clock >= old(h.clock) && (h.Ideal() ==> h.clock == old(h.clock))
  {
    states := [];
    for i := 0 to |recorded|
      invariant |states| == i && Lawful(recorded, stages, h.log) && Begun(h.log) == 0
      invariant forall j :: 0 <= j < i ==> LastSeen(h.log, j) == Some(states[j])
      invariant forall j :: j >= i ==> LastSeen(h.log, j) == None
      invariant forall j :: 0 <= j < i && states[j].Present() ==> recorded[j].Group?
      invariant h.clock >= old(h.clock) && (h.Ideal() ==> h.clock == old(h.clock))
    {
      ghost var log := h.log;
      var s := Look(h, recorded[i]);
      QuietKeeps(recorded, stages, log, h.log);
      Concluded(recorded, stages, h.log, states + [Unknown], i, s, h.clock);
      h.Note(Observed(i, s, h.clock));
      assert (states + [Unknown])[i := s] == states + [s];
      states := states + [s];
    }
  }

  /** The signals of a stage: every group present is served. */
  method SignalPresent(h: Host, recorded: seq<Recorded>, stages: seq<(nat, nat)>, n: nat, states: seq<State>)
    requires Current(recorded, stages, h.log, states) && Begun(h.log) == n + 1 <= |stages|
    requires forall i :: 0 <= i < |states| && states[i].Present() ==> recorded[i].Group?
    requires forall r :: r in recorded ==> r.Parsed()
    modifies h
    ensures Current(recorded, stages, h.log, states) && Begun(h.log) == n + 1
    ensures old(h.log) <= h.log && |states| == |recorded|
    ensures Rounds(recorded, states, h.log[|old(h.log)|..], stages[n].0, |recorded|)
    ensures h.clock >= old(h.clock) && (h.Ideal() ==> h.clock == old(h.clock))
  {
    hide Lawful, Current, Served, Rounds, Begun;
    CurrentLength(recorded, stages, h.log, states);
    ghost var from, signal := |h.log|, stages[n].0;
    RoundsNone(recorded, states, signal);
    assert h.log[from..] == [];
    for i := 0 to |recorded|
      invariant Current(recorded, stages, h.log, states) && Begun(h.log) == n + 1
      invariant old(h.log) <= h.log && Rounds(recorded, states, h.log[from..], signal, i)
      invariant h.clock >= old(h.clock) && (h.Ideal() ==> h.clock == old(h.clock))
    {
      ghost var before := h.log;
      if states[i].Present() {
        Signal(h, recorded, stages, states, i, stages[n].0);
      } else {
        ServedAbsent(recorded[i], states[i], i, signal);
        assert h.log[|before|..] == [];
      }
      RoundsLater(recorded, states, before, h.log, from, signal, i);
    }
  }

  lemma RoundsLater(recorded: seq<Recorded>, states: seq<State>, before: seq<Event>, after: seq<Event>, from: nat,
                    signal: nat, n: nat)
    requires n < |recorded| && n < |states| && from <= |before| && before <= after
    requires Rounds(recorded, states, before[from..], signal, n)
    requires Served(recorded[n], states[n], after[|before|..], n, signal)
    ensures Rounds(recorded, states, after[from..], signal, n + 1)
  {
    hide Rounds, Served;
    var events := after[from..];
    assert events[..|before| - from] == before[from..] && events[|before| - from..] == after[|before|..];
    RoundsMore(recorded, states, events, |before| - from, signal, n);
  }

  lemma RoundsNone(recorded: seq<Recorded>, states: seq<State>, signal: nat)
    ensures Rounds(recorded, states, [], signal, 0)
  {
  }

  lemma RoundsMore(recorded: seq<Recorded>, states: seq<State>, events: seq<Event>, k: nat, signal: nat, n: nat)
    requires n < |recorded| && n < |states| && k <= |events|
    requires Rounds(recorded, states, events[..k], signal, n) && Served(recorded[n], states[n], events[k..], n, signal)
    ensures Rounds(recorded, states, events, signal, n + 1)
  {
    hide Served;
  }

  lemma ServedAbsent(recorded: Recorded, state: State, entry: nat, signal: nat)
    requires !state.Present()
    ensures Served(recorded, state, [], entry, signal)
  {
  }

  /** A stage: signal every present group, then look again until none is present or its
      grace has passed. Every entry not gone before is looked at after the signals, the
      states are those looks', and the stage ends early only when they show none
      present. `signalled` is where the log stood when the signals were over. */
  method RunStage(h: Host, recorded: seq<Recorded>, stages: seq<(nat, nat)>, n: nat, before: seq<State>)
    returns (states: seq<State>, ghost signalled: nat)
    requires Current(recorded, stages, h.log, before) && Begun(h.log) == n + 1 <= |stages|
    requires forall i :: 0 <= i < |before| && before[i].Present() ==> recorded[i].Group?
    requires forall r :: r in recorded ==> r.Parsed()
    modifies h
    ensures Current(recorded, stages, h.log, states) && Begun(h.log) == n + 1
    ensures StagesIn(old(h.log), h.log) && |old(h.log)| <= signalled <= |h.log|
    ensures Peaceful(h.log[..signalled], h.log)
    ensures |before| == |recorded|
    ensures Rounds(recorded, before, h.log[|old(h.log)|..signalled], stages[n].0, |recorded|)
    ensures Looked(h.log, signalled, before, states)
    ensures AnyPresent(states) ==> LookedLate(h.log, signalled, old(h.clock) + stages[n].1)
    ensures h.Ideal() ==> Timely(h.log, signalled, old(h.clock))
    ensures forall i :: 0 <= i < |states| && states[i].Present() ==> recorded[i].Group?
    ensures h.clock >= old(h.clock) && (h.clock >= old(h.clock) + stages[n].1 || !AnyPresent(states))
    ensures h.Ideal() ==> h.clock <= old(h.clock) + stages[n].1
  {
    hide Lawful, Current, Rounds, Looked, Dated, Timely, LookedLate, Polled, AnyPresent, StagesIn, Begun, Peaceful;
    CurrentLength(recorded, stages, h.log, before);
    SignalPresent(h, recorded, stages, n, before);
    ghost var log := h.log;
    signalled := |h.log|;
    var deadline := h.clock + stages[n].1;
    ghost var start := h.clock;
    states := Refresh(h, recorded, stages, before);
    CurrentLength(recorded, stages, h.log, states);
    FirstLook(h.log, signalled, start, h.clock, before, states, h.Ideal());
    PeacefulThen(log, h.log, h.log);
    var any := SomePresent(states);
    while any && h.clock < deadline
      invariant Current(recorded, stages, h.log, states) && Begun(h.log) == n + 1
      invariant |states| == |before| && Peaceful(log, h.log) && log <= h.log
      invariant Polled(h.log, signalled, start, h.clock, before, states, h.Ideal())
      invariant any == AnyPresent(states)
      invariant forall i :: 0 <= i < |states| && states[i].Present() ==> recorded[i].Group?
      invariant deadline >= old(h.clock) + stages[n].1 && h.clock >= old(h.clock)
      invariant h.Ideal() ==> h.clock <= deadline <= old(h.clock) + stages[n].1
      decreases if h.clock < deadline then deadline - h.clock else 0
    {
      var left := deadline - h.clock;
      ghost var clock := h.clock;
      h.Sleep(if POLL < left then POLL else left);
      ghost var earlier, seen, again := h.log, states, h.clock;
      states := Refresh(h, recorded, stages, states);
      CurrentLength(recorded, stages, h.log, states);
      PeacefulThen(log, earlier, h.log);
      NextLook(earlier, h.log, signalled, start, clock, again, h.clock, before, seen, states, h.Ideal());
      any := SomePresent(states);
    }
    NoStages(old(h.log), h.log);
    assert h.log[..signalled] == log && h.log[|old(h.log)|..signalled] == log[|old(h.log)|..];
    PolledEnough(h.log, signalled, start, h.clock, before, states, h.Ideal(), old(h.clock) + stages[n].1);
  }

  /** Where the polling of a stage stands: every entry not gone before it was looked at, any
      still present at this very time, and where calls take no time the looks were never
      further apart than the interval. */
  ghost predicate Polled(log: seq<Event>, from: nat, start: nat, now: nat, a: seq<State>, b: seq<State>, ideal: bool) {
    && Looked(log, from, a, b) && (AnyPresent(b) ==> LookedThen(log, from, now))
    && (ideal ==> Timely(log, from, start))
  }

  ghost predicate LookedThen(log: seq<Event>, from: nat, now: nat) {
    exists k :: from <= k < |log| && log[k].Observed? && log[k].at == now
  }

  lemma PolledEnough(log: seq<Event>, from: nat, start: nat, now: nat, a: seq<State>, b: seq<State>, ideal: bool, due: nat)
    requires Polled(log, from, start, now, a, b, ideal)
    ensures Looked(log, from, a, b) && (ideal ==> Timely(log, from, start))
    ensures AnyPresent(b) && due <= now ==> LookedLate(log, from, due)
  {
    hide Looked, Timely, AnyPresent;
  }

  /** Something still present was looked at just now. */
  lemma PresentLooked(log: seq<Event>, from: nat, start: nat, now: nat, a: seq<State>, b: seq<State>)
    requires Dated(log, from, start, now) && Looked(log, from, a, b)
    ensures AnyPresent(b) ==> LookedThen(log, from, now)
  {
    if AnyPresent(b) {
      var i :| 0 <= i < |b| && (b[i].Led? || b[i].Leaderless?);
      assert LookedAt(log, from, i, b[i]);
      assert log[|log| - 1].Observed?;
    }
  }

  /** The first look after the signals. */
  lemma FirstLook(log: seq<Event>, from: nat, start: nat, now: nat, a: seq<State>, b: seq<State>, ideal: bool)
    requires Dated(log, from, start, now) && Looked(log, from, a, b) && (ideal ==> start == now)
    ensures Polled(log, from, start, now, a, b, ideal)
  {
    PresentLooked(log, from, start, now, a, b);
    hide Looked, AnyPresent;
  }

  lemma NextLook(log: seq<Event>, longer: seq<Event>, from: nat, start: nat, before: nat, again: nat, now: nat,
                 a: seq<State>, b: seq<State>, d: seq<State>, ideal: bool)
    requires log <= longer && from <= |log| && Polled(log, from, start, before, a, b, ideal) && AnyPresent(b)
    requires Dated(longer, |log|, again, now) && Looked(longer, |log|, b, d)
    requires ideal ==> again == now && before <= now <= before + POLL
    ensures Polled(longer, from, start, now, a, d, ideal)
  {
    hide Looked, Timely, AnyPresent, Dated;
    LookedTwice(log, longer, from, |log|, a, b, d);
    PresentLooked(longer, |log|, again, now, b, d);
    if ideal {
      TimelyMore(log, longer, from, start, before, now);
    }
  }

  /** Looks made within the interval of the last ones. */
  lemma TimelyMore(log: seq<Event>, longer: seq<Event>, from: nat, start: nat, before: nat, now: nat)
    requires log <= longer && from <= |log| && Timely(log, from, start) && LookedThen(log, from, before)
    requires Dated(longer, |log|, now, now) && before <= now <= before + POLL
    ensures Timely(longer, from, start)
  {
    var j :| from <= j < |log| && log[j].Observed? && log[j].at == before;
    assert longer[j] == log[j];
    forall k | from <= k < |longer| && longer[k].Observed? ensures longer[k].at == start || Follows(longer, from, k) {
      if k < |log| {
        assert longer[k] == log[k];
        if log[k].at != start {
          var i :| from <= i < k && log[i].Observed? && log[i].at <= log[k].at <= log[i].at + POLL;
          assert longer[i] == log[i];
        }
      }
    }
  }

  /** No stage is begun between one log and a longer one. */
  ghost predicate StagesIn(before: seq<Event>, after: seq<Event>) {
    before <= after && forall k :: |before| <= k < |after| ==> !after[k].Stage?
  }

  lemma {:induction false} NoStages(before: seq<Event>, after: seq<Event>)
    requires before <= after && Begun(before) == Begun(after)
    ensures StagesIn(before, after)
    decreases |after|
  {
    if |before| < |after| {
      var shorter := after[..|after| - 1];
      BegunGrows(shorter, |before|);
      assert shorter[..|before|] == before;
      NoStages(before, shorter);
      assert forall k :: 0 <= k < |shorter| ==> after[k] == shorter[k];
    }
  }

  /** One more stage run to its end leaves the whole log thorough. */
  lemma StageThorough(recorded: seq<Recorded>, stages: seq<(nat, nat)>, log: seq<Event>, before: seq<State>,
                      note: Event, later: seq<Event>, after: seq<State>, signalled: nat)
    requires Thorough(recorded, log) && Current(recorded, stages, log, before) && Current(recorded, stages, later, after)
    requires note.Stage? && log + [note] <= later && StagesIn(log + [note], later)
    requires |log| + 1 <= signalled <= |later|
    requires Rounds(recorded, before, later[|log| + 1..signalled], note.signal, |recorded|)
    requires Looked(later, signalled, before, after) && Peaceful(later[..signalled], later)
    requires AnyPresent(after) ==> LookedLate(later, signalled, note.at + note.grace)
    ensures Thorough(recorded, later)
  {
    hide Rounds, Lawful, Looked, Staged;
    assert later[|log|] == note && later[..|log|] == log && later[..|later|] == later;
    StageStands(recorded, stages, log, before, later, after, signalled);
    forall k | 0 <= k < |later| && later[k].Stage? ensures RunAt(recorded, later, k) {
      if k < |log| {
        assert later[k] == log[k];
        StagedStays(recorded, log, later, k);
      }
    }
  }

  lemma StageStands(recorded: seq<Recorded>, stages: seq<(nat, nat)>, log: seq<Event>, before: seq<State>,
                    later: seq<Event>, after: seq<State>, signalled: nat)
    requires Current(recorded, stages, log, before) && Current(recorded, stages, later, after)
    requires |log| < signalled <= |later| && later[|log|].Stage? && later[..|log|] == log
    requires forall m :: |log| < m < |later| ==> !later[m].Stage?
    requires Rounds(recorded, before, later[|log| + 1..signalled], later[|log|].signal, |recorded|)
    requires Looked(later, signalled, before, after) && Peaceful(later[..signalled], later)
    requires AnyPresent(after) ==> LookedLate(later, signalled, later[|log|].at + later[|log|].grace)
    ensures RunAt(recorded, later, |log|)
  {
    hide Rounds, Lawful, Looked;
    assert later[..|later|] == later;
    assert Staged(recorded, later, |log|, signalled, |later|, before, after);
  }

  lemma CurrentLength(recorded: seq<Recorded>, stages: seq<(nat, nat)>, log: seq<Event>, states: seq<State>)
    requires Current(recorded, stages, log, states)
    ensures |states| == |recorded|
  {
  }

  lemma BeginStage(recorded: seq<Recorded>, stages: seq<(nat, nat)>, log: seq<Event>, states: seq<State>,
                   at: nat)
    requires Current(recorded, stages, log, states) && Begun(log) < |stages|
    ensures Current(recorded, stages, log + [Stage(stages[Begun(log)].0, stages[Begun(log)].1, at)], states)
    ensures Begun(log + [Stage(stages[Begun(log)].0, stages[Begun(log)].1, at)]) == Begun(log) + 1
  {
    var e := Stage(stages[Begun(log)].0, stages[Begun(log)].1, at);
    Appended(recorded, stages, log, e);
    forall i | 0 <= i < |states| ensures LastSeen(log + [e], i) == Some(states[i]) {
      Noted(log, e, i);
    }
    Noted(log, e, 0);
  }

  function Spent(stages: seq<(nat, nat)>): nat {
    if stages == [] then 0 else Spent(stages[..|stages| - 1]) + stages[|stages| - 1].1
  }

  /** What the notes of a log say of its stages: INT first where it was asked for, then
      TERM, then KILL, each with the grace that was asked for it. */
  ghost predicate Graced(log: seq<Event>, interrupt: Option<nat>, term: nat) {
    forall k :: 0 <= k < |log| && log[k].Stage? ==>
      || (log[k].signal == SIGINT && interrupt == Some(log[k].grace) && Begun(log[..k]) == 0)
      || (log[k].signal == SIGTERM && log[k].grace == term && Begun(log[..k]) == if interrupt.Some? then 1 else 0)
      || (log[k].signal == SIGKILL && log[k].grace == 500 && Begun(log[..k]) == if interrupt.Some? then 2 else 1)
  }

  lemma LawfulGraced(recorded: seq<Recorded>, interrupt: Option<nat>, term: nat, log: seq<Event>)
    requires Lawful(recorded, Stages(interrupt, term), log)
    ensures Graced(log, interrupt, term)
  {
    hide Begun, MayKill, Justified;
    forall k | 0 <= k < |log| && log[k].Stage?
      ensures (log[k].signal, log[k].grace) == Stages(interrupt, term)[Begun(log[..k])]
    {
      assert Allowed(recorded, Stages(interrupt, term), log[..k], log[k]);
    }
  }

  /** Every stage begins when each before it has had its whole grace. */
  ghost predicate Spaced(log: seq<Event>) {
    forall j, k :: 0 <= j < k < |log| && log[j].Stage? && log[k].Stage? ==> log[j].at + log[j].grace <= log[k].at
  }

  ghost predicate Waited(log: seq<Event>, clock: nat) {
    forall j :: 0 <= j < |log| && log[j].Stage? ==> log[j].at + log[j].grace <= clock
  }

  lemma SpacedMore(log: seq<Event>, e: Event, later: seq<Event>)
    requires Spaced(log) && e.Stage? && Waited(log, e.at) && StagesIn(log + [e], later)
    ensures Spaced(later)
    ensures forall clock :: Waited(later, clock) <==> Waited(log, clock) && e.at + e.grace <= clock
  {
    var n := |log|;
    assert later[n] == (log + [e])[n] == e;
    assert forall j :: 0 <= j < n ==> later[j] == (log + [e])[j] == log[j];
  }

  lemma SpacedNone(log: seq<Event>)
    requires Begun(log) == 0
    ensures Spaced(log) && forall clock :: Waited(log, clock)
  {
    assert [] <= log;
    NoStages([], log);
  }

  /** Stops every recorded group still present. Over any answers of the system: one
      state for each entry in order, each the last that was concluded; a log that is
      lawful throughout; every group present when a stage begins served in it, and every
      entry not gone looked at again after the stage's signals; every stage run, or no
      group left present; INT, TERM and KILL each with its own grace, and none begun
      before the graces of those before it were over; no stage over before its grace but on a look that shows none
      present; and where calls take no time, no more time than the graces add
      up to. */
  method Stop(h: Host, recorded: seq<Recorded>, interrupt: Option<nat>, term: nat) returns (states: seq<State>)
    requires h.log == [] && forall r :: r in recorded ==> r.Parsed()
    modifies h
    ensures Current(recorded, Stages(interrupt, term), h.log, states)
    ensures Thorough(recorded, h.log) && Graced(h.log, interrupt, term) && Spaced(h.log)
    ensures Begun(h.log) == |Stages(interrupt, term)| || !AnyPresent(states)
    ensures Begun(h.log) <= |Stages(interrupt, term)|
    ensures Begun(h.log) > 0 ==> h.clock >= old(h.clock) + Spent(Stages(interrupt, term)[..Begun(h.log) - 1])
    ensures AnyPresent(states) ==> h.clock >= old(h.clock) + Spent(Stages(interrupt, term))
    ensures h.Ideal() ==> h.clock <= old(h.clock) + Spent(Stages(interrupt, term))
  {
    hide Lawful, Current, Rounds, Looked, Thorough, Stages, Spent, AnyPresent, Begun, Spaced, Waited, Graced;
    var stages := Stages(interrupt, term);
    states := LookAll(h, recorded, stages);
    NothingBegun(recorded, h.log);
    SpacedNone(h.log);
    SpentNone(stages);
    var n := 0;
    while n < |stages|
      invariant n <= |stages|
      invariant Current(recorded, stages, h.log, states) && Begun(h.log) == n && Thorough(recorded, h.log)
      invariant forall i :: 0 <= i < |states| && i < |recorded| && states[i].Present() ==> recorded[i].Group?
      invariant Spaced(h.log) && (Waited(h.log, h.clock) || !AnyPresent(states))
      invariant h.clock >= old(h.clock) + Spent(stages[..n]) || !AnyPresent(states)
      invariant n > 0 ==> h.clock >= old(h.clock) + Spent(stages[..n - 1])
      invariant h.Ideal() ==> h.clock <= old(h.clock) + Spent(stages[..n])
    {
      CurrentLength(recorded, stages, h.log, states);
      var any := SomePresent(states);
      if !any {
        SpentGrows(stages, n);
        break;
      }
      BeginStage(recorded, stages, h.log, states, h.clock);
      ghost var log, earlier := h.log, states;
      ghost var note := Stage(stages[n].0, stages[n].1, h.clock);
      h.Note(note);
      ghost var signalled;
      states, signalled := RunStage(h, recorded, stages, n, states);
      StageThorough(recorded, stages, log, earlier, note, h.log, states, signalled);
      SpacedMore(log, note, h.log);
      assert h.clock >= note.at + note.grace ==> (Waited(log, note.at) ==> Waited(h.log, h.clock)) by {
        WaitedLater(log, note.at, h.clock);
      }
      SpentMore(stages, n);
      n := n + 1;
    }
    assert stages[..|stages|] == stages;
    CurrentLawful(recorded, stages, h.log, states);
    LawfulGraced(recorded, interrupt, term, h.log);
  }

  lemma WaitedLater(log: seq<Event>, clock: nat, later: nat)
    requires clock <= later
    ensures Waited(log, clock) ==> Waited(log, later)
  {
  }

  lemma CurrentLawful(recorded: seq<Recorded>, stages: seq<(nat, nat)>, log: seq<Event>, states: seq<State>)
    requires Current(recorded, stages, log, states)
    ensures Lawful(recorded, stages, log)
  {
  }

  lemma NothingBegun(recorded: seq<Recorded>, log: seq<Event>)
    requires Begun(log) == 0
    ensures Thorough(recorded, log)
  {
    assert [] <= log;
    NoStages([], log);
  }

  lemma SpentNone(stages: seq<(nat, nat)>)
    ensures Spent(stages[..0]) == 0
  {
  }

  lemma SpentMore(stages: seq<(nat, nat)>, n: nat)
    requires n < |stages|
    ensures Spent(stages[..n + 1]) == Spent(stages[..n]) + stages[n].1
  {
    assert stages[..n + 1][..n] == stages[..n];
  }

  lemma {:induction false} SpentGrows(stages: seq<(nat, nat)>, n: nat)
    requires n <= |stages|
    ensures Spent(stages[..n]) <= Spent(stages)
    decreases |stages| - n
  {
    if n < |stages| {
      SpentGrows(stages, n + 1);
      assert stages[..n + 1][..n] == stages[..n];
    } else {
      assert stages[..n] == stages;
    }
  }

  /** Confirmation is exactly that every entry ended gone. */
  predicate Confirmed(states: seq<State>) {
    forall i :: 0 <= i < |states| ==> states[i].Gone?
  }

  ghost predicate SeenGone(log: seq<Event>, i: nat) {
    exists k :: 0 <= k < |log| && Sees(log[k], i, Gone)
  }

  /** What a confirmed stop vouches for: each entry was at some point seen gone, and
      never signalled after that. */
  lemma ConfirmedMeansSeenGone(recorded: seq<Recorded>, stages: seq<(nat, nat)>, log: seq<Event>, states: seq<State>)
    requires Current(recorded, stages, log, states)
    ensures Confirmed(states) <==>
            forall i :: 0 <= i < |recorded| ==> SeenGone(log, i)
  {
    forall i | 0 <= i < |recorded| ensures states[i].Gone? <==> SeenGone(log, i) {
      assert LastSeen(log, i) == Some(states[i]);
      if states[i].Gone? {
        LastWitness(log, i);
      }
      if SeenGone(log, i) {
        var k :| 0 <= k < |log| && Sees(log[k], i, Gone);
        GoneIsFinal(recorded, stages, log, k, i);
      }
    }
  }

  lemma {:induction false} LastWitness(log: seq<Event>, i: nat)
    requires LastSeen(log, i) == Some(Gone)
    ensures SeenGone(log, i)
    decreases |log|
  {
    if Sees(log[|log| - 1], i, Gone) {
      assert SeenGone(log, i);
    } else {
      var before := log[..|log| - 1];
      LastWitness(before, i);
      var k :| 0 <= k < |before| && Sees(before[k], i, Gone);
      assert Sees(log[k], i, Gone);
    }
  }

  const STOP_MARGIN := 5_000

  /** What the calling side waits for the whole sequence. */
  function StopWait(interrupt: Option<nat>, term: nat): nat {
    (if interrupt.Some? then interrupt.value else 0) + term + CONFIRM_WINDOW + STOP_MARGIN
  }

  /** The graces of a stop leave the caller its whole margin. */
  lemma StopFitsWait(interrupt: Option<nat>, term: nat)
    ensures Spent(Stages(interrupt, term)) + STOP_MARGIN == StopWait(interrupt, term)
  {
    var rest: seq<(nat, nat)> := [(SIGTERM, term), (SIGKILL, CONFIRM_WINDOW)];
    if interrupt.Some? {
      var first := [(SIGINT, interrupt.value)];
      var two := first + [(SIGTERM, term)];
      assert Stages(interrupt, term) == first + rest && (first + rest)[..2] == two;
      assert two[..1] == first && first[..0] == [];
      assert Spent(first) == interrupt.value && Spent(two) == interrupt.value + term;
    } else {
      var none: seq<(nat, nat)> := [];
      assert Stages(interrupt, term) == none + rest == rest;
      var one: seq<(nat, nat)> := [(SIGTERM, term)];
      assert rest[..1] == one && one[..0] == none;
      assert Spent(rest[..1]) == term;
    }
  }
}
