/** What each call of the descendant tracker does, as functions on its whole
    state. The operating system is an oracle: a record of total functions whose
    first argument counts the calls made so far, so that every behaviour of the
    system during one run, however inconsistent, is one such record. */
module Tracking {
  import opened Process

  const SAMPLE_INTERVAL := 50
  const CONFIRM_GRACE := 500
  const MAX_INCOMPLETE_SCANS := 3
  const MAX_COUNT := 255

  datatype Oracle = Oracle(
    stat: (nat, nat) -> Answer<Option<Stat>>,
    children: (nat, nat) -> Answer<seq<nat>>,
    inGroup: (nat, nat) -> Answer<seq<nat>>,
    kill: (nat, int, nat) -> Option<Fault>,
    reap: (nat, nat) -> bool,
    clock: nat -> nat,
    pids: (nat, set<nat>) -> seq<nat>,
    leaders: (nat, set<Identity>) -> seq<Identity>)
  {
    /** Hash maps iterate in an order of their own, over every key once. */
    ghost predicate Lists() {
      && (forall t, s :: Listing(pids(t, s), s))
      && (forall t, s :: Listing(leaders(t, s), s))
    }

    /** A process read names the process it was asked for. */
    function Look(t: nat, pid: nat): Answer<Option<Record>> {
      match stat(t, pid)
      case Err(f) => Err(f)
      case Ok(None) => Ok(None)
      case Ok(Some(s)) => Ok(Some(Record(Identity(pid, s.pgid, s.start), s.ppid, s.exited)))
    }

    function Now(t: nat, reference: nat): nat {
      if clock(t) < reference then reference else clock(t)
    }
  }

  /** Why the tracker gave up certainty when no answer of the system was at fault. */
  datatype Reason =
    Attempts | ProcessLimit | GroupLimit | RootLost | BadPid | Shortened | LateLive | Unfinished | External

  /** One entry of the call log. `Scanned` and `Refused` are notes, not calls. */
  datatype Event =
    | Read(pid: nat, record: Answer<Option<Record>>)
    | Checked(pid: nat, record: Answer<Option<Record>>)
    | Children(pid: nat, kids: Answer<seq<nat>>)
    | InGroup(pgid: nat, pids: Answer<seq<nat>>)
    | Killed(target: int, signal: nat, expected: Identity, fault: Option<Fault>)
    | Reaped(pid: nat, ok: bool)
    | Clock(at: nat)
    | Scanned(complete: bool)
    | Refused(reason: Reason)

  datatype Phase = Interrupt | Terminate | Killing

  datatype Sequence = Sequence(phase: Phase, next: nat)

  datatype Cleanup = Cleanup(interrupt: Option<nat>, term: nat, deadline: nat, emptyScans: nat)

  datatype Progress = Progress(done: bool, confirmed: bool)

  /** One recorded group signal: its stage, the clock reading it was decided on,
      the clock reading after the signal call, and where the log holds the call. */
  datatype Mark = Mark(phase: Phase, at: nat, returned: nat, event: nat)

  datatype Config = Config(
    shim: Identity,
    rootPid: nat,
    groupLimit: nat,
    processLimit: nat,
    adopt: bool,
    macos: bool)

  /** The call log, and whether the tracker has lost certainty. */
  datatype Ledger = Ledger(trace: seq<Event>, uncertain: bool)
  {
    ghost function Log(e: Event): Ledger {
      this.(trace := trace + [e])
    }

    ghost function Fail(): Ledger {
      this.(uncertain := true)
    }

    ghost function Refuse(reason: Reason): Ledger {
      Ledger(trace + [Refused(reason)], true)
    }

    ghost function Tick(): nat {
      |trace|
    }
  }

  /** The tracker's fields, with the ledger beside them, and for every retained group its
      recorded signals and where the log stood when it was enrolled. */
  datatype Tracked = Tracked(
    processes: map<nat, Record>,
    groups: map<Identity, Option<Sequence>>,
    members: map<Identity, Sequence>,
    pending: seq<Identity>,
    cleanup: Option<Cleanup>,
    incompleteScans: nat,
    unresolved: bool,
    ledger: Ledger,
    history: map<Identity, seq<Mark>>,
    births: map<Identity, nat>)

  ghost function Empty(): Tracked {
    Tracked(map[], map[], map[], [], None, 0, false, Ledger([], false), map[], map[])
  }

  /** Tracking starts from the root identity read before any output pump runs. */
  ghost function Started(c: Config, root: Identity): Tracked {
    Empty().(
    processes := map[root.pid := Record(root, c.shim.pid, false)],
    groups := map[root := None],
    pending := [root],
    history := map[root := []],
    births := map[root := 0])
  }

  // ---------------------------------------------------------------- scanning

  /** A scan under way: the work queue, the pids already expanded, and how many
      entries have been tried. */
  datatype Walk = Walk(
    processes: map<nat, Record>,
    ledger: Ledger,
    queue: seq<Identity>,
    visited: map<nat, nat>,
    attempts: nat,
    incomplete: bool,
    halted: bool)
  {
    ghost function Log(e: Event): Walk {
      this.(ledger := ledger.Log(e))
    }

    ghost function Missed(f: Fault): Walk {
      this.(incomplete := true, ledger := if f.Invalid? then ledger.Fail() else ledger)
    }

    ghost function Refuse(reason: Reason): Walk {
      this.(ledger := ledger.Refuse(reason))
    }

    ghost function Put(pid: nat, r: Record): Walk {
      this.(processes := processes[pid := r])
    }
  }

  function Cap(c: Config): nat {
    c.processLimit * 2 + 1
  }

  /** Children named by one enumeration are read one by one; a child that still
      names this parent is recorded and queued. */
  ghost function Enlist(c: Config, o: Oracle, w: Walk, parent: nat, kids: seq<nat>): (r: Walk)
    ensures r.attempts == w.attempts
    decreases |kids|
  {
    if kids == [] then w else
    var pid, rest := kids[0], kids[1..];
    if pid == c.shim.pid then Enlist(c, o, w, parent, rest) else
    var a := o.Look(w.ledger.Tick(), pid);
    var w := w.Log(Read(pid, a));
    match a
    case Err(f) => Enlist(c, o, w.Missed(f), parent, rest)
    case Ok(None) => Enlist(c, o, w, parent, rest)
    case Ok(Some(child)) =>
      if child.ppid != parent || (pid in w.visited && w.visited[pid] == child.identity.start) then
        Enlist(c, o, w, parent, rest)
      else if pid !in w.processes && |w.processes| >= c.processLimit then
        w.Refuse(ProcessLimit)
      else
        Enlist(c, o, w.Put(pid, child).(queue := w.queue + [child.identity]), parent, rest)
  }

  /** Enumerate the children of a verified process, then verify it again: it may
      have exited and its pid been reused meanwhile. */
  ghost function Expand(c: Config, o: Oracle, w: Walk, e: Identity): (r: Walk)
    ensures r.attempts == w.attempts
  {
    var kids := o.children(w.ledger.Tick(), e.pid);
    var w := w.Log(Children(e.pid, kids));
    match kids
    case Err(f) => if f.Vanished? then w else w.Missed(f)
    case Ok(pids) =>
      var a := o.Look(w.ledger.Tick(), e.pid);
      var w := w.Log(Read(e.pid, a));
      match a
      case Err(f) => w.Missed(f)
      case Ok(None) => w
      case Ok(Some(parent)) =>
        if parent.identity.SameProcess(e) then Enlist(c, o, w, e.pid, pids) else w
  }

  /** A queued identity that no longer reads back is dropped, unless a newer
      process has been recorded under its pid. */
  ghost function Forget(w: Walk, e: Identity): Walk {
    if e.pid in w.processes && w.processes[e.pid].identity.SameProcess(e) then
      w.(processes := w.processes - {e.pid})
    else
      w
  }

  ghost function Visit(c: Config, w: Walk, e: Identity, current: Record): Walk {
    var w := w.(visited := w.visited[e.pid := current.identity.start]);
    if e.pid != c.shim.pid then w.Put(e.pid, current) else w
  }

  ghost function Probe(c: Config, o: Oracle, w: Walk, e: Identity): (r: Walk)
    ensures r.attempts == w.attempts
  {
    var a := o.Look(w.ledger.Tick(), e.pid);
    var w := w.Log(Read(e.pid, a));
    match a
    case Err(f) => w.Missed(f)
    case Ok(None) => Forget(w, e)
    case Ok(Some(current)) =>
      if current.identity.SameProcess(e) then
        Expand(c, o, Visit(c, w, e, current), e)
      else
        Forget(w, e)
  }

  ghost function Step(c: Config, o: Oracle, w: Walk): (r: Walk)
    requires w.queue != []
    ensures w.attempts <= r.attempts
    ensures r.attempts == w.attempts ==> |r.queue| < |w.queue|
    ensures !r.halted && !w.halted && w.attempts <= Cap(c) ==> r.attempts <= Cap(c)
  {
    var e := w.queue[0];
    var w := w.(queue := w.queue[1..]);
    if e.pid in w.visited && w.visited[e.pid] == e.start then w else
    var w := w.(attempts := w.attempts + 1);
    if w.attempts > Cap(c) then
      w.Refuse(Attempts).(halted := true)
    else
      Probe(c, o, w, e)
  }

  ghost function WalkAll(c: Config, o: Oracle, w: Walk): Walk
    requires w.attempts <= Cap(c) || w.halted
    decreases if w.halted then 0 else 1, Cap(c) + 1 - w.attempts, |w.queue|
  {
    if w.halted || w.queue == [] then w else WalkAll(c, o, Step(c, o, w))
  }

  function Identities(processes: map<nat, Record>, order: seq<nat>): (q: seq<Identity>)
    requires forall p :: p in order ==> p in processes
    ensures |q| == |order|
  {
    seq(|order|, i requires 0 <= i < |order| => processes[order[i]].identity)
  }

  function Records(processes: map<nat, Record>, order: seq<nat>): (q: seq<Record>)
    requires forall p :: p in order ==> p in processes
    ensures |q| == |order|
  {
    seq(|order|, i requires 0 <= i < |order| => processes[order[i]])
  }

  /** The queue starts with the retained anchors, the shim first where orphans
      are adopted. */
  ghost function WalkStart(c: Config, o: Oracle, st: Tracked): (w: Walk)
    requires o.Lists()
    ensures w.attempts == 0 && !w.halted
  {
    var anchors := Identities(st.processes, o.pids(st.ledger.Tick(), st.processes.Keys));
    Walk(st.processes, st.ledger, (if c.adopt then [c.shim] else []) + anchors, map[], 0, false, false)
  }

  /** Members of the exited root's group that the inventory names and that still
      read back in that group. */
  ghost function EnlistGroup(c: Config, o: Oracle, w: Walk, pgid: nat, pids: seq<nat>, unresolved: bool): (Walk, bool)
    decreases |pids|
  {
    if pids == [] then (w, unresolved) else
    var pid, rest := pids[0], pids[1..];
    var a := o.Look(w.ledger.Tick(), pid);
    var w := w.Log(Read(pid, a));
    match a
    case Err(f) => EnlistGroup(c, o, w.Missed(f), pgid, rest, true)
    case Ok(None) => EnlistGroup(c, o, w, pgid, rest, unresolved)
    case Ok(Some(member)) =>
      if member.identity.pgid != pgid then
        EnlistGroup(c, o, w, pgid, rest, unresolved)
      else if pid !in w.processes && |w.processes| >= c.processLimit then
        (w.Refuse(ProcessLimit), true)
      else
        EnlistGroup(c, o, w.Put(pid, member), pgid, rest, unresolved)
  }

  /** In sampling mode an exited root that leads its group is kept unreaped, so
      its group id cannot be reused and its members may be enumerated. */
  ghost function ScanRootGroup(c: Config, o: Oracle, w: Walk): (Walk, bool) {
    if c.adopt || c.rootPid !in w.processes then (w, false) else
    var root := w.processes[c.rootPid];
    if !root.exited || !root.identity.Leads() then (w, false) else
    var pids := o.inGroup(w.ledger.Tick(), root.identity.pgid);
    var w := w.Log(InGroup(root.identity.pgid, pids));
    match pids
    case Err(f) => (w.Missed(f), true)
    case Ok(members) =>
      var a := o.Look(w.ledger.Tick(), root.identity.pid);
      var w := w.Log(Read(root.identity.pid, a));
      match a
      case Err(f) => (w.Missed(f), true)
      case Ok(None) => (w.Refuse(RootLost), true)
      case Ok(Some(current)) =>
        if current.identity != root.identity then (w.Refuse(RootLost), true)
        else EnlistGroup(c, o, w, root.identity.pgid, members, false)
  }

  predicate Reapable(c: Config, r: Record) {
    c.adopt && r.identity.pid != c.rootPid && r.ppid == c.shim.pid && r.exited
  }

  /** Adopted zombies are reaped; the root is left to its own waiter. */
  ghost function ReapAll(c: Config, o: Oracle, l: Ledger, processes: map<nat, Record>,
                         records: seq<Record>): (Ledger, map<nat, Record>)
    decreases |records|
  {
    if records == [] then (l, processes) else
    var r, rest := records[0], records[1..];
    if !Reapable(c, r) then ReapAll(c, o, l, processes, rest) else
    var ok := o.reap(l.Tick(), r.identity.pid);
    var l := l.Log(Reaped(r.identity.pid, ok));
    if ok then ReapAll(c, o, l, processes - {r.identity.pid}, rest)
    else ReapAll(c, o, l.Fail(), processes, rest)
  }

  /** A group stays while its recorded leader does, or while some tracked process
      is still in it; never once another process holds the leader's pid. */
  predicate Retained(processes: map<nat, Record>, id: Identity) {
    if id.pid in processes && !processes[id.pid].identity.SameProcess(id) then
      false
    else
      || (id.pid in processes && processes[id.pid].identity == id)
      || (exists p :: p in processes && processes[p].identity.pgid == id.pgid)
  }

  ghost function PruneGroups(st: Tracked): Tracked {
    st.(
    groups := map id | id in st.groups && Retained(st.processes, id) :: st.groups[id],
    history := map id | id in st.history && Retained(st.processes, id) :: st.history[id],
    births := map id | id in st.births && Retained(st.processes, id) :: st.births[id])
  }

  /** A group joins the inventory, without a schedule and with an empty record. */
  ghost function Enrolled(st: Tracked, id: Identity): Tracked {
    st.(
    groups := st.groups[id := None],
    pending := st.pending + [id],
    history := st.history[id := []],
    births := st.births[id := |st.ledger.trace|])
  }

  ghost function AddLeaders(c: Config, st: Tracked, records: seq<Record>): Tracked
    decreases |records|
  {
    if records == [] then st else
    var id, rest := records[0].identity, records[1..];
    if !id.Leads() || id in st.groups then
      AddLeaders(c, st, rest)
    else if |st.groups| >= c.groupLimit then
      AddLeaders(c, st.(ledger := st.ledger.Refuse(GroupLimit)), rest)
    else
      AddLeaders(c, Enrolled(st, id), rest)
  }

  predicate LiveMember(processes: map<nat, Record>, id: Identity) {
    id.pid in processes && !processes[id.pid].exited && processes[id.pid].identity == id
  }

  ghost function PruneMembers(st: Tracked): Tracked {
    st.(members := map id | id in st.members && LiveMember(st.processes, id) :: st.members[id])
  }

  function Bump(n: nat): nat {
    if n >= MAX_COUNT then MAX_COUNT else n + 1
  }

  ghost function CountScan(st: Tracked, incomplete: bool): Tracked {
    var misses := if incomplete then Bump(st.incompleteScans) else 0;
    st.(
    incompleteScans := misses,
    ledger := Ledger(st.ledger.trace + [Scanned(!incomplete)], st.ledger.uncertain || misses >= MAX_INCOMPLETE_SCANS))
  }

  /** From the processes found to the groups and members kept. */
  ghost function Settle(c: Config, o: Oracle, st: Tracked, incomplete: bool): Tracked
    requires o.Lists()
  {
    var (ledger, processes) := ReapAll(c, o, st.ledger, st.processes, Snapshot(o, st));
    var st := PruneGroups(st.(ledger := ledger, processes := processes));
    var st := AddLeaders(c, st, Snapshot(o, st));
    CountScan(PruneMembers(st), incomplete)
  }

  /** The process table as one iteration of the map yields it. */
  ghost function Snapshot(o: Oracle, st: Tracked): seq<Record>
    requires o.Lists()
  {
    Records(st.processes, o.pids(st.ledger.Tick(), st.processes.Keys))
  }

  ghost function Found(c: Config, o: Oracle, st: Tracked): (Walk, bool)
    requires o.Lists()
  {
    ScanRootGroup(c, o, WalkAll(c, o, WalkStart(c, o, st)))
  }

  ghost function Scan(c: Config, o: Oracle, st: Tracked): Tracked
    requires o.Lists()
  {
    var (w, unresolved) := Found(c, o, st);
    Settle(c, o, st.(processes := w.processes, ledger := w.ledger, unresolved := unresolved), w.incomplete)
  }

  // --------------------------------------------------------------- signalling

  function Target(expected: Identity, group: bool): int {
    if group then 0 - expected.pid else expected.pid
  }

  /** Read the target once more, then signal it. For signal 0 only the read is
      made. The result says whether the target was found as recorded. */
  ghost function SendChecked(c: Config, o: Oracle, l: Ledger, expected: Identity, group: bool,
                             signal: nat): (Ledger, bool)
  {
    var a := o.Look(l.Tick(), expected.pid);
    var l := l.Log(Checked(expected.pid, a));
    match a
    case Err(_) => (l.Fail(), false)
    case Ok(None) => (l, false)
    case Ok(Some(current)) =>
      if !current.identity.SameProcess(expected)
         || (group && (current.identity != expected || !expected.Leads())) then
        (l, false)
      else if !group && current.exited then
        (l, false)
      else if signal == 0 then
        (l, true)
      else if expected.pid == 0 || expected.pid > MAX_PID then
        (l.Refuse(BadPid), false)
      else
        var fault := o.kill(l.Tick(), Target(expected, group), signal);
        var l := l.Log(Killed(Target(expected, group), signal, expected, fault));
        if fault.None? then (l, true)
        else if c.macos && group && fault.value.Denied? then (l, false)
        else (l.Fail(), true)
  }

  /** An interrupt stage exists only where an interrupt grace does; see
      `Runs.StagesInOrder`. */
  function Grace(cl: Cleanup, phase: Phase): nat {
    match phase
    case Interrupt => if cl.interrupt.Some? then cl.interrupt.value else 0
    case Terminate => cl.term
    case Killing => SAMPLE_INTERVAL
  }

  function SignalOf(phase: Phase): nat {
    match phase
    case Interrupt => SIGINT
    case Terminate => SIGTERM
    case Killing => SIGKILL
  }

  function FirstPhase(cl: Cleanup): Phase {
    if cl.interrupt.Some? then Interrupt else Terminate
  }

  function NextPhase(phase: Phase): Phase {
    match phase
    case Interrupt => Terminate
    case Terminate => Killing
    case Killing => Killing
  }

  /** The stage a target has reached, the signal due now if any, and whether an
      earlier stage is being cut short. */
  function NextSignal(cl: Cleanup, previous: Option<Sequence>, now: nat, force: bool): (Sequence, Option<nat>, bool) {
    if force then
      (Sequence(Killing, now), Some(SIGKILL), previous.None? || !previous.value.phase.Killing?)
    else if previous.Some? && now < previous.value.next then
      (previous.value, None, false)
    else
      var phase := if previous.Some? then NextPhase(previous.value.phase) else FirstPhase(cl);
      (Sequence(phase, now + Grace(cl, phase)), Some(SignalOf(phase)), false)
  }

  /** The clock is read as its own call. */
  ghost function ReadClock(o: Oracle, l: Ledger, reference: nat): (Ledger, nat) {
    var at := o.Now(l.Tick(), reference);
    (l.Log(Clock(at)), at)
  }

  function Expired(cl: Cleanup, now: nat): bool {
    now >= cl.deadline
  }

  function InGroupOf(live: seq<Identity>, pgid: nat): seq<Identity> {
    if live == [] then []
    else (if live[0].pgid == pgid then [live[0]] else []) + InGroupOf(live[1..], pgid)
  }

  ghost function Cover(members: map<Identity, Sequence>, live: seq<Identity>, s: Sequence): map<Identity, Sequence>
    decreases |live|
  {
    if live == [] then members else Cover(members[live[0] := s], live[1..], s)
  }

  function Pids(live: seq<Identity>): set<nat> {
    set i | 0 <= i < |live| :: live[i].pid
  }

  function Find<K, V>(m: map<K, V>, k: K): Option<V> {
    if k in m then Some(m[k]) else None
  }

  function Scheduled(st: Tracked, group: Identity): Option<Sequence> {
    if group in st.groups then st.groups[group] else None
  }

  ghost function Marks(st: Tracked, group: Identity): seq<Mark> {
    if group in st.history then st.history[group] else []
  }

  /** A recorded group signal: the clock is read after the call, and the stage's
      whole grace starts there. */
  ghost function RecordGroup(o: Oracle, cl: Cleanup, st: Tracked, group: Identity, phase: Phase, at: nat,
                             event: nat): (Tracked, Sequence)
  {
    var (l, returned) := ReadClock(o, st.ledger, at);
    (st.(ledger := l, history := st.history[group := Marks(st, group) + [Mark(phase, at, returned, event)]]),
     Sequence(phase, returned + Grace(cl, phase)))
  }

  /** One group of one pass: signal it if its leader is verified, and give its
      live members the group's stage. */
  ghost function AdvanceGroup(c: Config, o: Oracle, cl: Cleanup, st: Tracked, now: nat, live: seq<Identity>,
                              group: Identity, covered: set<nat>): (Tracked, set<nat>)
  {
    var mine := InGroupOf(live, group.pgid);
    if !(st.unresolved && group.pid == c.rootPid) && mine == [] then (st, covered) else
    var (l1, at) := ReadClock(o, st.ledger, now);
    var (sequence, signal, shortened) := NextSignal(cl, Scheduled(st, group), at, Expired(cl, at));
    var (l2, sent) := SendChecked(c, o, l1, group, true, if signal.Some? then signal.value else 0);
    var st := st.(ledger := l2);
    if !sent then (st, covered) else
    var (st, sequence) :=
      if signal.Some? then RecordGroup(o, cl, st, group, sequence.phase, at, |l1.trace| + 1) else (st, sequence);
    (Adjust(st, group, sequence, shortened, mine), covered + Pids(mine))
  }

  /** The group's new stage, the members that share it, and the note of a stage
      cut short. */
  ghost function Adjust(st: Tracked, group: Identity, sequence: Sequence, shortened: bool, mine: seq<Identity>): Tracked {
    st.(
    groups := st.groups[group := Some(sequence)],
    ledger := if shortened then st.ledger.Refuse(Shortened) else st.ledger,
    members := Cover(st.members, mine, sequence))
  }

  ghost function AdvanceGroups(c: Config, o: Oracle, cl: Cleanup, st: Tracked, now: nat, live: seq<Identity>,
                               groups: seq<Identity>, covered: set<nat>): (Tracked, set<nat>)
    decreases |groups|
  {
    if groups == [] then (st, covered) else
    var (st, covered) := AdvanceGroup(c, o, cl, st, now, live, groups[0], covered);
    AdvanceGroups(c, o, cl, st, now, live, groups[1..], covered)
  }

  /** One process outside every verified group: its own schedule, its own read. */
  ghost function AdvanceMember(c: Config, o: Oracle, cl: Cleanup, st: Tracked, now: nat, member: Identity): Tracked {
    var (l1, at) := ReadClock(o, st.ledger, now);
    var (sequence, signal, shortened) := NextSignal(cl, Find(st.members, member), at, Expired(cl, at));
    if signal.None? then st.(ledger := l1) else
    var (l2, sent) := SendChecked(c, o, l1, member, false, signal.value);
    if !sent then st.(ledger := l2) else
    RecordMember(o, cl, st.(ledger := l2), member, sequence.phase, at, shortened)
  }

  /** A process signal that went through: its whole grace starts now. */
  ghost function RecordMember(o: Oracle, cl: Cleanup, st: Tracked, member: Identity, phase: Phase, at: nat,
                              shortened: bool): Tracked
  {
    var (l, returned) := ReadClock(o, st.ledger, at);
    st.(
    members := st.members[member := Sequence(phase, returned + Grace(cl, phase))],
    ledger := if shortened then l.Refuse(Shortened) else l)
  }

  ghost function AdvanceMembers(c: Config, o: Oracle, cl: Cleanup, st: Tracked, now: nat, live: seq<Identity>,
                                covered: set<nat>): Tracked
    decreases |live|
  {
    if live == [] then st else
    var st := if live[0].pid in covered then st else AdvanceMember(c, o, cl, st, now, live[0]);
    AdvanceMembers(c, o, cl, st, now, live[1..], covered)
  }

  /** The processes of `records` that have not exited, in order. */
  function LiveOf(records: seq<Record>): seq<Identity> {
    if records == [] then []
    else (if records[0].exited then [] else [records[0].identity]) + LiveOf(records[1..])
  }

  ghost function Live(o: Oracle, st: Tracked): seq<Identity>
    requires o.Lists()
  {
    LiveOf(Snapshot(o, st))
  }

  ghost function Conclude(cl: Cleanup, st: Tracked, now: nat, idle: bool): (Tracked, Progress) {
    var force := Expired(cl, now);
    var quiet := idle && st.incompleteScans == 0;
    var empty := if quiet then Bump(cl.emptyScans) else 0;
    var ledger := if force && !quiet then st.ledger.Refuse(Unfinished) else st.ledger;
    var done := empty >= 2 || force;
    (st.(cleanup := Some(cl.(emptyScans := empty)), ledger := ledger),
     Progress(done, done && idle && !ledger.uncertain))
  }

  ghost function Advance(c: Config, o: Oracle, st: Tracked, now: nat): (Tracked, Progress)
    requires o.Lists()
  {
    if st.cleanup.None? then (st, Progress(false, false)) else
    var cl := st.cleanup.value;
    var live := Live(o, st);
    var (st1, covered) := AdvanceGroups(c, o, cl, st, now, live, o.leaders(st.ledger.Tick(), st.groups.Keys), {});
    var st2 := AdvanceMembers(c, o, cl, st1, now, live, covered);
    Conclude(cl, st2, now, live == [])
  }

  ghost function BeginCleanup(st: Tracked, now: nat, interrupt: Option<nat>, term: nat): Tracked {
    if st.cleanup.Some? then st else
    var lead := if interrupt.Some? then interrupt.value else 0;
    st.(cleanup := Some(Cleanup(interrupt, term, now + lead + term + CONFIRM_GRACE, 0)))
  }

  ghost function KillAll(c: Config, o: Oracle, l: Ledger, live: seq<Identity>): Ledger
    decreases |live|
  {
    if live == [] then l else KillAll(c, o, SendChecked(c, o, l, live[0], false, SIGKILL).0, live[1..])
  }

  /** The last scan: anything still alive is killed, and nothing is confirmed. */
  ghost function FinishScan(c: Config, o: Oracle, st: Tracked): (Tracked, bool)
    requires o.Lists()
  {
    var st := Scan(c, o, st);
    var live := Live(o, st);
    var ledger := if live == [] then st.ledger else KillAll(c, o, st.ledger.Refuse(LateLive), live);
    (st.(ledger := ledger), !ledger.uncertain && st.incompleteScans == 0)
  }

  // ---------------------------------------------------------------- whole runs

  datatype Op =
    | DoScan
    | DoBegin(now: nat, interrupt: Option<nat>, term: nat)
    | DoAdvance(now: nat)
    | DoFinish
    | DoTake
    | DoFail

  ghost function Run(c: Config, o: Oracle, st: Tracked, ops: seq<Op>): Tracked
    requires o.Lists()
    decreases |ops|
  {
    if ops == [] then st else Run(c, o, Apply(c, o, st, ops[0]), ops[1..])
  }

  ghost function Apply(c: Config, o: Oracle, st: Tracked, op: Op): Tracked
    requires o.Lists()
  {
    match op
    case DoScan => Scan(c, o, st)
    case DoBegin(now, interrupt, term) => BeginCleanup(st, now, interrupt, term)
    case DoAdvance(now) => Advance(c, o, st, now).0
    case DoFinish => FinishScan(c, o, st).0
    case DoTake => st.(pending := [])
    case DoFail => st.(ledger := st.ledger.Refuse(External))
  }
}
