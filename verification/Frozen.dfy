/** On a process table that does not change during a scan, the scan finds exactly
    the processes that can be reached. */
module Frozen {
  import opened Process
  import opened Tracking
  import opened Coverage

  type Table = map<nat, Stat>

  /** Every read, inventory and reap of the scan succeeds and agrees with one table.
      An inventory may name more pids than it should, and name them twice. */
  ghost predicate FrozenAt(o: Oracle, table: Table) {
    && (forall t, pid :: o.stat(t, pid) == Ok(if pid in table then Some(table[pid]) else None))
    && (forall t, pid :: o.children(t, pid).Ok?)
    && (forall t, pid, kid :: kid in table && table[kid].ppid == pid ==> kid in o.children(t, pid).value)
    && (forall t, pgid :: o.inGroup(t, pgid).Ok?)
    && (forall t, pgid, pid :: pid in table && table[pid].pgid == pgid ==> pid in o.inGroup(t, pgid).value)
    && (forall t, pid :: o.reap(t, pid))
  }

  function Entry(table: Table, pid: nat): Record
    requires pid in table
  {
    Record(Identity(pid, table[pid].pgid, table[pid].start), table[pid].ppid, table[pid].exited)
  }

  /** The table still holds the process this identity was recorded for. */
  predicate Survives(table: Table, e: Identity) {
    e.pid in table && table[e.pid].start == e.start
  }

  /** Where a scan starts: the shim where orphans are adopted, and the retained
      processes that are still there. */
  function Roots(c: Config, table: Table, anchors: map<nat, Record>): set<nat> {
    (if c.adopt && Survives(table, c.shim) then {c.shim.pid} else {})
    + (set p | p in anchors && Survives(table, anchors[p].identity))
  }

  predicate Edge(c: Config, table: Table, p: nat, q: nat) {
    q in table && table[q].ppid == p && q != c.shim.pid
  }

  predicate Descent(c: Config, table: Table, path: seq<nat>) {
    path != [] && forall i :: 0 < i < |path| ==> Edge(c, table, path[i - 1], path[i])
  }

  /** `q` descends from a root through parent links of the table. */
  ghost predicate Reachable(c: Config, table: Table, roots: set<nat>, q: nat) {
    exists path :: Descent(c, table, path) && path[0] in roots && path[|path| - 1] == q
  }

  ghost function Reach(c: Config, table: Table, roots: set<nat>): set<nat> {
    set q | q in table && Reachable(c, table, roots, q)
  }

  lemma ReachRoot(c: Config, table: Table, roots: set<nat>, r: nat)
    requires r in roots && r in table
    ensures r in Reach(c, table, roots)
  {
    assert Descent(c, table, [r]) && [r][0] in roots && [r][0] == r;
  }

  lemma ReachEdge(c: Config, table: Table, roots: set<nat>, p: nat, q: nat)
    requires p in Reach(c, table, roots) && Edge(c, table, p, q)
    ensures q in Reach(c, table, roots)
  {
    var path :| Descent(c, table, path) && path[0] in roots && path[|path| - 1] == p;
    var longer := path + [q];
    forall i | 0 < i < |longer| ensures Edge(c, table, longer[i - 1], longer[i]) {
      if i < |path| {
        assert Edge(c, table, path[i - 1], path[i]);
      }
    }
    assert longer[0] in roots && longer[|longer| - 1] == q;
  }

  // ------------------------------------------------------------- the walk's state

  /** One scan's setting: the table, the anchors it starts from, what can be reached
      and whether certainty was lost before it. */
  datatype Scene = Scene(c: Config, table: Table, anchors: map<nat, Record>, roots: set<nat>, reach: set<nat>,
                         uncertain: bool)

  /** Anchors are keyed, do not hold the shim, and fit with everything reachable. */
  ghost predicate Fits(s: Scene) {
    && s.reach == Reach(s.c, s.table, s.roots)
    && Keyed(s.anchors) && s.c.shim.pid !in s.anchors
    && |Room(s)| <= s.c.processLimit
  }

  /** Everything a scan may come to hold. */
  ghost function Room(s: Scene): set<nat> {
    s.anchors.Keys + (s.reach - {s.c.shim.pid})
  }

  ghost predicate Pending(s: Scene, queue: seq<Identity>, visited: map<nat, nat>, q: nat) {
    q in visited || exists i :: 0 <= i < |queue| && queue[i].pid == q && Survives(s.table, queue[i])
  }

  ghost predicate StaleAnchor(s: Scene, e: Identity) {
    (e.pid in s.anchors && s.anchors[e.pid].identity == e) || (s.c.adopt && e == s.c.shim)
  }

  /** What is queued either can be reached, or is a stale anchor not yet tried and
      queued once. */
  ghost predicate QueueKnown(s: Scene, queue: seq<Identity>) {
    && (forall i :: 0 <= i < |queue| ==>
                      if Survives(s.table, queue[i]) then queue[i].pid in s.reach else StaleAnchor(s, queue[i]))
    && (forall i, j :: 0 <= i < j < |queue| && !Survives(s.table, queue[i]) && !Survives(s.table, queue[j]) ==>
                         queue[i].pid != queue[j].pid)
  }

  ghost predicate VisitedKnown(s: Scene, visited: map<nat, nat>) {
    forall p :: p in visited ==> p in s.reach && p in s.table && visited[p] == s.table[p].start
  }

  /** The children of expanded processes are expanded or queued; those of the one
      being expanded may still be in hand. */
  ghost predicate Closed(s: Scene, queue: seq<Identity>, visited: map<nat, nat>, parent: Option<nat>, hand: seq<nat>) {
    && (forall r :: r in s.roots ==> Pending(s, queue, visited, r))
    && (forall p, q :: p in visited && Edge(s.c, s.table, p, q) ==>
                         Pending(s, queue, visited, q) || (parent == Some(p) && q in hand))
  }

  predicate Fresh(s: Scene, processes: map<nat, Record>, p: nat) {
    p in processes && p in s.table && processes[p] == Entry(s.table, p)
  }

  /** The process table holds what was read, and anchors still queued. */
  ghost predicate TableKnown(s: Scene, queue: seq<Identity>, visited: map<nat, nat>, processes: map<nat, Record>) {
    && (forall p :: p in processes ==>
                      && p != s.c.shim.pid
                      && ((p in s.reach && Fresh(s, processes, p))
                          || (p in s.anchors && processes[p] == s.anchors[p] && s.anchors[p].identity in queue)))
    && (forall p :: p in visited && p != s.c.shim.pid ==> Fresh(s, processes, p))
  }

  ghost function Stale(s: Scene, queue: seq<Identity>): set<nat> {
    set i | 0 <= i < |queue| && !Survives(s.table, queue[i]) :: queue[i].pid
  }

  /** What can still cost an attempt. */
  ghost function Untried(s: Scene, queue: seq<Identity>, visited: map<nat, nat>): nat {
    |Stale(s, queue)| + |s.reach - visited.Keys|
  }

  predicate Untroubled(s: Scene, w: Walk) {
    w.ledger.uncertain == s.uncertain && !w.incomplete && !w.halted
  }

  /** The scan so far, against the table it is reading. */
  ghost predicate OnCourse(s: Scene, w: Walk, parent: Option<nat>, hand: seq<nat>) {
    && QueueKnown(s, w.queue)
    && VisitedKnown(s, w.visited)
    && Closed(s, w.queue, w.visited, parent, hand)
    && TableKnown(s, w.queue, w.visited, w.processes)
    && w.attempts + Untried(s, w.queue, w.visited) <= Cap(s.c)
    && Untroubled(s, w)
  }

  // -------------------------------------------------------------------- children

  lemma TableWithin(s: Scene, queue: seq<Identity>, visited: map<nat, nat>, processes: map<nat, Record>)
    requires TableKnown(s, queue, visited, processes)
    ensures processes.Keys <= Room(s)
  {
  }

  lemma RoomFits(s: Scene)
    requires Fits(s)
    ensures |Room(s)| <= s.c.processLimit
  {
  }

  lemma QueuedPending(s: Scene, queue: seq<Identity>, visited: map<nat, nat>, id: Identity)
    requires Survives(s.table, id)
    ensures Pending(s, queue + [id], visited, id.pid)
    ensures forall p :: Pending(s, queue, visited, p) ==> Pending(s, queue + [id], visited, p)
    ensures Stale(s, queue + [id]) == Stale(s, queue)
  {
    var longer := queue + [id];
    assert longer[|queue|] == id;
    assert forall i :: 0 <= i < |queue| ==> longer[i] == queue[i];
    forall p | Pending(s, queue, visited, p) ensures Pending(s, longer, visited, p) {
      if p !in visited {
        var i :| 0 <= i < |queue| && queue[i].pid == p && Survives(s.table, queue[i]);
        assert longer[i] == queue[i];
      }
    }
  }

  lemma Queued(s: Scene, w: Walk, parent: nat, hand: seq<nat>, q: nat)
    requires OnCourse(s, w, Some(parent), hand)
    requires q in s.reach && q in s.table && q != s.c.shim.pid
    ensures var w' := w.Put(q, Entry(s.table, q)).(queue := w.queue + [Entry(s.table, q).identity]);
            OnCourse(s, w', Some(parent), hand) && Pending(s, w'.queue, w'.visited, q)
  {
    hide Pending, Stale, QueueKnown, VisitedKnown, TableKnown;
    QueuedPending(s, w.queue, w.visited, Entry(s.table, q).identity);
    QueuedKnown(s, w, q);
  }

  lemma QueuedKnown(s: Scene, w: Walk, q: nat)
    requires QueueKnown(s, w.queue) && TableKnown(s, w.queue, w.visited, w.processes)
    requires q in s.reach && q in s.table && q != s.c.shim.pid
    ensures var w' := w.Put(q, Entry(s.table, q)).(queue := w.queue + [Entry(s.table, q).identity]);
            QueueKnown(s, w'.queue) && TableKnown(s, w'.queue, w'.visited, w'.processes)
  {
  }

  /** Having dealt with one child, only the rest are still in hand. */
  lemma HandShrinks(s: Scene, w: Walk, parent: nat, hand: seq<nat>)
    requires hand != [] && OnCourse(s, w, Some(parent), hand)
    requires Edge(s.c, s.table, parent, hand[0]) ==> Pending(s, w.queue, w.visited, hand[0])
    ensures OnCourse(s, w, Some(parent), hand[1..])
  {
    hide Pending, QueueKnown, TableKnown, Untried, VisitedKnown;
    assert forall q :: q in hand ==> q == hand[0] || q in hand[1..];
  }

  lemma HandEmpty(s: Scene, w: Walk, parent: nat)
    requires OnCourse(s, w, Some(parent), [])
    ensures OnCourse(s, w, None, [])
  {
    hide Pending, QueueKnown, TableKnown, Untried, VisitedKnown;
  }

  /** Reading on does not change the course. */
  lemma Logged(s: Scene, w: Walk, parent: Option<nat>, hand: seq<nat>, e: Event)
    requires OnCourse(s, w, parent, hand)
    ensures OnCourse(s, w.Log(e), parent, hand)
  {
    hide Closed, QueueKnown, TableKnown, Untried, VisitedKnown;
  }

  lemma LookFrozen(o: Oracle, table: Table, t: nat, pid: nat)
    requires FrozenAt(o, table)
    ensures o.Look(t, pid) == Ok(if pid in table then Some(Entry(table, pid)) else None)
  {
    assert o.stat(t, pid) == Ok(if pid in table then Some(table[pid]) else None);
  }

  lemma Course(s: Scene, w: Walk, parent: Option<nat>, hand: seq<nat>)
    requires OnCourse(s, w, parent, hand)
    ensures QueueKnown(s, w.queue) && TableKnown(s, w.queue, w.visited, w.processes) && VisitedKnown(s, w.visited)
    ensures w.attempts <= Cap(s.c) && Untroubled(s, w)
  {
  }

  lemma {:induction false} EnlistOnCourse(o: Oracle, s: Scene, w: Walk, parent: nat, hand: seq<nat>)
    requires FrozenAt(o, s.table) && Fits(s) && parent in s.reach
    requires OnCourse(s, w, Some(parent), hand)
    ensures OnCourse(s, Enlist(s.c, o, w, parent, hand), None, [])
    decreases |hand|
  {
    hide OnCourse, FrozenAt, Fits, Pending, TableKnown, QueueKnown;
    if hand == [] {
      HandEmpty(s, w, parent);
    } else {
      var pid, rest := hand[0], hand[1..];
      if pid == s.c.shim.pid {
        HandShrinks(s, w, parent, hand);
        EnlistOnCourse(o, s, w, parent, rest);
      } else {
        var a := o.Look(w.ledger.Tick(), pid);
        LookFrozen(o, s.table, w.ledger.Tick(), pid);
        var w1 := w.Log(Read(pid, a));
        Logged(s, w, Some(parent), hand, Read(pid, a));
        if pid !in s.table || s.table[pid].ppid != parent {
          HandShrinks(s, w1, parent, hand);
          EnlistOnCourse(o, s, w1, parent, rest);
        } else if pid in w1.visited && w1.visited[pid] == s.table[pid].start {
          VisitedPending(s, w1, pid);
          HandShrinks(s, w1, parent, hand);
          EnlistOnCourse(o, s, w1, parent, rest);
        } else {
          EdgeReached(s, parent, pid);
          Course(s, w1, Some(parent), hand);
          if pid !in w1.processes {
            TableWithin(s, w1.queue, w1.visited, w1.processes);
            RoomFits(s);
            RoomLeft(w1.processes, Room(s), pid);
          }
          Queued(s, w1, parent, hand, pid);
          var w2 := w1.Put(pid, Entry(s.table, pid)).(queue := w1.queue + [Entry(s.table, pid).identity]);
          HandShrinks(s, w2, parent, hand);
          EnlistOnCourse(o, s, w2, parent, rest);
        }
      }
    }
  }

  lemma VisitedPending(s: Scene, w: Walk, q: nat)
    requires q in w.visited
    ensures Pending(s, w.queue, w.visited, q)
  {
  }

  lemma EdgeReached(s: Scene, p: nat, q: nat)
    requires Fits(s) && p in s.reach && Edge(s.c, s.table, p, q)
    ensures q in s.reach
  {
    ReachEdge(s.c, s.table, s.roots, p, q);
  }

  // ----------------------------------------------------------------- queue entries

  lemma Popped(s: Scene, queue: seq<Identity>)
    requires queue != [] && QueueKnown(s, queue)
    ensures QueueKnown(s, queue[1..])
    ensures Stale(s, queue[1..]) ==
            if Survives(s.table, queue[0]) then Stale(s, queue) else Stale(s, queue) - {queue[0].pid}
    ensures !Survives(s.table, queue[0]) ==> queue[0].pid in Stale(s, queue)
  {
    var rest := queue[1..];
    assert forall i :: 0 <= i < |rest| ==> rest[i] == queue[i + 1];
    forall p | p in Stale(s, queue) && !(!Survives(s.table, queue[0]) && p == queue[0].pid)
      ensures p in Stale(s, rest)
    {
      var i :| 0 <= i < |queue| && !Survives(s.table, queue[i]) && queue[i].pid == p;
      assert rest[i - 1] == queue[i];
    }
    forall p | p in Stale(s, rest)
      ensures p in Stale(s, queue) && (Survives(s.table, queue[0]) || p != queue[0].pid)
    {
      var i :| 0 <= i < |rest| && !Survives(s.table, rest[i]) && rest[i].pid == p;
      assert queue[i + 1] == rest[i];
    }
  }

  /** Dropping the first entry unsettles at most the process it names. */
  lemma StillPending(s: Scene, queue: seq<Identity>, visited: map<nat, nat>, visited': map<nat, nat>)
    requires queue != [] && visited.Keys <= visited'.Keys
    ensures forall q :: Pending(s, queue, visited, q)
                        && (queue[0].pid != q || !Survives(s.table, queue[0]) || q in visited') ==>
                          Pending(s, queue[1..], visited', q)
  {
    forall q | Pending(s, queue, visited, q) && q !in visited'
               && (queue[0].pid != q || !Survives(s.table, queue[0]))
      ensures Pending(s, queue[1..], visited', q)
    {
      var i :| 0 <= i < |queue| && queue[i].pid == q && Survives(s.table, queue[i]);
      assert queue[1..][i - 1] == queue[i];
    }
  }

  lemma InRest(queue: seq<Identity>, id: Identity)
    requires id in queue && queue[0] != id
    ensures id in queue[1..]
  {
  }

  /** An entry already expanded is skipped. */
  lemma SkipOnCourse(s: Scene, w: Walk)
    requires Fits(s) && OnCourse(s, w, None, []) && w.queue != []
    requires w.queue[0].pid in w.visited && w.visited[w.queue[0].pid] == w.queue[0].start
    ensures OnCourse(s, w.(queue := w.queue[1..]), None, [])
  {
    hide Pending, Stale, QueueKnown, TableKnown, Fits;
    Popped(s, w.queue);
    StaysClosed(s, w.queue, w.visited);
    SkipTable(s, w.queue, w.visited, w.processes);
  }

  lemma StaysClosed(s: Scene, queue: seq<Identity>, visited: map<nat, nat>)
    requires queue != [] && Closed(s, queue, visited, None, [])
    requires Survives(s.table, queue[0]) ==> queue[0].pid in visited
    ensures Closed(s, queue[1..], visited, None, [])
  {
    hide Pending;
    StillPending(s, queue, visited, visited);
  }

  lemma SkipTable(s: Scene, queue: seq<Identity>, visited: map<nat, nat>, processes: map<nat, Record>)
    requires Fits(s) && queue != [] && TableKnown(s, queue, visited, processes) && VisitedKnown(s, visited)
    requires queue[0].pid in visited
    ensures TableKnown(s, queue[1..], visited, processes)
  {
    forall p | p in processes && !(p in s.reach && Fresh(s, processes, p))
      ensures p in s.anchors && processes[p] == s.anchors[p] && s.anchors[p].identity in queue[1..]
    {
      assert s.anchors[p].identity.pid == p && p !in visited;
      InRest(queue, s.anchors[p].identity);
    }
  }

  lemma Without(a: set<nat>, x: nat)
    requires x in a
    ensures |a - {x}| == |a| - 1
  {
  }

  /** Every attempt is paid for: by a stale entry, or by a process expanded once. */
  lemma OneTried(s: Scene, queue: seq<Identity>, visited: map<nat, nat>, visited': map<nat, nat>)
    requires queue != [] && QueueKnown(s, queue)
    requires if Survives(s.table, queue[0]) then
               queue[0].pid in s.reach && queue[0].pid !in visited && visited'.Keys == visited.Keys + {queue[0].pid}
             else
               visited' == visited
    ensures Untried(s, queue[1..], visited') == Untried(s, queue, visited) - 1
  {
    hide Stale, QueueKnown, Survives;
    Popped(s, queue);
    if Survives(s.table, queue[0]) {
      Without(s.reach - visited.Keys, queue[0].pid);
      Beyond(s.reach, visited.Keys, visited'.Keys, queue[0].pid);
    } else {
      Without(Stale(s, queue), queue[0].pid);
    }
  }

  lemma Beyond(a: set<nat>, b: set<nat>, b': set<nat>, x: nat)
    requires b' == b + {x}
    ensures a - b' == (a - b) - {x}
  {
  }

  /** A stale anchor costs one attempt and leaves the table. */
  lemma ForgetOnCourse(s: Scene, w: Walk, l: Ledger)
    requires Fits(s) && OnCourse(s, w, None, []) && w.queue != []
    requires !Survives(s.table, w.queue[0]) && l.uncertain == s.uncertain
    ensures var w1 := w.(queue := w.queue[1..], attempts := w.attempts + 1, ledger := l);
            w1.attempts <= Cap(s.c) && OnCourse(s, Forget(w1, w.queue[0]), None, [])
  {
    hide Untried, QueueKnown, TableKnown, VisitedKnown, Closed, Fits;
    var w1 := w.(queue := w.queue[1..], attempts := w.attempts + 1, ledger := l);
    var w' := Forget(w1, w.queue[0]);
    Popped(s, w.queue);
    StaysClosed(s, w.queue, w.visited);
    OneTried(s, w.queue, w.visited, w.visited);
    ForgetTable(s, w.queue, w.visited, w.processes, w'.processes);
  }

  lemma ForgetTable(s: Scene, queue: seq<Identity>, visited: map<nat, nat>, processes: map<nat, Record>,
                    processes': map<nat, Record>)
    requires Fits(s) && queue != [] && TableKnown(s, queue, visited, processes) && !Survives(s.table, queue[0])
    requires var e := queue[0];
             processes' == if e.pid in processes && processes[e.pid].identity.SameProcess(e) then processes - {e.pid} else processes
    ensures TableKnown(s, queue[1..], visited, processes')
  {
    var e := queue[0];
    forall p | p in visited && p != s.c.shim.pid ensures Fresh(s, processes', p) {
      assert Fresh(s, processes, p);
    }
    forall p | p in processes' && !(p in s.reach && Fresh(s, processes', p))
      ensures p in s.anchors && processes'[p] == s.anchors[p] && s.anchors[p].identity in queue[1..]
    {
      assert s.anchors[p].identity.pid == p;
      InRest(queue, s.anchors[p].identity);
    }
  }

  /** A surviving entry is recorded as it reads now, and its children come in hand. */
  lemma VisitOnCourse(s: Scene, w: Walk, l: Ledger, hand: seq<nat>)
    requires Fits(s) && OnCourse(s, w, None, []) && w.queue != []
    requires Survives(s.table, w.queue[0]) && l.uncertain == s.uncertain
    requires !(w.queue[0].pid in w.visited && w.visited[w.queue[0].pid] == w.queue[0].start)
    requires forall q :: Edge(s.c, s.table, w.queue[0].pid, q) ==> q in hand
    ensures var e := w.queue[0];
            var w1 := w.(queue := w.queue[1..], attempts := w.attempts + 1, ledger := l);
            && w1.attempts <= Cap(s.c) && e.pid in s.reach
            && OnCourse(s, Visit(s.c, w1, e, Entry(s.table, e.pid)), Some(e.pid), hand)
  {
    hide Untried, QueueKnown, TableKnown, VisitedKnown, Closed, Fits;
    var e := w.queue[0];
    var w1 := w.(queue := w.queue[1..], attempts := w.attempts + 1, ledger := l);
    var w' := Visit(s.c, w1, e, Entry(s.table, e.pid));
    Popped(s, w.queue);
    VisitVisited(s, w.queue, w.visited);
    OneTried(s, w.queue, w.visited, w'.visited);
    VisitClosed(s, w.queue, w.visited, w'.visited, hand);
    VisitTable(s, w.queue, w.visited, w.processes, w'.visited, w'.processes);
  }

  lemma VisitVisited(s: Scene, queue: seq<Identity>, visited: map<nat, nat>)
    requires queue != [] && QueueKnown(s, queue) && VisitedKnown(s, visited) && Survives(s.table, queue[0])
    requires !(queue[0].pid in visited && visited[queue[0].pid] == queue[0].start)
    ensures queue[0].pid in s.reach && queue[0].pid !in visited
    ensures VisitedKnown(s, visited[queue[0].pid := s.table[queue[0].pid].start])
  {
  }

  lemma VisitClosed(s: Scene, queue: seq<Identity>, visited: map<nat, nat>, visited': map<nat, nat>, hand: seq<nat>)
    requires queue != [] && Closed(s, queue, visited, None, [])
    requires visited'.Keys == visited.Keys + {queue[0].pid}
    requires forall q :: Edge(s.c, s.table, queue[0].pid, q) ==> q in hand
    ensures Closed(s, queue[1..], visited', Some(queue[0].pid), hand)
  {
    hide Pending;
    StillPending(s, queue, visited, visited');
  }

  lemma VisitTable(s: Scene, queue: seq<Identity>, visited: map<nat, nat>, processes: map<nat, Record>,
                   visited': map<nat, nat>, processes': map<nat, Record>)
    requires Fits(s) && queue != [] && TableKnown(s, queue, visited, processes)
    requires Survives(s.table, queue[0]) && queue[0].pid in s.reach
    requires visited'.Keys == visited.Keys + {queue[0].pid}
    requires var p := queue[0].pid;
             processes' == if p != s.c.shim.pid then processes[p := Entry(s.table, p)] else processes
    ensures TableKnown(s, queue[1..], visited', processes')
  {
    var e := queue[0];
    forall p | p in visited' && p != s.c.shim.pid ensures Fresh(s, processes', p) {
      assert p != e.pid ==> Fresh(s, processes, p);
    }
    forall p | p in processes' && !(p in s.reach && Fresh(s, processes', p))
      ensures p in s.anchors && processes'[p] == s.anchors[p] && s.anchors[p].identity in queue[1..]
    {
      assert p != e.pid && s.anchors[p].identity.pid == p;
      InRest(queue, s.anchors[p].identity);
    }
  }

  /** One step of the scan stays on course. */
  lemma StepOnCourse(o: Oracle, s: Scene, w: Walk)
    requires FrozenAt(o, s.table) && Fits(s) && OnCourse(s, w, None, []) && w.queue != []
    ensures OnCourse(s, Step(s.c, o, w), None, [])
  {
    hide OnCourse, FrozenAt, Fits, Enlist, QueueKnown, TableKnown, VisitedKnown;
    var e := w.queue[0];
    if e.pid in w.visited && w.visited[e.pid] == e.start {
      SkipOnCourse(s, w);
    } else {
      Course(s, w, None, []);
      var w1 := w.(queue := w.queue[1..], attempts := w.attempts + 1);
      var a := o.Look(w1.ledger.Tick(), e.pid);
      LookFrozen(o, s.table, w1.ledger.Tick(), e.pid);
      var w2 := w1.Log(Read(e.pid, a));
      if Survives(s.table, e) {
        var kids := o.children(w2.ledger.Tick(), e.pid);
        ChildrenFrozen(s.c, o, s.table, w2.ledger.Tick(), e.pid);
        VisitOnCourse(s, w, w2.ledger, kids.value);
        ExpandOnCourse(o, s, Visit(s.c, w2, e, Entry(s.table, e.pid)), e, kids.value);
      } else {
        ForgetOnCourse(s, w, w2.ledger);
      }
    }
  }

  lemma ExpandOnCourse(o: Oracle, s: Scene, w: Walk, e: Identity, hand: seq<nat>)
    requires FrozenAt(o, s.table) && Fits(s) && Survives(s.table, e) && e.pid in s.reach
    requires o.children(w.ledger.Tick(), e.pid) == Ok(hand) && OnCourse(s, w, Some(e.pid), hand)
    ensures OnCourse(s, Expand(s.c, o, w, e), None, [])
  {
    hide OnCourse, FrozenAt, Fits, Enlist;
    var w1 := w.Log(Children(e.pid, Ok(hand)));
    LookFrozen(o, s.table, w1.ledger.Tick(), e.pid);
    Logged(s, w, Some(e.pid), hand, Children(e.pid, Ok(hand)));
    var again := Read(e.pid, o.Look(w1.ledger.Tick(), e.pid));
    Logged(s, w1, Some(e.pid), hand, again);
    EnlistOnCourse(o, s, w1.Log(again), e.pid, hand);
  }

  lemma ChildrenFrozen(c: Config, o: Oracle, table: Table, t: nat, pid: nat)
    requires FrozenAt(o, table)
    ensures o.children(t, pid).Ok? && forall q :: Edge(c, table, pid, q) ==> q in o.children(t, pid).value
  {
  }

  // ---------------------------------------------------------------- the whole walk

  lemma {:induction false} WalkOnCourse(o: Oracle, s: Scene, w: Walk)
    requires FrozenAt(o, s.table) && Fits(s) && OnCourse(s, w, None, [])
    requires w.attempts <= Cap(s.c)
    ensures var r := WalkAll(s.c, o, w); OnCourse(s, r, None, []) && r.queue == []
    decreases Cap(s.c) + 1 - w.attempts, |w.queue|
  {
    hide OnCourse, FrozenAt, Fits, Step;
    Course(s, w, None, []);
    if w.queue != [] {
      StepOnCourse(o, s, w);
      Course(s, Step(s.c, o, w), None, []);
      StepProgress(s.c, o, w);
      WalkOnCourse(o, s, Step(s.c, o, w));
    }
  }

  lemma StepProgress(c: Config, o: Oracle, w: Walk)
    requires w.queue != []
    ensures var r := Step(c, o, w); w.attempts < r.attempts || (w.attempts == r.attempts && |r.queue| < |w.queue|)
  {
  }

  /** The setting of a scan that starts from the state `st`. */
  ghost function Setting(c: Config, table: Table, st: Tracked): Scene {
    var roots := Roots(c, table, st.processes);
    Scene(c, table, st.processes, roots, Reach(c, table, roots), st.ledger.uncertain)
  }

  lemma ShimOnlyRoot(s: Scene)
    requires Fits(s) && s.c.shim.pid in s.reach
    ensures s.c.shim.pid in s.roots
  {
    var shim := s.c.shim.pid;
    var path :| Descent(s.c, s.table, path) && path[0] in s.roots && path[|path| - 1] == shim;
    assert |path| > 1 ==> Edge(s.c, s.table, path[|path| - 2], path[|path| - 1]);
  }

  /** The anchors in the order the map yields them, each once. */
  lemma AnchorsListed(processes: map<nat, Record>, order: seq<nat>)
    requires Keyed(processes) && Listing(order, processes.Keys)
    ensures var anchors := Identities(processes, order);
            && (forall i :: 0 <= i < |anchors| ==>
                  anchors[i].pid in processes && processes[anchors[i].pid].identity == anchors[i])
            && (forall i, j :: 0 <= i < j < |anchors| ==> anchors[i].pid != anchors[j].pid)
            && (forall p :: p in processes ==> processes[p].identity in anchors)
  {
    var anchors := Identities(processes, order);
    assert forall i :: 0 <= i < |order| ==> order[i] in order && anchors[i] == processes[order[i]].identity;
    forall p | p in processes ensures processes[p].identity in anchors {
      assert p in order;
      var k :| 0 <= k < |order| && order[k] == p;
      assert anchors[k] == processes[p].identity;
    }
  }

  /** The first queue: the shim where orphans are adopted, then every anchor once. */
  lemma QueueShape(c: Config, o: Oracle, st: Tracked)
    requires o.Lists() && Keyed(st.processes) && c.shim.pid !in st.processes
    ensures var queue := WalkStart(c, o, st).queue;
            && (forall i :: 0 <= i < |queue| ==>
                  (c.adopt && queue[i] == c.shim)
                  || (queue[i].pid in st.processes && st.processes[queue[i].pid].identity == queue[i]))
            && (forall i, j :: 0 <= i < j < |queue| ==> queue[i].pid != queue[j].pid)
            && (forall p :: p in st.processes ==> st.processes[p].identity in queue)
            && (c.adopt ==> c.shim in queue)
  {
    hide Keyed;
    var order := o.pids(st.ledger.Tick(), st.processes.Keys);
    assert Listing(order, st.processes.Keys);
    AnchorsListed(st.processes, order);
    hide Identities;
    ShimFirst(c, st.processes, Identities(st.processes, order));
  }

  lemma ShimFirst(c: Config, processes: map<nat, Record>, anchors: seq<Identity>)
    requires c.shim.pid !in processes
    requires forall i :: 0 <= i < |anchors| ==>
      anchors[i].pid in processes && processes[anchors[i].pid].identity == anchors[i]
    requires forall i, j :: 0 <= i < j < |anchors| ==> anchors[i].pid != anchors[j].pid
    requires forall p :: p in processes ==> processes[p].identity in anchors
    ensures var queue := (if c.adopt then [c.shim] else []) + anchors;
            && (forall i :: 0 <= i < |queue| ==>
                  (c.adopt && queue[i] == c.shim)
                  || (queue[i].pid in processes && processes[queue[i].pid].identity == queue[i]))
            && (forall i, j :: 0 <= i < j < |queue| ==> queue[i].pid != queue[j].pid)
            && (forall p :: p in processes ==> processes[p].identity in queue)
            && (c.adopt ==> c.shim in queue)
  {
    if c.adopt {
      assert ([c.shim] + anchors)[0] == c.shim;
    }
  }

  lemma StartQueue(s: Scene, o: Oracle, st: Tracked)
    requires o.Lists() && s == Setting(s.c, s.table, st) && Fits(s)
    ensures QueueKnown(s, WalkStart(s.c, o, st).queue)
    ensures forall p :: p in st.processes ==> st.processes[p].identity in WalkStart(s.c, o, st).queue
    ensures s.c.adopt ==> s.c.shim in WalkStart(s.c, o, st).queue
  {
    hide WalkStart, Reach;
    QueueShape(s.c, o, st);
    var queue := WalkStart(s.c, o, st).queue;
    forall i | 0 <= i < |queue| && Survives(s.table, queue[i]) ensures queue[i].pid in s.reach {
      assert queue[i].pid in s.roots;
      ReachRoot(s.c, s.table, s.roots, queue[i].pid);
    }
  }

  lemma StartCost(s: Scene, queue: seq<Identity>)
    requires Fits(s) && QueueKnown(s, queue)
    requires s.c.shim.pid in s.roots ==> Survives(s.table, s.c.shim)
    ensures Untried(s, queue, map[]) <= Cap(s.c)
  {
    hide Reach;
    var shim, none: map<nat, nat> := s.c.shim.pid, map[];
    assert s.reach - none.Keys == s.reach;
    StaleFew(s, queue);
    if shim in s.reach {
      ShimOnlyRoot(s);
    }
    Counted(s.anchors.Keys, s.reach, Stale(s, queue), shim, s.c.processLimit);
  }

  lemma StaleFew(s: Scene, queue: seq<Identity>)
    requires QueueKnown(s, queue)
    ensures Stale(s, queue) <= s.anchors.Keys + {s.c.shim.pid}
    ensures s.c.shim.pid !in s.anchors && Survives(s.table, s.c.shim) ==> Stale(s, queue) <= s.anchors.Keys
  {
  }

  lemma Counted(anchors: set<nat>, reach: set<nat>, stale: set<nat>, shim: nat, limit: nat)
    requires |anchors + (reach - {shim})| <= limit
    requires stale <= anchors + {shim} && (shim in reach ==> stale <= anchors)
    ensures |stale| + |reach| <= limit * 2 + 1
  {
    Fewer(anchors, anchors + (reach - {shim}));
    Fewer(reach - {shim}, anchors + (reach - {shim}));
    if shim in reach {
      Fewer(stale, anchors);
      assert reach == (reach - {shim}) + {shim};
    } else {
      Fewer(stale, anchors + {shim});
      assert reach == reach - {shim};
    }
  }

  lemma StartOnCourse(s: Scene, o: Oracle, st: Tracked)
    requires o.Lists() && s == Setting(s.c, s.table, st) && Fits(s)
    ensures OnCourse(s, WalkStart(s.c, o, st), None, [])
  {
    hide Fits, QueueKnown, Untried, WalkStart;
    var w := WalkStart(s.c, o, st);
    StartShape(s.c, o, st);
    StartQueue(s, o, st);
    StartRoots(s, st);
    StartCost(s, w.queue);
    forall r | r in s.roots ensures Pending(s, w.queue, w.visited, r) {
      var e := if r in st.processes && Survives(s.table, st.processes[r].identity) then st.processes[r].identity else s.c.shim;
      assert e in w.queue && e.pid == r && Survives(s.table, e);
    }
    StartTable(s, st, w);
  }

  lemma StartShape(c: Config, o: Oracle, st: Tracked)
    requires o.Lists()
    ensures var w := WalkStart(c, o, st);
            w.processes == st.processes && w.ledger == st.ledger && w.visited == map[] && w.attempts == 0
            && !w.incomplete && !w.halted
  {
  }

  lemma StartRoots(s: Scene, st: Tracked)
    requires s == Setting(s.c, s.table, st) && Fits(s)
    ensures s.c.shim.pid in s.roots ==> s.c.adopt && Survives(s.table, s.c.shim)
    ensures forall r :: r in st.processes ==> st.processes[r].identity.pid == r
    ensures forall r :: r in s.roots ==>
                          (r in st.processes && Survives(s.table, st.processes[r].identity))
                          || (r == s.c.shim.pid && s.c.adopt && Survives(s.table, s.c.shim))
  {
  }

  lemma StartTable(s: Scene, st: Tracked, w: Walk)
    requires Fits(s) && s.anchors == st.processes == w.processes && w.visited == map[]
    requires forall p :: p in st.processes ==> st.processes[p].identity in w.queue
    ensures TableKnown(s, w.queue, w.visited, w.processes)
  {
  }

  /** An empty queue means everything that can be reached has been expanded. */
  lemma {:induction false} DescentVisited(s: Scene, visited: map<nat, nat>, path: seq<nat>)
    requires Closed(s, [], visited, None, []) && Descent(s.c, s.table, path) && path[0] in s.roots
    ensures path[|path| - 1] in visited
    decreases |path|
  {
    if |path| > 1 {
      var shorter := path[..|path| - 1];
      forall i | 0 < i < |shorter| ensures Edge(s.c, s.table, shorter[i - 1], shorter[i]) {
        assert Edge(s.c, s.table, path[i - 1], path[i]);
      }
      DescentVisited(s, visited, shorter);
      assert Edge(s.c, s.table, path[|path| - 2], path[|path| - 1]);
    }
    assert Pending(s, [], visited, path[|path| - 1]);
  }

  lemma AllVisited(s: Scene, visited: map<nat, nat>)
    requires Fits(s) && Closed(s, [], visited, None, [])
    ensures s.reach <= visited.Keys
  {
    hide Closed;
    forall q | q in s.reach ensures q in visited {
      var path :| Descent(s.c, s.table, path) && path[0] in s.roots && path[|path| - 1] == q;
      DescentVisited(s, visited, path);
    }
  }

  lemma WalkExact(s: Scene, w: Walk)
    requires Fits(s) && OnCourse(s, w, None, []) && w.queue == []
    ensures w.processes.Keys == s.reach - {s.c.shim.pid}
    ensures AllFresh(s.table, w.processes)
  {
    hide Closed, Fits, Untried;
    AllVisited(s, w.visited);
    assert forall p :: p in s.reach && p != s.c.shim.pid ==> Fresh(s, w.processes, p);
  }

  // ------------------------------------------------------- the exited root's group

  /** The members of an exited root's own group, which sampling mode can still name. */
  function Pinned(c: Config, table: Table, found: set<nat>): set<nat> {
    if !c.adopt && c.rootPid in found && c.rootPid in table
       && table[c.rootPid].exited && table[c.rootPid].pgid == c.rootPid then
      set p | p in table && table[p].pgid == c.rootPid
    else
      {}
  }

  function Grouped(table: Table, pgid: nat, pids: seq<nat>): set<nat> {
    set p | p in pids && p in table && table[p].pgid == pgid
  }

  lemma GroupedNext(table: Table, pgid: nat, pids: seq<nat>)
    requires pids != []
    ensures Grouped(table, pgid, pids) ==
            Grouped(table, pgid, pids[1..])
            + (if pids[0] in table && table[pids[0]].pgid == pgid then {pids[0]} else {})
  {
    assert forall p :: p in pids <==> p == pids[0] || p in pids[1..];
  }

  predicate AllFresh(table: Table, processes: map<nat, Record>) {
    forall p :: p in processes ==> p in table && processes[p] == Entry(table, p)
  }

  /** Enlisting `pids` from `w` gave `r`: the members of the group among them. */
  ghost predicate Enlisted(table: Table, w: Walk, r: (Walk, bool), pgid: nat, pids: seq<nat>) {
    && AllFresh(table, r.0.processes) && !r.0.incomplete && r.0.halted == w.halted && !r.1
    && r.0.ledger.uncertain == w.ledger.uncertain
    && r.0.processes.Keys == w.processes.Keys + Grouped(table, pgid, pids)
  }

  lemma EnlistedOne(table: Table, w: Walk, w': Walk, r: (Walk, bool), pgid: nat, pids: seq<nat>)
    requires pids != [] && Enlisted(table, w', r, pgid, pids[1..])
    requires w'.halted == w.halted && w'.ledger.uncertain == w.ledger.uncertain
    requires w'.processes.Keys ==
             w.processes.Keys + (if pids[0] in table && table[pids[0]].pgid == pgid then {pids[0]} else {})
    ensures Enlisted(table, w, r, pgid, pids)
  {
    hide Grouped, AllFresh;
    GroupedNext(table, pgid, pids);
  }

  lemma {:induction false} EnlistGroupExact(c: Config, o: Oracle, table: Table, w: Walk, pgid: nat, pids: seq<nat>,
                                            all: set<nat>)
    requires FrozenAt(o, table) && AllFresh(table, w.processes) && !w.incomplete
    requires w.processes.Keys <= all && |all| <= c.processLimit
    requires forall p :: p in table && table[p].pgid == pgid ==> p in all
    ensures Enlisted(table, w, EnlistGroup(c, o, w, pgid, pids, false), pgid, pids)
    decreases |pids|
  {
    hide FrozenAt, AllFresh, Enlisted, EnlistGroup;
    if pids != [] {
      var pid, rest := pids[0], pids[1..];
      var w1 := w.Log(Read(pid, o.Look(w.ledger.Tick(), pid)));
      EnlistGroupNext(c, o, table, w, pgid, pids, all);
      if pid in table && table[pid].pgid == pgid {
        var w2 := w1.Put(pid, Entry(table, pid));
        FreshPut(table, w1.processes, pid);
        EnlistGroupExact(c, o, table, w2, pgid, rest, all);
        EnlistedOne(table, w, w2, EnlistGroup(c, o, w2, pgid, rest, false), pgid, pids);
      } else {
        EnlistGroupExact(c, o, table, w1, pgid, rest, all);
        EnlistedOne(table, w, w1, EnlistGroup(c, o, w1, pgid, rest, false), pgid, pids);
      }
    } else {
      EnlistGroupEnds(c, o, w, pgid);
      EnlistedNone(table, w, pgid);
    }
  }

  lemma EnlistGroupEnds(c: Config, o: Oracle, w: Walk, pgid: nat)
    ensures EnlistGroup(c, o, w, pgid, [], false) == (w, false)
  {
  }

  /** The first pid of the inventory, read: recorded if it is in the group. */
  lemma EnlistGroupNext(c: Config, o: Oracle, table: Table, w: Walk, pgid: nat, pids: seq<nat>, all: set<nat>)
    requires FrozenAt(o, table) && pids != [] && w.processes.Keys <= all && |all| <= c.processLimit
    requires forall p :: p in table && table[p].pgid == pgid ==> p in all
    ensures var pid := pids[0]; var w1 := w.Log(Read(pid, o.Look(w.ledger.Tick(), pid)));
            EnlistGroup(c, o, w, pgid, pids, false) ==
            if pid in table && table[pid].pgid == pgid
            then EnlistGroup(c, o, w1.Put(pid, Entry(table, pid)), pgid, pids[1..], false)
            else EnlistGroup(c, o, w1, pgid, pids[1..], false)
  {
    hide FrozenAt;
    var pid := pids[0];
    LookFrozen(o, table, w.ledger.Tick(), pid);
    if pid in table && table[pid].pgid == pgid && pid !in w.processes {
      RoomLeft(w.processes, all, pid);
    }
  }

  lemma EnlistedNone(table: Table, w: Walk, pgid: nat)
    requires AllFresh(table, w.processes) && !w.incomplete
    ensures Enlisted(table, w, (w, false), pgid, [])
  {
    assert Grouped(table, pgid, []) == {};
  }

  lemma FreshPut(table: Table, processes: map<nat, Record>, pid: nat)
    requires AllFresh(table, processes) && pid in table
    ensures AllFresh(table, processes[pid := Entry(table, pid)])
  {
  }

  lemma RoomLeft(processes: map<nat, Record>, all: set<nat>, pid: nat)
    requires processes.Keys <= all && pid in all && pid !in processes
    ensures |processes| < |all|
  {
    assert processes.Keys <= all - {pid};
    Fewer(processes.Keys, all - {pid});
    assert |processes| == |processes.Keys|;
  }

  lemma RootGroupExact(c: Config, o: Oracle, table: Table, w: Walk)
    requires FrozenAt(o, table) && AllFresh(table, w.processes) && !w.incomplete
    requires |w.processes.Keys + Pinned(c, table, w.processes.Keys)| <= c.processLimit
    ensures var (r, unresolved) := ScanRootGroup(c, o, w);
            && AllFresh(table, r.processes) && !r.incomplete && r.halted == w.halted && !unresolved
            && r.ledger.uncertain == w.ledger.uncertain
            && r.processes.Keys == w.processes.Keys + Pinned(c, table, w.processes.Keys)
  {
    hide FrozenAt, EnlistGroup;
    if !c.adopt && c.rootPid in w.processes && table[c.rootPid].exited && table[c.rootPid].pgid == c.rootPid {
      var pids := o.inGroup(w.ledger.Tick(), c.rootPid);
      InGroupFrozen(o, table, w.ledger.Tick(), c.rootPid);
      var w1 := w.Log(InGroup(c.rootPid, pids));
      LookFrozen(o, table, w1.ledger.Tick(), c.rootPid);
      var w2 := w1.Log(Read(c.rootPid, o.Look(w1.ledger.Tick(), c.rootPid)));
      EnlistGroupExact(c, o, table, w2, c.rootPid, pids.value, w.processes.Keys + Pinned(c, table, w.processes.Keys));
      assert Grouped(table, c.rootPid, pids.value) == Pinned(c, table, w.processes.Keys);
    }
  }

  lemma InGroupFrozen(o: Oracle, table: Table, t: nat, pgid: nat)
    requires FrozenAt(o, table)
    ensures o.inGroup(t, pgid).Ok? && forall p :: p in table && table[p].pgid == pgid ==> p in o.inGroup(t, pgid).value
  {
  }

  // ---------------------------------------------------------------------- reaping

  lemma {:induction false} ReapExact(c: Config, o: Oracle, table: Table, l: Ledger, processes: map<nat, Record>,
                                     records: seq<Record>)
    requires FrozenAt(o, table)
    ensures var (l', r) := ReapAll(c, o, l, processes, records);
            && l'.uncertain == l.uncertain
            && r == processes - (set i | 0 <= i < |records| && Reapable(c, records[i]) :: records[i].identity.pid)
    decreases |records|
  {
    if records != [] {
      var first, rest := records[0], records[1..];
      var gone := set i | 0 <= i < |records| && Reapable(c, records[i]) :: records[i].identity.pid;
      var later := set i | 0 <= i < |rest| && Reapable(c, rest[i]) :: rest[i].identity.pid;
      assert forall i :: 0 < i < |records| ==> records[i] == rest[i - 1];
      assert forall i :: 0 <= i < |rest| ==> records[i + 1] == rest[i];
      assert gone == later + (if Reapable(c, first) then {first.identity.pid} else {}) by {
        forall p | p in gone && !(Reapable(c, first) && p == first.identity.pid) ensures p in later {
          var i :| 0 <= i < |records| && Reapable(c, records[i]) && records[i].identity.pid == p;
          assert rest[i - 1] == records[i];
        }
        forall p | p in later ensures p in gone {
          var i :| 0 <= i < |rest| && Reapable(c, rest[i]) && rest[i].identity.pid == p;
          assert records[i + 1] == rest[i];
        }
      }
      if Reapable(c, first) {
        assert o.reap(l.Tick(), first.identity.pid);
        ReapExact(c, o, table, l.Log(Reaped(first.identity.pid, true)), processes - {first.identity.pid}, rest);
      } else {
        ReapExact(c, o, table, l, processes, rest);
      }
    }
  }

  // --------------------------------------------------------------------- the scan

  /** Everything a scan should be tracking afterwards. */
  ghost function Sighted(c: Config, table: Table, st: Tracked): set<nat> {
    var found := Reach(c, table, Roots(c, table, st.processes)) - {c.shim.pid};
    found + Pinned(c, table, found)
  }

  lemma FoundExact(c: Config, o: Oracle, table: Table, st: Tracked)
    requires o.Lists() && FrozenAt(o, table) && Keyed(st.processes) && c.shim.pid !in st.processes
    requires |st.processes.Keys + Sighted(c, table, st)| <= c.processLimit
    ensures var (w, unresolved) := Found(c, o, st);
            && !w.halted && !w.incomplete && !unresolved && w.ledger.uncertain == st.ledger.uncertain
            && w.processes.Keys == Sighted(c, table, st) && AllFresh(table, w.processes)
  {
    hide FrozenAt, OnCourse, WalkAll, WalkStart, ScanRootGroup, Reach;
    var s := Setting(c, table, st);
    var found := s.reach - {c.shim.pid};
    Fewer(st.processes.Keys + found, st.processes.Keys + Sighted(c, table, st));
    StartOnCourse(s, o, st);
    StartShape(c, o, st);
    var w := WalkAll(c, o, WalkStart(c, o, st));
    WalkOnCourse(o, s, WalkStart(c, o, st));
    Course(s, w, None, []);
    WalkExact(s, w);
    Fewer(Sighted(c, table, st), st.processes.Keys + Sighted(c, table, st));
    RootGroupExact(c, o, table, w);
  }

  /** On a table that does not change, where the retained processes and all there is
      to find fit the process limit: the scan is complete, never runs out of attempts,
      loses no certainty while finding, and tracks exactly the processes that descend
      from the shim (where it adopts orphans) and from the retained processes still
      there, with the group of an exited root in sampling mode, less the adopted
      zombies it reaps; each as the table has it. */
  lemma ScanExact(c: Config, o: Oracle, table: Table, st: Tracked)
    requires o.Lists() && FrozenAt(o, table) && Keyed(st.processes) && c.shim.pid !in st.processes
    requires |st.processes.Keys + Sighted(c, table, st)| <= c.processLimit
    ensures var w := Found(c, o, st).0;
            !w.halted && !w.incomplete && w.ledger.uncertain == st.ledger.uncertain
    ensures Sighted(c, table, st) <= table.Keys
    ensures Scan(c, o, st).processes ==
            map p | p in Sighted(c, table, st)
                    && !(c.adopt && p != c.rootPid && table[p].exited && table[p].ppid == c.shim.pid) :: Entry(table, p)
    ensures Scan(c, o, st).incompleteScans == 0 && !Scan(c, o, st).unresolved
  {
    hide FrozenAt, Sighted, Found, ReapAll, AddLeaders, Retained, Reapable, AllFresh;
    LeftToReap(c, table);
    FoundExact(c, o, table, st);
    SightedKnown(c, table, st);
    var (w, unresolved) := Found(c, o, st);
    var st1 := st.(processes := w.processes, ledger := w.ledger, unresolved := unresolved);
    ReapSnapshot(c, o, table, st1);
    var (l, processes) := ReapAll(c, o, st1.ledger, st1.processes, Snapshot(o, st1));
    var st2 := PruneGroups(st1.(ledger := l, processes := processes));
    LeadersUnmoved(c, st2, Snapshot(o, st2));
    LeadersLater(c, st2, Snapshot(o, st2));
  }

  lemma {:induction false} LeadersLater(c: Config, st: Tracked, records: seq<Record>)
    ensures AddLeaders(c, st, records).unresolved == st.unresolved
    decreases |records|
  {
    if records != [] {
      var id, rest := records[0].identity, records[1..];
      LeadersLater(c, st, rest);
      LeadersLater(c, st.(ledger := st.ledger.Refuse(GroupLimit)), rest);
      LeadersLater(c, Enrolled(st, id), rest);
    }
  }

  /** Who is reaped, by the table: never the root. */
  lemma LeftToReap(c: Config, table: Table)
    ensures forall p :: p in table ==>
              (Reapable(c, Entry(table, p)) <==>
                c.adopt && p != c.rootPid && table[p].exited && table[p].ppid == c.shim.pid)
  {
  }

  lemma ReapSnapshot(c: Config, o: Oracle, table: Table, st: Tracked)
    requires o.Lists() && FrozenAt(o, table) && AllFresh(table, st.processes)
    ensures st.processes.Keys <= table.Keys
    ensures ReapAll(c, o, st.ledger, st.processes, Snapshot(o, st)).1 ==
            map p | p in st.processes.Keys && !Reapable(c, Entry(table, p)) :: Entry(table, p)
  {
    hide FrozenAt, ReapAll, Reapable, Snapshot;
    var records := Snapshot(o, st);
    FreshKeyed(table, st.processes);
    SnapshotHolds(o, st);
    ReapExact(c, o, table, st.ledger, st.processes, records);
    var gone := set i | 0 <= i < |records| && Reapable(c, records[i]) :: records[i].identity.pid;
    forall p | p in st.processes ensures p in gone <==> Reapable(c, Entry(table, p)) {
      assert st.processes[p] in records;
      if Reapable(c, Entry(table, p)) {
        var i :| 0 <= i < |records| && records[i] == st.processes[p];
        assert records[i].identity.pid == p;
      }
      if p in gone {
        var i :| 0 <= i < |records| && Reapable(c, records[i]) && records[i].identity.pid == p;
        assert records[i] in records;
      }
    }
  }

  lemma FreshKeyed(table: Table, processes: map<nat, Record>)
    requires AllFresh(table, processes)
    ensures Keyed(processes)
  {
  }

  lemma SightedKnown(c: Config, table: Table, st: Tracked)
    ensures Sighted(c, table, st) <= table.Keys
  {
  }
}
