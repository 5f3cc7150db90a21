/** What the log of one scan says of it: every process it keeps, drops or takes up, every
    zombie it reaps and whether it missed anything, for any answers of the system. */
module Scans {
  import opened Process
  import opened Tracking
  import opened Coverage
  import Bound
  import Runs

  // ------------------------------------------------------------- reading the events

  /** An answer that leaves a scan incomplete. A process that vanished before its children
      could be listed has none. */
  predicate Miss(e: Event) {
    match e
    case Read(_, a) => a.Err?
    case Children(_, a) => a.Err? && !a.fault.Vanished?
    case InGroup(_, a) => a.Err?
    case _ => false
  }

  ghost predicate Missed(news: seq<Event>) {
    exists e :: e in news && Miss(e)
  }

  /** This very record was read. */
  predicate Seen(news: seq<Event>, r: Record) {
    Event.Read(r.identity.pid, Ok(Some(r))) in news
  }

  /** A read that shows a pid free, or held by a process with another start time. */
  predicate LostAt(e: Event, pid: nat, start: nat) {
    && e.Read? && e.pid == pid && e.record.Ok?
    && (e.record.value.None? || e.record.value.value.identity.start != start)
  }

  ghost predicate Lost(news: seq<Event>, pid: nat, start: nat) {
    exists e :: e in news && LostAt(e, pid, start)
  }

  predicate ReadOf(e: Event, pid: nat, start: nat) {
    e.Read? && e.pid == pid && e.record.Ok? && e.record.value.Some? && e.record.value.value.identity.start == start
  }

  /** Two reads of one process, in the same life. */
  predicate OneLife(a: Event, b: Event, pid: nat) {
    && a.Read? && a.record.Ok? && a.record.value.Some?
    && ReadOf(a, pid, a.record.value.value.identity.start) && ReadOf(b, pid, a.record.value.value.identity.start)
  }

  /** At `i` the children of a process were listed, between two reads of it that show the
      same start time; since then there were only reads. */
  ghost predicate Opened(news: seq<Event>, i: nat, parent: nat, upTo: nat) {
    && 0 < i && i + 1 < upTo <= |news| && news[i].Children? && news[i].pid == parent && news[i].kids.Ok?
    && OneLife(news[i - 1], news[i + 1], parent)
    && forall j :: i + 1 < j < upTo ==> news[j].Read?
  }

  /** At `i` the group of the exited root was listed, and right after it the root read. */
  ghost predicate Pinned(c: Config, news: seq<Event>, i: nat, upTo: nat) {
    && i + 1 < upTo <= |news| && news[i].InGroup? && news[i].pgid == c.rootPid && news[i].pids.Ok?
    && news[i + 1].Read? && news[i + 1].pid == c.rootPid && news[i + 1].record.Ok? && news[i + 1].record.value.Some?
    && news[i + 1].record.value.value.identity.pgid == c.rootPid
    && forall j :: i + 1 < j < upTo ==> news[j].Read?
  }

  /** A read shows this process as a child that its verified parent's listing named, or as
      a member of the root's group that the group's listing named. */
  ghost predicate BornAt(c: Config, news: seq<Event>, pid: nat, start: nat, i: nat, k: nat) {
    && i + 1 < k < |news| && ReadOf(news[k], pid, start)
    && var r := news[k].record.value.value;
       || (Opened(news, i, r.ppid, k + 1) && pid in news[i].kids.value)
       || (Pinned(c, news, i, k + 1) && pid in news[i].pids.value && r.identity.pgid == c.rootPid)
  }

  ghost predicate Born(c: Config, news: seq<Event>, pid: nat, start: nat) {
    exists i: nat, k: nat :: BornAt(c, news, pid, start, i, k)
  }

  predicate Quietly(e: Event) {
    e.Read? || e.Children? || e.InGroup? || GaveUp(e)
  }

  /** What a walk has made of the processes it started from. */
  ghost predicate Tale(c: Config, before: map<nat, Record>, news: seq<Event>, processes: map<nat, Record>, incomplete: bool) {
    && (incomplete <==> Missed(news))
    && Keyed(processes)
    && (forall p :: p in processes ==> Seen(news, processes[p]) || Find(before, p) == Some(processes[p]))
    && (forall p :: p in before && !Same(processes, p, before[p]) ==> Lost(news, p, before[p].identity.start))
    && (forall p :: p in processes && !Same(before, p, processes[p]) ==> Born(c, news, p, processes[p].identity.start))
    && (forall e :: e in news ==> Quietly(e))
  }

  /** The process is there, in the same life. */
  predicate Same(processes: map<nat, Record>, pid: nat, r: Record) {
    pid in processes && processes[pid].identity.start == r.identity.start
  }

  lemma BornStays(c: Config, news: seq<Event>, more: seq<Event>, pid: nat, start: nat)
    requires news <= more && Born(c, news, pid, start)
    ensures Born(c, more, pid, start)
  {
    var i: nat, k: nat :| BornAt(c, news, pid, start, i, k);
    var r := news[k].record.value.value;
    assert more[k] == news[k] && more[i] == news[i];
    if Opened(news, i, r.ppid, k + 1) && pid in news[i].kids.value {
      OpenedStays(news, more, i, r.ppid, k + 1);
    }
    assert BornAt(c, more, pid, start, i, k);
  }

  lemma OpenedStays(news: seq<Event>, more: seq<Event>, i: nat, parent: nat, upTo: nat)
    requires news <= more && Opened(news, i, parent, upTo)
    ensures Opened(more, i, parent, upTo)
  {
  }

  /** One event more. */
  lemma TaleLogs(c: Config, before: map<nat, Record>, news: seq<Event>, processes: map<nat, Record>, incomplete: bool, e: Event)
    requires Tale(c, before, news, processes, incomplete) && Quietly(e)
    ensures Tale(c, before, news + [e], processes, incomplete || Miss(e))
  {
    hide Born, Miss, LostAt, Keyed, Same;
    var more := news + [e];
    assert e in more && forall x :: x in more <==> x in news || x == e;
    forall p | p in before && !Same(processes, p, before[p]) ensures Lost(more, p, before[p].identity.start) {
      var x :| x in news && LostAt(x, p, before[p].identity.start);
      assert x in more;
    }
    forall p | p in processes && !Same(before, p, processes[p]) ensures Born(c, more, p, processes[p].identity.start) {
      BornStays(c, news, more, p, processes[p].identity.start);
    }
  }

  /** A process just read is recorded. */
  lemma TalePuts(c: Config, before: map<nat, Record>, news: seq<Event>, processes: map<nat, Record>, incomplete: bool, r: Record)
    requires Tale(c, before, news, processes, incomplete) && Seen(news, r)
    requires Same(before, r.identity.pid, r) || Same(processes, r.identity.pid, r) || Born(c, news, r.identity.pid, r.identity.start)
    ensures Tale(c, before, news, processes[r.identity.pid := r], incomplete)
  {
    hide Born, Missed, Quietly;
    var pid := r.identity.pid;
    var after := processes[pid := r];
    if pid in before && before[pid].identity.start != r.identity.start {
      assert LostAt(Event.Read(pid, Ok(Some(r))), pid, before[pid].identity.start);
      assert Lost(news, pid, before[pid].identity.start);
    }
  }

  /** A process read as gone, or as another, is dropped. */
  lemma TaleDrops(c: Config, before: map<nat, Record>, news: seq<Event>, processes: map<nat, Record>, incomplete: bool, pid: nat)
    requires Tale(c, before, news, processes, incomplete) && pid in processes
    requires Lost(news, pid, processes[pid].identity.start)
    ensures Tale(c, before, news, processes - {pid}, incomplete)
  {
    hide Born, Missed, Quietly, LostAt;
    var after := processes - {pid};
    forall p | p in before && !Same(after, p, before[p]) ensures Lost(news, p, before[p].identity.start) {
      if p == pid && Same(processes, p, before[p]) {
        assert processes[pid].identity.start == before[p].identity.start;
      }
    }
  }

  // ---------------------------------------------------------------------- the walk

  /** The walk gave up on something: too many processes or attempts, or a lost root. */
  predicate GaveUp(e: Event) {
    e.Refused? && !e.reason.GroupLimit?
  }

  ghost predicate Refuses(news: seq<Event>) {
    exists e :: e in news && GaveUp(e)
  }

  /** Whoever waits in the queue was tracked before or was read as a child. */
  ghost predicate Queued(c: Config, before: map<nat, Record>, news: seq<Event>, queue: seq<Identity>) {
    forall e :: e in queue ==> Known(c, before, news, e)
  }

  ghost predicate Known(c: Config, before: map<nat, Record>, news: seq<Event>, e: Identity) {
    e.pid == c.shim.pid || (e.pid in before && before[e.pid].identity.start == e.start) || Born(c, news, e.pid, e.start)
  }

  /** A record not read by this scan still waits to be, unless the scan missed or refused
      something; `hand` is the entry the walk holds. What was visited has been read. */
  ghost predicate Awaited(c: Config, news: seq<Event>, w: Walk, hand: Option<Identity>) {
    && (forall p :: p in w.visited && p in w.processes && p != c.shim.pid ==> Seen(news, w.processes[p]))
    && (Missed(news) || Refuses(news)
        || forall p :: p in w.processes && p != c.shim.pid ==> Waits(news, w.queue, hand, w.processes[p]))
  }

  predicate Waits(news: seq<Event>, queue: seq<Identity>, hand: Option<Identity>, r: Record) {
    Seen(news, r) || hand == Some(r.identity) || r.identity in queue
  }

  /** Nothing has been listed but children. */
  ghost predicate NoGroup(news: seq<Event>) {
    forall j :: 0 <= j < |news| ==> !news[j].InGroup?
  }

  /** Where a walk stands: `base` is the log it started on. */
  ghost predicate Told(c: Config, before: map<nat, Record>, base: seq<Event>, w: Walk, hand: Option<Identity>) {
    && base <= w.ledger.trace
    && var news := w.ledger.trace[|base|..];
    && Tale(c, before, news, w.processes, w.incomplete)
    && Queued(c, before, news, w.queue) && Awaited(c, news, w, hand) && NoGroup(news)
    && (hand.Some? ==> Known(c, before, news, hand.value))
  }

  lemma KnownStays(c: Config, before: map<nat, Record>, news: seq<Event>, more: seq<Event>, e: Identity)
    requires news <= more && Known(c, before, news, e)
    ensures Known(c, before, more, e)
  {
    hide Born;
    if Born(c, news, e.pid, e.start) {
      BornStays(c, news, more, e.pid, e.start);
    }
  }

  lemma AwaitedLogs(c: Config, news: seq<Event>, w: Walk, hand: Option<Identity>, e: Event, w': Walk)
    requires Awaited(c, news, w, hand) && w' == w.(ledger := w'.ledger, incomplete := w'.incomplete)
    ensures Awaited(c, news + [e], w', hand)
  {
    hide Miss;
    var more := news + [e];
    assert forall x :: x in news ==> x in more;
    if Missed(news) {
      var x :| x in news && Miss(x);
      assert x in more;
    }
  }

  /** One event more. */
  lemma LogTold(c: Config, before: map<nat, Record>, base: seq<Event>, w: Walk, hand: Option<Identity>, e: Event, w': Walk)
    requires Told(c, before, base, w, hand) && Quietly(e) && !e.InGroup?
    requires w' == w.(ledger := w'.ledger, incomplete := w.incomplete || Miss(e))
    requires w'.ledger.trace == w.ledger.trace + [e]
    ensures Told(c, before, base, w', hand) && w'.ledger.trace[|base|..] == w.ledger.trace[|base|..] + [e]
  {
    hide Tale, Miss, Known, Awaited;
    var news := w.ledger.trace[|base|..];
    assert w'.ledger.trace[|base|..] == news + [e];
    TaleLogs(c, before, news, w.processes, w.incomplete, e);
    AwaitedLogs(c, news, w, hand, e, w');
    forall x | x in w.queue || hand == Some(x) ensures Known(c, before, news + [e], x) {
      KnownStays(c, before, news, news + [e], x);
    }
  }

  lemma OpenedMore(news: seq<Event>, i: nat, parent: nat, e: Event)
    requires Opened(news, i, parent, |news|) && e.Read?
    ensures Opened(news + [e], i, parent, |news| + 1)
  {
    var more := news + [e];
    assert forall j :: i + 1 < j < |news| ==> more[j] == news[j];
  }

  lemma {:induction false} EnlistTold(c: Config, o: Oracle, before: map<nat, Record>, base: seq<Event>, w: Walk, parent: nat,
                                      kids: seq<nat>, i: nat)
    requires Told(c, before, base, w, None) && base <= w.ledger.trace
    requires var news := w.ledger.trace[|base|..];
             Opened(news, i, parent, |news|) && forall kid :: kid in kids ==> kid in news[i].kids.value
    ensures Told(c, before, base, Enlist(c, o, w, parent, kids), None)
    decreases |kids|
  {
    hide Told, Opened;
    if kids != [] {
      var pid, rest := kids[0], kids[1..];
      assert pid in kids && forall kid :: kid in rest ==> kid in kids;
      if pid == c.shim.pid {
        EnlistTold(c, o, before, base, w, parent, rest, i);
      } else {
        var a := o.Look(w.ledger.Tick(), pid);
        var w1 := w.Log(Event.Read(pid, a));
        ReadTold(c, before, base, w, None, pid, a);
        StillOpen(base, w, Event.Read(pid, a), i, parent);
        if a.Err? {
          EnlistTold(c, o, before, base, w1.Missed(a.fault), parent, rest, i);
        } else {
          EnlistTold(c, o, before, base, w1, parent, rest, i);
          LimitTold(c, before, base, w1, None, ProcessLimit);
          if a.value.Some? && a.value.value.ppid == parent {
            var child := a.value.value;
            ChildTold(c, before, base, w, pid, child, parent, i);
            EnlistTold(c, o, before, base, w1.Put(pid, child).(queue := w1.queue + [child.identity]), parent, rest, i);
          }
        }
      }
    }
  }

  lemma StillOpen(base: seq<Event>, w: Walk, e: Event, i: nat, parent: nat)
    requires base <= w.ledger.trace && Opened(w.ledger.trace[|base|..], i, parent, |w.ledger.trace[|base|..]|) && e.Read?
    ensures var more := (w.ledger.trace + [e])[|base|..];
            && more == w.ledger.trace[|base|..] + [e] && Opened(more, i, parent, |more|)
            && more[i] == w.ledger.trace[|base|..][i]
  {
    OpenedMore(w.ledger.trace[|base|..], i, parent, e);
    assert (w.ledger.trace + [e])[|base|..] == w.ledger.trace[|base|..] + [e];
  }

  /** One read, whatever it shows. */
  lemma ReadTold(c: Config, before: map<nat, Record>, base: seq<Event>, w: Walk, hand: Option<Identity>, pid: nat,
                 a: Answer<Option<Record>>)
    requires Told(c, before, base, w, hand)
    ensures var w1 := w.Log(Event.Read(pid, a));
            && base <= w.ledger.trace && base <= w1.ledger.trace
            && Told(c, before, base, if a.Ok? then w1 else w1.Missed(a.fault), hand)
            && w1.ledger.trace[|base|..] == w.ledger.trace[|base|..] + [Event.Read(pid, a)]
  {
    hide Told;
    var w1 := w.Log(Event.Read(pid, a));
    LogTold(c, before, base, w, hand, Event.Read(pid, a), if a.Ok? then w1 else w1.Missed(a.fault));
    ToldFrom(c, before, base, w, hand);
  }

  lemma ToldFrom(c: Config, before: map<nat, Record>, base: seq<Event>, w: Walk, hand: Option<Identity>)
    requires Told(c, before, base, w, hand)
    ensures base <= w.ledger.trace && Tale(c, before, w.ledger.trace[|base|..], w.processes, w.incomplete)
  {
    hide Tale;
  }

  lemma LimitTold(c: Config, before: map<nat, Record>, base: seq<Event>, w: Walk, hand: Option<Identity>, reason: Reason)
    requires Told(c, before, base, w, hand) && !reason.GroupLimit?
    ensures Told(c, before, base, w.Refuse(reason), hand)
    ensures base <= w.Refuse(reason).ledger.trace && Refuses(w.Refuse(reason).ledger.trace[|base|..])
  {
    hide Told;
    LogTold(c, before, base, w, hand, Refused(reason), w.Refuse(reason));
    ToldFrom(c, before, base, w, hand);
    assert Refused(reason) in w.ledger.trace[|base|..] + [Refused(reason)];
  }

  lemma ChildTold(c: Config, before: map<nat, Record>, base: seq<Event>, w: Walk, pid: nat, child: Record, parent: nat, i: nat)
    requires Told(c, before, base, w, None) && child.identity.pid == pid && child.ppid == parent
    requires var news := w.ledger.trace[|base|..]; Opened(news, i, parent, |news|) && pid in news[i].kids.value
    ensures Told(c, before, base,
                 w.Log(Event.Read(pid, Ok(Some(child)))).Put(pid, child).(queue := w.queue + [child.identity]), None)
  {
    hide Tale, Awaited, Queued, Known, Born;
    var news := w.ledger.trace[|base|..];
    var e := Event.Read(pid, Ok(Some(child)));
    var more, w1 := news + [e], w.Log(e);
    LogTold(c, before, base, w, None, e, w1);
    ToldKeyed(c, before, base, w, None);
    ChildBorn(c, news, pid, child, i);
    TalePuts(c, before, more, w.processes, w.incomplete, child);
    AwaitedPuts(c, more, w1, None, child, w1.Put(pid, child).(queue := w.queue + [child.identity]));
    QueuedMore(c, before, more, w.queue, child.identity);
  }

  lemma ChildBorn(c: Config, news: seq<Event>, pid: nat, child: Record, i: nat)
    requires Opened(news, i, child.ppid, |news|) && pid in news[i].kids.value && child.identity.pid == pid
    ensures Born(c, news + [Event.Read(pid, Ok(Some(child)))], pid, child.identity.start)
    ensures Seen(news + [Event.Read(pid, Ok(Some(child)))], child)
  {
    var e := Event.Read(pid, Ok(Some(child)));
    var more := news + [e];
    OpenedMore(news, i, child.ppid, e);
    assert more[i] == news[i] && more[|news|] == e;
    assert BornAt(c, more, pid, child.identity.start, i, |news|);
  }

  lemma QueuedMore(c: Config, before: map<nat, Record>, news: seq<Event>, queue: seq<Identity>, e: Identity)
    requires Queued(c, before, news, queue) && Born(c, news, e.pid, e.start)
    ensures Queued(c, before, news, queue + [e])
  {
    hide Born;
  }

  /** A record just read waits for nothing. */
  lemma AwaitedPuts(c: Config, news: seq<Event>, w: Walk, hand: Option<Identity>, r: Record, w': Walk)
    requires Awaited(c, news, w, hand) && Seen(news, r) && Keyed(w.processes)
    requires w'.processes == w.processes[r.identity.pid := r] && w.queue <= w'.queue
    requires w'.visited.Keys <= w.visited.Keys + {r.identity.pid}
    ensures Awaited(c, news, w', if hand.Some? && hand.value.pid == r.identity.pid then None else hand)
  {
    hide Missed, Refuses, Seen;
    var held := if hand.Some? && hand.value.pid == r.identity.pid then None else hand;
    forall p | p in w'.processes && p != r.identity.pid && Waits(news, w.queue, hand, w.processes[p])
      ensures Waits(news, w'.queue, held, w'.processes[p])
    {
      assert w'.processes[p] == w.processes[p] && w.processes[p].identity.pid == p;
      assert forall x :: x in w.queue ==> x in w'.queue;
    }
  }

  /** The walk's own queue entry has just been read back, in the same life. */
  ghost predicate ReadBack(base: seq<Event>, w: Walk, e: Identity) {
    base < w.ledger.trace && ReadOf(w.ledger.trace[|w.ledger.trace| - 1], e.pid, e.start)
  }

  lemma ExpandTold(c: Config, o: Oracle, before: map<nat, Record>, base: seq<Event>, w: Walk, e: Identity)
    requires Told(c, before, base, w, None) && ReadBack(base, w, e)
    ensures Told(c, before, base, Expand(c, o, w, e), None)
  {
    hide Told, Enlist, ReadOf;
    var kids := o.children(w.ledger.Tick(), e.pid);
    var w1 := w.Log(Children(e.pid, kids));
    LogTold(c, before, base, w, None, Children(e.pid, kids),
            if kids.Err? && !kids.fault.Vanished? then w1.Missed(kids.fault) else w1);
    if kids.Ok? {
      var a := o.Look(w1.ledger.Tick(), e.pid);
      var w2 := w1.Log(Event.Read(e.pid, a));
      ReadTold(c, before, base, w1, None, e.pid, a);
      if a.Ok? && a.value.Some? && a.value.value.identity.SameProcess(e) {
        ListingOpens(base, w, w2, e, kids.value, a.value.value);
        EnlistTold(c, o, before, base, w2, e.pid, kids.value, |w.ledger.trace| - |base|);
      }
    }
  }

  lemma ListingOpens(base: seq<Event>, w: Walk, w2: Walk, e: Identity, kids: seq<nat>, r: Record)
    requires ReadBack(base, w, e) && r.identity.SameProcess(e)
    requires w2.ledger.trace == w.ledger.trace + [Children(e.pid, Ok(kids))] + [Event.Read(e.pid, Ok(Some(r)))]
    ensures base <= w2.ledger.trace
    ensures var news, i := w2.ledger.trace[|base|..], |w.ledger.trace| - |base|;
            Opened(news, i, e.pid, |news|) && news[i].kids.value == kids
  {
    var news, i := w2.ledger.trace[|base|..], |w.ledger.trace| - |base|;
    assert news[i - 1] == w.ledger.trace[|w.ledger.trace| - 1];
    assert news[i] == Children(e.pid, Ok(kids)) && news[i + 1] == Event.Read(e.pid, Ok(Some(r)));
  }

  lemma StepTold(c: Config, o: Oracle, before: map<nat, Record>, base: seq<Event>, w: Walk)
    requires w.queue != [] && Told(c, before, base, w, None)
    ensures Told(c, before, base, Step(c, o, w), None)
  {
    hide Told, Probe;
    var e := w.queue[0];
    var w0 := w.(queue := w.queue[1..]);
    PopTold(c, before, base, w, w0, e);
    if e.pid in w.visited && w.visited[e.pid] == e.start {
      PutDown(c, before, base, w0, e);
    } else {
      var w1 := w0.(attempts := w0.attempts + 1);
      CountTold(c, before, base, w0, w1, Some(e));
      if w1.attempts > Cap(c) {
        LimitTold(c, before, base, w1, Some(e), Attempts);
        GivenUp(c, before, base, w1.Refuse(Attempts), e);
      } else {
        ProbeTold(c, o, before, base, w1, e);
      }
    }
  }

  /** The first entry of the queue is taken in hand. */
  lemma PopTold(c: Config, before: map<nat, Record>, base: seq<Event>, w: Walk, w0: Walk, e: Identity)
    requires Told(c, before, base, w, None) && w.queue != [] && e == w.queue[0] && w0 == w.(queue := w.queue[1..])
    ensures Told(c, before, base, w0, Some(e))
  {
    hide Tale, Known, Seen, Missed, Refuses;
    var news := w.ledger.trace[|base|..];
    assert w.queue == [e] + w0.queue;
    assert forall p :: p in w.processes && Waits(news, w.queue, None, w.processes[p])
                   ==> Waits(news, w0.queue, Some(e), w.processes[p]);
  }

  /** An entry whose pid was visited, or is tracked no more, or was refused, is put down. */
  lemma PutDown(c: Config, before: map<nat, Record>, base: seq<Event>, w: Walk, e: Identity)
    requires Told(c, before, base, w, Some(e))
    requires e.pid in w.visited || e.pid !in w.processes || w.processes[e.pid].identity != e
    ensures Told(c, before, base, w, None)
  {
    hide Tale, Known, Seen, Missed, Refuses;
    ToldKeyed(c, before, base, w, Some(e));
    var news := w.ledger.trace[|base|..];
    assert forall p :: p in w.processes && p != c.shim.pid && Waits(news, w.queue, Some(e), w.processes[p])
                   ==> Waits(news, w.queue, None, w.processes[p]);
  }

  lemma ToldKeyed(c: Config, before: map<nat, Record>, base: seq<Event>, w: Walk, hand: Option<Identity>)
    requires Told(c, before, base, w, hand)
    ensures Keyed(w.processes)
  {
    hide Keyed, Awaited, Queued;
  }

  lemma CountTold(c: Config, before: map<nat, Record>, base: seq<Event>, w: Walk, w': Walk, hand: Option<Identity>)
    requires Told(c, before, base, w, hand)
    requires w' == w.(attempts := w'.attempts, halted := w'.halted)
    ensures Told(c, before, base, w', hand)
  {
    hide Tale, Known, Seen;
  }

  lemma GivenUp(c: Config, before: map<nat, Record>, base: seq<Event>, w: Walk, e: Identity)
    requires Told(c, before, base, w, Some(e))
    requires base <= w.ledger.trace && (Missed(w.ledger.trace[|base|..]) || Refuses(w.ledger.trace[|base|..]))
    ensures Told(c, before, base, w, None) && Told(c, before, base, w.(halted := true), None)
  {
    hide Tale, Known, Seen, Missed, Refuses;
  }

  lemma ProbeTold(c: Config, o: Oracle, before: map<nat, Record>, base: seq<Event>, w: Walk, e: Identity)
    requires Told(c, before, base, w, Some(e))
    ensures Told(c, before, base, Probe(c, o, w, e), None)
  {
    hide Told, Expand, Visit;
    var a := o.Look(w.ledger.Tick(), e.pid);
    var w1 := w.Log(Event.Read(e.pid, a));
    ReadTold(c, before, base, w, Some(e), e.pid, a);
    if a.Err? {
      MissSeen(base, w1, e.pid, a);
      GivenUp(c, before, base, w1.Missed(a.fault), e);
    } else if a.value.Some? && a.value.value.identity.SameProcess(e) {
      VisitTold(c, before, base, w1, e, a.value.value);
      ExpandTold(c, o, before, base, Visit(c, w1, e, a.value.value), e);
    } else {
      ForgetTold(c, before, base, w1, e, Event.Read(e.pid, a));
    }
  }

  lemma MissSeen(base: seq<Event>, w: Walk, pid: nat, a: Answer<Option<Record>>)
    requires base < w.ledger.trace && w.ledger.trace[|w.ledger.trace| - 1] == Event.Read(pid, a) && a.Err?
    ensures Missed(w.ledger.trace[|base|..])
  {
    var news := w.ledger.trace[|base|..];
    assert news[|news| - 1] == Event.Read(pid, a);
    assert Event.Read(pid, a) in news && Miss(Event.Read(pid, a));
  }

  lemma VisitTold(c: Config, before: map<nat, Record>, base: seq<Event>, w: Walk, e: Identity, r: Record)
    requires Told(c, before, base, w, Some(e)) && r.identity.SameProcess(e)
    requires base < w.ledger.trace && w.ledger.trace[|w.ledger.trace| - 1] == Event.Read(e.pid, Ok(Some(r)))
    ensures Told(c, before, base, Visit(c, w, e, r), None) && ReadBack(base, Visit(c, w, e, r), e)
  {
    hide Tale, Born, Awaited, Queued;
    var news := w.ledger.trace[|base|..];
    assert news[|news| - 1] == Event.Read(e.pid, Ok(Some(r)));
    ToldKeyed(c, before, base, w, Some(e));
    if e.pid != c.shim.pid {
      TalePuts(c, before, news, w.processes, w.incomplete, r);
      AwaitedPuts(c, news, w, Some(e), r, Visit(c, w, e, r));
    } else {
      ShimVisited(c, news, w, e, Visit(c, w, e, r));
    }
  }

  lemma ShimVisited(c: Config, news: seq<Event>, w: Walk, e: Identity, w': Walk)
    requires Awaited(c, news, w, Some(e)) && Keyed(w.processes) && e.pid == c.shim.pid
    requires w'.processes == w.processes && w'.queue == w.queue && w'.visited.Keys <= w.visited.Keys + {e.pid}
    ensures Awaited(c, news, w', None)
  {
    hide Missed, Refuses, Seen;
    assert forall p :: p in w.processes && p != c.shim.pid && Waits(news, w.queue, Some(e), w.processes[p])
                   ==> Waits(news, w.queue, None, w.processes[p]);
  }

  lemma ForgetTold(c: Config, before: map<nat, Record>, base: seq<Event>, w: Walk, e: Identity, read: Event)
    requires Told(c, before, base, w, Some(e))
    requires base < w.ledger.trace && w.ledger.trace[|w.ledger.trace| - 1] == read && LostAt(read, e.pid, e.start)
    ensures Told(c, before, base, Forget(w, e), None)
  {
    hide Tale, Queued, Known, Awaited;
    var news := w.ledger.trace[|base|..];
    assert news[|news| - 1] == read && read in news;
    if e.pid in w.processes && w.processes[e.pid].identity.SameProcess(e) {
      assert Lost(news, e.pid, e.start);
      TaleDrops(c, before, news, w.processes, w.incomplete, e.pid);
      AwaitedDrops(c, news, w, Some(e), Forget(w, e), e.pid);
    }
    PutDown(c, before, base, Forget(w, e), e);
  }

  lemma AwaitedDrops(c: Config, news: seq<Event>, w: Walk, hand: Option<Identity>, w': Walk, pid: nat)
    requires Awaited(c, news, w, hand) && w' == w.(processes := w.processes - {pid})
    ensures Awaited(c, news, w', hand)
  {
    hide Missed, Refuses, Seen, Waits;
  }

  /** A walk goes on until its queue is empty, or refuses to. */
  lemma {:induction false} WalkTold(c: Config, o: Oracle, before: map<nat, Record>, base: seq<Event>, w: Walk)
    requires w.attempts <= Cap(c) || w.halted
    requires Told(c, before, base, w, None) && (w.halted ==> HasRefused(base, w))
    ensures var r := WalkAll(c, o, w);
            Told(c, before, base, r, None) && (r.queue == [] || HasRefused(base, r))
    decreases if w.halted then 0 else 1, Cap(c) + 1 - w.attempts, |w.queue|
  {
    hide Step, Told, HasRefused;
    if !w.halted && w.queue != [] {
      StepTold(c, o, before, base, w);
      StepAttempts(c, o, w);
      StepHalts(c, o, before, base, w);
      WalkTold(c, o, before, base, Step(c, o, w));
    }
  }

  ghost predicate HasRefused(base: seq<Event>, w: Walk) {
    base <= w.ledger.trace && Refuses(w.ledger.trace[|base|..])
  }

  lemma StepHalts(c: Config, o: Oracle, before: map<nat, Record>, base: seq<Event>, w: Walk)
    requires w.queue != [] && Told(c, before, base, w, None) && !w.halted
    ensures Step(c, o, w).halted ==> HasRefused(base, Step(c, o, w))
  {
    hide Told, Probe;
    ToldFrom(c, before, base, w, None);
    var e := w.queue[0];
    var w1 := w.(queue := w.queue[1..], attempts := w.attempts + 1);
    if !(e.pid in w.visited && w.visited[e.pid] == e.start) {
      if w1.attempts > Cap(c) {
        RefusesNow(base, w1);
      } else {
        ProbeGoesOn(c, o, w1, e);
      }
    }
  }

  lemma RefusesNow(base: seq<Event>, w: Walk)
    requires base <= w.ledger.trace
    ensures HasRefused(base, w.Refuse(Attempts).(halted := true))
  {
    var news := w.ledger.trace[|base|..];
    assert w.Refuse(Attempts).ledger.trace[|base|..] == news + [Refused(Attempts)];
    assert Refused(Attempts) in news + [Refused(Attempts)];
  }

  lemma ProbeGoesOn(c: Config, o: Oracle, w: Walk, e: Identity)
    requires !w.halted
    ensures !Probe(c, o, w, e).halted
  {
    hide Enlist, Visit;
    var a := o.Look(w.ledger.Tick(), e.pid);
    var w1 := w.Log(Event.Read(e.pid, a));
    if a.Ok? && a.value.Some? {
      var v := Visit(c, w1, e, a.value.value);
      VisitGoesOn(c, w1, e, a.value.value);
      var kids := o.children(v.ledger.Tick(), e.pid);
      if kids.Ok? {
        var v1 := v.Log(Children(e.pid, kids));
        EnlistGoesOn(c, o, v1.Log(Event.Read(e.pid, o.Look(v1.ledger.Tick(), e.pid))), e.pid, kids.value);
      }
    }
  }

  lemma VisitGoesOn(c: Config, w: Walk, e: Identity, r: Record)
    ensures Visit(c, w, e, r).halted == w.halted
  {
  }

  lemma {:induction false} EnlistGoesOn(c: Config, o: Oracle, w: Walk, parent: nat, kids: seq<nat>)
    ensures Enlist(c, o, w, parent, kids).halted == w.halted
    decreases |kids|
  {
    if kids != [] {
      var pid, rest := kids[0], kids[1..];
      EnlistGoesOn(c, o, w, parent, rest);
      var a := o.Look(w.ledger.Tick(), pid);
      var w1 := w.Log(Event.Read(pid, a));
      if a.Err? {
        EnlistGoesOn(c, o, w1.Missed(a.fault), parent, rest);
      } else {
        EnlistGoesOn(c, o, w1, parent, rest);
        if a.value.Some? {
          EnlistGoesOn(c, o, w1.Put(pid, a.value.value).(queue := w1.queue + [a.value.value.identity]), parent, rest);
        }
      }
    }
  }

  // ------------------------------------------------------------- the root's own group

  /** Every record was read by this scan, unless it missed or refused something. */
  ghost predicate Fresh(c: Config, news: seq<Event>, processes: map<nat, Record>) {
    Missed(news) || Refuses(news) || forall p :: p in processes && p != c.shim.pid ==> Seen(news, processes[p])
  }

  /** A scan after its walk. */
  ghost predicate Walked(c: Config, before: map<nat, Record>, news: seq<Event>, w: Walk) {
    Tale(c, before, news, w.processes, w.incomplete) && Fresh(c, news, w.processes)
  }

  lemma WalkEnds(c: Config, before: map<nat, Record>, base: seq<Event>, w: Walk)
    requires Told(c, before, base, w, None) && (w.queue == [] || HasRefused(base, w))
    ensures base <= w.ledger.trace && Walked(c, before, w.ledger.trace[|base|..], w) && NoGroup(w.ledger.trace[|base|..])
  {
    hide Tale, Seen, Missed, Refuses;
  }

  lemma WalkedLogs(c: Config, before: map<nat, Record>, news: seq<Event>, w: Walk, e: Event, w': Walk)
    requires Walked(c, before, news, w) && Quietly(e)
    requires w'.processes == w.processes && w'.incomplete == (w.incomplete || Miss(e))
    ensures Walked(c, before, news + [e], w')
  {
    hide Tale, Miss;
    TaleLogs(c, before, news, w.processes, w.incomplete, e);
    var more := news + [e];
    assert forall x :: x in news ==> x in more;
    if Missed(news) {
      var x :| x in news && Miss(x);
      assert x in more;
    }
  }

  lemma WalkedPuts(c: Config, before: map<nat, Record>, news: seq<Event>, w: Walk, r: Record)
    requires Walked(c, before, news, w) && Seen(news, r) && Born(c, news, r.identity.pid, r.identity.start)
    ensures Walked(c, before, news, w.Put(r.identity.pid, r))
  {
    TalePuts(c, before, news, w.processes, w.incomplete, r);
    hide Tale, Born, Missed, Refuses;
  }

  /** Something was wrong about a read, or was refused. */
  predicate Trouble(e: Event) {
    (e.Read? && e.record.Err?) || GaveUp(e)
  }

  /** The root's group was listed at `i`, and something went wrong with it. */
  ghost predicate OpenAt(news: seq<Event>, i: nat) {
    i < |news| && news[i].InGroup? && (news[i].pids.Err? || exists k :: i < k < |news| && Trouble(news[k]))
  }

  ghost predicate LeftOpen(news: seq<Event>) {
    exists i: nat :: OpenAt(news, i)
  }

  ghost predicate TroubledAfter(news: seq<Event>, i: nat) {
    exists k :: i < k < |news| && Trouble(news[k])
  }

  lemma TroubledMore(news: seq<Event>, i: nat, e: Event)
    requires i < |news|
    ensures TroubledAfter(news + [e], i) <==> TroubledAfter(news, i) || Trouble(e)
  {
    var more := news + [e];
    assert more[|news|] == e;
    if TroubledAfter(news, i) {
      var k :| i < k < |news| && Trouble(news[k]);
      assert more[k] == news[k];
    }
  }

  lemma PinnedMore(c: Config, news: seq<Event>, i: nat, e: Event)
    requires Pinned(c, news, i, |news|) && e.Read?
    ensures Pinned(c, news + [e], i, |news| + 1)
  {
    var more := news + [e];
    assert forall j :: i + 1 < j < |news| ==> more[j] == news[j];
  }

  /** A scan in the midst of the root's group, listed at `i`. */
  ghost predicate Midway(c: Config, before: map<nat, Record>, base: seq<Event>, w: Walk, i: nat, listed: seq<nat>,
                         unresolved: bool)
  {
    && base <= w.ledger.trace && Walked(c, before, w.ledger.trace[|base|..], w)
    && Pinned(c, w.ledger.trace[|base|..], i, |w.ledger.trace[|base|..]|)
    && OnlyListing(w.ledger.trace[|base|..], i, InGroup(c.rootPid, Ok(listed)))
    && unresolved == TroubledAfter(w.ledger.trace[|base|..], i)
  }

  ghost predicate OnlyListing(news: seq<Event>, i: nat, e: Event) {
    i < |news| && news[i] == e && forall j :: 0 <= j < |news| && j != i ==> !news[j].InGroup?
  }

  /** A scan whose look at the root's group is over. */
  ghost predicate GroupOver(c: Config, before: map<nat, Record>, base: seq<Event>, r: Walk, open: bool) {
    base <= r.ledger.trace && Walked(c, before, r.ledger.trace[|base|..], r) && open == LeftOpen(r.ledger.trace[|base|..])
  }

  lemma MidwayOver(c: Config, before: map<nat, Record>, base: seq<Event>, w: Walk, i: nat, listed: seq<nat>, unresolved: bool)
    requires Midway(c, before, base, w, i, listed, unresolved)
    ensures GroupOver(c, before, base, w, unresolved)
  {
    hide Walked, TroubledAfter, LeftOpen;
    OneListing(w.ledger.trace[|base|..], i);
  }

  lemma {:induction false} EnlistGroupTold(c: Config, o: Oracle, before: map<nat, Record>, base: seq<Event>, w: Walk,
                                           pids: seq<nat>, i: nat, listed: seq<nat>, unresolved: bool)
    requires Midway(c, before, base, w, i, listed, unresolved) && forall pid :: pid in pids ==> pid in listed
    ensures var (r, open) := EnlistGroup(c, o, w, c.rootPid, pids, unresolved); GroupOver(c, before, base, r, open)
    decreases |pids|
  {
    hide Midway, GroupOver;
    MidwayOver(c, before, base, w, i, listed, unresolved);
    if pids != [] {
      var pid, rest := pids[0], pids[1..];
      assert pid in pids && forall x :: x in rest ==> x in pids;
      var a := o.Look(w.ledger.Tick(), pid);
      var w1 := w.Log(Event.Read(pid, a));
      MemberRead(c, before, base, w, i, listed, unresolved, pid, a);
      if a.Err? {
        EnlistGroupTold(c, o, before, base, w1.Missed(a.fault), rest, i, listed, true);
      } else {
        EnlistGroupTold(c, o, before, base, w1, rest, i, listed, unresolved);
        GroupRefused(c, before, base, w1, i, listed, unresolved);
        if a.value.Some? && a.value.value.identity.pgid == c.rootPid {
          MemberBorn(c, before, base, w, i, listed, unresolved, a.value.value);
          EnlistGroupTold(c, o, before, base, w1.Put(pid, a.value.value), rest, i, listed, unresolved);
        }
      }
    }
  }

  lemma OnlyMore(news: seq<Event>, i: nat, e: Event, f: Event)
    requires OnlyListing(news, i, e) && !f.InGroup?
    ensures OnlyListing(news + [f], i, e)
  {
  }

  lemma MemberRead(c: Config, before: map<nat, Record>, base: seq<Event>, w: Walk, i: nat, listed: seq<nat>,
                   unresolved: bool, pid: nat, a: Answer<Option<Record>>)
    requires Midway(c, before, base, w, i, listed, unresolved)
    ensures var w1 := w.Log(Event.Read(pid, a));
            Midway(c, before, base, if a.Ok? then w1 else w1.Missed(a.fault), i, listed, unresolved || a.Err?)
  {
    hide Walked, TroubledAfter, Pinned, OnlyListing;
    var news, e, w1 := w.ledger.trace[|base|..], Event.Read(pid, a), w.Log(Event.Read(pid, a));
    assert w1.ledger.trace[|base|..] == news + [e];
    WalkedLogs(c, before, news, w, e, if a.Ok? then w1 else w1.Missed(a.fault));
    PinnedMore(c, news, i, e);
    PinnedIndex(c, news, i);
    OnlyMore(news, i, InGroup(c.rootPid, Ok(listed)), e);
    TroubledMore(news, i, e);
  }

  lemma PinnedIndex(c: Config, news: seq<Event>, i: nat)
    requires Pinned(c, news, i, |news|)
    ensures i + 1 < |news|
  {
  }

  lemma GroupRefused(c: Config, before: map<nat, Record>, base: seq<Event>, w: Walk, i: nat, listed: seq<nat>,
                     unresolved: bool)
    requires Midway(c, before, base, w, i, listed, unresolved)
    ensures GroupOver(c, before, base, w.Refuse(ProcessLimit), true)
  {
    hide Walked, TroubledAfter, Pinned, LeftOpen;
    var news, r := w.ledger.trace[|base|..], w.Refuse(ProcessLimit);
    assert r.ledger.trace[|base|..] == news + [Refused(ProcessLimit)];
    WalkedLogs(c, before, news, w, Refused(ProcessLimit), r);
    TroubledMore(news, i, Refused(ProcessLimit));
    OnlyMore(news, i, InGroup(c.rootPid, Ok(listed)), Refused(ProcessLimit));
    OneListing(news + [Refused(ProcessLimit)], i);
  }

  lemma MemberBorn(c: Config, before: map<nat, Record>, base: seq<Event>, w: Walk, i: nat, listed: seq<nat>,
                   unresolved: bool, r: Record)
    requires Midway(c, before, base, w, i, listed, unresolved) && r.identity.pid in listed && r.identity.pgid == c.rootPid
    ensures var pid := r.identity.pid;
            Midway(c, before, base, w.Log(Event.Read(pid, Ok(Some(r)))).Put(pid, r), i, listed, unresolved)
  {
    hide Walked, TroubledAfter, OnlyListing, Born;
    var pid := r.identity.pid;
    var news, e := w.ledger.trace[|base|..], Event.Read(pid, Ok(Some(r)));
    var w1 := w.Log(e);
    MemberRead(c, before, base, w, i, listed, unresolved, pid, Ok(Some(r)));
    assert w1.ledger.trace[|base|..] == news + [e];
    ListedBorn(c, news, i, listed, r);
    WalkedPuts(c, before, news + [e], w1, r);
  }

  lemma ListedBorn(c: Config, news: seq<Event>, i: nat, listed: seq<nat>, r: Record)
    requires Pinned(c, news, i, |news|) && OnlyListing(news, i, InGroup(c.rootPid, Ok(listed)))
    requires r.identity.pid in listed && r.identity.pgid == c.rootPid
    ensures var more := news + [Event.Read(r.identity.pid, Ok(Some(r)))];
            Born(c, more, r.identity.pid, r.identity.start) && Seen(more, r)
  {
    var e := Event.Read(r.identity.pid, Ok(Some(r)));
    var more := news + [e];
    PinnedMore(c, news, i, e);
    assert more[|news|] == e && more[i] == news[i];
    assert BornAt(c, more, r.identity.pid, r.identity.start, i, |news|);
  }

  /** The one listing of a group is at `i`. */
  lemma OneListing(news: seq<Event>, i: nat)
    requires i < |news| && news[i].InGroup? && forall j :: 0 <= j < |news| && j != i ==> !news[j].InGroup?
    ensures LeftOpen(news) == (news[i].pids.Err? || TroubledAfter(news, i))
  {
    if news[i].pids.Err? || TroubledAfter(news, i) {
      assert OpenAt(news, i);
    }
  }

  lemma WalkedKeyed(c: Config, before: map<nat, Record>, news: seq<Event>, w: Walk)
    requires Walked(c, before, news, w)
    ensures Keyed(w.processes)
  {
    hide Keyed, Fresh;
  }

  lemma RootGroupTold(c: Config, o: Oracle, before: map<nat, Record>, base: seq<Event>, w: Walk)
    requires base <= w.ledger.trace && Walked(c, before, w.ledger.trace[|base|..], w)
    requires NoGroup(w.ledger.trace[|base|..])
    ensures var (r, open) := ScanRootGroup(c, o, w); GroupOver(c, before, base, r, open)
  {
    hide Walked, EnlistGroup, GroupOver;
    var news := w.ledger.trace[|base|..];
    WalkedKeyed(c, before, news, w);
    NoneOpen(c, before, base, w);
    if !c.adopt && c.rootPid in w.processes && w.processes[c.rootPid].exited && w.processes[c.rootPid].identity.Leads() {
      var pids := o.inGroup(w.ledger.Tick(), c.rootPid);
      var w1 := w.Log(InGroup(c.rootPid, pids));
      GroupListed(c, before, base, w, pids);
      if pids.Ok? {
        ListedTold(c, o, before, base, w1, w.processes[c.rootPid].identity, pids.value, |news|);
      }
    }
  }

  lemma NoneOpen(c: Config, before: map<nat, Record>, base: seq<Event>, w: Walk)
    requires base <= w.ledger.trace && Walked(c, before, w.ledger.trace[|base|..], w)
    requires NoGroup(w.ledger.trace[|base|..])
    ensures GroupOver(c, before, base, w, false)
  {
    hide Walked;
  }

  lemma GroupListed(c: Config, before: map<nat, Record>, base: seq<Event>, w: Walk, pids: Answer<seq<nat>>)
    requires base <= w.ledger.trace && Walked(c, before, w.ledger.trace[|base|..], w)
    requires NoGroup(w.ledger.trace[|base|..])
    ensures var w1, i := w.Log(InGroup(c.rootPid, pids)), |w.ledger.trace[|base|..]|;
            var news := w1.ledger.trace[|base|..];
            && |news| == i + 1 && OnlyListing(news, i, InGroup(c.rootPid, pids))
            && (if pids.Ok? then Walked(c, before, news, w1) else GroupOver(c, before, base, w1.Missed(pids.fault), true))
  {
    hide Walked;
    var e := InGroup(c.rootPid, pids);
    var news, w1 := w.ledger.trace[|base|..], w.Log(e);
    assert w1.ledger.trace[|base|..] == news + [e];
    WalkedLogs(c, before, news, w, e, if pids.Ok? then w1 else w1.Missed(pids.fault));
    OneListing(news + [e], |news|);
  }

  /** The root's group has been listed. */
  lemma ListedTold(c: Config, o: Oracle, before: map<nat, Record>, base: seq<Event>, w: Walk, root: Identity,
                   pids: seq<nat>, i: nat)
    requires base <= w.ledger.trace && Walked(c, before, w.ledger.trace[|base|..], w) && root.pid == root.pgid == c.rootPid
    requires |w.ledger.trace[|base|..]| == i + 1 && OnlyListing(w.ledger.trace[|base|..], i, InGroup(c.rootPid, Ok(pids)))
    ensures var a := o.Look(w.ledger.Tick(), c.rootPid);
            var w1 := w.Log(Event.Read(c.rootPid, a));
            match a
            case Err(f) => GroupOver(c, before, base, w1.Missed(f), true)
            case Ok(None) => GroupOver(c, before, base, w1.Refuse(RootLost), true)
            case Ok(Some(current)) =>
              if current.identity != root then GroupOver(c, before, base, w1.Refuse(RootLost), true)
              else
                var (r, open) := EnlistGroup(c, o, w1, c.rootPid, pids, false); GroupOver(c, before, base, r, open)
  {
    hide Walked, EnlistGroup, TroubledAfter, GroupOver;
    var news := w.ledger.trace[|base|..];
    var a := o.Look(w.ledger.Tick(), c.rootPid);
    var f := Event.Read(c.rootPid, a);
    var w1 := w.Log(f);
    assert w1.ledger.trace[|base|..] == news + [f];
    WalkedLogs(c, before, news, w, f, if a.Ok? then w1 else w1.Missed(a.fault));
    OnlyMore(news, i, InGroup(c.rootPid, Ok(pids)), f);
    TroubledNone(news, i);
    TroubledMore(news, i, f);
    if a.Err? {
      RootUnread(c, before, base, w1.Missed(a.fault), i);
    } else if a.value.Some? && a.value.value.identity == root {
      assert Pinned(c, news + [f], i, |news| + 1);
      assert Midway(c, before, base, w1, i, pids, false);
      EnlistGroupTold(c, o, before, base, w1, pids, i, pids, false);
    } else {
      var e := Refused(RootLost);
      assert w1.Refuse(RootLost).ledger.trace[|base|..] == news + [f] + [e];
      WalkedLogs(c, before, news + [f], w1, e, w1.Refuse(RootLost));
      OnlyMore(news + [f], i, InGroup(c.rootPid, Ok(pids)), e);
      TroubledMore(news + [f], i, e);
      RootUnread(c, before, base, w1.Refuse(RootLost), i);
    }
  }

  lemma RootUnread(c: Config, before: map<nat, Record>, base: seq<Event>, w: Walk, i: nat)
    requires base <= w.ledger.trace && Walked(c, before, w.ledger.trace[|base|..], w)
    requires var news := w.ledger.trace[|base|..];
             i < |news| && news[i].InGroup? && OnlyListing(news, i, news[i]) && TroubledAfter(news, i)
    ensures GroupOver(c, before, base, w, true)
  {
    hide Walked, TroubledAfter, LeftOpen;
    OneListing(w.ledger.trace[|base|..], i);
  }

  lemma TroubledNone(news: seq<Event>, i: nat)
    requires |news| == i + 1
    ensures !TroubledAfter(news, i)
  {
  }

  // ------------------------------------------------------------------------ reaping

  /** An adopted process that has exited, other than the root. */
  predicate Zombie(c: Config, processes: map<nat, Record>, pid: nat) {
    && c.adopt && pid != c.rootPid && pid in processes
    && processes[pid].exited && processes[pid].ppid == c.shim.pid
  }

  /** Where reaping stands: who was tracked before it, what it logged, who still is, and
      whose turn is still to come. */
  ghost predicate Reaping(c: Config, all: map<nat, Record>, news: seq<Event>, processes: map<nat, Record>,
                          records: seq<Record>)
  {
    && (forall e :: e in news ==> e.Reaped? && Zombie(c, all, e.pid) && NotAmong(records, e.pid))
    && (forall p :: p in processes <==> p in all && Reaped(p, true) !in news)
    && (forall p :: p in processes ==> processes[p] == all[p])
    && (forall p :: Zombie(c, all, p) && NotAmong(records, p) ==> Reaped(p, true) in news || Reaped(p, false) in news)
    && (forall i, j :: 0 <= i < j < |news| ==> news[i].pid != news[j].pid)
  }

  predicate NotAmong(records: seq<Record>, pid: nat) {
    forall i :: 0 <= i < |records| ==> records[i].identity.pid != pid
  }

  ghost predicate Snaps(all: map<nat, Record>, records: seq<Record>) {
    && (forall i :: 0 <= i < |records| ==> records[i].identity.pid in all && all[records[i].identity.pid] == records[i])
    && (forall i, j :: 0 <= i < j < |records| ==> records[i].identity.pid != records[j].identity.pid)
  }

  lemma SnapsOn(all: map<nat, Record>, records: seq<Record>)
    requires Snaps(all, records) && records != []
    ensures Snaps(all, records[1..]) && NotAmong(records[1..], records[0].identity.pid)
    ensures forall p :: NotAmong(records, p) <==> NotAmong(records[1..], p) && p != records[0].identity.pid
  {
    var rest := records[1..];
    forall p ensures NotAmong(records, p) <==> NotAmong(rest, p) && p != records[0].identity.pid {
      if NotAmong(records, p) {
        assert records[0].identity.pid != p;
        assert forall i :: 0 <= i < |rest| ==> rest[i] == records[i + 1];
      } else {
        var i :| 0 <= i < |records| && records[i].identity.pid == p;
        assert i > 0 ==> rest[i - 1] == records[i];
      }
    }
  }

  /** The next record is passed over. */
  lemma ReapingOn(c: Config, all: map<nat, Record>, news: seq<Event>, processes: map<nat, Record>, records: seq<Record>)
    requires Reaping(c, all, news, processes, records) && Snaps(all, records) && records != []
    requires !Zombie(c, all, records[0].identity.pid)
    ensures Reaping(c, all, news, processes, records[1..])
  {
    hide NotAmong, Zombie;
    SnapsOn(all, records);
  }

  /** The next record is reaped, or not. */
  lemma ReapingOne(c: Config, all: map<nat, Record>, news: seq<Event>, processes: map<nat, Record>, records: seq<Record>,
                   ok: bool)
    requires Reaping(c, all, news, processes, records) && Snaps(all, records) && records != []
    requires Zombie(c, all, records[0].identity.pid)
    ensures var pid := records[0].identity.pid;
            Reaping(c, all, news + [Reaped(pid, ok)], if ok then processes - {pid} else processes, records[1..])
  {
    hide NotAmong, Zombie;
    SnapsOn(all, records);
    var pid := records[0].identity.pid;
    var more := news + [Reaped(pid, ok)];
    assert forall e :: e in more <==> e in news || e == Reaped(pid, ok);
    assert Reaped(pid, true) !in news && Reaped(pid, false) !in news;
  }

  lemma {:induction false} ReapTold(c: Config, o: Oracle, all: map<nat, Record>, base: seq<Event>, l: Ledger,
                                    processes: map<nat, Record>, records: seq<Record>)
    requires Snaps(all, records) && base <= l.trace && Reaping(c, all, l.trace[|base|..], processes, records)
    ensures var (r, left) := ReapAll(c, o, l, processes, records);
            base <= r.trace && Reaping(c, all, r.trace[|base|..], left, [])
    decreases |records|
  {
    hide Reaping, Snaps;
    if records != [] {
      var news, rest := l.trace[|base|..], records[1..];
      SnapsHead(c, all, records);
      SnapsOn(all, records);
      if !Zombie(c, all, records[0].identity.pid) {
        ReapingOn(c, all, news, processes, records);
        ReapTold(c, o, all, base, l, processes, rest);
      } else {
        var pid := records[0].identity.pid;
        var ok := o.reap(l.Tick(), pid);
        var l1 := l.Log(Reaped(pid, ok));
        assert l1.trace[|base|..] == news + [Reaped(pid, ok)];
        ReapingOne(c, all, news, processes, records, ok);
        ReapTold(c, o, all, base, if ok then l1 else l1.Fail(), if ok then processes - {pid} else processes, rest);
      }
    }
  }

  lemma SnapsHead(c: Config, all: map<nat, Record>, records: seq<Record>)
    requires Snaps(all, records) && records != []
    ensures Reapable(c, records[0]) <==> Zombie(c, all, records[0].identity.pid)
  {
  }

  lemma ReapingNone(c: Config, all: map<nat, Record>, records: seq<Record>)
    requires Keyed(all) && Snaps(all, records) && forall p :: p in all ==> !NotAmong(records, p)
    ensures Reaping(c, all, [], all, records)
  {
    hide NotAmong;
  }

  lemma SnapshotSnaps(o: Oracle, st: Tracked)
    requires o.Lists() && Keyed(st.processes)
    ensures Snaps(st.processes, Snapshot(o, st)) && forall p :: p in st.processes ==> !NotAmong(Snapshot(o, st), p)
  {
    var order := o.pids(st.ledger.Tick(), st.processes.Keys);
    var records := Snapshot(o, st);
    assert Listing(order, st.processes.Keys);
    forall i | 0 <= i < |records| ensures records[i].identity.pid == order[i] && order[i] in st.processes {
      assert order[i] in order;
    }
    forall p | p in st.processes ensures !NotAmong(records, p) {
      assert p in order;
      var i :| 0 <= i < |order| && order[i] == p;
      assert records[i].identity.pid == p;
    }
  }

  /** Reaping every record of one iteration of the table. */
  lemma SnapshotReaped(c: Config, o: Oracle, st: Tracked)
    requires o.Lists() && Keyed(st.processes)
    ensures var (l, left) := ReapAll(c, o, st.ledger, st.processes, Snapshot(o, st));
            st.ledger.trace <= l.trace && Reaping(c, st.processes, l.trace[|st.ledger.trace|..], left, [])
  {
    hide Snapshot, Snaps, Reaping;
    SnapshotSnaps(o, st);
    ReapingNone(c, st.processes, Snapshot(o, st));
    assert st.ledger.trace[|st.ledger.trace|..] == [];
    ReapTold(c, o, st.processes, st.ledger.trace, st.ledger, st.processes, Snapshot(o, st));
  }
}
