/** The process limit holds across a scan, provided no process comes back from the
    dead while it runs. */
module Limits {
  import opened Process
  import opened Tracking
  import opened Coverage

  /** The log holds a read that shows this very process. */
  predicate Shows(e: Event, id: Identity) {
    e.Read? && e.pid == id.pid && e.record.Ok? && e.record.value.Some?
    && e.record.value.value.identity.SameProcess(id)
  }

  /** The log holds a read of its pid that shows no process, or another one. */
  predicate Refutes(e: Event, id: Identity) {
    e.Read? && e.pid == id.pid && e.record.Ok?
    && (e.record.value.Some? ==> !e.record.value.value.identity.SameProcess(id))
  }

  predicate Anchor(anchors: map<nat, Record>, id: Identity) {
    id.pid in anchors && anchors[id.pid].identity.SameProcess(id)
  }

  /** Retained when the scan began, or shown to be alive since. */
  ghost predicate Seen(anchors: map<nat, Record>, from: nat, trace: seq<Event>, id: Identity) {
    Anchor(anchors, id) || exists k :: from <= k < |trace| && Shows(trace[k], id)
  }

  /** Seen, and then refuted. */
  ghost predicate Lost(anchors: map<nat, Record>, from: nat, trace: seq<Event>, id: Identity) {
    exists k :: from <= k < |trace| && Refutes(trace[k], id) && Seen(anchors, from, trace[..k], id)
  }

  /** No process is shown again once it has been lost. */
  ghost predicate NoneReturns(anchors: map<nat, Record>, from: nat, trace: seq<Event>) {
    forall k, id :: from <= k < |trace| && Lost(anchors, from, trace[..k], id) ==> !Shows(trace[k], id)
  }

  datatype Setting = Setting(c: Config, anchors: map<nat, Record>, from: nat)

  /** Every queued process but the shim is the one recorded under its pid, or lost. */
  ghost predicate Accounted(s: Setting, w: Walk) {
    && s.from <= |w.ledger.trace|
    && |w.processes| <= s.c.processLimit
    && Keyed(w.processes)
    && (forall i :: 0 <= i < |w.queue| && w.queue[i].pid != s.c.shim.pid ==>
                      Tallied(s, w.ledger.trace, w.processes, w.queue[i]))
  }

  ghost predicate Tallied(s: Setting, trace: seq<Event>, processes: map<nat, Record>, e: Identity) {
    && Seen(s.anchors, s.from, trace, e)
    && ((e.pid in processes && processes[e.pid].identity.SameProcess(e)) || Lost(s.anchors, s.from, trace, e))
  }

  lemma SeenLater(s: Setting, trace: seq<Event>, e: Event, id: Identity)
    requires s.from <= |trace|
    ensures Seen(s.anchors, s.from, trace, id) ==> Seen(s.anchors, s.from, trace + [e], id)
    ensures Lost(s.anchors, s.from, trace, id) ==> Lost(s.anchors, s.from, trace + [e], id)
    ensures Shows(e, id) ==> Seen(s.anchors, s.from, trace + [e], id)
    ensures Refutes(e, id) && Seen(s.anchors, s.from, trace, id) ==> Lost(s.anchors, s.from, trace + [e], id)
  {
    var t := trace + [e];
    assert t[|trace|] == e && t[..|trace|] == trace;
    if Seen(s.anchors, s.from, trace, id) && !Anchor(s.anchors, id) {
      var k :| s.from <= k < |trace| && Shows(trace[k], id);
      assert Shows(t[k], id);
    }
    if Shows(e, id) {
      assert Shows(t[|trace|], id);
    }
    if Lost(s.anchors, s.from, trace, id) {
      var k :| s.from <= k < |trace| && Refutes(trace[k], id) && Seen(s.anchors, s.from, trace[..k], id);
      assert t[k] == trace[k] && t[..k] == trace[..k];
    }
    if Refutes(e, id) && Seen(s.anchors, s.from, trace, id) {
      assert Refutes(t[|trace|], id) && Seen(s.anchors, s.from, t[..|trace|], id);
    }
  }

  /** One more event, a process table that changed at most under the event's own
      pid, to what the event shows or to nothing where it refutes what was there. */
  lemma Recount(s: Setting, trace: seq<Event>, e: Event, before: map<nat, Record>, after: map<nat, Record>, id: Identity)
    requires s.from <= |trace| && Tallied(s, trace, before, id)
    requires id.pid in before && !(e.Read? && id.pid == e.pid) ==> id.pid in after && after[id.pid] == before[id.pid]
    requires e.Read? && id.pid == e.pid && id.pid in before && !(id.pid in after && after[id.pid] == before[id.pid]) ==>
               e.record.Ok?
               && (if id.pid in after then e.record.value == Some(after[id.pid])
                   else Refutes(e, before[id.pid].identity) && before[id.pid].identity.pid == id.pid)
    ensures Tallied(s, trace + [e], after, id)
  {
    SeenLater(s, trace, e, id);
    if id.pid in before && before[id.pid].identity.SameProcess(id) && !(id.pid in after && after[id.pid].identity.SameProcess(id)) {
      assert Refutes(e, id);
    }
  }

  lemma Noticed(s: Setting, w: Walk, e: Event)
    requires Accounted(s, w)
    ensures Accounted(s, w.Log(e))
  {
    hide Tallied;
    forall i | 0 <= i < |w.queue| && w.queue[i].pid != s.c.shim.pid
      ensures Tallied(s, w.ledger.trace + [e], w.processes, w.queue[i])
    {
      Recount(s, w.ledger.trace, e, w.processes, w.processes, w.queue[i]);
    }
  }

  lemma Put(s: Setting, w: Walk, r: Record)
    requires Accounted(s, w) && r.identity.pid != s.c.shim.pid
    requires r.identity.pid in w.processes || |w.processes| < s.c.processLimit
    ensures var e := Read(r.identity.pid, Ok(Some(r)));
            Accounted(s, w.Log(e).Put(r.identity.pid, r))
            && Accounted(s, w.Log(e).Put(r.identity.pid, r).(queue := w.queue + [r.identity]))
  {
    hide Tallied;
    var e := Read(r.identity.pid, Ok(Some(r)));
    var w' := w.Log(e).Put(r.identity.pid, r);
    assert w'.processes.Keys == w.processes.Keys + {r.identity.pid};
    assert |w'.processes| == |w'.processes.Keys| && |w.processes| == |w.processes.Keys|;
    forall i | 0 <= i < |w.queue| && w.queue[i].pid != s.c.shim.pid
      ensures Tallied(s, w'.ledger.trace, w'.processes, w.queue[i])
    {
      RecountHere(s, w.ledger.trace, e, w.processes, w'.processes, w.queue[i]);
    }
    Shown(s, w, r);
  }

  lemma RecountHere(s: Setting, trace: seq<Event>, e: Event, before: map<nat, Record>, after: map<nat, Record>, id: Identity)
    requires s.from <= |trace| && Tallied(s, trace, before, id) && e.Read? && e.record.Ok? && e.record.value.Some?
    requires after == before[e.pid := e.record.value.value]
    ensures Tallied(s, trace + [e], after, id)
  {
    SeenLater(s, trace, e, id);
    if id.pid == e.pid && !e.record.value.value.identity.SameProcess(id) {
      assert Refutes(e, id);
    }
  }

  lemma Shown(s: Setting, w: Walk, r: Record)
    requires s.from <= |w.ledger.trace|
    ensures var e := Read(r.identity.pid, Ok(Some(r)));
            Tallied(s, w.ledger.trace + [e], w.processes[r.identity.pid := r], r.identity)
  {
    SeenLater(s, w.ledger.trace, Read(r.identity.pid, Ok(Some(r))), r.identity);
  }

  lemma {:induction false} EnlistAccounted(o: Oracle, s: Setting, w: Walk, parent: nat, kids: seq<nat>)
    requires Accounted(s, w)
    ensures Accounted(s, Enlist(s.c, o, w, parent, kids))
    decreases |kids|
  {
    hide Accounted;
    if kids != [] {
      var pid, rest := kids[0], kids[1..];
      if pid == s.c.shim.pid {
        EnlistAccounted(o, s, w, parent, rest);
      } else {
        var a := o.Look(w.ledger.Tick(), pid);
        var e := Read(pid, a);
        var w1 := w.Log(e);
        Noticed(s, w, e);
        if a.Err? {
          Blamed(s, w1, a.fault);
          EnlistAccounted(o, s, w1.Missed(a.fault), parent, rest);
        } else {
          EnlistAccounted(o, s, w1, parent, rest);
          if a.value.Some? {
            Stopped(s, w1, ProcessLimit);
            if pid in w.processes || |w.processes| < s.c.processLimit {
              Put(s, w, a.value.value);
              var w2 := w1.Put(pid, a.value.value).(queue := w1.queue + [a.value.value.identity]);
              EnlistAccounted(o, s, w2, parent, rest);
            }
          }
        }
      }
    }
  }

  lemma Blamed(s: Setting, w: Walk, f: Fault)
    requires Accounted(s, w)
    ensures Accounted(s, w.Missed(f))
  {
  }

  lemma Stopped(s: Setting, w: Walk, reason: Reason)
    requires Accounted(s, w)
    ensures Accounted(s, w.Refuse(reason)) && Accounted(s, w.Refuse(reason).(halted := true))
  {
    Noticed(s, w, Refused(reason));
  }

  lemma ExpandAccounted(o: Oracle, s: Setting, w: Walk, e: Identity)
    requires Accounted(s, w)
    ensures Accounted(s, Expand(s.c, o, w, e))
  {
    hide Accounted, Enlist;
    var kids := o.children(w.ledger.Tick(), e.pid);
    var w1 := w.Log(Children(e.pid, kids));
    Noticed(s, w, Children(e.pid, kids));
    if kids.Err? {
      Blamed(s, w1, kids.fault);
    } else {
      var a := o.Look(w1.ledger.Tick(), e.pid);
      var w2 := w1.Log(Read(e.pid, a));
      Noticed(s, w1, Read(e.pid, a));
      if a.Err? {
        Blamed(s, w2, a.fault);
      } else {
        EnlistAccounted(o, s, w2, e.pid, kids.value);
      }
    }
  }

  /** A queued process found gone is dropped from the table with its own evidence. */
  lemma ForgetAccounted(s: Setting, w: Walk, id: Identity, a: Answer<Option<Record>>)
    requires Accounted(s, w) && a.Ok? && Refutes(Read(id.pid, a), id)
    ensures Accounted(s, Forget(w.Log(Read(id.pid, a)), id))
  {
    hide Tallied;
    var e := Read(id.pid, a);
    var w' := Forget(w.Log(e), id);
    Fewer(w'.processes.Keys, w.processes.Keys);
    assert |w'.processes| == |w'.processes.Keys| && |w.processes| == |w.processes.Keys|;
    forall i | 0 <= i < |w.queue| && w.queue[i].pid != s.c.shim.pid
      ensures Tallied(s, w'.ledger.trace, w'.processes, w.queue[i])
    {
      Recount(s, w.ledger.trace, e, w.processes, w'.processes, w.queue[i]);
    }
  }

  /** A queued process found alive is already in the table. */
  lemma VisitAccounted(s: Setting, w: Walk, id: Identity, r: Record, final: seq<Event>)
    requires Accounted(s, w) && r.identity.SameProcess(id)
    requires id.pid != s.c.shim.pid ==> Tallied(s, w.ledger.trace, w.processes, id)
    requires NoneReturns(s.anchors, s.from, final)
    requires w.ledger.trace + [Read(id.pid, Ok(Some(r)))] <= final
    ensures Accounted(s, Visit(s.c, w.Log(Read(id.pid, Ok(Some(r)))), id, r))
  {
    var e := Read(id.pid, Ok(Some(r)));
    if id.pid != s.c.shim.pid {
      var k := |w.ledger.trace|;
      assert final[k] == e && final[..k] == w.ledger.trace;
      assert Shows(e, id);
      assert !Lost(s.anchors, s.from, w.ledger.trace, id);
      Put(s, w, r);
      Same(s, w.Log(e).Put(id.pid, r), Visit(s.c, w.Log(e), id, r));
    } else {
      Noticed(s, w, e);
      Same(s, w.Log(e), Visit(s.c, w.Log(e), id, r));
    }
  }

  lemma Same(s: Setting, w: Walk, w': Walk)
    requires Accounted(s, w) && w'.ledger == w.ledger && w'.processes == w.processes && w'.queue == w.queue
    ensures Accounted(s, w')
  {
  }

  lemma Dequeued(s: Setting, w: Walk)
    requires Accounted(s, w) && w.queue != []
    ensures Accounted(s, w.(queue := w.queue[1..])) && Accounted(s, w.(queue := w.queue[1..], attempts := w.attempts + 1))
    ensures w.queue[0].pid != s.c.shim.pid ==> Tallied(s, w.ledger.trace, w.processes, w.queue[0])
  {
    hide Tallied;
    assert forall i :: 0 <= i < |w.queue| - 1 ==> w.queue[1..][i] == w.queue[i + 1];
  }

  // --------------------------------------------------------------- the log grows

  lemma {:induction false} EnlistGrows(c: Config, o: Oracle, w: Walk, parent: nat, kids: seq<nat>)
    ensures w.ledger.trace <= Enlist(c, o, w, parent, kids).ledger.trace
    decreases |kids|
  {
    if kids != [] {
      var pid, rest := kids[0], kids[1..];
      EnlistGrows(c, o, w, parent, rest);
      var a := o.Look(w.ledger.Tick(), pid);
      var w1 := w.Log(Read(pid, a));
      if a.Err? {
        EnlistGrows(c, o, w1.Missed(a.fault), parent, rest);
      } else {
        EnlistGrows(c, o, w1, parent, rest);
        if a.value.Some? {
          EnlistGrows(c, o, w1.Put(pid, a.value.value).(queue := w1.queue + [a.value.value.identity]), parent, rest);
        }
      }
    }
  }

  lemma ExpandGrows(c: Config, o: Oracle, w: Walk, e: Identity)
    ensures w.ledger.trace <= Expand(c, o, w, e).ledger.trace
  {
    hide Enlist;
    var kids := o.children(w.ledger.Tick(), e.pid);
    var w1 := w.Log(Children(e.pid, kids));
    if kids.Ok? {
      var w2 := w1.Log(Read(e.pid, o.Look(w1.ledger.Tick(), e.pid)));
      EnlistGrows(c, o, w2, e.pid, kids.value);
    }
  }

  lemma StepGrows(c: Config, o: Oracle, w: Walk)
    requires w.queue != []
    ensures w.ledger.trace <= Step(c, o, w).ledger.trace
  {
    hide Expand;
    var e := w.queue[0];
    var w1 := w.(queue := w.queue[1..], attempts := w.attempts + 1);
    var a := o.Look(w1.ledger.Tick(), e.pid);
    if a.Ok? && a.value.Some? {
      ExpandGrows(c, o, Visit(c, w1.Log(Read(e.pid, a)), e, a.value.value), e);
    }
  }

  lemma {:induction false} WalkGrows(c: Config, o: Oracle, w: Walk)
    requires w.attempts <= Cap(c) || w.halted
    ensures w.ledger.trace <= WalkAll(c, o, w).ledger.trace
    decreases if w.halted then 0 else 1, Cap(c) + 1 - w.attempts, |w.queue|
  {
    hide Step;
    if !w.halted && w.queue != [] {
      StepGrows(c, o, w);
      StepAttempts(c, o, w);
      StepMeasure(c, o, w);
      WalkGrows(c, o, Step(c, o, w));
    }
  }

  /** Each step of a scan uses up an attempt or a queue entry, whatever the system
      answers; so every scan ends. */
  lemma StepMeasure(c: Config, o: Oracle, w: Walk)
    requires w.queue != [] && !w.halted && w.attempts <= Cap(c)
    ensures var r := Step(c, o, w);
            || r.halted
            || (w.attempts < r.attempts <= Cap(c))
            || (r.attempts == w.attempts && |r.queue| < |w.queue|)
  {
  }

  // ------------------------------------------------------------------- the bound

  lemma StepAccounted(o: Oracle, s: Setting, w: Walk, final: seq<Event>)
    requires Accounted(s, w) && w.queue != []
    requires NoneReturns(s.anchors, s.from, final) && Step(s.c, o, w).ledger.trace <= final
    ensures Accounted(s, Step(s.c, o, w))
  {
    hide Accounted, Expand, NoneReturns, Tallied;
    var e := w.queue[0];
    var w1 := w.(queue := w.queue[1..], attempts := w.attempts + 1);
    Dequeued(s, w);
    if !(e.pid in w.visited && w.visited[e.pid] == e.start) {
      Stopped(s, w1, Attempts);
      if w1.attempts <= Cap(s.c) {
        var a := o.Look(w1.ledger.Tick(), e.pid);
        var w2 := w1.Log(Read(e.pid, a));
        Noticed(s, w1, Read(e.pid, a));
        if a.Err? {
          Blamed(s, w2, a.fault);
        } else if a.value.Some? && a.value.value.identity.SameProcess(e) {
          var w3 := Visit(s.c, w2, e, a.value.value);
          ExpandGrows(s.c, o, w3, e);
          assert w2.ledger.trace <= final;
          VisitAccounted(s, w1, e, a.value.value, final);
          ExpandAccounted(o, s, w3, e);
        } else {
          ForgetAccounted(s, w1, e, a);
        }
      }
    }
  }

  lemma {:induction false} WalkAccounted(o: Oracle, s: Setting, w: Walk)
    requires w.attempts <= Cap(s.c) || w.halted
    requires Accounted(s, w) && NoneReturns(s.anchors, s.from, WalkAll(s.c, o, w).ledger.trace)
    ensures Accounted(s, WalkAll(s.c, o, w))
    decreases if w.halted then 0 else 1, Cap(s.c) + 1 - w.attempts, |w.queue|
  {
    hide Accounted, Step, NoneReturns;
    if !w.halted && w.queue != [] {
      var next := Step(s.c, o, w);
      StepAttempts(s.c, o, w);
      StepMeasure(s.c, o, w);
      WalkGrows(s.c, o, next);
      StepAccounted(o, s, w, WalkAll(s.c, o, w).ledger.trace);
      WalkAccounted(o, s, next);
    }
  }

  lemma PutBounded(processes: map<nat, Record>, pid: nat, r: Record, limit: nat)
    requires |processes| <= limit && (pid in processes || |processes| < limit)
    ensures |processes[pid := r]| <= limit
  {
    assert processes[pid := r].Keys == processes.Keys + {pid};
    assert |processes[pid := r]| == |processes[pid := r].Keys| && |processes| == |processes.Keys|;
  }

  lemma {:induction false} EnlistGroupBounded(c: Config, o: Oracle, w: Walk, pgid: nat, pids: seq<nat>, unresolved: bool)
    requires |w.processes| <= c.processLimit
    ensures |EnlistGroup(c, o, w, pgid, pids, unresolved).0.processes| <= c.processLimit
    decreases |pids|
  {
    if pids != [] {
      var pid, rest := pids[0], pids[1..];
      var a := o.Look(w.ledger.Tick(), pid);
      var w1 := w.Log(Read(pid, a));
      if a.Err? {
        EnlistGroupBounded(c, o, w1.Missed(a.fault), pgid, rest, true);
      } else {
        EnlistGroupBounded(c, o, w1, pgid, rest, unresolved);
        if a.value.Some? && (pid in w1.processes || |w1.processes| < c.processLimit) {
          PutBounded(w1.processes, pid, a.value.value, c.processLimit);
          EnlistGroupBounded(c, o, w1.Put(pid, a.value.value), pgid, rest, unresolved);
        }
      }
    }
  }

  lemma RootGroupBounded(c: Config, o: Oracle, w: Walk)
    requires |w.processes| <= c.processLimit
    ensures |ScanRootGroup(c, o, w).0.processes| <= c.processLimit
  {
    hide EnlistGroup;
    if !c.adopt && c.rootPid in w.processes {
      var root := w.processes[c.rootPid].identity;
      var pids := o.inGroup(w.ledger.Tick(), root.pgid);
      if pids.Ok? {
        var w1 := w.Log(InGroup(root.pgid, pids));
        var w2 := w1.Log(Read(root.pid, o.Look(w1.ledger.Tick(), root.pid)));
        EnlistGroupBounded(c, o, w2, root.pgid, pids.value, false);
      }
    }
  }

  lemma StartAccounted(c: Config, o: Oracle, st: Tracked)
    requires o.Lists() && Keyed(st.processes) && |st.processes| <= c.processLimit
    ensures Accounted(Setting(c, st.processes, |st.ledger.trace|), WalkStart(c, o, st))
  {
    var s, w := Setting(c, st.processes, |st.ledger.trace|), WalkStart(c, o, st);
    var order := o.pids(st.ledger.Tick(), st.processes.Keys);
    var lead := if c.adopt then [c.shim] else [];
    assert w.queue == lead + Identities(st.processes, order);
    forall i | 0 <= i < |w.queue| && w.queue[i].pid != c.shim.pid
      ensures Tallied(s, w.ledger.trace, w.processes, w.queue[i])
    {
      var p := order[i - |lead|];
      assert p in order && w.queue[i] == st.processes[p].identity;
      assert Anchor(st.processes, w.queue[i]);
    }
  }

  /** No identity that the scan has seen and then lost is shown alive again in it. */
  ghost predicate ScanSettles(c: Config, o: Oracle, st: Tracked)
    requires o.Lists()
  {
    NoneReturns(st.processes, |st.ledger.trace|, WalkAll(c, o, WalkStart(c, o, st)).ledger.trace)
  }

  /** A scan in which no lost process returns keeps to the process limit. */
  lemma ScanBounded(c: Config, o: Oracle, st: Tracked)
    requires o.Lists() && Keyed(st.processes) && |st.processes| <= c.processLimit && ScanSettles(c, o, st)
    ensures |Scan(c, o, st).processes| <= c.processLimit
    ensures Keyed(Scan(c, o, st).processes)
  {
    hide WalkAll, WalkStart, ScanRootGroup, ReapAll, AddLeaders, Accounted, NoneReturns;
    var s := Setting(c, st.processes, |st.ledger.trace|);
    StartAccounted(c, o, st);
    WalkAccounted(o, s, WalkStart(c, o, st));
    var w := WalkAll(c, o, WalkStart(c, o, st));
    Tally(s, w);
    RootGroupBounded(c, o, w);
    RootGroupKeyed(c, o, w);
    var (found, unresolved) := Found(c, o, st);
    var st1 := st.(processes := found.processes, ledger := found.ledger, unresolved := unresolved);
    var (l, processes) := ReapAll(c, o, st1.ledger, st1.processes, Snapshot(o, st1));
    ReapShrinks(c, o, st1.ledger, st1.processes, Snapshot(o, st1));
    Fewer(processes.Keys, st1.processes.Keys);
    assert |processes| == |processes.Keys| && |st1.processes| == |st1.processes.Keys|;
    var st2 := PruneGroups(st1.(ledger := l, processes := processes));
    LeadersUnmoved(c, st2, Snapshot(o, st2));
  }

  lemma Tally(s: Setting, w: Walk)
    requires Accounted(s, w)
    ensures |w.processes| <= s.c.processLimit && Keyed(w.processes)
  {
  }

  // ----------------------------------------------------------- the length of a walk

  ghost function Listings(trace: seq<Event>): nat {
    if trace == [] then 0
    else Listings(trace[..|trace| - 1]) + if trace[|trace| - 1].Children? then 1 else 0
  }

  lemma OneListed(trace: seq<Event>, e: Event)
    ensures Listings(trace + [e]) == Listings(trace) + if e.Children? then 1 else 0
  {
    assert (trace + [e])[..|trace|] == trace;
  }

  lemma {:induction false} EnlistLists(c: Config, o: Oracle, w: Walk, parent: nat, kids: seq<nat>)
    ensures Listings(Enlist(c, o, w, parent, kids).ledger.trace) == Listings(w.ledger.trace)
    decreases |kids|
  {
    hide Listings;
    if kids != [] {
      var pid, rest := kids[0], kids[1..];
      EnlistLists(c, o, w, parent, rest);
      var a := o.Look(w.ledger.Tick(), pid);
      var w1 := w.Log(Read(pid, a));
      OneListed(w.ledger.trace, Read(pid, a));
      OneListed(w1.ledger.trace, Refused(ProcessLimit));
      if a.Err? {
        EnlistLists(c, o, w1.Missed(a.fault), parent, rest);
      } else {
        EnlistLists(c, o, w1, parent, rest);
        if a.value.Some? {
          EnlistLists(c, o, w1.Put(pid, a.value.value).(queue := w1.queue + [a.value.value.identity]), parent, rest);
        }
      }
    }
  }

  lemma ProbeLists(c: Config, o: Oracle, w: Walk, e: Identity)
    ensures Listings(Probe(c, o, w, e).ledger.trace) <= Listings(w.ledger.trace) + 1
  {
    hide Listings, Enlist;
    var a := o.Look(w.ledger.Tick(), e.pid);
    var w1 := w.Log(Read(e.pid, a));
    OneListed(w.ledger.trace, Read(e.pid, a));
    if a.Ok? && a.value.Some? && a.value.value.identity.SameProcess(e) {
      var v := Visit(c, w1, e, a.value.value);
      var kids := o.children(v.ledger.Tick(), e.pid);
      var w2 := v.Log(Children(e.pid, kids));
      OneListed(v.ledger.trace, Children(e.pid, kids));
      if kids.Ok? {
        var b := o.Look(w2.ledger.Tick(), e.pid);
        OneListed(w2.ledger.trace, Read(e.pid, b));
        EnlistLists(c, o, w2.Log(Read(e.pid, b)), e.pid, kids.value);
      }
    }
  }

  lemma StepLists(c: Config, o: Oracle, w: Walk)
    requires w.queue != [] && !w.halted && w.attempts <= Cap(c)
    ensures var r := Step(c, o, w);
            && Listings(r.ledger.trace) <= Listings(w.ledger.trace) + r.attempts - w.attempts
            && (r.halted || r.attempts <= Cap(c)) && (r.attempts > Cap(c) ==> Listings(r.ledger.trace) == Listings(w.ledger.trace))
  {
    hide Listings, Probe;
    var w1 := w.(queue := w.queue[1..], attempts := w.attempts + 1);
    OneListed(w.ledger.trace, Refused(Attempts));
    ProbeLists(c, o, w1, w.queue[0]);
  }

  /** A walk lists the children of no more than twice the process limit and one, whatever the
      system answers. */
  lemma {:induction false} WalkLists(c: Config, o: Oracle, w: Walk)
    requires w.attempts <= Cap(c) && !w.halted
    ensures Listings(WalkAll(c, o, w).ledger.trace) <= Listings(w.ledger.trace) + 2 * c.processLimit + 1 - w.attempts
    decreases Cap(c) + 1 - w.attempts, |w.queue|
  {
    hide Step, Listings;
    if w.queue != [] {
      StepLists(c, o, w);
      StepMeasure(c, o, w);
      var r := Step(c, o, w);
      if !r.halted && r.attempts <= Cap(c) {
        WalkLists(c, o, r);
      }
    }
  }

  lemma ScanLists(c: Config, o: Oracle, st: Tracked)
    requires o.Lists()
    ensures var w := WalkAll(c, o, WalkStart(c, o, st));
            Listings(w.ledger.trace) <= Listings(st.ledger.trace) + 2 * c.processLimit + 1
  {
    WalkLists(c, o, WalkStart(c, o, st));
  }

  // ---------------------------------------------------------------- whole runs

  ghost predicate RunSettles(c: Config, o: Oracle, st: Tracked, ops: seq<Op>)
    requires o.Lists()
    decreases |ops|
  {
    ops != [] ==>
      && (ops[0].DoScan? || ops[0].DoFinish? ==> ScanSettles(c, o, st))
      && RunSettles(c, o, Apply(c, o, st, ops[0]), ops[1..])
  }

  /** Over every run whose scans settle, the process limit is never exceeded. */
  lemma {:induction false} RunBounded(c: Config, o: Oracle, st: Tracked, ops: seq<Op>)
    requires o.Lists() && Keyed(st.processes) && |st.processes| <= c.processLimit && RunSettles(c, o, st, ops)
    ensures |Run(c, o, st, ops).processes| <= c.processLimit
    decreases |ops|
  {
    hide Scan, Advance, Keyed, ScanSettles, KillAll;
    if ops != [] {
      match ops[0] {
        case DoScan => ScanBounded(c, o, st);
        case DoFinish => ScanBounded(c, o, st);
        case DoAdvance(now) => AdvanceKeepsInventory(c, o, st, now);
        case DoBegin(_, _, _) =>
        case DoTake =>
        case DoFail =>
      }
      RunBounded(c, o, Apply(c, o, st, ops[0]), ops[1..]);
    }
  }
}
