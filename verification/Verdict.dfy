/** What the tracker reports of its passes and of its last scan, and what that rests on. */
module Verdicts {
  import opened Process
  import opened Tracking
  import Bound
  import Coverage
  import Escalation
  import Runs
  import Safety
  import Signals

  /** Nothing tracked is alive, and the last scan, if any, was complete. */
  ghost predicate Quiet(st: Tracked) {
    (forall p :: p in st.processes ==> st.processes[p].exited) && Safety.Misses(st.ledger.trace) == 0
  }

  lemma LiveExactly(o: Oracle, st: Tracked)
    requires o.Lists()
    ensures Live(o, st) == [] <==> forall p :: p in st.processes ==> st.processes[p].exited
  {
    var order := o.pids(st.ledger.Tick(), st.processes.Keys);
    forall p | p in st.processes && !st.processes[p].exited ensures Live(o, st) != [] {
      assert p in order;
      var i :| 0 <= i < |order| && order[i] == p;
      Coverage.LiveIncludes(Snapshot(o, st), i);
    }
    if forall p :: p in st.processes ==> st.processes[p].exited {
      NoneListed(Snapshot(o, st));
    }
  }

  lemma {:induction false} NoneListed(records: seq<Record>)
    requires forall i :: 0 <= i < |records| ==> records[i].exited
    ensures LiveOf(records) == []
    decreases |records|
  {
    if records != [] {
      NoneListed(records[1..]);
    }
  }

  lemma SafeMisses(c: Config, root: Identity, st: Tracked)
    requires Runs.Safe(c, root, st)
    ensures st.incompleteScans == 0 <==> Safety.Misses(st.ledger.trace) == 0
    ensures st.ledger.uncertain <==> Safety.Failed(c, st.ledger.trace)
  {
    hide Escalation.Ordered, Signals.Accounted, Safety.Failed, Safety.Misses, Safety.Authorized;
  }

  /** One pass: what it counts, when it is done, what it confirms, and what it costs. */
  lemma PassConcludes(c: Config, o: Oracle, root: Identity, st: Tracked, now: nat)
    requires o.Lists() && Runs.Safe(c, root, st) && st.cleanup.Some?
    ensures var (r, p) := Advance(c, o, st, now); var cl := st.cleanup.value;
            && r.cleanup.Some? && (r.cleanup.value.emptyScans > 0 <==> Quiet(st))
            && (p.done <==> now >= cl.deadline || (Quiet(st) && cl.emptyScans > 0))
            && (p.confirmed <==> p.done && (forall q :: q in st.processes ==> st.processes[q].exited) && !r.ledger.uncertain)
            && (now >= cl.deadline && !Quiet(st) ==> r.ledger.uncertain)
  {
    hide AdvanceGroups, AdvanceMembers, Live, Runs.Safe, Safety.Misses;
    var cl, live, order := st.cleanup.value, Live(o, st), o.leaders(st.ledger.Tick(), st.groups.Keys);
    LiveExactly(o, st);
    SafeMisses(c, root, st);
    Bound.AdvanceGroupsKeep(c, o, cl, st, now, live, order, {});
    var (st1, covered) := AdvanceGroups(c, o, cl, st, now, live, order, {});
    Bound.AdvanceMembersKeep(c, o, cl, st1, now, live, covered);
  }

  /** The last pass among these calls, in a cleanup, met a quiet tracker. */
  ghost predicate LastQuiet(c: Config, o: Oracle, st: Tracked, ops: seq<Op>)
    requires o.Lists()
  {
    exists i :: 0 <= i < |ops| && QuietAt(c, o, st, ops, i) && NonePast(ops, i)
  }

  ghost predicate QuietAt(c: Config, o: Oracle, st: Tracked, ops: seq<Op>, i: nat)
    requires o.Lists() && i < |ops|
  {
    ops[i].DoAdvance? && Run(c, o, st, ops[..i]).cleanup.Some? && Quiet(Run(c, o, st, ops[..i]))
  }

  predicate NonePast(ops: seq<Op>, i: nat) {
    forall j :: i < j < |ops| ==> !ops[j].DoAdvance?
  }

  lemma OneCallMore(c: Config, o: Oracle, st: Tracked, ops: seq<Op>, op: Op)
    requires o.Lists()
    ensures Run(c, o, st, ops + [op]) == Apply(c, o, Run(c, o, st, ops), op)
    ensures LastQuiet(c, o, st, ops + [op]) <==>
            if op.DoAdvance? then Run(c, o, st, ops).cleanup.Some? && Quiet(Run(c, o, st, ops))
            else LastQuiet(c, o, st, ops)
  {
    hide Apply, Run, Quiet;
    Runs.RunOneMore(c, o, st, ops, op);
    var more, n := ops + [op], |ops|;
    assert more[..n] == ops && more[n] == op;
    forall i | 0 <= i < n ensures QuietAt(c, o, st, more, i) == QuietAt(c, o, st, ops, i) {
      assert more[..i] == ops[..i];
    }
    if op.DoAdvance? {
      assert forall i :: 0 <= i < n ==> !NonePast(more, i) by {
        assert more[n].DoAdvance?;
      }
      assert NonePast(more, n);
    } else {
      assert forall i :: 0 <= i < n ==> (NonePast(more, i) <==> NonePast(ops, i)) by {
        assert forall j :: 0 <= j < n ==> more[j] == ops[j];
      }
    }
  }

  /** The count of empty scans says whether the last pass was quiet. */
  lemma {:induction false} CountsQuiet(c: Config, o: Oracle, root: Identity, ops: seq<Op>)
    requires o.Lists() && c.groupLimit >= 1
    ensures var st := Run(c, o, Started(c, root), ops);
            if st.cleanup.Some? then st.cleanup.value.emptyScans > 0 <==> LastQuiet(c, o, Started(c, root), ops)
            else !LastQuiet(c, o, Started(c, root), ops)
    decreases |ops|
  {
    hide Apply, Quiet, Runs.Safe, Started, LastQuiet, Run;
    var start := Started(c, root);
    if ops == [] {
      StartsUnbegun(c, o, root);
    } else {
      var front, last := ops[..|ops| - 1], ops[|ops| - 1];
      assert ops == front + [last];
      CountsQuiet(c, o, root, front);
      Runs.RunSafe(c, o, root, front);
      OneCallMore(c, o, start, front, last);
      OpCounts(c, o, root, Run(c, o, start, front), last);
    }
  }

  lemma StartsUnbegun(c: Config, o: Oracle, root: Identity)
    requires o.Lists()
    ensures Run(c, o, Started(c, root), []).cleanup.None? && !LastQuiet(c, o, Started(c, root), [])
  {
  }

  lemma OpCounts(c: Config, o: Oracle, root: Identity, st: Tracked, op: Op)
    requires o.Lists() && Runs.Safe(c, root, st)
    ensures var r := Apply(c, o, st, op);
            if op.DoAdvance? then
              r.cleanup.Some? == st.cleanup.Some?
              && (st.cleanup.Some? ==> (r.cleanup.value.emptyScans > 0 <==> Quiet(st)))
            else
              && (st.cleanup.Some? ==> r.cleanup == st.cleanup)
              && (r.cleanup.Some? && st.cleanup.None? ==> r.cleanup.value.emptyScans == 0)
  {
    hide Scan, Quiet, Runs.Safe;
    match op
    case DoScan => Bound.ScanKeeps(c, o, st);
    case DoFinish => Bound.ScanKeeps(c, o, st);
    case DoAdvance(now) =>
      if st.cleanup.Some? {
        hide Advance;
        PassConcludes(c, o, root, st, now);
      }
    case _ =>
  }

  /** Over every run: before the deadline a pass of a cleanup reports that it is done if and
      only if it and the pass before it both met nothing alive after a complete scan; from
      the deadline on it always does, and then anything else costs certainty. It confirms
      what is done with nothing alive and nothing uncertain. */
  lemma DoneExactly(c: Config, o: Oracle, root: Identity, ops: seq<Op>, now: nat)
    requires o.Lists() && c.groupLimit >= 1 && Run(c, o, Started(c, root), ops).cleanup.Some?
    ensures var st := Run(c, o, Started(c, root), ops); var (r, p) := Advance(c, o, st, now);
            var expired := now >= st.cleanup.value.deadline;
            && (p.done <==> expired || (Quiet(st) && LastQuiet(c, o, Started(c, root), ops)))
            && (p.confirmed <==> p.done && (forall q :: q in st.processes ==> st.processes[q].exited) && !r.ledger.uncertain)
            && (expired && !Quiet(st) ==> r.ledger.uncertain)
  {
    hide Run, Started, Advance, Quiet, Runs.Safe, LastQuiet;
    Runs.RunSafe(c, o, root, ops);
    CountsQuiet(c, o, root, ops);
    PassConcludes(c, o, root, Run(c, o, Started(c, root), ops), now);
  }

  /** The last scan is complete if and only if nothing in the whole log failed and it missed
      nothing itself; and then nothing is left alive. It costs certainty to have found
      something alive, and nothing to have found nothing. */
  lemma FinishExactly(c: Config, o: Oracle, root: Identity, st: Tracked)
    requires o.Lists() && Runs.Safe(c, root, st)
    ensures var (r, complete) := FinishScan(c, o, st);
            && (complete <==> !Safety.Failed(c, r.ledger.trace) && Safety.Misses(r.ledger.trace) == 0)
            && (complete ==> forall q :: q in r.processes ==> r.processes[q].exited)
            && (if forall q :: q in r.processes ==> r.processes[q].exited then r == Scan(c, o, st) else r.ledger.uncertain)
  {
    hide Scan, KillAll, Live, Runs.Safe, Safety.Failed, Safety.Misses;
    Runs.FinishSafe(c, o, st, root);
    SafeMisses(c, root, FinishScan(c, o, st).0);
    var scanned := Scan(c, o, st);
    LiveExactly(o, scanned);
    KillsUncertain(c, o, scanned.ledger.Refuse(LateLive), Live(o, scanned));
  }

  lemma {:induction false} KillsUncertain(c: Config, o: Oracle, l: Ledger, live: seq<Identity>)
    ensures l.uncertain ==> KillAll(c, o, l, live).uncertain
    decreases |live|
  {
    hide SendChecked;
    if live != [] {
      Coverage.SendOnward(c, o, l, live[0], false, SIGKILL);
      KillsUncertain(c, o, SendChecked(c, o, l, live[0], false, SIGKILL).0, live[1..]);
    }
  }
}
