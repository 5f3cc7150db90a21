/** The whole-run invariant of the tracker, and that every call keeps it. */
module Runs {
  import opened Process
  import opened Tracking
  import opened Safety
  import opened Escalation
  import opened Signals
  import opened Coverage

  /** The signals sent so far were authorized; those of each retained group are all on
      record, in order and on time; certainty was lost exactly by a failing event; the
      group inventory is in order. */
  ghost predicate Safe(c: Config, root: Identity, st: Tracked) {
    && SoundState(c, st.ledger, st)
    && Ordered(st) && Accounted(c, st)
    && Inventoried(c, root, st)
  }

  lemma StartSafe(c: Config, root: Identity)
    requires c.groupLimit >= 1
    ensures Safe(c, root, Started(c, root))
  {
  }

  lemma ScanSafe(c: Config, o: Oracle, st: Tracked, root: Identity)
    requires o.Lists() && Safe(c, root, st)
    ensures var r := Scan(c, o, st); Safe(c, root, r) && NoneReplaced(r) && LeadersKnown(r)
  {
    hide Sound, Ordered, Accounted, Scan, Inventoried, NoneReplaced, LeadersKnown;
    ScanAccounted(c, o, st);
    ScanSound(c, o, st.ledger, st);
    var r := Scan(c, o, st);
    Rebased(c, st.ledger, r.ledger, r.incompleteScans);
    ScanOrdered(c, o, st);
    ScanTidies(c, o, st, root);
  }

  lemma AdvanceSafe(c: Config, o: Oracle, st: Tracked, root: Identity, now: nat)
    requires o.Lists() && Safe(c, root, st)
    ensures Safe(c, root, Advance(c, o, st, now).0)
    ensures st.cleanup.Some? ==>
              forall q :: q in st.processes && !st.processes[q].exited ==>
                            Covered(Advance(c, o, st, now).0, |st.ledger.trace|, st.processes[q].identity)
  {
    hide Sound, Ordered, Accounted, Advance, Covered;
    AdvanceAccounted(c, o, st, now);
    var r := Advance(c, o, st, now).0;
    AdvanceSound(c, o, st.ledger, st, now);
    Rebased(c, st.ledger, r.ledger, r.incompleteScans);
    AdvanceOrdered(c, o, st, now);
    AdvanceKeepsInventory(c, o, st, now);
    SameInventory(c, root, st, r);
    if st.cleanup.Some? {
      AdvanceCovers(c, o, st, now);
    }
  }

  lemma SameInventory(c: Config, root: Identity, before: Tracked, after: Tracked)
    requires Inventoried(c, root, before)
    requires after.groups.Keys == before.groups.Keys && after.processes == before.processes
    ensures Inventoried(c, root, after)
  {
    assert |before.groups| == |before.groups.Keys| && |after.groups| == |after.groups.Keys|;
  }

  lemma FinishSafe(c: Config, o: Oracle, st: Tracked, root: Identity)
    requires o.Lists() && Safe(c, root, st)
    ensures Safe(c, root, FinishScan(c, o, st).0)
  {
    hide Sound, Ordered, Accounted, Scan, KillAll;
    FinishAccounted(c, o, st);
    var r := FinishScan(c, o, st).0;
    FinishOrdered(c, o, st);
    FinishSound(c, o, st.ledger, st);
    Rebased(c, st.ledger, r.ledger, r.incompleteScans);
    ScanTidies(c, o, st, root);
    SameInventory(c, root, Scan(c, o, st), r);
  }

  lemma FailSafe(c: Config, st: Tracked, root: Identity)
    requires Safe(c, root, st)
    ensures Safe(c, root, st.(ledger := st.ledger.Refuse(External)))
  {
    hide Sound, Ordered, Accounted;
    var l := st.ledger.Refuse(External);
    QuietAccounted(c, st, l);
    Refusing(c, st.ledger, st.ledger, st.incompleteScans, External);
    Rebased(c, st.ledger, l, st.incompleteScans);
    Extended(st, l);
  }

  lemma BeginSafe(c: Config, st: Tracked, root: Identity, now: nat, interrupt: Option<nat>, term: nat)
    requires Safe(c, root, st)
    ensures Safe(c, root, BeginCleanup(st, now, interrupt, term))
  {
    hide Sound, Ordered, Accounted;
    BeginOrdered(st, now, interrupt, term);
    SameAccounted(c, st, BeginCleanup(st, now, interrupt, term));
  }

  lemma ApplySafe(c: Config, o: Oracle, st: Tracked, op: Op, root: Identity)
    requires o.Lists() && Safe(c, root, st)
    ensures Safe(c, root, Apply(c, o, st, op))
  {
    hide Scan, Advance, FinishScan, Safe, BeginCleanup;
    match op
    case DoScan => ScanSafe(c, o, st, root);
    case DoBegin(now, interrupt, term) => BeginSafe(c, st, root, now, interrupt, term);
    case DoAdvance(now) => AdvanceSafe(c, o, st, root, now);
    case DoFinish => FinishSafe(c, o, st, root);
    case DoTake => TakeSafe(c, st, root);
    case DoFail => FailSafe(c, st, root);
  }

  lemma TakeSafe(c: Config, st: Tracked, root: Identity)
    requires Safe(c, root, st)
    ensures Safe(c, root, st.(pending := []))
  {
    hide Sound, Accounted;
    assert forall m :: m in st.members ==> m in st.(pending := []).members;
    SameAccounted(c, st, st.(pending := []));
  }

  lemma {:induction false} RunJoined(c: Config, o: Oracle, st: Tracked, a: seq<Op>, b: seq<Op>)
    requires o.Lists()
    ensures Run(c, o, st, a + b) == Run(c, o, Run(c, o, st, a), b)
    decreases |a|
  {
    hide Apply;
    if a == [] {
      assert a + b == b;
    } else {
      assert (a + b)[1..] == a[1..] + b;
      RunJoined(c, o, Apply(c, o, st, a[0]), a[1..], b);
    }
  }

  lemma RunOneMore(c: Config, o: Oracle, st: Tracked, ops: seq<Op>, op: Op)
    requires o.Lists()
    ensures Run(c, o, st, ops + [op]) == Apply(c, o, Run(c, o, st, ops), op)
  {
    hide Apply;
    RunJoined(c, o, st, ops, [op]);
    assert [op][1..] == [];
    var r := Run(c, o, st, ops);
    assert Run(c, o, r, [op]) == Run(c, o, Apply(c, o, r, op), []);
  }

  /** Calls keep a tracker safe, however many. */
  lemma {:induction false} RunKeepsSafe(c: Config, o: Oracle, st: Tracked, ops: seq<Op>, root: Identity)
    requires o.Lists() && Safe(c, root, st)
    ensures Safe(c, root, Run(c, o, st, ops))
    decreases |ops|
  {
    hide Apply, Safe;
    if ops != [] {
      ApplySafe(c, o, st, ops[0], root);
      RunKeepsSafe(c, o, Apply(c, o, st, ops[0]), ops[1..], root);
    }
  }

  /** Every run from the start of tracking is safe. */
  lemma RunSafe(c: Config, o: Oracle, root: Identity, ops: seq<Op>)
    requires o.Lists() && c.groupLimit >= 1
    ensures Safe(c, root, Run(c, o, Started(c, root), ops))
  {
    hide Safe, Started, Apply;
    StartSafe(c, root);
    RunKeepsSafe(c, o, Started(c, root), ops, root);
  }

  /** Over every run of calls and every oracle: each signal follows a read that
      authorizes it, and certainty is lost exactly by a failing event. */
  lemma SignalsAuthorized(c: Config, o: Oracle, root: Identity, ops: seq<Op>)
    requires o.Lists() && c.groupLimit >= 1
    ensures var l := Run(c, o, Started(c, root), ops).ledger;
            Authorized(l.trace) && (l.uncertain <==> Failed(c, l.trace))
  {
    hide Run, Started, Ordered, Accounted, Inventoried, Authorized, Failed;
    RunSafe(c, o, root, ops);
  }

  /** Each group still retained has on record exactly the signals the log holds for it
      since it was enrolled, in the order of the log; they went in turn and on time; and
      no stage without a grace is ever timed. */
  lemma StagesInOrder(c: Config, o: Oracle, root: Identity, ops: seq<Op>)
    requires o.Lists() && c.groupLimit >= 1
    ensures var st := Run(c, o, Started(c, root), ops);
            st.cleanup.Some? ==>
              && (forall g :: g in st.groups ==>
                    g in st.history
                    && OnSchedule(st.cleanup.value, g, st.groups[g], st.history[g], st.ledger)
                    && g in st.births
                    && SentFrom(c, st.ledger.trace, g, st.births[g]) == Places(st.history[g]))
              && (forall m :: m in st.members ==> Usable(st.cleanup.value, st.members[m]))
  {
    hide Run, Started, Sound, Inventoried, OnSchedule, Usable, SentFrom;
    RunSafe(c, o, root, ops);
  }

  /** The signals themselves: of any two group signals of a group still retained, both
      since it was enrolled, the later is never of an earlier stage; and a KILL, while
      the tracker is certain, has a TERM and its whole grace before it. */
  lemma SignalsInOrder(c: Config, o: Oracle, root: Identity, ops: seq<Op>, g: Identity, j: nat, k: nat)
    requires o.Lists() && c.groupLimit >= 1
    requires var st := Run(c, o, Started(c, root), ops);
             && st.cleanup.Some? && g in st.groups && g in st.births
             && st.births[g] <= j <= k < |st.ledger.trace|
             && Signalled(c, st.ledger.trace[j], g) && Signalled(c, st.ledger.trace[k], g)
    ensures var st := Run(c, o, Started(c, root), ops);
            && SignalRank(st.ledger.trace[j].signal) <= SignalRank(st.ledger.trace[k].signal)
            && (st.ledger.trace[k].signal == SIGKILL && !st.ledger.uncertain ==>
                  exists i, n :: st.births[g] <= i < n <= k && TermThenKill(c, st, g, i, n))
  {
    hide Run, Started, Sound, Inventoried, Ordered, Accounted, TermThenKill;
    RunSafe(c, o, root, ops);
    var st := Run(c, o, Started(c, root), ops);
    SignalsEscalate(c, st, g, j, k);
    if st.ledger.trace[k].signal == SIGKILL && !st.ledger.uncertain {
      KillWaited(c, st, g, k);
    }
  }

  /** The inventory keeps to its limit, every retained group is named by its leader, and
      no two of them share a group id. The child makes itself a session leader before it
      becomes the program, so the root identity read after that leads its group. */
  lemma InventoryBounded(c: Config, o: Oracle, root: Identity, ops: seq<Op>)
    requires o.Lists() && c.groupLimit >= 1
    ensures var st := Run(c, o, Started(c, root), ops);
            && |st.groups| <= c.groupLimit && Distinct(st.groups.Keys, root)
            && (root.Leads() ==> OneEach(st.groups.Keys))
  {
    hide Run, Started, Sound, Ordered, Accounted, Distinct, OneEach;
    RunSafe(c, o, root, ops);
    if root.Leads() {
      RootLeads(Run(c, o, Started(c, root), ops).groups.Keys, root);
    }
  }
}
