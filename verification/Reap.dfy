/** Over every run: which processes are reaped, and what their reaping rests on. */
module Reapings {
  import opened Process
  import opened Tracking
  import opened Scans
  import opened Accounts
  import Coverage
  import Passes

  /** At `k` the process was read as `r`, and up to `upTo` it has not been reaped. */
  ghost predicate ReadAt(trace: seq<Event>, k: nat, upTo: nat, pid: nat, r: Record) {
    && k < upTo <= |trace| && trace[k] == Event.Read(pid, Ok(Some(r)))
    && forall j :: k < j < upTo ==> trace[j] != Reaped(pid, true)
  }

  /** A record is of the root as tracking began, or was read of a process not reaped since. */
  ghost predicate Shown(c: Config, root: Identity, trace: seq<Event>, pid: nat, r: Record) {
    r == Record(root, c.shim.pid, false) || exists k: nat :: ReadAt(trace, k, |trace|, pid, r)
  }

  ghost predicate AllShown(c: Config, root: Identity, trace: seq<Event>, processes: map<nat, Record>) {
    Coverage.Keyed(processes) && forall p :: p in processes ==> Shown(c, root, trace, p, processes[p])
  }

  /** The process reaped at `k` is not the root, and was read before as an exited child of the
      shim; no other call has reaped it since. */
  ghost predicate Rightly(c: Config, trace: seq<Event>, k: nat)
    requires k < |trace| && trace[k].Reaped?
  {
    && c.adopt && trace[k].pid != c.rootPid
    && exists j: nat, r: Record :: ReadAt(trace, j, k, trace[k].pid, r) && r.exited && r.ppid == c.shim.pid
  }

  ghost predicate AllRightly(c: Config, trace: seq<Event>) {
    forall k :: 0 <= k < |trace| && trace[k].Reaped? ==> Rightly(c, trace, k)
  }

  // --------------------------------------------------- what neither reads nor reaps

  /** The log grew, but nothing was read for the inventory and nothing was reaped. */
  ghost predicate Untouched(before: seq<Event>, after: seq<Event>) {
    before <= after && forall k :: |before| <= k < |after| ==> !after[k].Reaped? && !after[k].Read?
  }

  lemma UntouchedOn(a: seq<Event>, b: seq<Event>, d: seq<Event>)
    requires Untouched(a, b) && Untouched(b, d)
    ensures Untouched(a, d)
  {
    forall k | |a| <= k < |d| ensures !d[k].Reaped? && !d[k].Read? {
      assert k < |b| ==> d[k] == b[k];
    }
  }

  lemma SendUntouched(c: Config, o: Oracle, l: Ledger, expected: Identity, group: bool, signal: nat)
    ensures Untouched(l.trace, SendChecked(c, o, l, expected, group, signal).0.trace)
  {
  }

  lemma AdvanceUntouched(c: Config, o: Oracle, st: Tracked, now: nat)
    requires o.Lists() && Coverage.Keyed(st.processes)
    ensures Untouched(st.ledger.trace, Advance(c, o, st, now).0.ledger.trace)
  {
    if st.cleanup.Some? {
      Passes.PassTold(c, o, st, now);
      hide Advance;
      var before, after := st.ledger.trace, Advance(c, o, st, now).0.ledger.trace;
      forall k | |before| <= k < |after| ensures !after[k].Reaped? && !after[k].Read? {
        assert after[k] == after[|before|..][k - |before|];
        assert Passes.PassEvent(c, st.cleanup.value, st, now, after[|before|..], k - |before|);
      }
    }
  }

  lemma {:induction false} KillAllUntouched(c: Config, o: Oracle, l: Ledger, live: seq<Identity>)
    ensures Untouched(l.trace, KillAll(c, o, l, live).trace)
    decreases |live|
  {
    hide SendChecked;
    if live != [] {
      SendUntouched(c, o, l, live[0], false, SIGKILL);
      var l1 := SendChecked(c, o, l, live[0], false, SIGKILL).0;
      KillAllUntouched(c, o, l1, live[1..]);
      UntouchedOn(l.trace, l1.trace, KillAll(c, o, l1, live[1..]).trace);
    }
  }

  /** A longer log without reads and reapings shows the same. */
  lemma UntouchedShows(c: Config, root: Identity, before: seq<Event>, after: seq<Event>, processes: map<nat, Record>)
    requires Untouched(before, after) && AllShown(c, root, before, processes) && AllRightly(c, before)
    ensures AllShown(c, root, after, processes) && AllRightly(c, after)
  {
    forall p | p in processes ensures Shown(c, root, after, p, processes[p]) {
      StillShown(c, root, before, after, p, processes[p]);
    }
    forall k | 0 <= k < |after| && after[k].Reaped? ensures Rightly(c, after, k) {
      assert k < |before|;
      assert after[k] == before[k];
      StillRightly(c, before, after, k);
    }
  }

  lemma StillRightly(c: Config, before: seq<Event>, after: seq<Event>, k: nat)
    requires before <= after && k < |before| && before[k].Reaped? && Rightly(c, before, k)
    ensures Rightly(c, after, k)
  {
    var j: nat, r: Record :| ReadAt(before, j, k, before[k].pid, r) && r.exited && r.ppid == c.shim.pid;
    assert ReadAt(after, j, k, after[k].pid, r);
  }

  lemma StillShown(c: Config, root: Identity, before: seq<Event>, after: seq<Event>, p: nat, r: Record)
    requires before <= after && Shown(c, root, before, p, r)
    requires forall j :: |before| <= j < |after| ==> after[j] != Reaped(p, true)
    ensures Shown(c, root, after, p, r)
  {
    if exists k: nat :: ReadAt(before, k, |before|, p, r) {
      var k: nat :| ReadAt(before, k, |before|, p, r);
      assert ReadAt(after, k, |after|, p, r) by {
        assert after[k] == before[k];
        forall j | k < j < |after| ensures after[j] != Reaped(p, true) {
          if j < |before| {
            assert after[j] == before[j];
          }
        }
      }
    }
  }

  // --------------------------------------------------------------------- a scan

  /** A record of this scan, read before the process is reaped at `k`, if it ever is. */
  lemma RecordShown(c: Config, root: Identity, base: seq<Event>, all: seq<Event>, before: map<nat, Record>, pid: nat,
                    r: Record, k: nat)
    requires base <= all && |base| <= k <= |all| && AllShown(c, root, base, before)
    requires var news := all[|base|..]; RecordOf(before, news, pid, r)
    requires k < |all| ==> ReadFirst(all[|base|..]) && all[k].Reaped?
    requires forall j :: |base| <= j < k ==> all[j] != Reaped(pid, true)
    ensures r == Record(root, c.shim.pid, false) || exists j: nat :: ReadAt(all, j, k, pid, r)
  {
    var news, e := all[|base|..], Event.Read(pid, Ok(Some(r)));
    if Seen(news, r) {
      var n :| 0 <= n < |news| && news[n] == e;
      assert all[|base| + n] == e;
      if k < |all| {
        assert news[k - |base|] == all[k];
        assert n < k - |base|;
      }
      assert ReadAt(all, |base| + n, k, pid, r);
    } else {
      var part := all[..k];
      assert Shown(c, root, base, pid, r);
      StillShown(c, root, base, part, pid, r);
      if j: nat :| ReadAt(part, j, |part|, pid, r) {
        assert ReadAt(all, j, k, pid, r);
      }
    }
  }

  lemma ScanReaps(c: Config, o: Oracle, root: Identity, st: Tracked)
    requires o.Lists() && AllShown(c, root, st.ledger.trace, st.processes) && AllRightly(c, st.ledger.trace)
    ensures var r := Scan(c, o, st); AllShown(c, root, r.ledger.trace, r.processes) && AllRightly(c, r.ledger.trace)
  {
    hide Scan, Missed, Refuses, RecordOf, Shown, Rightly, RootListed, Counted, GroupsKept, GroupsJoin, MembersKept;
    ScanTold(c, o, st);
    var r := Scan(c, o, st);
    var base, all := st.ledger.trace, r.ledger.trace;
    var news := all[|base|..];
    forall p | p in r.processes ensures Shown(c, root, all, p, r.processes[p]) {
      KeptShown(c, root, base, all, st.processes, r.processes, p);
    }
    forall k | 0 <= k < |all| && all[k].Reaped? ensures Rightly(c, all, k) {
      if k < |base| {
        assert all[k] == base[k];
        StillRightly(c, base, all, k);
      } else {
        ReapedShown(c, root, base, all, st.processes, r.processes, k);
      }
    }
  }

  lemma KeptShown(c: Config, root: Identity, base: seq<Event>, all: seq<Event>, before: map<nat, Record>,
                  after: map<nat, Record>, p: nat)
    requires base <= all && AllShown(c, root, base, before) && p in after
    requires RecordOf(before, all[|base|..], p, after[p]) && Reaps(c, before, all[|base|..], after)
    ensures Shown(c, root, all, p, after[p])
  {
    hide ReapedOnce, ReadFirst, ShownExited, RecordOf, AllShown;
    var news := all[|base|..];
    forall j | |base| <= j < |all| ensures all[j] != Reaped(p, true) {
      assert all[j] == news[j - |base|];
    }
    RecordShown(c, root, base, all, before, p, after[p], |all|);
  }

  lemma ReapedShown(c: Config, root: Identity, base: seq<Event>, all: seq<Event>, before: map<nat, Record>,
                    after: map<nat, Record>, k: nat)
    requires base <= all && AllShown(c, root, base, before) && |base| <= k < |all| && all[k].Reaped?
    requires Reaps(c, before, all[|base|..], after)
    ensures Rightly(c, all, k)
  {
    hide ReadFirst, RecordOf, AllShown, Missed, Refuses;
    var news, pid := all[|base|..], all[k].pid;
    assert news[k - |base|] == all[k] && all[k] in news;
    assert ShownExited(c, before, news, pid);
    var r: Record :| RecordOf(before, news, pid, r) && r.exited && r.ppid == c.shim.pid;
    forall j | |base| <= j < k ensures all[j] != Reaped(pid, true) {
      assert all[j] == news[j - |base|];
    }
    RecordShown(c, root, base, all, before, pid, r, k);
    var j: nat :| ReadAt(all, j, k, pid, r);
  }

  // ------------------------------------------------------------------ whole runs

  lemma ShownKeyed(c: Config, root: Identity, st: Tracked)
    requires AllShown(c, root, st.ledger.trace, st.processes)
    ensures Coverage.Keyed(st.processes)
  {
  }

  lemma CallReaps(c: Config, o: Oracle, root: Identity, st: Tracked, op: Op)
    requires o.Lists() && AllShown(c, root, st.ledger.trace, st.processes) && AllRightly(c, st.ledger.trace)
    ensures var r := Apply(c, o, st, op); AllShown(c, root, r.ledger.trace, r.processes) && AllRightly(c, r.ledger.trace)
  {
    hide Scan, KillAll, Live, Advance, AllShown, AllRightly;
    match op
    case DoScan => ScanReaps(c, o, root, st);
    case DoAdvance(now) =>
      ShownKeyed(c, root, st);
      AdvanceUntouched(c, o, st, now);
      Coverage.AdvanceKeepsInventory(c, o, st, now);
      UntouchedShows(c, root, st.ledger.trace, Advance(c, o, st, now).0.ledger.trace, st.processes);
    case DoFinish =>
      ScanReaps(c, o, root, st);
      var scanned := Scan(c, o, st);
      var refused := scanned.ledger.Refuse(LateLive);
      KillAllUntouched(c, o, refused, Live(o, scanned));
      UntouchedOn(scanned.ledger.trace, refused.trace, KillAll(c, o, refused, Live(o, scanned)).trace);
      UntouchedShows(c, root, scanned.ledger.trace, FinishScan(c, o, st).0.ledger.trace, scanned.processes);
    case DoFail => UntouchedShows(c, root, st.ledger.trace, st.ledger.trace + [Refused(External)], st.processes);
    case _ =>
  }

  lemma {:induction false} RunReaps(c: Config, o: Oracle, root: Identity, st: Tracked, ops: seq<Op>)
    requires o.Lists() && AllShown(c, root, st.ledger.trace, st.processes) && AllRightly(c, st.ledger.trace)
    ensures var r := Run(c, o, st, ops); AllShown(c, root, r.ledger.trace, r.processes) && AllRightly(c, r.ledger.trace)
    decreases |ops|
  {
    hide Apply, AllShown, AllRightly;
    if ops != [] {
      CallReaps(c, o, root, st, ops[0]);
      RunReaps(c, o, root, Apply(c, o, st, ops[0]), ops[1..]);
    }
  }

  /** Over every run and every oracle: what is reaped is never the root, only where orphans
      are adopted, and was read as an exited child of the shim since it was last reaped. */
  lemma ReapedRightly(c: Config, o: Oracle, root: Identity, ops: seq<Op>, k: nat)
    requires o.Lists() && k < |Run(c, o, Started(c, root), ops).ledger.trace|
    requires Run(c, o, Started(c, root), ops).ledger.trace[k].Reaped?
    ensures var trace := Run(c, o, Started(c, root), ops).ledger.trace;
            && c.adopt && trace[k].pid != c.rootPid
            && exists j: nat, r: Record ::
                 && j < k && trace[j] == Event.Read(trace[k].pid, Ok(Some(r))) && r.exited && r.ppid == c.shim.pid
                 && forall i :: j < i < k ==> trace[i] != Reaped(trace[k].pid, true)
  {
    hide Run, Apply;
    var trace := Run(c, o, Started(c, root), ops).ledger.trace;
    assert AllShown(c, root, [], Started(c, root).processes);
    RunReaps(c, o, root, Started(c, root), ops);
    assert Rightly(c, trace, k);
    var j: nat, r: Record :| ReadAt(trace, j, k, trace[k].pid, r) && r.exited && r.ppid == c.shim.pid;
    assert trace[j] == Event.Read(trace[k].pid, Ok(Some(r)));
  }
}
