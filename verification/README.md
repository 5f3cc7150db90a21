# Forcola: a verified model

Forcola runs operating-system processes for Elixir. A small native shim supervises each
process tree; the Elixir side drives it over a framed pipe under credit flow control.
This project models the parts of both sides that hold state over time, and proves what
they promise, in Dafny 4.11.

| files | what they model |
|---|---|
| `Process`, `Bytes` | process identities, answers of the system, big-endian fields |
| `Tracking`, `Tracker` | the descendant tracker, as functions on its state and as the class that updates it in place |
| `Safety`, `Escalation`, `Signals`, `Bound`, `Alone`, `Coverage`, `Members`, `Setback`, `Frozen`, `Apart`, `Limits`, `Runs` | what holds of the tracker over whole runs |
| `Scan`, `Account`, `Reap`, `Pass`, `Verdict` | what each scan, each pass and each verdict of the tracker comes to, told from its own events |
| `Shutdown`, `Loop`, `Supervisor` | the two supervision loops, their bounded waits and their time budget; the calls the tracked one makes of the tracker, turn by turn |
| `Output`, `Drain`, `Pump`, `PumpRun`, `Joint` | output pumps, drain and EXIT as interleaved steps; the pump loops themselves; both as runs of credit flow control, the first also beside its consumer |
| `Credit`, `Channel` | the shared read budget, and credit flow control between both ends |
| `Lines`, `Stream` | line splitting as output arrives, and its limits |
| `Pull`, `Answer`, `Input` | pull delivery and the input line of a duplex session |
| `Run` | bounded capture of one run |
| `Frame` | the frame codec, its reader and its writer |
| `Groups` | checking and stopping recorded process groups |

## How the outside is modelled

- The operating system is an oracle: a record of total functions whose first argument
  counts the calls made so far. Every behaviour of the system during one run, however
  inconsistent, is such a record, so "for every oracle" means "whatever the system
  answers". A clock is one more such function, clamped to the reading before it.
- A log of calls stands beside the state. The tracker's log also holds notes (`Scanned`,
  `Refused`) of decisions that are not calls; a note advances the call number like a
  call, which loses nothing, as the oracle is arbitrary. A `signal` of 0 is the read alone.
- Iteration order over hash maps comes from the oracle too, constrained to list every
  key once (`Oracle.Lists`).
- Start times are numbers, compared only for equality. Sizes and times are natural
  numbers; where the source's width can matter it is written out: the saturating 64-bit
  budget, the 64-bit grant field, the 32-bit frame length that wraps.
- The child makes itself a session leader before it becomes the program, and a session
  leader keeps its group, so the root identity leads its group (`root.Leads()`).
- A group signal is denied only when no process of the group could be signalled. On
  macOS the code takes that as no failure, and here it counts as no signal
  (`Signals.Signalled`).
- Threads are interleaved steps. Each frame write is one step, as it holds the lock.
- Where a time bound is proved, calls are instant and sleeps exact (`Ideal`), the
  tracker's own clock readings do not run ahead of the time of its pass, and the end of
  the child is heard as soon as it happens; no other result assumes this.

## Where the code and its documentation differ

The code is followed.

- `groups.rs` says that a group whose leader identity no longer matches is never
  signalled. The fallback for a leader that fails its second read signals the current
  members of that group id, each after its own read: `Groups.SignalledWithoutLeader` is a
  log in which it does, `Groups.FallbackExact` says exactly when. The property holds of
  the group-wide signal (`Groups.MayKill`).
- A KILL that a tracked strict run hears after its child has ended does not discard
  output there (`Supervision.Hear`), though the drain that follows can still be
  cancelled by another.
- "Order of stages" holds per retained group. The stage stored for one member can go
  back, when its group could not be signalled before or its leader is first found by a
  later scan: `Setback.StageGoesBack` is a run in which it does, after one failed read and
  one failed listing, and `Members.GoesBackExactly` says exactly when, of the schedules
  before the pass.
- On macOS a group signal refused for want of permission is no failure; its members are
  tried one by one.
- A frame over the length cap is written without complaint and refused by the reader;
  over 32 bits its length field wraps (`Frames.ParseEncoded` gives the exact condition).

## Model

| member | source | states |
|---|---|---|
| Trackers.Tracker.constructor | native/forcola_shim/src/tracking.rs:186-218 | tracking starts from the root identity alone, and the run invariant holds from there |
| Trackers.Tracker.Traverse | native/forcola_shim/src/tracking.rs:343-427 | the in-place worklist walks exactly as its specification does for any oracle, and ends |
| Trackers.Tracker.ScanRoot | native/forcola_shim/src/tracking.rs:283-338 | the exited root's group: members named by the inventory that still read back in it, or the group left unresolved |
| Trackers.Tracker.ReapZombies | native/forcola_shim/src/tracking.rs:428-446 | where orphans are adopted, each exited child of the shim but the root is reaped, once, and no one else; one that is reaped is dropped, one that is not stays and costs certainty |
| Trackers.Tracker.RecordLeaders | native/forcola_shim/src/tracking.rs:463-473 | leaders found join the inventory and the list of new groups, up to the group limit |
| Trackers.Tracker.Scan | native/forcola_shim/src/tracking.rs:343-487 | one whole scan: all that `Accounts.ScanTold` tells of it, on the fields themselves; a safe tracker stays safe, with no replaced leader retained and every tracked leader known or certainty lost |
| Trackers.Tracker.SendSignal | native/forcola_shim/src/tracking.rs:491-534 | a checked signal: the read, what it allows, the target and the result |
| Trackers.Tracker.StepGroup | native/forcola_shim/src/tracking.rs:617-641 | one group of a pass: its schedule, the checked signal, the members that share its stage |
| Trackers.Tracker.StepMember | native/forcola_shim/src/tracking.rs:642-656 | one process outside every verified group, on its own schedule |
| Trackers.Tracker.Advance | native/forcola_shim/src/tracking.rs:596-671 | one pass: all that `Passes.PassTold` tells of it, on the fields themselves; before the deadline it is done if and only if it and the pass before were quiet; a safe tracker stays safe and every live process ends it scheduled, seen gone, or with certainty lost |
| Trackers.Tracker.BeginCleanup | native/forcola_shim/src/tracking.rs:260-269 | cleanup begins once; its deadline is then fixed at both graces and 500 ms from now; begun already, nothing moves; a safe tracker stays safe |
| Trackers.Tracker.FinishScan | native/forcola_shim/src/tracking.rs:241-258 | complete if and only if certain with a complete last scan, which in a safe tracker is that nothing in the whole log failed and the last scan missed nothing; and then no process is left alive |
| Trackers.Tracker.TakeNewGroups | native/forcola_shim/src/tracking.rs:229-231 | hands over the new groups and touches nothing else |
| Trackers.Tracker.Fail | native/forcola_shim/src/tracking.rs:226-228 | a failure from outside costs certainty |
| Accounts.ScanTold | native/forcola_shim/src/tracking.rs:343-487 | whatever the system answers, by the scan's own events: incomplete if and only if it missed something; each record kept was read in it, unless it missed or gave up; a process is dropped only when read as gone or replaced, or reaped, and taken up only as a child its verified parent's listing named or a member of the exited root's group; groups and schedules stay exactly while their leader or a member does; each leader joins, and waits once to be handed over |
| Reapings.ReapedRightly | native/forcola_shim/src/tracking.rs:428-446 | over every run: what is reaped is never the root, only where orphans are adopted, and was read as an exited child of the shim with no reaping since |
| Passes.PassTold | native/forcola_shim/src/tracking.rs:596-671 | every pass, by its own events: each group someone alive is in is checked and, if its leader is there, sent what it is due by the clock just read, and its members follow its schedule; each other live process is served so by itself and keeps its own; no one else is signalled, no one twice; a stage cut short or unfinished business is noted only past the deadline and if there is some |
| Verdicts.DoneExactly | native/forcola_shim/src/tracking.rs:657-671 | over every run: before the deadline a pass is done if and only if it and the last one before it both met nothing alive after complete scans; from the deadline on always, at the cost of certainty if anything is left; confirmed if and only if done, nothing alive and certain |
| Verdicts.FinishExactly | native/forcola_shim/src/tracking.rs:241-258 | the last scan is complete if and only if nothing in the whole log failed and it missed nothing; it costs certainty if and only if something is alive |
| Runs.RunSafe | native/forcola_shim/src/tracking.rs:157-671 | for every oracle and every sequence of calls: signals authorized, those of each retained group all on record, in order and on time, certainty lost exactly by a failing event, inventory in order |
| Runs.SignalsAuthorized | native/forcola_shim/src/tracking.rs:491-534 | every signal in a run directly follows a read that authorizes it: the whole leader identity for a group, the same live process for a pid in 1..=i32::MAX; no signal 0; uncertainty if and only if some event of the log fails |
| Safety.SendSound | native/forcola_shim/src/tracking.rs:491-534 | a checked signal adds only authorized events and loses certainty exactly when one fails |
| Safety.ScanSound | native/forcola_shim/src/tracking.rs:343-487 | a scan keeps the log authorized, and its count of incomplete scans is the log's |
| Safety.AdvanceSound | native/forcola_shim/src/tracking.rs:596-671 | a pass does too |
| Safety.FinishSound | native/forcola_shim/src/tracking.rs:241-258 | and so does the last scan with its kills |
| Runs.StagesInOrder | native/forcola_shim/src/tracking.rs:536-591 | while a group is retained, the group signals the log holds for it since it was enrolled are exactly its recorded ones, in the order of the log: INT (if configured), TERM, KILL, each a full grace after the one before returned, or a KILL past the deadline that leaves the tracker uncertain |
| Runs.SignalsInOrder | native/forcola_shim/src/tracking.rs:536-641 | so of any two logged signals of a retained group the later is of no earlier stage, and while the tracker is certain a logged KILL has a logged TERM before it, with the whole TERM grace between the clock reading after the one and that before the other |
| Signals.SignalIsMark | native/forcola_shim/src/tracking.rs:617-641 | each group signal in the log since a group was enrolled is one of its record |
| Signals.MarksAscend | native/forcola_shim/src/tracking.rs:617-641 | and the record is in the order of the log |
| Signals.SignalsEscalate | native/forcola_shim/src/tracking.rs:536-578 | in any state with an exact and ordered record, logged group signals only escalate |
| Signals.KillWaited | native/forcola_shim/src/tracking.rs:536-591 | and a logged KILL has waited for its TERM |
| Escalation.NeverBackward | native/forcola_shim/src/tracking.rs:536-578 | recorded stages of a group never go back |
| Escalation.CertainKillWaited | native/forcola_shim/src/tracking.rs:536-591 | while the tracker is certain a KILL has a TERM, and a TERM a configured INT, behind it with the whole grace between |
| Bound.DeadlineHolds | native/forcola_shim/src/tracking.rs:260-269 | over any calls the deadline and graces never move, and a pass at or after the deadline reports that it is done |
| Bound.KillBeforeDeadline | native/forcola_shim/src/tracking.rs:596-671 | during a cleanup in which a group is on time, any calls whose passes are at most 50 ms apart until the deadline send it a KILL that stands in the log, decided before the deadline, in its turn |
| Bound.CleanupReachesKill | native/forcola_shim/src/tracking.rs:260-671 | the same from any reachable state in which cleanup begins, whatever other signals come to |
| Alone.ProcessReachesKill | native/forcola_shim/src/tracking.rs:596-656 | a process that stays alive and that no group takes along gets signals of its own: in the log its KILL before the deadline, a TERM before that and an INT where one is asked for, each with its whole grace |
| Coverage.ScanTidies | native/forcola_shim/src/tracking.rs:447-478 | after every scan: none of the recorded groups names a replaced leader, every tracked leader is recorded or certainty is lost, the group limit holds, and as the root leads its group no two groups share a pgid |
| Runs.InventoryBounded | native/forcola_shim/src/tracking.rs:463-473 | over every run the group limit holds, and as the root leads its group every retained group is named by its leader and no two share a pgid |
| Members.GoesBackExactly | native/forcola_shim/src/tracking.rs:617-656 | the stage stored for one process goes back in a pass if and only if it is alive and, at its turn in the log, the group of its id is let through with a schedule that then calls for an earlier stage: all of it said of the state, the clock and the system before the pass; it then has that stage |
| Members.RunGoesBackExactly | native/forcola_shim/src/tracking.rs:617-656 | the same condition in every reachable state |
| Members.GoesBackSchedules | native/forcola_shim/src/tracking.rs:617-641 | where the group is always let through, comparing the two schedules before the pass decides |
| Members.TurnLogged | native/forcola_shim/src/tracking.rs:617-641 | the turn named there is where the log of the pass holds the clock reading and the check of the group's leader |
| Setback.StageGoesBack | native/forcola_shim/src/tracking.rs:536-656 | a run from the start of tracking with positive graces and a certain tracker: a child interrupted and terminated by itself is set back to INT once a later scan finds its group's leader |
| Coverage.AdvanceCovers | native/forcola_shim/src/tracking.rs:596-656 | after every pass of cleanup each live process has a schedule, was itself read as gone, replaced or exited, or certainty is lost |
| Coverage.FinishServes | native/forcola_shim/src/tracking.rs:241-258 | the last scan re-reads every process it finds alive and sends KILL to each that still reads back |
| Frozen.ScanExact | native/forcola_shim/src/tracking.rs:343-487 | on an unchanging table that fits the process limit, a scan never trips its attempt cap, misses nothing, leaves no group unresolved, and leaves exactly what per the table descends from the roots, with the members of the exited root's group, less the exited children of the shim other than the root, where it adopts them |
| Frozen.WalkExact | native/forcola_shim/src/tracking.rs:343-427 | an empty queue means that everything reachable has been expanded and nothing else is recorded |
| Apart.ShimUntracked | native/forcola_shim/src/tracking.rs:297-338 | the shim never comes to track itself, over any calls in which no read shows it in the root's own group |
| Apart.RunScanExact | native/forcola_shim/src/tracking.rs:343-487 | so in every such run a scan on a table that no longer changes is exact |
| Limits.StepMeasure | native/forcola_shim/src/tracking.rs:356-363 | every step of a scan uses up an attempt or a queue entry, for an arbitrary oracle: the scan ends |
| Limits.ScanLists | native/forcola_shim/src/tracking.rs:353-363 | the walk of a scan lists the children of no more than twice the process limit and one, for an arbitrary oracle |
| Limits.ScanBounded | native/forcola_shim/src/tracking.rs:417-421 | the process limit holds after a scan in which no process read as gone or replaced reads back |
| Limits.RunBounded | native/forcola_shim/src/tracking.rs:417-421 | and over every run of such scans |
| Shutdown.WaitUntil | native/forcola_shim/src/supervisor.rs:1762-1779 | polls at least once; the result is the last answer; failure means the whole time passed; exact sleeps never overshoot |
| Shutdown.KillGroup | native/forcola_shim/src/supervisor.rs:1707-1742 | signals climb INT, TERM, KILL with none skipped and each grace whole; the result is the last look at the group; giving up comes after KILL and its window; last of all the cgroup, if any, is killed |
| Shutdown.FinishCgroup | native/forcola_shim/src/supervisor.rs:1584-1605 | the cgroup is killed before it is awaited, and removed exactly when seen empty, within its bound |
| Shutdown.ReapRoot | native/forcola_shim/src/supervisor.rs:1750-1757 | the root is reaped or given up after the whole grace |
| Shutdown.DrainPumps | native/forcola_shim/src/supervisor.rs:1609-1621 | succeeds exactly when every pump reported within the drain time, and fails only when that time has passed with nothing but reports, or all senders are seen gone |
| Shutdown.DrainStrict | native/forcola_shim/src/supervisor.rs:1627-1693 | the drain at the pace of the consumer: complete when every pump reported with nothing to end it; silent when the peer is seen gone or closes; after a KILL the ordinary drain decides; after a calm round given up only when all senders are seen gone; every other round waits for a report |
| Shutdown.Loop | native/forcola_shim/src/supervisor.rs:1418-1500 | the untracked loop: it takes the events up to the end of the child, and the kill follows at once in the log on the first that calls for one (a KILL, a timeout, a lost peer, the end of the child) and on nothing else; what was heard decides every flag |
| Shutdown.Supervise | native/forcola_shim/src/supervisor.rs:1370-1575 | an untracked run: at most one kill sequence; the cgroup killed; no report exactly when the peer closed or is lost in the drain; truncated exactly when a pump never reported, a strict drain was ended early or a strict run was cancelled; a pump is given up only after the whole drain time or with all senders gone; confirmed exactly when group and cgroup were last seen gone; a cancelled run within the cleanup time with 3.5 s to spare |
| Supervision.Begin | native/forcola_shim/src/supervisor.rs:1193-1197 | cleanup begun again does not move its deadline |
| Supervision.Pass | native/forcola_shim/src/supervisor.rs:1220-1233 | one pass of the tracker, and the verdict: to leave when it is done and the child has ended or the deadline passed |
| Supervision.Announce | native/forcola_shim/src/supervisor.rs:1196-1210 | new groups are reported until the queue is lost, which costs certainty and changes nothing else; a full queue truncates the history |
| Supervision.Survey | native/forcola_shim/src/supervisor.rs:1197-1212 | one scan, the groups new in it handed over and reported, exactly these calls |
| Supervision.Sample | native/forcola_shim/src/supervisor.rs:1187-1233 | one sample is exactly its calls: cleanup begun for a lost peer, the scan, the groups handed over, the failure if the queue broke, cleanup begun for lost certainty, and in cleanup one pass at the time after the scan, whose verdict decides; flags exact |
| Supervision.Hear | native/forcola_shim/src/supervisor.rs:1234-1282 | one event, exactly: what each sets, begins, asks of the tracker and makes due at once; a KILL or timeout after the end of the child discards nothing; a failed wait costs certainty |
| Supervision.Watch | native/forcola_shim/src/supervisor.rs:1187-1284 | the tracker has been through exactly the calls of the turns: one scan per sample and in cleanup one pass; a turn without a sample begins within 50 ms of one that took one; what was brought decides every flag, the history included, exactly; the loop is left at the first verdict; and with instant calls passes are at most 50 ms apart, a loop that is left has seen its cleanup through, and none is later than one sample past its deadline |
| Loops.LoopReachesKill | native/forcola_shim/src/supervisor.rs:1187-1284 | a loop that sees a cleanup through sends a group with a live member, whose leader stays readable, its KILL before the deadline, in turn and after whole graces |
| Loops.LoopReachesProcess | native/forcola_shim/src/supervisor.rs:1187-1284 | and a process that stays alive and that no group takes along its own |
| Loops.LeavesExactly | native/forcola_shim/src/supervisor.rs:1220-1234 | after any calls: a pass ends the loop from the deadline on, and before it if and only if the child has ended and this pass and the last were quiet; what it confirms is that the child has ended with nothing alive and nothing uncertain |
| Supervision.Settle | native/forcola_shim/src/supervisor.rs:1285-1303 | last scan, reaping and cgroup: a root not seen to end is killed first, the cgroup before it is awaited; all well if and only if nothing in the whole log failed, the last scan was complete with no one alive, the root was reaped and the cgroup drained (`Supervision.Vouched`) |
| Supervision.Finish | native/forcola_shim/src/supervisor.rs:1285-1357 | the end of a tracked run once its loop is left: confirmed if and only if the tracker's verdict was and all is well as above; the history truncated if and only if it was or a last group found no room |
| Supervision.Supervise | native/forcola_shim/src/supervisor.rs:1145-1357 | a tracked run: silent exactly when the peer was lost; confirmed if and only if the tracker's verdict was, nothing in the whole log failed, the last scan was complete with no one alive, the root was reaped and the cgroup drained; truncated exactly when output was discarded, a strict drain ended early or a pump never reported within its time; the history truncated exactly when a group new in a sample or in the last scan found no room in the queue; a report within the cleanup time from whatever began cleanup, unless the consumer paces the drain |
| Outputs.RunKept | native/forcola_shim/src/supervisor.rs:891-942 | every interleaving of pumps, events, samples, drain and writers keeps the accounts of bytes, reports and frames |
| Outputs.CompleteMeansComplete | native/forcola_shim/src/supervisor.rs:1316-1360 | EXIT without output_truncated: every pipe was read to its end and every byte stands before EXIT in order under its own tag, tracked or not, strict or eager |
| Outputs.ReportsOnce | native/forcola_shim/src/supervisor.rs:1499-1575 | at most one EXIT in the whole log, none to a peer seen gone, and only bytes read from a pipe on the log, in order |
| Drains.DrainServes | native/forcola_shim/src/supervisor.rs:1316-1337 | in every run, tracked and untracked: once the loop drains, no pump that asks waits for credit; not discarded it may read a whole buffer uncharged, discarded it is told to stop; in a drain the consumer gates it waits exactly while it has no credit |
| Drains.DrainGoesOn | native/forcola_shim/src/supervisor.rs:1609-1693 | a loop past its events and not returned is never stuck: it may report, take a pump's report, or a pump may go on, or a gated one waits for credit |
| Drains.TruncatedExactly | native/forcola_shim/src/supervisor.rs:1316-1360 | a report says output_truncated if and only if a drain ended before every pump reported, a request came while something depended on it, or a sample was uncertain; none is made once the peer is lost; and a loop that returned has reported unless its peer was lost or a write failed |
| Drains.LeavesExactly | native/forcola_shim/src/supervisor.rs:1495-1562 | the loop is left exactly at the end of the child or of its queue, or when a sample says so; to end for a lost peer, to a drain the consumer gates if strict and nothing discarded, to a drain otherwise |
| Drains.SampleExactly | native/forcola_shim/src/supervisor.rs:1187-1234 | a tracked sample: the peer lost, a new group queued and output discarded exactly for their causes, and discarded output cancels both pumps at once |
| Drains.PumpsExactly | native/forcola_shim/src/supervisor.rs:891-942 | in every run a pump is at the end of its pipe, failed to read or failed to write exactly if it met that, has read just the bytes it was given, and has reported exactly if it did |
| Pumps.PumpEager | native/forcola_shim/src/supervisor.rs:891-905 | unless a write fails, the eager loop forwards in frames of one tag every byte before the end of its pipe or its first error, and reports an error if and only if the pipe has one |
| Pumps.PumpGated | native/forcola_shim/src/supervisor.rs:911-942 | the gated loop does too when it ends so, reading no more in all than was granted during its waits while it is never uncorked; it stops only when cancelled, stays parked only when its last wait brought nothing; all it does while not uncorked is a run of the moves of `Channels` on its pipe |
| Pumps.ForwardedReadsBack | native/forcola_shim/src/supervisor.rs:911-942 | what a pump wrote reads back as exactly its frames |
| PumpRuns.RunRefines | native/forcola_shim/src/supervisor.rs:911-942 | what any run of the supervision loop and both pumps does to one gated pump, while that is never uncorked, is a run of the moves of `Channels`: same budget, place, bytes read and bytes written |
| Joints.JointRefines | native/forcola_shim/src/supervisor.rs:911-942 | a gated pump in any run of the whole shim, beside a consumer whose grants and takings cross with it in any order, plays credit flow control with that consumer while it is never uncorked |
| Joints.WithinWindow | lib/forcola/stream.ex:580-586 | so in the whole shim it has read no more than was granted, and at most one window beyond what its consumer has received |
| Joints.NeverSaturates | native/forcola_shim/src/credit.rs:64-114 | none of the three clamps is reached there either |
| Joints.NeverStalls | native/forcola_shim/src/credit.rs:92-108 | and no credit is lost there: with some outstanding the pump reads, writes or may ask, or a frame is on its way; with none it waits |
| Credits.Credit.Grant | native/forcola_shim/src/credit.rs:61-66 | adds credit, saturating |
| Credits.Credit.Uncork | native/forcola_shim/src/credit.rs:71-76 | stops gating |
| Credits.Credit.Cancel | native/forcola_shim/src/credit.rs:78-83 | cancels the pump |
| Credits.Credit.AwaitPermit | native/forcola_shim/src/credit.rs:92-108 | wakes at the first act of the other handles that leaves something to do, never earlier or later; cancel before uncork before credit; the largest cap both credit and buffer allow; nothing deducted |
| Credits.Credit.Consume | native/forcola_shim/src/credit.rs:111-115 | deducts what was read, saturating |
| Credits.GrantRoundTrip | lib/forcola/shim.ex:588-591 | a grant survives the wire if and only if it fits 64 bits |
| Credits.ParsesIffEncoded | native/forcola_shim/src/credit.rs:121-124 | a payload parses if and only if it is the encoding of a 64-bit grant |
| Channels.RunBalances | native/forcola_shim/src/supervisor.rs:911-942 | over every interleaving: outstanding credit is exactly credit in flight, budget and unreceived data; bytes arrive once and in order; at most a window is out |
| Channels.MoveConserves | native/forcola_shim/src/credit.rs:61-116 | no step of the shim creates or destroys credit |
| Channels.WithinWindow | lib/forcola/stream.ex:580-586 | unreceived bytes never exceed one window, nor bytes read the credit granted |
| Channels.NeverSaturates | native/forcola_shim/src/credit.rs:64-114 | none of the three clamps of the protocol is ever reached |
| Channels.NeverStalls | native/forcola_shim/src/credit.rs:92-108 | credit is never lost: with some outstanding a step is possible or the child is being read; with none the pump cannot read |
| Channels.FundedOnce | lib/forcola/stream.ex:425-434 | a stderr funded once yields no more than that in the whole run |
| Pull.RunKept | lib/forcola/duplex.ex:657-686 | over every interleaving of calls, timeouts, output, the end and the shim's steps, the invariants of pull delivery hold |
| Pull.NeverStalls | lib/forcola/duplex.ex:1064-1105 | a waiting receiver means an empty queue and, per credited pipe, buffer + outstanding >= max_pending > max_line >= buffer; some step is possible unless the pump stopped or reads the child |
| Pull.StaysBounded | lib/forcola/duplex.ex:990-1023 | queued, unfinished and unreceived bytes of a pipe stay within max_pending + max_line, lines and the total within theirs |
| Pull.NothingLost | lib/forcola/duplex.ex:1006-1050 | delivered lines, queued lines and the unfinished rest are the bytes received, in order; every call has one answer of its own but the one that waits, and the lines among the answers are those delivered |
| Pull.FrameServes | lib/forcola/duplex.ex:1087-1105 | a waiting receiver gets the first line a frame completes, at once |
| Pull.EmitKept | lib/forcola/duplex.ex:990-1023 | a frame within the limits keeps every invariant |
| Pull.RecvKept | lib/forcola/duplex.ex:661-686 | so does a call, named by its number |
| Pull.EndedKept | lib/forcola/duplex.ex:949-961 | so does the end, which turns unfinished text into a last line |
| Answers.AnsweredRightly | lib/forcola/duplex.ex:661-709 | over every interleaving: a call is told of a timeout if and only if its own ran out, that the session is busy if and only if another waited when it came, and that all is finished only when it is; the session stops exactly then or at a frame over a limit |
| Answers.LaterInOrder | lib/forcola/duplex.ex:1006-1058 | lines of both pipes are handed out in the order they were queued |
| Answers.GrantsForCaller | lib/forcola/duplex.ex:1069-1085 | credit is granted to a call that must wait and to no one else, up to the window of each credited pipe |
| Answers.PtyUngranted | lib/forcola/duplex.ex:1073 | and never for the standard error of a terminal |
| Inputs.RunKept | lib/forcola/duplex.ex:631-655 | for every port and every sequence of calls, retries, expiries and the end, the invariants of the input line hold |
| Inputs.FramesInOrder | lib/forcola/duplex.ex:1134-1151 | accepted frames are in call order, an end of input is the last of them, and a call is answered :ok if and only if its frame was accepted |
| Inputs.NoneForgotten | lib/forcola/duplex.ex:1166-1170 | a call still waiting has a retry coming and no answer; every other has its answer |
| Inputs.OpenAgain | lib/forcola/duplex.ex:1195-1207 | input is open if and only if every end of input asked for has expired, and at most one is ever sent |
| Inputs.FlushSends | lib/forcola/duplex.ex:1172-1191 | a retry sends exactly the frames the port takes in a row |
| Inputs.ExpiresOne | lib/forcola/duplex.ex:1195-1207 | an expiry answers its own call and no other, removes that entry only, and reopens input after an end of input |
| Inputs.RepliedRightly | lib/forcola/duplex.ex:631-655 | whatever the port answers: a call is told :closed if and only if a step refused it (input closed or ended when it came, the port shut, the child ended while it waited), :busy if and only if its time ran out while it waited; a frame is asked for, as given, exactly by a call that finds input open |
| Lines.SplitWhole | lib/forcola/stream.ex:868-872 | joining the split lines with newlines gives the text back |
| Lines.SplitUnique | lib/forcola/stream.ex:868-872 | and no other lines and rest do |
| Lines.SplitLater | lib/forcola/stream.ex:783-786 | what arrives later never changes the lines already split |
| Streams.FeedCut | lib/forcola/stream.ex:759-804 | one frame or the same bytes in two: no difference |
| Streams.CutIndependent | lib/forcola/stream.ex:698-733 | lines, verdict, stderr and rest depend only on the tagged bytes received |
| Streams.FeedAllFaithful | lib/forcola/stream.ex:763-804 | the lines handed over are those before the first over-long one; stopped for a line if and only if there is one, for stderr if and only if more than its bound arrived first; the stderr kept is all of it, or its first bytes up to the bound |
| Streams.NothingLost | lib/forcola/stream.ex:816-849 | with no line bound an ended run gives its whole text back |
| Capture.CapturesFirst | lib/forcola/run.ex:198-230 | results are exactly the first min(limit, received) bytes in arrival order; cancelled for size if and only if more arrived; one KILL at most; at most 8192 bytes of credit out per pipe |
| Capture.NeverReconsiders | lib/forcola/run.ex:222-225 | the reason never changes, the backstop never moves later, nothing kept is dropped |
| Capture.BackstopFirst | lib/forcola/run.ex:127-152 | no frame is consumed once the backstop check fires, and a cancelled run has its cleanup time and no more |
| Capture.DeadlineFirst | lib/forcola/run.ex:154-160 | queued output never holds off a timeout |
| Capture.TurnExactly | lib/forcola/run.ex:122-225 | each turn of a run not cancelled: cancelled for a reason if and only if that reason holds, deadlines first; the backstop moves only then and the idle time only for output that counts; output not all kept, or after a cancellation, marks the results truncated |
| Capture.TruncatedExactly | lib/forcola/run.ex:198-221 | over every run: truncated if and only if output was taken in the turn that cancelled the run or later |
| Frames.ReadExactOrEof | native/forcola_shim/src/frame.rs:94-113 | fills the buffer in order, or reports a clean end only when nothing was there |
| Frames.ReadFrame | native/forcola_shim/src/frame.rs:58-89 | under any short reads and interruptions: the frame the bytes mean, or the error they mean |
| Frames.ReadAll | native/forcola_shim/src/supervisor.rs:949-985 | reading until the end gives the frames of the whole stream |
| Frames.WriteFrame | native/forcola_shim/src/frame.rs:115-121 | writes the whole frame, or a part of it and no success |
| Frames.ParseEncoded | native/forcola_shim/src/frame.rs:58-121 | a written frame reads back if and only if it is within the length cap |
| Frames.RoundTrip | native/forcola_shim/src/frame.rs:58-121 | written frames read back in order, then a clean end |
| Frames.Truncated | native/forcola_shim/src/frame.rs:86-113 | cut anywhere: the whole frames before the cut, and a clean end if and only if the cut is between frames |
| Groups.Members | native/forcola_shim/src/groups.rs:282-302 | the live members of a group exactly, or unknown at the first failed answer |
| Groups.Look | native/forcola_shim/src/groups.rs:262-280 | the state is what the answers of this look justify |
| Groups.Signal | native/forcola_shim/src/groups.rs:306-330 | a present group is served, exactly: which reads and signals, in which order |
| Groups.SignalLed | native/forcola_shim/src/groups.rs:308-327 | a led group, exactly: the whole group after its leader reads back; if it does not, or that signal is refused, the members a listing shows, one by one |
| Groups.SignalMembers | native/forcola_shim/src/groups.rs:332-347 | each member is read again in turn and, exactly if still itself and alive in the group, signalled at once |
| Groups.SignalListed | native/forcola_shim/src/groups.rs:316-327 | the members of a listing, signalled one by one |
| Groups.RoundExact | native/forcola_shim/src/groups.rs:332-347 | among members signalled one by one each has its own read and is signalled right after it if and only if that shows it still itself and alive in the group; nothing else is signalled |
| Groups.FallbackExact | native/forcola_shim/src/groups.rs:306-330 | when a led group is not signalled as a whole, a process is signalled on its behalf if and only if a listing then shows it alive in the group and its own read after that verifies it; so none is if and only if no such read does |
| Groups.SignalledWithoutLeader | native/forcola_shim/src/groups.rs:306-330 | a lawful log in which a led group loses its leader before the second read and a member is signalled all the same |
| Groups.Refresh | native/forcola_shim/src/groups.rs:381-387 | looks again at every group not seen gone; the states are those looks, and what was gone stays so |
| Groups.RunStage | native/forcola_shim/src/groups.rs:359-374 | a stage serves every present group, looks at every one not gone after the signals, lasts its grace or until such a look shows none present, and where calls take no time never leaves more than the interval between looks |
| Groups.Stop | native/forcola_shim/src/groups.rs:349-376 | over any answers: one state per entry, the last concluded; a lawful log; in every stage begun all present were served and all not gone looked at again before the next, which a look past its grace or one that shows none present allows; all stages run or nothing left; INT is given the interrupt's grace, TERM its own and KILL 500 ms, and none begins before the graces of those before it are over; in no more time than the graces |
| Groups.GoneIsFinal | native/forcola_shim/src/groups.rs:379-387 | an entry seen gone is never looked at or signalled again |
| Groups.SignalsEscalate | native/forcola_shim/src/groups.rs:349-376 | INT only where asked for, then TERM, then KILL, never back |
| Groups.ConfirmedMeansSeenGone | native/forcola_shim/src/groups.rs:166-168 | confirmed if and only if every entry was seen gone |
| Groups.StopFitsWait | lib/forcola/tracking.ex:154-156 | the graces of a stop leave the caller its whole margin |

## Left out

- Raw system calls, `/proc` and `libproc` parsing, cgroup files, pty set-up, fork and exec hooks: the oracle stands for them.
- JSON, capability negotiation, option validation, spawn-error attribution, privilege drop, file locks, downloads, daemon and readiness logging, observers, ETS tables and GenServer plumbing.
- The encoding of EXIT, TRACKED and SPAWNED payloads, and so the branch in which encoding an identity fails.
- Limits.ScanBounded: assumes that a process read as gone or replaced does not read back in that scan; a process that returned could be recorded past the limit.
- Limits.RunBounded: the same assumption for every scan of the run.
- Reapings.ReapedRightly: reaping rests on the record of a read; a later read that was not recorded, as it named another parent, may show the process otherwise, in the source too.
- Frozen.ScanExact: the shim itself is not among the retained processes; `Apart.ShimUntracked` shows when that is so of a run.
- Apart.ShimUntracked: no read shows the shim in the root's own group, which the child leaves the shim out of by making itself a session leader.
- Apart.RunScanExact: the same.
- Bound.CleanupReachesKill: the leader of the group stays readable and, on macOS, signals to it are not denied; passes are at most 50 ms apart.
- Bound.KillBeforeDeadline: the same.
- Alone.ProcessReachesKill: the process reads back alive and unchanged throughout, and passes are at most 50 ms apart.
- Loops.LoopReachesKill: the leader stays readable and a member alive; the pace comes from `Supervision.Watch` where calls are instant.
- Loops.LoopReachesProcess: the process stays alive and unchanged; the same pace.
- Supervision.Supervise: events, and the rounds of a strict drain, come from finite lists; a drain paced by the consumer has no time bound, in the source either.
- Shutdown.Supervise: the same, and events take no time to arrive.
- PumpRuns.RunRefines: a pump that is uncorked leaves credit flow control, and is followed in `Outputs` alone.
- Joints.JointRefines: the same.
- Outputs.CompleteMeansComplete: a pipe whose read fails counts as at its end, as it does for the pump; a failed write on the shared output is excluded.
- Pull.RunKept: the spawn-failure report, which comes before any output, and the messages delivery mode are not modelled; a session stopped over a limit is not followed further.
- Inputs.RunKept: the caller's own call timeout and the reply of a stopped server are outside the session.
- Streams.CutIndependent: compares consumers up to the stderr count of a stopped one, which is never read again.
- Capture.CapturesFirst: observers are reduced to whether they are swamped.
- Channels.RunBalances: the window fits 64 bits, as a SPAWN request that says otherwise does not parse in the shim; a pipe that is uncorked leaves the protocol.
- Liveness under a fair scheduler: stalls are excluded by showing that a step is possible, not that it is taken.
