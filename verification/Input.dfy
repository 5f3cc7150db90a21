/** Child input in a duplex session: frames the port takes at once, or that wait their
    turn behind a busy port. */
module Inputs {
  import opened Bytes
  import opened Process

  datatype Kind = Line | Eof

  datatype Entry = Entry(ref: nat, kind: Kind, payload: seq<byte>)

  /** What the port does with one frame. */
  datatype Port = Takes | Full | Shut

  datatype Reply = Done | Closed | Expired

  /** `calls` numbers the calls so far and names each; `submitted` are those that asked
      for a frame to be sent, `accepted` the frames the port took. `port` answers its
      `tries`-th frame. */
  datatype Session = Session(
    stdinOpen: bool,
    exited: bool,
    pending: seq<Entry>,
    armed: bool,
    calls: nat,
    tries: nat,
    submitted: seq<Entry>,
    accepted: seq<Entry>,
    replies: seq<(nat, Reply)>)

  const START := Session(true, false, [], false, 0, 0, [], [], [])

  // ----------------------------------------------------------------------- steps

  function Answered(s: Session, ref: nat, r: Reply): Session {
    s.(replies := s.replies + [(ref, r)])
  }

  function Enqueued(s: Session, e: Entry): Session {
    s.(pending := s.pending + [e], armed := true)
  }

  function SubmitInput(port: nat -> Port, s: Session, e: Entry): Session {
    var t := s.(submitted := s.submitted + [e]);
    if s.pending != [] then Enqueued(t, e)
    else
      var u := t.(tries := t.tries + 1);
      match port(t.tries)
      case Takes => Answered(u.(accepted := u.accepted + [e]), e.ref, Done)
      case Shut => Answered(u, e.ref, Closed)
      case Full => Enqueued(u, e)
  }

  function SendLine(port: nat -> Port, s: Session, payload: seq<byte>): Session {
    var t := s.(calls := s.calls + 1);
    if s.exited || !s.stdinOpen then Answered(t, s.calls, Closed)
    else SubmitInput(port, t, Entry(s.calls, Line, payload))
  }

  function SendEof(port: nat -> Port, s: Session): Session {
    var t := s.(calls := s.calls + 1);
    if s.exited || !s.stdinOpen then Answered(t, s.calls, Closed)
    else SubmitInput(port, t.(stdinOpen := false), Entry(s.calls, Eof, []))
  }

  /** The entry at one place leaves the queue with a reply. */
  function Settled(s: Session, i: nat, r: Reply): Session
    requires i < |s.pending|
  {
    Answered(s.(pending := s.pending[..i] + s.pending[i + 1..]), s.pending[i].ref, r)
  }

  function FailPending(s: Session): Session
    decreases |s.pending|
  {
    if s.pending == [] then s else FailPending(Settled(s, 0, Closed))
  }

  function FlushInput(port: nat -> Port, s: Session): Session
    decreases |s.pending|
  {
    if s.pending == [] then s
    else
      var t := s.(tries := s.tries + 1);
      match port(s.tries)
      case Takes => FlushInput(port, Settled(t.(accepted := t.accepted + [s.pending[0]]), 0, Done))
      case Full => t.(armed := true)
      case Shut => FailPending(t)
  }

  function Find(pending: seq<Entry>, ref: nat, from: nat): (i: Option<nat>)
    requires from <= |pending|
    ensures i.Some? ==> from <= i.value < |pending| && pending[i.value].ref == ref
    ensures i.None? ==> forall k :: from <= k < |pending| ==> pending[k].ref != ref
    decreases |pending| - from
  {
    if from == |pending| then None
    else if pending[from].ref == ref then Some(from)
    else Find(pending, ref, from + 1)
  }

  /** A caller's bound ran out before the port took its frame. */
  function ExpireInput(s: Session, ref: nat): Session {
    var i := Find(s.pending, ref, 0);
    if i.None? then s
    else
      var t := Settled(s, i.value, Expired);
      if s.pending[i.value].kind.Eof? then t.(stdinOpen := true) else t
  }

  datatype Step = Send(payload: seq<byte>) | End | Retry | Bound(ref: nat) | Exit

  function Stepped(port: nat -> Port, s: Session, a: Step): Session {
    match a
    case Send(payload) => SendLine(port, s, payload)
    case End => SendEof(port, s)
    case Retry => if s.armed then FlushInput(port, s.(armed := false)) else s
    case Bound(ref) => ExpireInput(s, ref)
    case Exit => FailPending(s.(exited := true))
  }

  function Run(port: nat -> Port, steps: seq<Step>): Session {
    if steps == [] then START
    else Stepped(port, Run(port, steps[..|steps| - 1]), steps[|steps| - 1])
  }

  // ------------------------------------------------------------------- invariants

  ghost predicate Ascending(s: seq<Entry>) {
    forall i, j :: 0 <= i < j < |s| ==> s[i].ref < s[j].ref
  }

  /** An end of input comes last or not at all. */
  ghost predicate EofLast(s: seq<Entry>) {
    forall i :: 0 <= i < |s| && s[i].kind.Eof? ==> i == |s| - 1
  }

  ghost predicate Waits(s: Session, ref: nat) {
    exists i :: 0 <= i < |s.pending| && s.pending[i].ref == ref
  }

  ghost predicate Told(s: Session, ref: nat) {
    exists i :: 0 <= i < |s.replies| && s.replies[i].0 == ref
  }

  /** Frames the port took, then those waiting, run in the order they were asked for. */
  ghost predicate InOrder(s: Session) {
    && Ascending(s.submitted) && Ascending(s.accepted + s.pending)
    && (forall e :: e in s.accepted + s.pending ==> e in s.submitted)
    && (forall e :: e in s.submitted ==> e.ref < s.calls)
  }

  /** Each call is waiting or has its one reply, and is told its frame was sent exactly
      when it was. */
  ghost predicate RepliedOnce(s: Session) {
    && (forall i, j :: 0 <= i < j < |s.replies| ==> s.replies[i].0 != s.replies[j].0)
    && (forall ref: nat :: Told(s, ref) || Waits(s, ref) <==> ref < s.calls)
    && (forall ref: nat :: !(Told(s, ref) && Waits(s, ref)))
    && (forall ref: nat :: (ref, Done) in s.replies <==> exists e :: e in s.accepted && e.ref == ref)
  }

  /** Nothing is sent after an end of input, and input is open exactly when every end
      asked for so far expired unsent. */
  ghost predicate EndsOnce(s: Session) {
    && EofLast(s.accepted + s.pending)
    && (s.stdinOpen <==> forall e :: e in s.submitted && e.kind.Eof? ==> (e.ref, Expired) in s.replies)
    && (forall e, f :: e in s.submitted && f in s.submitted && e.kind.Eof? && f.kind.Eof? && e.ref < f.ref ==>
          (e.ref, Expired) in s.replies)
  }

  ghost predicate Sound(s: Session) {
    InOrder(s) && RepliedOnce(s) && EndsOnce(s)
  }

  ghost predicate Kept(s: Session) {
    && Sound(s)
    && (s.pending != [] ==> s.armed)
  }

  // ----------------------------------------------------------------------- proofs

  /** A call turned away at once. */
  lemma RefusedSound(s: Session)
    requires Sound(s)
    ensures Sound(Answered(s.(calls := s.calls + 1), s.calls, Closed))
  {
    var t := Answered(s.(calls := s.calls + 1), s.calls, Closed);
    assert !Told(s, s.calls);
    forall ref: nat ensures Told(t, ref) <==> Told(s, ref) || ref == s.calls {
      ToldMore(s, t, s.calls, Closed, ref);
    }
    assert forall ref: nat :: Waits(t, ref) == Waits(s, ref);
    forall i | 0 <= i < |s.replies| ensures s.replies[i].0 != s.calls {
      assert s.replies[i].0 == s.calls ==> Told(s, s.calls);
    }
  }

  lemma ToldMore(s: Session, t: Session, new_: nat, r: Reply, ref: nat)
    requires t.replies == s.replies + [(new_, r)]
    ensures Told(t, ref) <==> Told(s, ref) || ref == new_
  {
    if Told(s, ref) {
      var i :| 0 <= i < |s.replies| && s.replies[i].0 == ref;
      assert t.replies[i].0 == ref;
    }
    if ref == new_ {
      assert t.replies[|s.replies|].0 == ref;
    }
  }

  /** While input is open no end of input has been sent or waits to be. */
  lemma OpenHasNoEof(s: Session)
    requires Sound(s) && s.stdinOpen
    ensures forall e :: e in s.accepted + s.pending ==> e.kind.Line?
  {
    forall e | e in s.accepted + s.pending && e.kind.Eof? ensures false {
      ReplyTells(s, e.ref, Expired);
      NoTwoReplies(s, e.ref);
      if e in s.pending {
        var j :| 0 <= j < |s.pending| && s.pending[j] == e;
        assert Waits(s, e.ref);
      }
    }
  }

  lemma NoTwoReplies(s: Session, ref: nat)
    requires RepliedOnce(s)
    ensures !((ref, Done) in s.replies && (ref, Expired) in s.replies)
  {
  }

  /** A frame asked for joins the end of the line. */
  function Joined(s: Session, e: Entry): Session {
    s.(calls := s.calls + 1, stdinOpen := e.kind.Line?, submitted := s.submitted + [e], pending := s.pending + [e])
  }

  lemma JoinedInOrder(s: Session, e: Entry)
    requires InOrder(s) && e.ref == s.calls
    ensures InOrder(Joined(s, e))
  {
    var t := Joined(s, e);
    var q := s.accepted + s.pending;
    assert t.accepted + t.pending == q + [e];
    assert forall i :: 0 <= i < |q| ==> q[i] in q;
    assert forall i :: 0 <= i < |s.submitted| ==> s.submitted[i] in s.submitted;
    assert e in t.submitted;
  }

  lemma JoinedReplied(s: Session, e: Entry)
    requires RepliedOnce(s) && e.ref == s.calls
    ensures RepliedOnce(Joined(s, e))
  {
    var t := Joined(s, e);
    assert forall ref: nat :: Told(t, ref) == Told(s, ref);
    forall ref: nat ensures Waits(t, ref) <==> Waits(s, ref) || ref == e.ref {
      if Waits(s, ref) {
        var i :| 0 <= i < |s.pending| && s.pending[i].ref == ref;
        assert t.pending[i].ref == ref;
      }
      assert t.pending[|s.pending|].ref == e.ref;
    }
  }

  lemma JoinedEnds(s: Session, e: Entry)
    requires Sound(s) && s.stdinOpen && e.ref == s.calls
    ensures EndsOnce(Joined(s, e))
  {
    hide Waits;
    var t := Joined(s, e);
    OpenHasNoEof(s);
    var q := s.accepted + s.pending;
    assert t.accepted + t.pending == q + [e];
    assert forall i :: 0 <= i < |q| ==> q[i] in q;
    assert e in t.submitted;
    ReplyTells(s, e.ref, Expired);
    assert forall f :: f in t.submitted ==> f in s.submitted || f == e;
  }

  lemma JoinedSound(s: Session, e: Entry)
    requires Sound(s) && s.stdinOpen && e.ref == s.calls
    ensures Sound(Joined(s, e))
  {
    JoinedInOrder(s, e);
    JoinedReplied(s, e);
    JoinedEnds(s, e);
  }

  /** The front of the line is taken by the port. */
  function Sent(s: Session): Session
    requires s.pending != []
  {
    Settled(s.(accepted := s.accepted + [s.pending[0]]), 0, Done)
  }

  lemma LeavesWaiting(s: Session, t: Session, i: nat)
    requires InOrder(s) && i < |s.pending| && t.pending == s.pending[..i] + s.pending[i + 1..]
    ensures forall ref: nat :: Waits(t, ref) <==> Waits(s, ref) && ref != s.pending[i].ref
  {
    hide InOrder, Waits;
    PendingDistinct(s);
    forall ref: nat ensures Waits(t, ref) <==> Waits(s, ref) && ref != s.pending[i].ref {
      LeavesOne(s, t, i, ref);
    }
  }

  lemma LeavesOne(s: Session, t: Session, i: nat, ref: nat)
    requires Ascending(s.pending) && i < |s.pending| && t.pending == s.pending[..i] + s.pending[i + 1..]
    ensures Waits(t, ref) <==> Waits(s, ref) && ref != s.pending[i].ref
  {
    hide Ascending;
    if Waits(t, ref) {
      var k :| 0 <= k < |t.pending| && t.pending[k].ref == ref;
      var j := if k < i then k else k + 1;
      assert s.pending[j].ref == ref && j != i;
      RefsDiffer(s.pending, i, j);
    }
    if Waits(s, ref) && ref != s.pending[i].ref {
      var j :| 0 <= j < |s.pending| && s.pending[j].ref == ref;
      assert t.pending[if j < i then j else j - 1].ref == ref;
    }
  }

  lemma RefsDiffer(s: seq<Entry>, i: nat, j: nat)
    requires Ascending(s) && i < |s| && j < |s| && i != j
    ensures s[i].ref != s[j].ref
  {
  }

  lemma PendingDistinct(s: Session)
    requires InOrder(s)
    ensures Ascending(s.pending)
  {
    AscendingTail(s.accepted, s.pending);
  }

  lemma AscendingTail(a: seq<Entry>, b: seq<Entry>)
    requires Ascending(a + b)
    ensures Ascending(b)
  {
    forall i, j | 0 <= i < j < |b| ensures b[i].ref < b[j].ref {
      assert (a + b)[|a| + i] == b[i] && (a + b)[|a| + j] == b[j];
    }
  }

  /** An entry that leaves the line gets the only reply to its call. */
  lemma SettledReplied(s: Session, t: Session, i: nat, r: Reply)
    requires InOrder(s) && RepliedOnce(s) && i < |s.pending|
    requires t.pending == s.pending[..i] + s.pending[i + 1..] && t.calls == s.calls
    requires t.replies == s.replies + [(s.pending[i].ref, r)]
    requires t.accepted == if r.Done? then s.accepted + [s.pending[i]] else s.accepted
    ensures RepliedOnce(t)
  {
    var e := s.pending[i];
    LeavesWaiting(s, t, i);
    assert Waits(s, e.ref);
    forall k | 0 <= k < |s.replies| ensures s.replies[k].0 != e.ref {
      assert s.replies[k].0 == e.ref ==> Told(s, e.ref);
    }
    forall ref: nat ensures Told(t, ref) <==> Told(s, ref) || ref == e.ref {
      ToldMore(s, t, e.ref, r, ref);
    }
    forall ref: nat ensures (ref, Done) in t.replies <==> exists a :: a in t.accepted && a.ref == ref {
      if (ref, Done) in s.replies {
        var a :| a in s.accepted && a.ref == ref;
        assert a in t.accepted;
      }
      if r.Done? {
        assert e in t.accepted;
      }
    }
  }

  lemma SettledInOrder(s: Session, i: nat, r: Reply)
    requires InOrder(s) && i < |s.pending|
    ensures InOrder(Settled(s, i, r))
  {
    var t := Settled(s, i, r);
    var q, p := s.accepted + s.pending, t.accepted + t.pending;
    var at := |s.accepted| + i;
    assert forall k :: 0 <= k < |p| ==> p[k] == q[if k < at then k else k + 1];
    forall e | e in p ensures e in s.submitted {
      var k :| 0 <= k < |p| && p[k] == e;
      assert q[if k < at then k else k + 1] in q;
    }
  }

  /** Replying to an entry that leaves unsent: an end of input that expired opens input
      again. */
  lemma DroppedEnds(s: Session, i: nat, r: Reply)
    requires Sound(s) && i < |s.pending| && !r.Done?
    ensures var t := Settled(s, i, r);
            EndsOnce(if r.Expired? && s.pending[i].kind.Eof? then t.(stdinOpen := true) else t)
  {
    hide Waits;
    var e := s.pending[i];
    var t := Settled(s, i, r);
    var q, p := s.accepted + s.pending, t.accepted + t.pending;
    var at := |s.accepted| + i;
    assert forall k :: 0 <= k < |p| ==> p[k] == q[if k < at then k else k + 1];
    assert q[at] == e && e in q && e in s.submitted;
    NotTold(s, i, r);
    SubmittedOnce(s, e);
    assert forall f: Entry :: (f.ref, Expired) in t.replies <==>
      (f.ref, Expired) in s.replies || (f.ref == e.ref && r.Expired?);
    if e.kind.Eof? {
      LatestEof(s, i);
    }
  }

  /** An end of input still waiting is the latest one asked for. */
  lemma LatestEof(s: Session, i: nat)
    requires Sound(s) && i < |s.pending| && s.pending[i].kind.Eof?
    ensures !s.stdinOpen
    ensures forall f :: f in s.submitted && f.kind.Eof? && f != s.pending[i] ==> (f.ref, Expired) in s.replies
  {
    hide Waits;
    var e := s.pending[i];
    assert (s.accepted + s.pending)[|s.accepted| + i] == e;
    assert e in s.accepted + s.pending && e in s.submitted;
    NotTold(s, i, Expired);
    SubmittedOnce(s, e);
  }

  lemma ReplyTells(s: Session, ref: nat, r: Reply)
    ensures (ref, r) in s.replies ==> Told(s, ref)
  {
    if (ref, r) in s.replies {
      var k :| 0 <= k < |s.replies| && s.replies[k] == (ref, r);
      assert Told(s, ref);
    }
  }

  lemma NotTold(s: Session, i: nat, r: Reply)
    requires RepliedOnce(s) && i < |s.pending|
    ensures (s.pending[i].ref, r) !in s.replies
  {
    assert Waits(s, s.pending[i].ref);
    ReplyTells(s, s.pending[i].ref, r);
  }

  lemma SubmittedOnce(s: Session, e: Entry)
    requires InOrder(s) && e in s.submitted
    ensures forall f :: f in s.submitted && f.ref == e.ref ==> f == e
  {
  }

  lemma DroppedSound(s: Session, i: nat, r: Reply)
    requires Sound(s) && i < |s.pending| && !r.Done?
    ensures var t := Settled(s, i, r);
            Sound(if r.Expired? && s.pending[i].kind.Eof? then t.(stdinOpen := true) else t)
  {
    SettledInOrder(s, i, r);
    SettledReplied(s, Settled(s, i, r), i, r);
    DroppedEnds(s, i, r);
    hide Told, Waits, EofLast;
    var t := Settled(s, i, r);
    assert RepliedOnce(t.(stdinOpen := true)) by {
      SettledReplied(s, t.(stdinOpen := true), i, r);
    }
  }

  lemma SentSound(s: Session)
    requires Sound(s) && s.pending != []
    ensures Sound(Sent(s))
  {
    hide Told, Waits;
    var t := Sent(s);
    assert t.accepted + t.pending == s.accepted + s.pending by {
      assert s.pending == [s.pending[0]] + s.pending[1..];
    }
    assert t.pending == s.pending[..0] + s.pending[1..];
    SettledReplied(s, t, 0, Done);
    var e := s.pending[0];
    assert forall f: Entry :: (f.ref, Expired) in t.replies <==> (f.ref, Expired) in s.replies;
  }

  lemma {:induction false} FailSound(s: Session)
    requires Sound(s)
    ensures Sound(FailPending(s)) && FailPending(s).pending == []
    ensures FailPending(s).accepted == s.accepted
    decreases |s.pending|
  {
    hide Sound;
    if s.pending != [] {
      DroppedSound(s, 0, Closed);
      FailSound(Settled(s, 0, Closed));
    }
  }

  /** Only these parts of a session matter to it. */
  lemma SameSound(s: Session, t: Session)
    requires Sound(s) && t == s.(armed := t.armed, tries := t.tries, exited := t.exited)
    ensures Sound(t)
  {
    assert forall ref: nat :: Told(t, ref) == Told(s, ref) && Waits(t, ref) == Waits(s, ref);
  }

  lemma {:induction false} FlushKept(port: nat -> Port, s: Session)
    requires Sound(s)
    ensures Kept(FlushInput(port, s))
    decreases |s.pending|
  {
    hide Sound;
    if s.pending != [] {
      var t := s.(tries := s.tries + 1);
      SameSound(s, t);
      match port(s.tries)
      case Takes =>
        SentSound(t);
        FlushKept(port, Sent(t));
      case Full => SameSound(s, t.(armed := true));
      case Shut => FailSound(t);
    }
  }

  /** Sending at once is joining an empty line and being taken from its front. */
  lemma SubmitKept(port: nat -> Port, s: Session, e: Entry)
    requires Kept(s) && s.stdinOpen && e.ref == s.calls
    ensures Kept(SubmitInput(port, s.(calls := s.calls + 1, stdinOpen := e.kind.Line?), e))
  {
    hide Sound, FailPending, FlushInput;
    var t := SubmitInput(port, s.(calls := s.calls + 1, stdinOpen := e.kind.Line?), e);
    var u := Joined(s, e);
    JoinedSound(s, e);
    if s.pending != [] || port(s.tries).Full? {
      SameSound(u, t);
    } else {
      assert u.pending == [e];
      SubmitAtOnce(port, s, e);
      match port(s.tries)
      case Takes =>
        SentSound(u);
        SameSound(Sent(u), t);
      case Shut =>
        DroppedSound(u, 0, Closed);
        SameSound(Settled(u, 0, Closed), t);
    }
  }

  lemma SubmitAtOnce(port: nat -> Port, s: Session, e: Entry)
    requires s.pending == [] && !port(s.tries).Full?
    ensures var t := SubmitInput(port, s.(calls := s.calls + 1, stdinOpen := e.kind.Line?), e);
            var u := Joined(s, e);
            var v := if port(s.tries).Takes? then Sent(u) else Settled(u, 0, Closed);
            t == v.(armed := t.armed, tries := t.tries, exited := t.exited) && t.pending == []
  {
  }

  lemma StepKept(port: nat -> Port, s: Session, a: Step)
    requires Kept(s)
    ensures Kept(Stepped(port, s, a))
  {
    hide Sound, SubmitInput, FlushInput, FailPending;
    match a
    case Send(payload) =>
      if s.exited || !s.stdinOpen {
        RefusedSound(s);
      } else {
        SubmitKept(port, s, Entry(s.calls, Line, payload));
        assert s.(calls := s.calls + 1, stdinOpen := true) == s.(calls := s.calls + 1);
      }
    case End =>
      if s.exited || !s.stdinOpen {
        RefusedSound(s);
      } else {
        SubmitKept(port, s, Entry(s.calls, Eof, []));
      }
    case Retry =>
      if s.armed {
        SameSound(s, s.(armed := false));
        FlushKept(port, s.(armed := false));
      }
    case Bound(ref) =>
      var i := Find(s.pending, ref, 0);
      if i.Some? {
        DroppedSound(s, i.value, Expired);
      }
    case Exit =>
      SameSound(s, s.(exited := true));
      FailSound(s.(exited := true));
  }

  /** Whatever the port answers and whatever is asked, in any order. */
  lemma {:induction false} RunKept(port: nat -> Port, steps: seq<Step>)
    ensures Kept(Run(port, steps))
  {
    hide Kept, Stepped;
    if steps == [] {
      StartKept();
    } else {
      RunKept(port, steps[..|steps| - 1]);
      StepKept(port, Run(port, steps[..|steps| - 1]), steps[|steps| - 1]);
    }
  }

  lemma StartKept()
    ensures Kept(START)
  {
  }

  // ----------------------------------------------------------------- consequences

  /** The frames the port took are in the order of the calls that asked for them, no
      frame follows an end of input, and each call is told its frame went exactly when
      it did. */
  lemma FramesInOrder(port: nat -> Port, steps: seq<Step>)
    ensures var s := Run(port, steps);
            && (forall i, j :: 0 <= i < j < |s.accepted| ==> s.accepted[i].ref < s.accepted[j].ref)
            && (forall i :: 0 <= i < |s.accepted| && s.accepted[i].kind.Eof? ==> i == |s.accepted| - 1)
            && (forall e :: e in s.accepted ==> e in s.submitted)
            && (forall ref: nat :: (ref, Done) in s.replies <==> exists e :: e in s.accepted && e.ref == ref)
  {
    hide Run;
    RunKept(port, steps);
    var s := Run(port, steps);
    var q := s.accepted + s.pending;
    assert forall i :: 0 <= i < |s.accepted| ==> q[i] == s.accepted[i];
    assert forall e :: e in s.accepted ==> e in q;
  }

  /** No caller waits for nothing: a frame not yet taken has a retry coming, and a call
      that is no longer waiting was answered. */
  lemma NoneForgotten(port: nat -> Port, steps: seq<Step>, ref: nat)
    requires ref < Run(port, steps).calls
    ensures var s := Run(port, steps);
            if Waits(s, ref) then s.armed && !Told(s, ref) else Told(s, ref)
  {
    hide Run;
    RunKept(port, steps);
  }

  /** Input can be sent to again exactly while every end of input asked for has expired
      unsent; and at most one is ever sent. */
  lemma OpenAgain(port: nat -> Port, steps: seq<Step>)
    ensures var s := Run(port, steps);
            && (s.stdinOpen <==> forall e :: e in s.submitted && e.kind.Eof? ==> (e.ref, Expired) in s.replies)
            && (forall i, j :: 0 <= i < |s.accepted| && 0 <= j < |s.accepted|
                  ==> s.accepted[i].kind.Eof? ==> s.accepted[j].kind.Eof? ==> i == j)
  {
    hide Run;
    RunKept(port, steps);
    var s := Run(port, steps);
    var q := s.accepted + s.pending;
    assert forall i :: 0 <= i < |s.accepted| ==> q[i] == s.accepted[i];
  }

  /** How many frames in a row the port takes from one try on, of at most `n`. */
  function TakenFrom(port: nat -> Port, tries: nat, n: nat): (k: nat)
    ensures k <= n
    decreases n
  {
    if n == 0 || !port(tries).Takes? then 0 else 1 + TakenFrom(port, tries + 1, n - 1)
  }

  /** What a retry makes of the line: the frames the port takes in a row are sent, in
      order; what is left waits for another retry if the port is full, and is cleared if
      it is shut. */
  predicate Drains(port: nat -> Port, tries: nat, pending: seq<Entry>, accepted: seq<Entry>, after: Session) {
    var k := TakenFrom(port, tries, |pending|);
    && after.accepted == accepted + pending[..k]
    && if k < |pending| && port(tries + k).Full? then after.pending == pending[k..] && after.armed
       else after.pending == []
  }

  lemma DrainsOn(port: nat -> Port, tries: nat, pending: seq<Entry>, accepted: seq<Entry>, after: Session)
    requires pending != [] && port(tries).Takes?
    requires Drains(port, tries + 1, pending[1..], accepted + [pending[0]], after)
    ensures Drains(port, tries, pending, accepted, after)
  {
    var k := TakenFrom(port, tries, |pending|);
    assert k == 1 + TakenFrom(port, tries + 1, |pending| - 1);
    assert pending[..k] == [pending[0]] + pending[1..][..k - 1];
    assert pending[1..][k - 1..] == pending[k..];
  }

  lemma DrainsNone(port: nat -> Port, tries: nat, pending: seq<Entry>, accepted: seq<Entry>, after: Session)
    requires pending == [] || !port(tries).Takes?
    requires after.accepted == accepted
    requires if pending != [] && port(tries).Full? then after.pending == pending && after.armed else after.pending == []
    ensures Drains(port, tries, pending, accepted, after)
  {
    hide TakenFrom;
    TakenNone(port, tries, |pending|);
    var none: seq<Entry> := [];
    assert pending[..0] == none && pending[0..] == pending && accepted + none == accepted;
  }

  lemma TakenNone(port: nat -> Port, tries: nat, n: nat)
    ensures n == 0 || !port(tries).Takes? ==> TakenFrom(port, tries, n) == 0
  {
  }

  /** A retry sends exactly the frames the port takes in a row. */
  lemma {:induction false} FlushSends(port: nat -> Port, s: Session)
    ensures Drains(port, s.tries, s.pending, s.accepted, FlushInput(port, s))
    decreases |s.pending|
  {
    hide FailPending, Drains;
    var after := FlushInput(port, s);
    if s.pending == [] {
      DrainsNone(port, s.tries, s.pending, s.accepted, after);
    } else {
      var t := s.(tries := s.tries + 1);
      match port(s.tries)
      case Takes =>
        var u := Sent(t);
        assert u.pending == s.pending[1..];
        FlushSends(port, u);
        DrainsOn(port, s.tries, s.pending, s.accepted, after);
      case Full => DrainsNone(port, s.tries, s.pending, s.accepted, after);
      case Shut =>
        FailAccepts(t);
        DrainsNone(port, s.tries, s.pending, s.accepted, after);
    }
  }

  lemma {:induction false} FailAccepts(s: Session)
    ensures FailPending(s).pending == [] && FailPending(s).accepted == s.accepted
    decreases |s.pending|
  {
    if s.pending != [] {
      FailAccepts(Settled(s, 0, Closed));
    }
  }

  /** A bound that runs out answers its caller at once, and no other; the frame is out of the line and
      will never be sent, the others keep their places, and an end of input lets input
      be sent again. */
  lemma ExpiresOne(s: Session, i: nat)
    requires Sound(s) && i < |s.pending|
    ensures var e := s.pending[i]; var t := ExpireInput(s, e.ref);
            && t.pending == s.pending[..i] + s.pending[i + 1..] && t.accepted == s.accepted
            && t.replies == s.replies + [(e.ref, Expired)] && t.submitted == s.submitted
            && t.stdinOpen == (s.stdinOpen || e.kind.Eof?)
  {
    PendingDistinct(s);
    var e := s.pending[i];
    var j := Find(s.pending, e.ref, 0);
    assert j == Some(i);
  }

  // ------------------------------------------------------- every reply has its reason

  /** This step tells a call that input is closed: a call comes when it is, or when the port
      is shut and nothing waits; or the call waits when the child ends, or when the port
      shuts on a retry before its frame is taken. */
  ghost predicate Refuses(port: nat -> Port, s: Session, a: Step, ref: nat) {
    match a
    case Send(_) => s.calls == ref && (s.exited || !s.stdinOpen || (s.pending == [] && port(s.tries).Shut?))
    case End => s.calls == ref && (s.exited || !s.stdinOpen || (s.pending == [] && port(s.tries).Shut?))
    case Retry => s.armed && ShutsOn(port, s.tries, s.pending, ref)
    case Bound(_) => false
    case Exit => Waits(s, ref)
  }

  /** The first frame of these that the port does not take finds it shut, and this call's
      frame is that one or a later one. */
  ghost predicate ShutsOn(port: nat -> Port, tries: nat, pending: seq<Entry>, ref: nat) {
    exists k: nat, n: nat :: ShutBefore(port, tries, pending, ref, k, n)
  }

  ghost predicate ShutBefore(port: nat -> Port, tries: nat, pending: seq<Entry>, ref: nat, k: nat, n: nat) {
    && k < |pending| && pending[k].ref == ref && tries <= n <= tries + k
    && port(n).Shut? && forall i: nat :: tries <= i < n ==> port(i).Takes?
  }

  /** This step lets the time of a call run out, and it still waits. */
  ghost predicate Expires(s: Session, a: Step, ref: nat) {
    a == Bound(ref) && Waits(s, ref)
  }

  /** This step asks for a frame to be sent. */
  predicate Asks(s: Session, a: Step, e: Entry) {
    && (a.Send? || a.End?) && !s.exited && s.stdinOpen
    && e == if a.Send? then Entry(s.calls, Line, a.payload) else Entry(s.calls, Eof, [])
  }

  ghost predicate Tells(port: nat -> Port, s: Session, a: Step, t: Session) {
    && (forall ref: nat :: (ref, Closed) in t.replies <==> (ref, Closed) in s.replies || Refuses(port, s, a, ref))
    && (forall ref: nat :: (ref, Expired) in t.replies <==> (ref, Expired) in s.replies || Expires(s, a, ref))
    && (forall e :: e in t.submitted <==> e in s.submitted || Asks(s, a, e))
    && (t.exited <==> s.exited || a.Exit?) && t.calls == s.calls + if a.Send? || a.End? then 1 else 0
  }

  lemma {:induction false} FailTells(s: Session)
    ensures var t := FailPending(s);
            && (forall ref: nat :: (ref, Closed) in t.replies <==> (ref, Closed) in s.replies || Waits(s, ref))
            && (forall ref: nat :: (ref, Expired) in t.replies <==> (ref, Expired) in s.replies)
            && t.submitted == s.submitted && t.exited == s.exited && t.calls == s.calls
    decreases |s.pending|
  {
    if s.pending != [] {
      var u := Settled(s, 0, Closed);
      FailTells(u);
      FrontLeaves(s, u);
    }
  }

  /** With its front gone, the rest of the line still waits. */
  lemma FrontLeaves(s: Session, u: Session)
    requires s.pending != [] && u.pending == s.pending[..0] + s.pending[1..]
    ensures forall ref: nat :: Waits(s, ref) <==> Waits(u, ref) || ref == s.pending[0].ref
  {
    assert u.pending == s.pending[1..];
    forall ref: nat ensures Waits(s, ref) <==> Waits(u, ref) || ref == s.pending[0].ref {
      if Waits(s, ref) {
        var i :| 0 <= i < |s.pending| && s.pending[i].ref == ref;
        assert i > 0 ==> u.pending[i - 1] == s.pending[i];
      }
      if Waits(u, ref) {
        var i :| 0 <= i < |u.pending| && u.pending[i].ref == ref;
        assert s.pending[i + 1] == u.pending[i];
      }
    }
  }

  lemma {:induction false} FlushTells(port: nat -> Port, s: Session)
    ensures var t := FlushInput(port, s);
            && (forall ref: nat :: (ref, Closed) in t.replies <==>
                  (ref, Closed) in s.replies || ShutsOn(port, s.tries, s.pending, ref))
            && (forall ref: nat :: (ref, Expired) in t.replies <==> (ref, Expired) in s.replies)
            && t.submitted == s.submitted && t.exited == s.exited && t.calls == s.calls
    decreases |s.pending|
  {
    hide FailPending, ShutsOn;
    if s.pending == [] {
      NoneShut(port, s.tries, s.pending);
    } else {
      var t := s.(tries := s.tries + 1);
      match port(s.tries)
      case Takes =>
        var u := Settled(t.(accepted := t.accepted + [s.pending[0]]), 0, Done);
        assert u.pending == s.pending[1..];
        FlushTells(port, u);
        TakesOn(port, s.tries, s.pending);
      case Full => NoneShut(port, s.tries, s.pending);
      case Shut =>
        FailTells(t);
        AllShut(port, s.tries, s.pending, t);
    }
  }

  lemma NoneShut(port: nat -> Port, tries: nat, pending: seq<Entry>)
    requires pending == [] || port(tries).Full?
    ensures forall ref: nat :: !ShutsOn(port, tries, pending, ref)
  {
  }

  lemma AllShut(port: nat -> Port, tries: nat, pending: seq<Entry>, s: Session)
    requires port(tries).Shut? && s.pending == pending
    ensures forall ref: nat :: ShutsOn(port, tries, pending, ref) <==> Waits(s, ref)
  {
    forall ref: nat | Waits(s, ref) ensures ShutsOn(port, tries, pending, ref) {
      var k: nat :| k < |pending| && pending[k].ref == ref;
      assert ShutBefore(port, tries, pending, ref, k, tries);
    }
  }

  lemma TakesOn(port: nat -> Port, tries: nat, pending: seq<Entry>)
    requires pending != [] && port(tries).Takes?
    ensures forall ref: nat :: ShutsOn(port, tries, pending, ref) <==> ShutsOn(port, tries + 1, pending[1..], ref)
  {
    var rest := pending[1..];
    forall ref: nat ensures ShutsOn(port, tries, pending, ref) <==> ShutsOn(port, tries + 1, rest, ref) {
      if ShutsOn(port, tries, pending, ref) {
        var k: nat, n: nat :| ShutBefore(port, tries, pending, ref, k, n);
        assert ShutBefore(port, tries + 1, rest, ref, k - 1, n);
      }
      if ShutsOn(port, tries + 1, rest, ref) {
        var k: nat, n: nat :| ShutBefore(port, tries + 1, rest, ref, k, n);
        assert ShutBefore(port, tries, pending, ref, k + 1, n);
      }
    }
  }

  lemma SubmitTells(port: nat -> Port, s: Session, a: Step)
    requires a.Send? || a.End?
    ensures Tells(port, s, a, Stepped(port, s, a))
  {
    hide SubmitInput, Waits;
    var e := if a.Send? then Entry(s.calls, Line, a.payload) else Entry(s.calls, Eof, []);
    SubmitTold(port, s.(calls := s.calls + 1, stdinOpen := e.kind.Line?), e);
    SubmitTold(port, s.(calls := s.calls + 1), e);
  }

  lemma SubmitTold(port: nat -> Port, s: Session, e: Entry)
    ensures var t := SubmitInput(port, s, e);
            && (forall ref: nat :: (ref, Closed) in t.replies <==>
                  (ref, Closed) in s.replies || (ref == e.ref && s.pending == [] && port(s.tries).Shut?))
            && (forall ref: nat :: (ref, Expired) in t.replies <==> (ref, Expired) in s.replies)
            && t.submitted == s.submitted + [e] && t.exited == s.exited && t.calls == s.calls
  {
  }

  lemma BoundTells(port: nat -> Port, s: Session, ref: nat)
    ensures Tells(port, s, Bound(ref), ExpireInput(s, ref))
  {
    var i := Find(s.pending, ref, 0);
    assert i.Some? <==> Waits(s, ref);
    hide Waits;
  }

  lemma StepTells(port: nat -> Port, s: Session, a: Step)
    ensures Tells(port, s, a, Stepped(port, s, a))
  {
    hide FailPending, FlushInput, ShutsOn, SubmitInput;
    match a
    case Send(_) => SubmitTells(port, s, a);
    case End => SubmitTells(port, s, a);
    case Retry => FlushTells(port, s.(armed := false));
    case Bound(ref) => BoundTells(port, s, ref);
    case Exit =>
      FailTells(s.(exited := true));
      assert forall ref: nat :: Waits(s.(exited := true), ref) == Waits(s, ref);
  }

  ghost predicate RefusedAt(port: nat -> Port, steps: seq<Step>, i: nat, ref: nat) {
    i < |steps| && Refuses(port, Run(port, steps[..i]), steps[i], ref)
  }

  ghost predicate ExpiredAt(port: nat -> Port, steps: seq<Step>, i: nat, ref: nat) {
    i < |steps| && Expires(Run(port, steps[..i]), steps[i], ref)
  }

  ghost predicate AskedAt(port: nat -> Port, steps: seq<Step>, i: nat, e: Entry) {
    i < |steps| && Asks(Run(port, steps[..i]), steps[i], e)
  }

  lemma SamePrefix(port: nat -> Port, steps: seq<Step>, a: Step)
    ensures var more, n := steps + [a], |steps|;
            && (forall i: nat, ref: nat :: RefusedAt(port, more, i, ref) <==>
                  RefusedAt(port, steps, i, ref) || (i == n && Refuses(port, Run(port, steps), a, ref)))
            && (forall i: nat, ref: nat :: ExpiredAt(port, more, i, ref) <==>
                  ExpiredAt(port, steps, i, ref) || (i == n && Expires(Run(port, steps), a, ref)))
            && (forall i: nat, e :: AskedAt(port, more, i, e) <==>
                  AskedAt(port, steps, i, e) || (i == n && Asks(Run(port, steps), a, e)))
  {
    hide Run, Refuses, Expires, Asks;
    var more, n := steps + [a], |steps|;
    assert more[..n] == steps && more[n] == a;
    assert forall i: nat :: i < n ==> more[..i] == steps[..i] && more[i] == steps[i];
  }

  ghost predicate Reasoned(port: nat -> Port, steps: seq<Step>, s: Session) {
    && (forall ref: nat :: (ref, Closed) in s.replies <==> exists i: nat :: RefusedAt(port, steps, i, ref))
    && (forall ref: nat :: (ref, Expired) in s.replies <==> exists i: nat :: ExpiredAt(port, steps, i, ref))
    && (forall e :: e in s.submitted <==> exists i: nat :: AskedAt(port, steps, i, e))
    && (s.exited <==> Exit in steps)
  }

  lemma ReasonedOn(port: nat -> Port, steps: seq<Step>, a: Step)
    requires Reasoned(port, steps, Run(port, steps)) && Tells(port, Run(port, steps), a, Run(port, steps + [a]))
    ensures Reasoned(port, steps + [a], Run(port, steps + [a]))
  {
    hide Run, Refuses, Expires, Asks, RefusedAt, ExpiredAt, AskedAt;
    SamePrefix(port, steps, a);
    var s, t, more := Run(port, steps), Run(port, steps + [a]), steps + [a];
    forall ref: nat ensures (ref, Closed) in t.replies <==> exists i: nat :: RefusedAt(port, more, i, ref) {
      if Refuses(port, s, a, ref) {
        assert RefusedAt(port, more, |steps|, ref);
      }
    }
    forall ref: nat ensures (ref, Expired) in t.replies <==> exists i: nat :: ExpiredAt(port, more, i, ref) {
      if Expires(s, a, ref) {
        assert ExpiredAt(port, more, |steps|, ref);
      }
    }
    forall e ensures e in t.submitted <==> exists i: nat :: AskedAt(port, more, i, e) {
      if Asks(s, a, e) {
        assert AskedAt(port, more, |steps|, e);
      }
    }
    assert forall x :: x in more <==> x in steps || x == a;
  }

  /** Whatever the port answers: a call is told that input is closed exactly if some step
      refused it, that its time ran out exactly if it did while the call waited, and a
      frame is asked for, as given, exactly by a call that finds input open. */
  lemma {:induction false} RepliedRightly(port: nat -> Port, steps: seq<Step>)
    ensures Reasoned(port, steps, Run(port, steps))
  {
    hide Reasoned, Tells, Stepped;
    if steps == [] {
      NoReplies(port);
    } else {
      var front, last := steps[..|steps| - 1], steps[|steps| - 1];
      assert steps == front + [last];
      RepliedRightly(port, front);
      StepTells(port, Run(port, front), last);
      ReasonedOn(port, front, last);
    }
  }

  lemma NoReplies(port: nat -> Port)
    ensures Reasoned(port, [], Run(port, []))
  {
  }
}
