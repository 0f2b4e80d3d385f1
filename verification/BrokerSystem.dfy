/**
 One run's console in the in-process broker (pkg/op/broker_stub.go), its children, its subscribers, and any number of
 concurrent calls of `Run` (pkg/op/broker_run.go), as one transition system.

 The broker's mutex is `lock`: a delivery takes it, stamps the frame, hands it to the subscribers one at a time, and
 lets go.  The subscriptions underneath run the protocol of `Subscription` in between.  Execs of other runs share only
 the id counter and appear as `LaunchElsewhere`.
 */
module BrokerSystem {
  import opened Modular
  import opened Subscription
  import opened BrokerStream

  newtype byte = x: int | 0 <= x < 256

  datatype Payload =
    | Narration(unit: string, bytes: seq<byte>)
    | Output(bytes: seq<byte>)
    | Control(status: int, error: string)

  datatype Frame = Frame(stamp: nat, exec: nat, payload: Payload)

  /** A forked child; what it wrote is history. */
  datatype Child = Child(stdout: seq<byte>, stderr: seq<byte>, ended: bool, status: int, error: string)

  /** A subscription and the number of frames the console had delivered when it was made. */
  datatype Sub = Sub(start: nat, st: State<Frame>)

  datatype Lock = Free | Publishing(frame: Frame, todo: set<nat>)

  /** What one call of Run has collected. */
  datatype Outcome = Outcome(exec: nat, exitStatus: int, output: seq<byte>, narration: seq<byte>, error: string)

  datatype Verdict = NoError | Refused | ContextEnded | ConsoleClosed

  /** One call of Run, named by its subscription. */
  datatype Call = Listening | Collecting(outcome: Outcome) | Done(outcome: Outcome, verdict: Verdict)

  datatype System = System(
    next: nat,                   // the last exec id minted
    children: map<nat, Child>,
    seqNo: nat,                  // the console's last stamp
    log: seq<Frame>,             // history: every frame delivered
    subscribers: set<nat>,
    nextSub: nat,
    subs: map<nat, Sub>,
    lock: Lock,
    calls: map<nat, Call>
  )

  function Start(): System {
    System(0, map[], 0, [], {}, 0, map[], Free, map[])
  }

  datatype Action =
    | Subscribe(byRun: bool)                   // Console; byRun when a call of Run asks
    | Launch                                   // Exec by some other caller
    | LaunchElsewhere                          // Exec on another run
    | Deliver(exec: nat, payload: Payload)     // deliver: lock, stamp, begin the fan-out
    | Fan(sub: nat)                            // publish: one subscriber's locked section
    | Unlock
    | Within(sub: nat, block: Label<Frame>)    // a block of a subscription
    | Leave(sub: nat)                          // cancel: the locked delete
    | RunExec(call: nat)
    | RunRefused(call: nat)
    | RunFrame(call: nat)                      // receives the frame the drain is sending
    | RunContext(call: nat)
    | RunClosed(call: nat)

  predicate Enabled(s: System, a: Action) {
    match a
    case Subscribe(_) => s.lock.Free?
    case Launch => s.lock.Free?
    case LaunchElsewhere => s.lock.Free?
    case Deliver(e, _) => s.lock.Free? && e in s.children && !s.children[e].ended
    case Fan(i) => s.lock.Publishing? && i in s.lock.todo && i in s.subs
    case Unlock => s.lock.Publishing? && s.lock.todo == {}
    case Within(i, l) =>
      && i in s.subs && !l.Append? && Subscription.Enabled(s.subs[i].st, l)
      && (l.HandOver? ==> i !in s.calls)
      && (l.Mark? ==> i !in s.subscribers)
    case Leave(i) => s.lock.Free? && i in s.subscribers && (i in s.calls ==> s.calls[i].Done?)
    case RunExec(c) => s.lock.Free? && c in s.calls && s.calls[c].Listening?
    case RunRefused(c) => c in s.calls && s.calls[c].Listening?
    case RunFrame(c) => c in s.calls && s.calls[c].Collecting? && c in s.subs && s.subs[c].st.drain.Sending?
    case RunContext(c) => c in s.calls && s.calls[c].Collecting?
    case RunClosed(c) => c in s.calls && s.calls[c].Collecting? && c in s.subs && s.subs[c].st.outCloses > 0
  }

  /** What Run does with one frame: another exec's is skipped, the control frame ends the wait. */
  function Collect(o: Outcome, f: Frame): Call {
    if f.exec != o.exec then Collecting(o)
    else
      match f.payload
      case Narration(_, bytes) => Collecting(o.(narration := o.narration + bytes))
      case Output(bytes) => Collecting(o.(output := o.output + bytes))
      case Control(status, error) => Done(o.(exitStatus := status, error := error), NoError)
  }

  function Spoke(c: Child, p: Payload): Child {
    match p
    case Narration(_, bytes) => c.(stderr := c.stderr + bytes)
    case Output(bytes) => c.(stdout := c.stdout + bytes)
    case Control(status, error) => c.(ended := true, status := status, error := error)
  }

  const NewChild := Child([], [], false, 0, "")

  function Move(s: System, i: nat, l: Label<Frame>): System
    requires i in s.subs && Subscription.Enabled(s.subs[i].st, l)
  {
    s.(subs := s.subs[i := s.subs[i].(st := Subscription.Step(s.subs[i].st, l))])
  }

  function Step(s: System, a: Action): System
    requires Enabled(s, a)
  {
    match a
    case Subscribe(byRun) =>
      s.(nextSub := s.nextSub + 1,
         subscribers := s.subscribers + {s.nextSub},
         subs := s.subs[s.nextSub := Sub(|s.log|, Init())],
         calls := if byRun then s.calls[s.nextSub := Listening] else s.calls)
    case Launch => s.(next := s.next + 1, children := s.children[s.next + 1 := NewChild])
    case LaunchElsewhere => s.(next := s.next + 1)
    case Deliver(e, p) =>
      var f := Frame(NextSeq(s.seqNo), e, p);
      s.(seqNo := f.stamp, log := s.log + [f], children := s.children[e := Spoke(s.children[e], p)],
         lock := Publishing(f, s.subscribers))
    case Fan(i) => Move(s, i, Append(s.lock.frame)).(lock := s.lock.(todo := s.lock.todo - {i}))
    case Unlock => s.(lock := Free)
    case Within(i, l) => Move(s, i, l)
    case Leave(i) => s.(subscribers := s.subscribers - {i})
    case RunExec(c) =>
      s.(next := s.next + 1, children := s.children[s.next + 1 := NewChild],
         calls := s.calls[c := Collecting(Outcome(s.next + 1, 0, [], [], ""))])
    case RunRefused(c) => s.(calls := s.calls[c := Done(Outcome(0, 0, [], [], ""), Refused)])
    case RunFrame(c) =>
      Move(s, c, HandOver).(calls := s.calls[c := Collect(s.calls[c].outcome, s.subs[c].st.drain.value)])
    case RunContext(c) => s.(calls := s.calls[c := Done(s.calls[c].outcome, ContextEnded)])
    case RunClosed(c) => s.(calls := s.calls[c := Done(s.calls[c].outcome, ConsoleClosed)])
  }

  ghost predicate Runs(s: System, actions: seq<Action>, t: System)
    decreases |actions|
  {
    if actions == [] then s == t
    else Enabled(s, actions[0]) && Runs(Step(s, actions[0]), actions[1..], t)
  }

  // ----- What a child said, read off a list of frames -----

  datatype Pipe = Stdout | Stderr

  /** What one frame adds to what `e` said on a pipe. */
  function Piece(f: Frame, e: nat, pipe: Pipe): seq<byte> {
    if f.exec != e then []
    else
      match f.payload
      case Output(bytes) => if pipe.Stdout? then bytes else []
      case Narration(_, bytes) => if pipe.Stderr? then bytes else []
      case Control(_, _) => []
  }

  function Said(fs: seq<Frame>, e: nat, pipe: Pipe): seq<byte> {
    if fs == [] then [] else Said(fs[..|fs|-1], e, pipe) + Piece(fs[|fs|-1], e, pipe)
  }

  predicate Silent(fs: seq<Frame>, e: nat) {
    forall i :: 0 <= i < |fs| ==> fs[i].exec != e
  }

  predicate IsControl(f: Frame, e: nat) {
    f.exec == e && f.payload.Control?
  }

  /** Some frame is the control frame of `e`. */
  predicate Closed(fs: seq<Frame>, e: nat) {
    fs != [] && (IsControl(fs[|fs|-1], e) || Closed(fs[..|fs|-1], e))
  }

  lemma SaidMore(fs: seq<Frame>, f: Frame, e: nat, pipe: Pipe)
    ensures Said(fs + [f], e, pipe) == Said(fs, e, pipe) + Piece(f, e, pipe)
    ensures Closed(fs + [f], e) == (Closed(fs, e) || IsControl(f, e))
  {
    assert (fs + [f])[..|fs|] == fs;
  }

  lemma {:induction false} SaidConcat(a: seq<Frame>, b: seq<Frame>, e: nat, pipe: Pipe)
    ensures Said(a + b, e, pipe) == Said(a, e, pipe) + Said(b, e, pipe)
    decreases |b|
  {
    if b == [] {
      assert a + b == a;
    } else {
      var b', f := b[..|b|-1], b[|b|-1];
      SaidConcat(a, b', e, pipe);
      assert (a + b)[..|a + b|-1] == a + b' && (a + b)[|a + b|-1] == f;
      assert Said(a + b, e, pipe) == Said(a, e, pipe) + Said(b', e, pipe) + Piece(f, e, pipe);
    }
  }

  lemma {:induction false} SilentSaysNothing(fs: seq<Frame>, e: nat)
    requires Silent(fs, e)
    ensures Said(fs, e, Stdout) == [] && Said(fs, e, Stderr) == [] && !Closed(fs, e)
    decreases |fs|
  {
    if fs != [] {
      SilentSaysNothing(fs[..|fs|-1], e);
    }
  }

  lemma {:induction false} ControlIndex(fs: seq<Frame>, e: nat) returns (k: nat)
    requires Closed(fs, e)
    ensures k < |fs| && IsControl(fs[k], e)
    decreases |fs|
  {
    if IsControl(fs[|fs|-1], e) {
      k := |fs| - 1;
    } else {
      k := ControlIndex(fs[..|fs|-1], e);
    }
  }

  lemma {:induction false} ControlAmong(fs: seq<Frame>, e: nat, k: nat)
    requires k < |fs| && IsControl(fs[k], e)
    ensures Closed(fs, e)
    decreases |fs|
  {
    if k < |fs| - 1 {
      ControlAmong(fs[..|fs|-1], e, k);
    }
  }

  // ----- The invariant, part by part -----

  /** The console log records a child: everything it said, in order, and its control frame after all of it. */
  ghost predicate Recorded(log: seq<Frame>, e: nat, c: Child) {
    && Said(log, e, Stdout) == c.stdout && Said(log, e, Stderr) == c.stderr
    && c.ended == Closed(log, e)
    && (forall i :: 0 <= i < |log| && IsControl(log[i], e) ==> log[i].payload == Control(c.status, c.error))
    && (forall i, j :: 0 <= i < j < |log| && IsControl(log[i], e) ==> log[j].exec != e)
  }

  ghost predicate ChildInv(next: nat, children: map<nat, Child>, log: seq<Frame>) {
    && (forall e :: e in children ==> e <= next && Recorded(log, e, children[e]))
    && (forall i :: 0 <= i < |log| ==> log[i].exec in children)
  }

  ghost predicate StampInv(seqNo: nat, log: seq<Frame>) {
    && seqNo == |log| % SEQ_MODULUS
    && (forall i :: 0 <= i < |log| ==> log[i].stamp == (i + 1) % SEQ_MODULUS)
  }

  /** A subscription got what the console delivered since it was made, short of a frame still being fanned out. */
  ghost predicate SubOk(log: seq<Frame>, awaits: bool, live: bool, sub: Sub) {
    && Inv(sub.st)
    && sub.start + One(awaits) <= |log|
    && sub.st.published <= log[sub.start..]
    && (live ==> sub.st.stopper.Idle? && |sub.st.published| == |log| - sub.start - One(awaits))
  }

  predicate Awaits(lock: Lock, i: nat) {
    lock.Publishing? && i in lock.todo
  }

  ghost predicate SubInv(s: System) {
    && (forall i :: i in s.subs ==> i < s.nextSub && SubOk(s.log, Awaits(s.lock, i), i in s.subscribers, s.subs[i]))
    && s.subscribers <= s.subs.Keys
    && (s.lock.Publishing? ==> s.log != [] && s.lock.frame == s.log[|s.log|-1] && s.lock.todo <= s.subscribers)
  }

  predicate Complete(o: Outcome, c: Child) {
    o.output == c.stdout && o.narration == c.stderr && o.exitStatus == c.status && o.error == c.error
  }

  /** What a waiting call has collected is what it received of its exec, and nothing of it came before. */
  ghost predicate Collected(log: seq<Frame>, sub: Sub, o: Outcome) {
    && sub.start <= |log|
    && (forall i :: 0 <= i < sub.start ==> log[i].exec != o.exec)
    && o.output == Said(sub.st.received, o.exec, Stdout)
    && o.narration == Said(sub.st.received, o.exec, Stderr)
    && !Closed(sub.st.received, o.exec)
  }

  ghost predicate CallOk(log: seq<Frame>, children: map<nat, Child>, live: bool, sub: Sub, call: Call) {
    match call
    case Listening => live
    case Collecting(o) => live && o.exec in children && Collected(log, sub, o)
    case Done(o, v) =>
      && v != ConsoleClosed
      && (v == NoError ==> o.exec in children && children[o.exec].ended && Complete(o, children[o.exec]))
  }

  ghost predicate CallInv(s: System) {
    && s.calls.Keys <= s.subs.Keys
    && (forall c :: c in s.calls ==> CallOk(s.log, s.children, c in s.subscribers, s.subs[c], s.calls[c]))
  }

  ghost predicate SysInv(s: System) {
    ChildInv(s.next, s.children, s.log) && StampInv(s.seqNo, s.log) && SubInv(s) && CallInv(s)
  }

  // ----- Preservation -----

  lemma RecordedMore(log: seq<Frame>, e: nat, c: Child, f: Frame)
    requires Recorded(log, e, c) && (f.exec == e ==> !c.ended)
    ensures Recorded(log + [f], e, if f.exec == e then Spoke(c, f.payload) else c)
  {
    var log' := log + [f];
    SaidMore(log, f, e, Stdout);
    SaidMore(log, f, e, Stderr);
    forall i | 0 <= i < |log| && IsControl(log[i], e) ensures c.ended {
      ControlAmong(log, e, i);
    }
  }

  lemma ChildDelivers(next: nat, children: map<nat, Child>, log: seq<Frame>, f: Frame)
    requires ChildInv(next, children, log) && f.exec in children && !children[f.exec].ended
    ensures ChildInv(next, children[f.exec := Spoke(children[f.exec], f.payload)], log + [f])
  {
    forall e | e in children
      ensures Recorded(log + [f], e, if f.exec == e then Spoke(children[e], f.payload) else children[e])
    {
      RecordedMore(log, e, children[e], f);
    }
  }

  lemma ChildLaunches(next: nat, children: map<nat, Child>, log: seq<Frame>)
    requires ChildInv(next, children, log)
    ensures ChildInv(next + 1, children[next + 1 := NewChild], log)
    ensures Silent(log, next + 1)
  {
    SilentSaysNothing(log, next + 1);
  }

  lemma StampDelivers(seqNo: nat, log: seq<Frame>, f: Frame)
    requires StampInv(seqNo, log) && f.stamp == NextSeq(seqNo)
    ensures StampInv(f.stamp, log + [f])
  {
    ModNext(|log|, SEQ_MODULUS);
    forall i | 0 <= i < |log| + 1 ensures (log + [f])[i].stamp == (i + 1) % SEQ_MODULUS {
      assert i < |log| ==> (log + [f])[i] == log[i];
    }
  }

  lemma SubSeesDelivery(log: seq<Frame>, live: bool, sub: Sub, f: Frame)
    requires SubOk(log, false, live, sub)
    ensures SubOk(log + [f], live, live, sub)
  {
    assert (log + [f])[sub.start..] == log[sub.start..] + [f];
  }

  lemma SubFans(log: seq<Frame>, sub: Sub)
    requires SubOk(log, true, true, sub) && log != []
    ensures SubOk(log, false, true, Sub(sub.start, Subscription.Step(sub.st, Append(log[|log|-1]))))
  {
    StepKeepsInv(sub.st, Append(log[|log|-1]));
  }

  lemma SubMoves(log: seq<Frame>, awaits: bool, live: bool, sub: Sub, l: Label<Frame>)
    requires SubOk(log, awaits, live, sub) && Subscription.Enabled(sub.st, l) && !l.Append? && !(l.Mark? && live)
    ensures SubOk(log, awaits, live, Sub(sub.start, Subscription.Step(sub.st, l)))
  {
    StepKeepsInv(sub.st, l);
  }

  /** A call is not disturbed by a delivery to others, a launch, or a block that hands nothing over. */
  lemma CallStays(log: seq<Frame>, children: map<nat, Child>, live: bool, sub: Sub, call: Call,
                  log': seq<Frame>, children': map<nat, Child>, sub': Sub)
    requires CallOk(log, children, live, sub, call)
    requires log <= log' && sub'.start == sub.start && sub'.st.received == sub.st.received
    requires forall e :: e in children ==> e in children' && (children[e].ended ==> children'[e] == children[e])
    ensures CallOk(log', children', live, sub', call)
  {
  }

  lemma FreshSubOk(log: seq<Frame>)
    ensures SubOk(log, false, true, Sub(|log|, Init()))
  {
  }

  lemma SubLeaves(log: seq<Frame>, awaits: bool, live: bool, sub: Sub)
    requires SubOk(log, awaits, live, sub)
    ensures SubOk(log, awaits, false, sub)
  {
  }

  /** What was received, then the value in hand, are the next frames of the log. */
  lemma HandIsOnTheLog(log: seq<Frame>, awaits: bool, live: bool, sub: Sub)
    requires SubOk(log, awaits, live, sub) && sub.st.drain.Sending?
    ensures var k := sub.start + |sub.st.received|;
            k < |log| && log[k] == sub.st.drain.value && log[sub.start..k] == sub.st.received
  {
    var st := sub.st;
    assert st.published == st.received + [st.drain.value] + st.queue;
    assert st.published[|st.received|] == st.drain.value;
    assert log[sub.start..][|st.received|] == st.drain.value;
    assert st.received <= log[sub.start..];
  }

  /** The heart of the end-to-end claim: the control frame arrives after everything else its exec said. */
  lemma ControlComesLast(log: seq<Frame>, child: Child, sub: Sub, o: Outcome, k: nat)
    requires Recorded(log, o.exec, child) && Collected(log, sub, o)
    requires sub.start <= k < |log| && log[sub.start..k] == sub.st.received && IsControl(log[k], o.exec)
    ensures child.ended && Complete(Collect(o, log[k]).outcome, child)
  {
    var e, before, after := o.exec, log[..sub.start], log[k+1..];
    assert Silent(before, e) && Silent(after, e);
    assert log == before + (log[sub.start..k] + ([log[k]] + after));
    EverythingSaid(before, log[sub.start..k], log[k], after, e, Stdout);
    EverythingSaid(before, log[sub.start..k], log[k], after, e, Stderr);
    ControlAmong(log, e, k);
  }

  lemma EverythingSaid(before: seq<Frame>, received: seq<Frame>, f: Frame, after: seq<Frame>, e: nat, pipe: Pipe)
    requires Silent(before, e) && Silent(after, e) && IsControl(f, e)
    ensures Said(before + (received + ([f] + after)), e, pipe) == Said(received, e, pipe)
  {
    SaidConcat(before, received + ([f] + after), e, pipe);
    SaidConcat(received, [f] + after, e, pipe);
    SaidConcat([f], after, e, pipe);
    SilentSaysNothing(before, e);
    SilentSaysNothing(after, e);
    SaidMore([], f, e, pipe);
    assert [] + [f] == [f];
  }

  lemma CollectsMore(log: seq<Frame>, sub: Sub, o: Outcome, f: Frame, sub': Sub)
    requires Collected(log, sub, o) && !IsControl(f, o.exec)
    requires sub'.start == sub.start && sub'.st.received == sub.st.received + [f]
    ensures Collect(o, f).Collecting? && Collect(o, f).outcome.exec == o.exec
    ensures Collected(log, sub', Collect(o, f).outcome)
  {
    SaidMore(sub.st.received, f, o.exec, Stdout);
    SaidMore(sub.st.received, f, o.exec, Stderr);
  }

  lemma CallReceives(log: seq<Frame>, children: map<nat, Child>, awaits: bool, sub: Sub, o: Outcome)
    requires SubOk(log, awaits, true, sub) && o.exec in children && Recorded(log, o.exec, children[o.exec])
    requires Collected(log, sub, o) && sub.st.drain.Sending?
    ensures CallOk(log, children, true, Sub(sub.start, Subscription.Step(sub.st, HandOver)),
                   Collect(o, sub.st.drain.value))
  {
    HandIsOnTheLog(log, awaits, true, sub);
    hide SubOk, Recorded, Collected;
    if IsControl(sub.st.drain.value, o.exec) {
      ControlComesLast(log, children[o.exec], sub, o, sub.start + |sub.st.received|);
    } else {
      CollectsMore(log, sub, o, sub.st.drain.value, Sub(sub.start, Subscription.Step(sub.st, HandOver)));
    }
  }

  lemma ReceivedIsOnTheLog(log: seq<Frame>, awaits: bool, live: bool, sub: Sub)
    requires SubOk(log, awaits, live, sub)
    ensures sub.st.received <= log[sub.start..]
  {
  }

  lemma NewExecIsUnheard(log: seq<Frame>, awaits: bool, live: bool, sub: Sub, e: nat)
    requires SubOk(log, awaits, live, sub) && Silent(log, e)
    ensures Collected(log, sub, Outcome(e, 0, [], [], ""))
  {
    ReceivedIsOnTheLog(log, awaits, live, sub);
    forall i | 0 <= i < |sub.st.received| ensures sub.st.received[i].exec != e {
      assert sub.st.received[i] == log[sub.start..][i];
    }
    SilentSaysNothing(sub.st.received, e);
  }

  // ----- Preservation by each action -----

  lemma DeliverKeeps(s: System, e: nat, p: Payload)
    requires SysInv(s) && Enabled(s, Deliver(e, p))
    ensures SysInv(Step(s, Deliver(e, p)))
  {
    hide Recorded, SubOk, CallOk, Collected;
    var t := Step(s, Deliver(e, p));
    var f := t.lock.frame;
    ChildDelivers(s.next, s.children, s.log, f);
    StampDelivers(s.seqNo, s.log, f);
    forall i | i in t.subs ensures SubOk(t.log, Awaits(t.lock, i), i in t.subscribers, t.subs[i]) {
      SubSeesDelivery(s.log, i in s.subscribers, s.subs[i], f);
    }
    forall c | c in t.calls ensures CallOk(t.log, t.children, c in t.subscribers, t.subs[c], t.calls[c]) {
      CallStays(s.log, s.children, c in s.subscribers, s.subs[c], s.calls[c], t.log, t.children, t.subs[c]);
    }
  }

  lemma MoveKeeps(s: System, t: System, i: nat, l: Label<Frame>)
    requires SysInv(s) && i in s.subs && Subscription.Enabled(s.subs[i].st, l) && !l.HandOver?
    requires t == Move(s, i, l).(lock := t.lock)
    requires SubInv(t)
    ensures SysInv(t)
  {
    hide Recorded, SubOk, CallOk, Collected;
    forall c | c in t.calls ensures CallOk(t.log, t.children, c in t.subscribers, t.subs[c], t.calls[c]) {
      CallStays(s.log, s.children, c in s.subscribers, s.subs[c], s.calls[c], t.log, t.children, t.subs[c]);
    }
  }

  lemma FanKeeps(s: System, i: nat)
    requires SysInv(s) && Enabled(s, Fan(i))
    ensures SysInv(Step(s, Fan(i)))
  {
    hide Recorded, SubOk, CallOk, Collected;
    SubFans(s.log, s.subs[i]);
    MoveKeeps(s, Step(s, Fan(i)), i, Append(s.lock.frame));
  }

  lemma WithinKeepsSubs(s: System, i: nat, l: Label<Frame>)
    requires SysInv(s) && i in s.subs && Subscription.Enabled(s.subs[i].st, l) && !l.Append?
    requires !(l.Mark? && i in s.subscribers)
    ensures SubInv(Move(s, i, l))
  {
    hide Recorded, SubOk, CallOk, Collected;
    SubMoves(s.log, Awaits(s.lock, i), i in s.subscribers, s.subs[i], l);
  }

  lemma WithinKeeps(s: System, i: nat, l: Label<Frame>)
    requires SysInv(s) && Enabled(s, Within(i, l))
    ensures SysInv(Step(s, Within(i, l)))
  {
    hide Recorded, SubOk, CallOk, Collected;
    WithinKeepsSubs(s, i, l);
    if !l.HandOver? {
      MoveKeeps(s, Step(s, Within(i, l)), i, l);
    }
  }

  lemma LaunchKeeps(s: System, t: System)
    requires SysInv(s)
    requires t == s.(next := s.next + 1, children := s.children[s.next + 1 := NewChild])
    ensures SysInv(t)
  {
    hide Recorded, SubOk, CallOk, Collected;
    ChildLaunches(s.next, s.children, s.log);
    forall c | c in t.calls ensures CallOk(t.log, t.children, c in t.subscribers, t.subs[c], t.calls[c]) {
      CallStays(s.log, s.children, c in s.subscribers, s.subs[c], s.calls[c], t.log, t.children, t.subs[c]);
    }
  }

  /** Calls other than `c` are untouched when only `c`, its subscription's drain and other subscribers change. */
  lemma OtherCallsKeep(s: System, t: System, c: nat)
    requires CallInv(s) && t.log == s.log && t.children == s.children
    requires s.calls.Keys <= t.calls.Keys <= s.calls.Keys + {c} && c in t.subs && s.subs.Keys <= t.subs.Keys
    requires forall d :: d in s.calls && d != c ==>
      t.calls[d] == s.calls[d] && t.subs[d] == s.subs[d] && (d in t.subscribers <==> d in s.subscribers)
    requires c in t.calls ==> CallOk(t.log, t.children, c in t.subscribers, t.subs[c], t.calls[c])
    ensures CallInv(t)
  {
    hide Recorded, SubOk, CallOk, Collected;
    forall d | d in t.calls ensures CallOk(t.log, t.children, d in t.subscribers, t.subs[d], t.calls[d]) {
      if d != c {
        assert CallOk(s.log, s.children, d in s.subscribers, s.subs[d], s.calls[d]);
      }
    }
  }

  lemma RunExecKeeps(s: System, c: nat)
    requires SysInv(s) && Enabled(s, RunExec(c))
    ensures SysInv(Step(s, RunExec(c)))
  {
    hide Recorded, SubOk, Collected;
    var m := s.(next := s.next + 1, children := s.children[s.next + 1 := NewChild]);
    LaunchKeeps(s, m);
    ChildLaunches(s.next, s.children, s.log);
    NewExecIsUnheard(s.log, Awaits(s.lock, c), c in s.subscribers, s.subs[c], s.next + 1);
    assert CallOk(s.log, s.children, c in s.subscribers, s.subs[c], s.calls[c]);
    OtherCallsKeep(m, Step(s, RunExec(c)), c);
  }

  /** The parts of the invariant one waiting call needs. */
  lemma WaitingFacts(s: System, c: nat)
    requires SysInv(s) && c in s.calls && s.calls[c].Collecting?
    ensures c in s.subs && c in s.subscribers && SubOk(s.log, Awaits(s.lock, c), true, s.subs[c])
    ensures var o := s.calls[c].outcome;
            o.exec in s.children && Collected(s.log, s.subs[c], o) && Recorded(s.log, o.exec, s.children[o.exec])
  {
    hide Recorded, SubOk, Collected;
    assert CallOk(s.log, s.children, c in s.subscribers, s.subs[c], s.calls[c]);
  }

  lemma RunFrameKeepsCalls(s: System, c: nat)
    requires SysInv(s) && Enabled(s, RunFrame(c))
    ensures CallInv(Step(s, RunFrame(c)))
  {
    hide Recorded, SubOk, CallOk, Collected;
    WaitingFacts(s, c);
    CallReceives(s.log, s.children, Awaits(s.lock, c), s.subs[c], s.calls[c].outcome);
    OtherCallsKeep(s, Step(s, RunFrame(c)), c);
  }

  lemma SameSubs(s: System, t: System)
    requires SubInv(s) && t == s.(calls := t.calls)
    ensures SubInv(t)
  {
    hide Recorded, SubOk, CallOk, Collected;
    forall i | i in t.subs ensures SubOk(t.log, Awaits(t.lock, i), i in t.subscribers, t.subs[i]) {
      assert SubOk(s.log, Awaits(s.lock, i), i in s.subscribers, s.subs[i]);
    }
  }

  lemma RunFrameKeeps(s: System, c: nat)
    requires SysInv(s) && Enabled(s, RunFrame(c))
    ensures SysInv(Step(s, RunFrame(c)))
  {
    hide Recorded, SubOk, CallOk, Collected;
    RunFrameKeepsCalls(s, c);
    WithinKeepsSubs(s, c, HandOver);
    SameSubs(Move(s, c, HandOver), Step(s, RunFrame(c)));
  }

  lemma SubscribeKeeps(s: System, byRun: bool)
    requires SysInv(s) && Enabled(s, Subscribe(byRun))
    ensures SysInv(Step(s, Subscribe(byRun)))
  {
    hide Recorded, Collected, SubOk;
    var t := Step(s, Subscribe(byRun));
    forall i | i in t.subs ensures SubOk(t.log, Awaits(t.lock, i), i in t.subscribers, t.subs[i]) && i < t.nextSub {
      if i == s.nextSub {
        FreshSubOk(s.log);
      } else {
        assert SubOk(s.log, Awaits(s.lock, i), i in s.subscribers, s.subs[i]);
      }
    }
    OtherCallsKeep(s, t, s.nextSub);
  }

  lemma LeaveKeeps(s: System, i: nat)
    requires SysInv(s) && Enabled(s, Leave(i))
    ensures SysInv(Step(s, Leave(i)))
  {
    hide Recorded, Collected, SubOk;
    var t := Step(s, Leave(i));
    forall j | j in t.subs ensures SubOk(t.log, Awaits(t.lock, j), j in t.subscribers, t.subs[j]) {
      assert SubOk(s.log, Awaits(s.lock, j), j in s.subscribers, s.subs[j]);
      SubLeaves(s.log, Awaits(s.lock, j), j in s.subscribers, s.subs[j]);
    }
    if i in s.calls {
      assert CallOk(s.log, s.children, i in s.subscribers, s.subs[i], s.calls[i]);
    }
    OtherCallsKeep(s, t, i);
  }

  lemma GiveUpKeeps(s: System, a: Action, c: nat)
    requires SysInv(s) && Enabled(s, a) && (a == RunRefused(c) || a == RunContext(c))
    ensures SysInv(Step(s, a))
  {
    hide Recorded, SubOk, Collected;
    OtherCallsKeep(s, Step(s, a), c);
    SameSubs(s, Step(s, a));
  }

  lemma UnlockKeeps(s: System)
    requires SysInv(s) && Enabled(s, Unlock)
    ensures SysInv(Step(s, Unlock))
  {
    hide Recorded, SubOk, CallOk, Collected;
    var t := Step(s, Unlock);
    forall j | j in t.subs ensures SubOk(t.log, Awaits(t.lock, j), j in t.subscribers, t.subs[j]) {
      assert SubOk(s.log, Awaits(s.lock, j), j in s.subscribers, s.subs[j]);
    }
    forall c | c in t.calls ensures CallOk(t.log, t.children, c in t.subscribers, t.subs[c], t.calls[c]) {
      assert CallOk(s.log, s.children, c in s.subscribers, s.subs[c], s.calls[c]);
    }
  }

  lemma ElsewhereKeeps(s: System)
    requires SysInv(s) && Enabled(s, LaunchElsewhere)
    ensures SysInv(Step(s, LaunchElsewhere))
  {
    hide Recorded, SubOk, CallOk, Collected;
    var t := Step(s, LaunchElsewhere);
    assert ChildInv(t.next, t.children, t.log) by {
      forall e | e in t.children ensures e <= t.next && Recorded(t.log, e, t.children[e]) {
        assert Recorded(s.log, e, s.children[e]);
      }
    }
    assert SubInv(t) by {
      assert SubInv(s);
    }
    assert CallInv(t) by {
      assert CallInv(s);
    }
  }

  lemma NeverClosed(s: System, c: nat)
    requires SysInv(s)
    ensures !Enabled(s, RunClosed(c))
  {
  }

  lemma StepKeepsSysInv(s: System, a: Action)
    requires SysInv(s) && Enabled(s, a)
    ensures SysInv(Step(s, a))
  {
    hide Recorded, SubOk, CallOk, Collected;
    match a
    case Launch => LaunchKeeps(s, Step(s, a));
    case Deliver(e, p) => DeliverKeeps(s, e, p);
    case Fan(i) => FanKeeps(s, i);
    case Within(i, l) => WithinKeeps(s, i, l);
    case RunExec(c) => RunExecKeeps(s, c);
    case RunFrame(c) => RunFrameKeeps(s, c);
    case RunClosed(c) => NeverClosed(s, c);
    case Subscribe(byRun) => SubscribeKeeps(s, byRun);
    case Leave(i) => LeaveKeeps(s, i);
    case Unlock => UnlockKeeps(s);
    case LaunchElsewhere => ElsewhereKeeps(s);
    case RunRefused(c) => GiveUpKeeps(s, a, c);
    case RunContext(c) => GiveUpKeeps(s, a, c);
  }

  lemma {:induction false} RunsKeepSysInv(s: System, actions: seq<Action>, t: System)
    requires SysInv(s) && Runs(s, actions, t)
    ensures SysInv(t)
    decreases |actions|
  {
    if actions != [] {
      StepKeepsSysInv(s, actions[0]);
      RunsKeepSysInv(Step(s, actions[0]), actions[1..], t);
    }
  }

  // ----- Main results -----

  /**
   End to end: whenever a call of Run has returned a nil error, its output and narration are exactly what that exec's
   child wrote to stdout and stderr, in order, and its status and error are the child's, whatever else was delivered
   on the console.
   */
  lemma RunCollectsEverything(actions: seq<Action>, t: System, c: nat)
    requires Runs(Start(), actions, t)
    requires c in t.calls && t.calls[c].Done? && t.calls[c].verdict == NoError
    ensures t.calls[c].outcome.exec in t.children
    ensures t.children[t.calls[c].outcome.exec].ended
    ensures Complete(t.calls[c].outcome, t.children[t.calls[c].outcome.exec])
  {
    hide Recorded, SubOk, Collected;
    RunsKeepSysInv(Start(), actions, t);
  }

  /** Run never sees its console close under it: only its own deferred cancel closes the channel. */
  lemma ConsoleNeverClosesEarly(actions: seq<Action>, t: System, c: nat)
    requires Runs(Start(), actions, t) && c in t.calls
    ensures !(t.calls[c].Done? && t.calls[c].verdict == ConsoleClosed)
    ensures !Enabled(t, RunClosed(c))
  {
    hide Recorded, SubOk, Collected;
    RunsKeepSysInv(Start(), actions, t);
    NeverClosed(t, c);
  }

  lemma StampedFrom(seqNo: nat, log: seq<Frame>, awaits: bool, live: bool, sub: Sub, k: nat)
    requires StampInv(seqNo, log) && SubOk(log, awaits, live, sub) && k < |sub.st.received|
    ensures sub.st.received[k].stamp == (sub.start + k + 1) % SEQ_MODULUS
  {
    ReceivedIsOnTheLog(log, awaits, live, sub);
    assert sub.st.received[k] == log[sub.start..][k];
  }

  /** Every subscriber sees a gapless stretch of the console: consecutive stamps from where it subscribed. */
  lemma StampsAreContiguous(actions: seq<Action>, t: System, i: nat, k: nat)
    requires Runs(Start(), actions, t) && i in t.subs && k < |t.subs[i].st.received|
    ensures t.subs[i].st.received[k].stamp == (t.subs[i].start + k + 1) % SEQ_MODULUS
  {
    hide Recorded, SubOk, CallOk, Collected;
    RunsKeepSysInv(Start(), actions, t);
    StampedFrom(t.seqNo, t.log, Awaits(t.lock, i), i in t.subscribers, t.subs[i], k);
  }

  lemma EndedHasOutstanding(log: seq<Frame>, child: Child, sub: Sub, o: Outcome)
    requires SubOk(log, false, true, sub) && Recorded(log, o.exec, child) && Collected(log, sub, o) && child.ended
    ensures sub.st.received != sub.st.published && !sub.st.stopped
  {
    var k := ControlIndex(log, o.exec);
    assert sub.st.published == log[sub.start..];
    ControlAmong(sub.st.published, o.exec, k - sub.start);
  }

  lemma WaitingMoves(t: System, c: nat)
    requires c in t.calls && t.calls[c].Collecting? && c in t.subs && t.lock.Free?
    requires t.calls[c].outcome.exec in t.children && t.children[t.calls[c].outcome.exec].ended
    requires SubOk(t.log, false, true, t.subs[c]) && Collected(t.log, t.subs[c], t.calls[c].outcome)
    requires Recorded(t.log, t.calls[c].outcome.exec, t.children[t.calls[c].outcome.exec])
    ensures Enabled(t, RunFrame(c)) || Enabled(t, Within(c, Signal)) || Enabled(t, Within(c, Take))
            || Enabled(t, Within(c, WakeReady))
  {
    EndedHasOutstanding(t.log, t.children[t.calls[c].outcome.exec], t.subs[c], t.calls[c].outcome);
    OutstandingMoves(t.subs[c].st);
  }

  lemma FanOutProceeds(t: System)
    requires SubInv(t) && t.lock.Publishing?
    ensures Enabled(t, Unlock) || exists i :: Enabled(t, Fan(i))
  {
    if t.lock.todo != {} {
      var i :| i in t.lock.todo;
      assert Enabled(t, Fan(i));
    }
  }

  // ----- How far the control frame is -----

  /** The blocks that bring a call's next frame closer. */
  predicate Forwards(a: Action, c: nat) {
    || a == RunFrame(c) || a == Within(c, Signal) || a == Within(c, Take) || a == Within(c, WakeReady)
    || a.Fan? || a.Unlock?
  }

  /** Work left on one subscription: each moving block takes some of it away. */
  function Effort(st: State<Frame>): nat {
    2 * (|st.queue| + |Hand(st.drain)|) + 3 * st.signalling + 2 * One(st.ready) + One(st.drain.Top?)
  }

  /** Work left before everything delivered so far has reached the call. */
  function Distance(s: System, c: nat): nat
    requires c in s.subs
  {
    Effort(s.subs[c].st) + (if s.lock.Publishing? then 6 * |s.lock.todo| + 1 else 0)
  }

  lemma BlockEffort(st: State<Frame>, l: Label<Frame>)
    requires Subscription.Enabled(st, l) && (l == Signal || l == Take || l == WakeReady || l == HandOver)
    ensures Effort(Subscription.Step(st, l)) < Effort(st)
  {
  }

  lemma AppendEffort(st: State<Frame>, f: Frame)
    ensures Effort(Subscription.Step(st, Append(f))) <= Effort(st) + 5
  {
  }

  lemma FanCloser(s: System, i: nat, c: nat)
    requires c in s.subs && Enabled(s, Fan(i))
    ensures c in Step(s, Fan(i)).subs && Distance(Step(s, Fan(i)), c) < Distance(s, c)
  {
    hide Effort;
    var t, todo := Step(s, Fan(i)), s.lock.todo;
    assert todo == (todo - {i}) + {i};
    assert |todo| == |todo - {i}| + 1;
    AppendEffort(s.subs[i].st, s.lock.frame);
    assert t.lock == s.lock.(todo := todo - {i});
    if i == c {
      assert t.subs[c].st == Subscription.Step(s.subs[c].st, Append(s.lock.frame));
    } else {
      assert t.subs[c] == s.subs[c];
    }
  }

  lemma ForwardsCloser(s: System, a: Action, c: nat)
    requires c in s.subs && Forwards(a, c) && Enabled(s, a)
    ensures c in Step(s, a).subs && Distance(Step(s, a), c) < Distance(s, c)
  {
    hide Effort, Subscription.Step, Collect;
    match a
    case Fan(i) => FanCloser(s, i, c);
    case Unlock =>
    case RunFrame(_) => BlockEffort(s.subs[c].st, HandOver);
    case Within(_, l) => BlockEffort(s.subs[c].st, l);
  }

  /** An ended exec stays ended, and a call that forwarding blocks act on stays or returns without an error. */
  lemma ForwardsKeep(s: System, a: Action, c: nat)
    requires SysInv(s) && Forwards(a, c) && Enabled(s, a) && c in s.calls
    requires s.calls[c].Collecting? || (s.calls[c].Done? && s.calls[c].verdict == NoError)
    ensures var t := Step(s, a);
            && c in t.calls && t.children == s.children
            && if t.calls[c].Collecting?
               then s.calls[c].Collecting? && t.calls[c].outcome.exec == s.calls[c].outcome.exec
               else t.calls[c].Done? && t.calls[c].verdict == NoError
  {
    hide Recorded, SubOk, CallOk, Collected, SysInv;
  }

  /**
   Run is never stuck on an exec that has ended: some block that brings its control frame closer is enabled, and each
   that is lowers the distance.
   */
  lemma RunNeverStuck(actions: seq<Action>, t: System, c: nat)
    requires Runs(Start(), actions, t) && c in t.calls && t.calls[c].Collecting?
    requires t.calls[c].outcome.exec in t.children && t.children[t.calls[c].outcome.exec].ended
    ensures c in t.subs
    ensures exists a :: Forwards(a, c) && Enabled(t, a)
    ensures forall a :: Forwards(a, c) && Enabled(t, a) ==>
              c in Step(t, a).subs && Distance(Step(t, a), c) < Distance(t, c)
  {
    hide Recorded, SubOk, Collected;
    RunsKeepSysInv(Start(), actions, t);
    WaitingForwards(t, c);
    forall a | Forwards(a, c) && Enabled(t, a)
      ensures c in Step(t, a).subs && Distance(Step(t, a), c) < Distance(t, c)
    {
      ForwardsCloser(t, a, c);
    }
  }

  lemma WaitingForwards(t: System, c: nat)
    requires SysInv(t) && c in t.calls && t.calls[c].Collecting?
    requires t.calls[c].outcome.exec in t.children && t.children[t.calls[c].outcome.exec].ended
    ensures c in t.subs && exists a :: Forwards(a, c) && Enabled(t, a)
  {
    hide Recorded, SubOk, Collected;
    WaitingFacts(t, c);
    if t.lock.Publishing? {
      FanOutProceeds(t);
      if !Enabled(t, Unlock) {
        var i :| Enabled(t, Fan(i));
        assert Forwards(Fan(i), c);
      } else {
        assert Forwards(Unlock, c);
      }
    } else {
      WaitingMoves(t, c);
      assert Forwards(RunFrame(c), c) && Forwards(Within(c, Signal), c) && Forwards(Within(c, Take), c)
          && Forwards(Within(c, WakeReady), c);
    }
  }

  /**
   So a call whose exec has ended returns without an error after at most `Distance` of these blocks, in whatever order
   they run; that they are not held up for ever by further deliveries is the scheduler's part.
   */
  lemma {:induction false} RunFinishes(s: System, actions: seq<Action>, t: System, c: nat)
    requires SysInv(s) && Runs(s, actions, t) && c in s.calls && c in s.subs
    requires forall i :: 0 <= i < |actions| ==> Forwards(actions[i], c)
    requires if s.calls[c].Collecting?
             then s.calls[c].outcome.exec in s.children && s.children[s.calls[c].outcome.exec].ended
                  && |actions| >= Distance(s, c)
             else s.calls[c].Done? && s.calls[c].verdict == NoError
    ensures c in t.calls && t.calls[c].Done? && t.calls[c].verdict == NoError
    decreases |actions|
  {
    hide SysInv, Distance;
    if s.calls[c].Collecting? {
      WaitingForwards(s, c);
      var a :| Forwards(a, c) && Enabled(s, a);
      ForwardsCloser(s, a, c);
    }
    if actions != [] {
      var a := actions[0];
      StepKeepsSysInv(s, a);
      ForwardsKeep(s, a, c);
      ForwardsCloser(s, a, c);
      RunFinishes(Step(s, a), actions[1..], t, c);
    }
  }
}
