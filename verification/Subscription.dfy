/**
 One subscription of a broker stream (pkg/op/broker_stream.go): an unbounded queue filled under its own mutex, a
 goroutine that drains it into an unbuffered channel, a one-slot wakeup channel `ready` and a channel `done` that is
 closed to stop the drain.

 Every block the Go code runs atomically (a locked section, a channel operation that commits) is one label.  A run is
 a sequence of labels, so a statement about every run is a statement about every interleaving of enqueuers, drain,
 consumer and canceller.
 */
module Subscription {

  /** Where the drain goroutine stands. */
  datatype Drain<T> =
    | Top                    // about to take the lock
    | Parked                 // in the select on ready and done
    | Sending(value: T)      // in the select on out and done, a value in hand
    | ClosingOut             // returning: close(out) comes first
    | ClosingFinished        // then close(finished)
    | Ended

  /** Where the one call of stop stands; cancel runs it at most once. */
  datatype Stopper = Idle | Marked | Waiting | Returned

  /** A subscription; the last three fields are history, read by no step. */
  datatype State<T> = State(
    queue: seq<T>,
    stopped: bool,
    ready: bool,             // a token is in the one-slot wakeup channel
    signalling: nat,         // enqueuers between their locked section and their signal
    drain: Drain<T>,
    stopper: Stopper,
    doneCloses: nat,
    outCloses: nat,
    finishedCloses: nat,
    published: seq<T>,       // values accepted since the subscription was made
    received: seq<T>,        // values the consumer got
    dropped: seq<T>          // values discarded by a cancel
  )

  datatype Label<T> =
    | Append(value: T)       // enqueue: the locked section
    | Signal                 // enqueue: the non-blocking send on ready
    | Take                   // drain: the locked section
    | WakeReady              // drain: parked, received from ready
    | WakeDone               // drain: parked, done is closed
    | HandOver               // drain and consumer meet on out
    | HandDrop               // drain: sending, done is closed
    | CloseOut
    | CloseFinished
    | Mark                   // stop: the locked section
    | CloseDone
    | Return                 // stop: received from finished

  function Init<T>(): State<T> {
    State([], false, false, 0, Top, Idle, 0, 0, 0, [], [], [])
  }

  /** Whether the block can run now; a blocked channel operation cannot. */
  predicate Enabled<T>(s: State<T>, l: Label<T>) {
    match l
    case Append(_) => true
    case Signal => s.signalling > 0
    case Take => s.drain.Top?
    case WakeReady => s.drain.Parked? && s.ready
    case WakeDone => s.drain.Parked? && s.doneCloses > 0
    case HandOver => s.drain.Sending?
    case HandDrop => s.drain.Sending? && s.doneCloses > 0
    case CloseOut => s.drain.ClosingOut?
    case CloseFinished => s.drain.ClosingFinished?
    case Mark => s.stopper.Idle?
    case CloseDone => s.stopper.Marked?
    case Return => s.stopper.Waiting? && s.finishedCloses > 0
  }

  function Step<T>(s: State<T>, l: Label<T>): State<T>
    requires Enabled(s, l)
  {
    match l
    case Append(v) =>
      if s.stopped then s.(signalling := s.signalling + 1)
      else s.(queue := s.queue + [v], published := s.published + [v], signalling := s.signalling + 1)
    case Signal => s.(ready := true, signalling := s.signalling - 1)
    case Take =>
      if s.stopped then s.(queue := [], drain := ClosingOut, dropped := s.dropped + s.queue)
      else if s.queue == [] then s.(drain := Parked)
      else s.(queue := s.queue[1..], drain := Sending(s.queue[0]))
    case WakeReady => s.(ready := false, drain := Top)
    case WakeDone => s.(drain := Top)
    case HandOver => s.(drain := Top, received := s.received + [s.drain.value])
    case HandDrop => s.(drain := Top, dropped := s.dropped + [s.drain.value])
    case CloseOut => s.(drain := ClosingFinished, outCloses := s.outCloses + 1)
    case CloseFinished => s.(drain := Ended, finishedCloses := s.finishedCloses + 1)
    case Mark => s.(stopped := true, stopper := Marked)
    case CloseDone => s.(stopper := Waiting, doneCloses := s.doneCloses + 1)
    case Return => s.(stopper := Returned)
  }

  ghost predicate Runs<T>(s: State<T>, labels: seq<Label<T>>, t: State<T>)
    decreases |labels|
  {
    if labels == [] then s == t
    else Enabled(s, labels[0]) && Runs(Step(s, labels[0]), labels[1..], t)
  }

  function Hand<T>(d: Drain<T>): seq<T> {
    if d.Sending? then [d.value] else []
  }

  predicate Leaving<T>(d: Drain<T>) {
    d.ClosingOut? || d.ClosingFinished? || d.Ended?
  }

  function One(b: bool): nat { if b then 1 else 0 }

  /** Nothing is lost, repeated or reordered. */
  ghost predicate Conserved<T>(s: State<T>) {
    s.published == s.received + s.dropped + Hand(s.drain) + s.queue
  }

  /** What every block keeps. */
  ghost predicate Inv<T>(s: State<T>) {
    Conserved(s) && Orderly(s)
  }

  ghost predicate Orderly<T>(s: State<T>) {
    && s.stopped == !s.stopper.Idle?
    && (s.dropped != [] ==> s.stopped && !s.drain.Sending? && !s.drain.Parked?)
    && (Leaving(s.drain) ==> s.stopped && s.queue == [])
    && s.doneCloses == One(s.stopper.Waiting? || s.stopper.Returned?)
    && s.outCloses == One(s.drain.ClosingFinished? || s.drain.Ended?)
    && s.finishedCloses == One(s.drain.Ended?)
    && (s.stopper.Returned? ==> s.drain.Ended?)
    && (s.drain.Parked? && s.queue != [] ==> s.ready || s.signalling > 0 || s.doneCloses > 0)
  }

  lemma Regroup<T>(a: seq<T>, b: seq<T>, c: seq<T>, d: seq<T>)
    ensures ((a + b) + c) + d == (a + (b + c)) + d == a + (b + (c + d)) == (a + b) + (c + d)
  {
  }

  lemma StepConserves<T>(s: State<T>, l: Label<T>)
    requires Inv(s) && Enabled(s, l)
    ensures Conserved(Step(s, l))
  {
    match l
    case Append(v) => Regroup(s.received + s.dropped, Hand(s.drain), s.queue, [v]);
    case Take =>
      if !s.stopped && s.queue != [] {
        assert s.queue == [s.queue[0]] + s.queue[1..];
        assert s.received + s.dropped + [] == s.received + s.dropped;
        Regroup(s.received, s.dropped, [s.queue[0]], s.queue[1..]);
      } else {
        assert s.received + s.dropped + [] + s.queue == s.received + (s.dropped + s.queue) + [] + [];
      }
    case HandOver =>
      assert s.received + [] + Hand(s.drain) + s.queue == s.received + Hand(s.drain) + [] + [] + s.queue;
    case HandDrop =>
      assert s.received + s.dropped + Hand(s.drain) + s.queue ==
               s.received + (s.dropped + Hand(s.drain)) + [] + s.queue;
    case _ =>
  }

  lemma StepKeepsInv<T>(s: State<T>, l: Label<T>)
    requires Inv(s) && Enabled(s, l)
    ensures Inv(Step(s, l))
  {
    StepConserves(s, l);
  }

  lemma {:induction false} RunKeepsInv<T>(s: State<T>, labels: seq<Label<T>>, t: State<T>)
    requires Inv(s) && Runs(s, labels, t)
    ensures Inv(t)
    decreases |labels|
  {
    if labels != [] {
      StepKeepsInv(s, labels[0]);
      RunKeepsInv(Step(s, labels[0]), labels[1..], t);
    }
  }

  lemma {:induction false} RunOneMore<T>(s: State<T>, labels: seq<Label<T>>, t: State<T>, l: Label<T>)
    requires Runs(s, labels, t) && Enabled(t, l)
    ensures Runs(s, labels + [l], Step(t, l))
    decreases |labels|
  {
    if labels == [] {
    } else {
      RunOneMore(Step(s, labels[0]), labels[1..], t, l);
      assert (labels + [l])[1..] == labels[1..] + [l];
    }
  }

  // ----- What a subscriber sees -----

  /**
   In every reachable state nothing is lost, repeated or reordered: what was received, then what a cancel discarded,
   then the value in hand, then the queue is exactly what was published.  While no cancel has begun nothing is
   discarded; at any time the consumer has a prefix.
   */
  lemma DeliveryIsExact<T>(labels: seq<Label<T>>, t: State<T>)
    requires Runs(Init(), labels, t)
    ensures t.published == t.received + t.dropped + Hand(t.drain) + t.queue
    ensures t.stopper.Idle? ==> t.published == t.received + Hand(t.drain) + t.queue
    ensures t.received <= t.published
  {
    RunKeepsInv(Init<T>(), labels, t);
  }

  /** Each channel is closed at most once, and `out` is never sent on after it is closed. */
  lemma CloseOnce<T>(labels: seq<Label<T>>, t: State<T>)
    requires Runs(Init(), labels, t)
    ensures t.outCloses <= 1 && t.doneCloses <= 1 && t.finishedCloses <= 1
    ensures t.outCloses > 0 ==> !Enabled(t, HandOver) && !Enabled(t, CloseOut)
    ensures t.stopper.Returned? ==> t.outCloses == 1 && t.finishedCloses == 1 && t.queue == []
  {
    RunKeepsInv(Init<T>(), labels, t);
  }

  /** Once the drain is leaving, no continuation changes what was received or published. */
  lemma {:induction false} NothingAfterClose<T>(s: State<T>, labels: seq<Label<T>>, t: State<T>)
    requires Inv(s) && Leaving(s.drain) && Runs(s, labels, t)
    ensures t.received == s.received && t.published == s.published && t.dropped == s.dropped && t.queue == []
    ensures Leaving(t.drain)
    decreases |labels|
  {
    if labels != [] {
      StepKeepsInv(s, labels[0]);
      NothingAfterClose(Step(s, labels[0]), labels[1..], t);
    }
  }

  // ----- No lost wakeup -----

  /** A drain parked over a non-empty queue always has a wakeup on its way. */
  lemma NoLostWakeup<T>(labels: seq<Label<T>>, t: State<T>)
    requires Runs(Init(), labels, t) && t.drain.Parked? && t.queue != []
    ensures t.ready || t.signalling > 0 || t.doneCloses > 0
  {
    RunKeepsInv(Init<T>(), labels, t);
  }

  /** The blocks that move a value towards a consumer that is willing to receive. */
  predicate Moves<T>(l: Label<T>) {
    l.Signal? || l.Take? || l.WakeReady? || l.HandOver?
  }

  /** Work left before the last outstanding value is received. */
  function Backlog<T>(s: State<T>): nat {
    4 * (|s.queue| + |Hand(s.drain)|) + s.signalling + (if s.drain.Parked? then 2 else if s.drain.Top? then 1 else 0)
  }

  predicate Quiet<T>(s: State<T>) {
    !Enabled(s, Signal) && !Enabled(s, Take) && !Enabled(s, WakeReady) && !Enabled(s, HandOver)
  }

  /** While values are outstanding a moving block is enabled, and every moving block shrinks the backlog. */
  lemma OutstandingMoves<T>(s: State<T>)
    requires Inv(s) && !s.stopped && s.received != s.published
    ensures !Quiet(s)
    ensures forall l: Label<T> :: Moves(l) && Enabled(s, l) ==> Backlog(Step(s, l)) < Backlog(s)
  {
    if s.drain.Parked? {
      assert s.queue != [];
      assert Enabled(s, Signal) || Enabled(s, WakeReady);
      assert Moves<T>(Signal) && Moves<T>(WakeReady);
    } else if s.drain.Sending? {
      assert Enabled(s, HandOver) && Moves<T>(HandOver);
    } else {
      assert Enabled(s, Take) && Moves<T>(Take);
    }
  }

  /**
   Delivery cannot stall: from any reachable live state, a run of moving blocks that has nothing left to do has
   handed the consumer everything published, and needed at most `Backlog` blocks while values were outstanding.
   */
  lemma {:induction false} QuietMeansDelivered<T>(labels: seq<Label<T>>, t: State<T>)
    requires Runs(Init(), labels, t) && t.stopper.Idle? && Quiet(t)
    ensures t.received == t.published
  {
    RunKeepsInv(Init<T>(), labels, t);
    if t.received != t.published {
      OutstandingMoves(t);
    }
  }

  ghost predicate AllMove<T>(labels: seq<Label<T>>) {
    forall i :: 0 <= i < |labels| ==> Moves(labels[i])
  }

  /** Any run of moving blocks at least as long as the backlog delivers every value on the way. */
  lemma {:induction false} BacklogBoundsDelivery<T>(s: State<T>, labels: seq<Label<T>>, t: State<T>)
    requires Inv(s) && !s.stopped && Runs(s, labels, t) && AllMove(labels)
    requires |labels| >= Backlog(s)
    ensures t.received == t.published == s.published
    decreases |labels|
  {
    if s.received == s.published {
      StaysDelivered(s, labels, t);
    } else {
      OutstandingMoves(s);
      assert Moves(labels[0]);
      var s1 := Step(s, labels[0]);
      StepKeepsInv(s, labels[0]);
      BacklogBoundsDelivery(s1, labels[1..], t);
    }
  }

  lemma {:induction false} StaysDelivered<T>(s: State<T>, labels: seq<Label<T>>, t: State<T>)
    requires Inv(s) && !s.stopped && Runs(s, labels, t) && AllMove(labels) && s.received == s.published
    ensures t.received == t.published == s.published
    decreases |labels|
  {
    if labels != [] {
      assert Moves(labels[0]);
      StepKeepsInv(s, labels[0]);
      assert |s.queue| + |Hand(s.drain)| == 0;
      StaysDelivered(Step(s, labels[0]), labels[1..], t);
    }
  }

  // ----- A cancel always finishes -----

  predicate IsDrain<T>(l: Label<T>) {
    l.Take? || l.WakeReady? || l.WakeDone? || l.HandOver? || l.HandDrop? || l.CloseOut? || l.CloseFinished?
  }

  function DrainSteps<T>(labels: seq<Label<T>>): nat {
    if labels == [] then 0 else One(IsDrain(labels[0])) + DrainSteps(labels[1..])
  }

  function Rank<T>(d: Drain<T>): nat {
    match d
    case Sending(_) => 4
    case Parked => 4
    case Top => 3
    case ClosingOut => 2
    case ClosingFinished => 1
    case Ended => 0
  }

  /**
   After stop closed `done`: the drain always has a block that does not need the consumer, every drain block lowers
   the rank, and no other block raises it.
   */
  lemma StopDescends<T>(s: State<T>)
    requires Inv(s) && s.doneCloses > 0
    ensures !s.drain.Ended? ==> exists l: Label<T> :: IsDrain(l) && !l.HandOver? && Enabled(s, l)
    ensures forall l: Label<T> :: Enabled(s, l) ==>
      Rank(Step(s, l).drain) <= Rank(s.drain) - One(IsDrain(l))
    ensures s.drain.Ended? && s.stopper.Waiting? ==> Enabled(s, Return)
  {
    match s.drain
    case Sending(_) => assert Enabled(s, HandDrop) && IsDrain<T>(HandDrop);
    case Parked => assert Enabled(s, WakeDone) && IsDrain<T>(WakeDone);
    case Top => assert Enabled(s, Take) && IsDrain<T>(Take);
    case ClosingOut => assert Enabled(s, CloseOut) && IsDrain<T>(CloseOut);
    case ClosingFinished => assert Enabled(s, CloseFinished) && IsDrain<T>(CloseFinished);
    case Ended =>
  }

  /** At most four drain blocks run after `done` is closed, whatever the enqueuers and the consumer do. */
  lemma {:induction false} StopIsBounded<T>(s: State<T>, labels: seq<Label<T>>, t: State<T>)
    requires Inv(s) && s.doneCloses > 0 && Runs(s, labels, t)
    ensures DrainSteps(labels) + Rank(t.drain) <= Rank(s.drain) <= 4
    ensures t.doneCloses > 0
    decreases |labels|
  {
    if labels != [] {
      StopDescends(s);
      StepKeepsInv(s, labels[0]);
      StopIsBounded(Step(s, labels[0]), labels[1..], t);
    }
  }
}
