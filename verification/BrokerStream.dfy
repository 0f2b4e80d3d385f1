/**
 The objects of pkg/op/broker_stream.go: a subscription whose fields its goroutines update, and the stream that stamps
 sequence numbers and fans a value out to its subscribers.  Each method is one block of the protocol in
 `Subscription`; the ghost field `model` is that protocol's state and every method keeps the fields in step with it.
 */
module BrokerStream {
  import opened Subscription

  const SEQ_MODULUS: int := 0x1_0000_0000_0000_0000

  /** The sequence number after `seq`; uint64 wraps. */
  function NextSeq(seq_: nat): (r: nat)
    ensures r < SEQ_MODULUS
    ensures seq_ < 18_446_744_073_709_551_615 ==> r == seq_ + 1
    ensures seq_ == 18_446_744_073_709_551_615 ==> r == 0
  {
    (seq_ + 1) % SEQ_MODULUS
  }

  /** The state after enqueue's two blocks ran back to back. */
  function Enqueued<T>(s: State<T>, value: T): (t: State<T>)
    ensures t.ready && t.signalling == s.signalling
    ensures t.queue == if s.stopped then s.queue else s.queue + [value]
    ensures t.published == if s.stopped then s.published else s.published + [value]
    ensures t.received == s.received && t.drain == s.drain && t.stopper == s.stopper
  {
    Step(Step(s, Append(value)), Signal)
  }

  class Sub<T> {
    var queue: seq<T>
    var stopped: bool
    var ready: bool
    var doneClosed: bool
    var outClosed: bool
    var finishedClosed: bool
    var once: bool            // the sync.Once of the cancel function
    ghost var model: State<T>

    ghost predicate Valid()
      reads this
    {
      && Inv(model)
      && queue == model.queue && stopped == model.stopped && ready == model.ready
      && doneClosed == (model.doneCloses > 0) && outClosed == (model.outCloses > 0)
      && finishedClosed == (model.finishedCloses > 0)
      && once == !model.stopper.Idle?
    }

    constructor ()
      ensures Valid() && model == Init()
    {
      queue, stopped, ready := [], false, false;
      doneClosed, outClosed, finishedClosed, once := false, false, false, false;
      model := Init();
    }

    /** The locked section of enqueue, then its non-blocking send. */
    method Enqueue(value: T)
      requires Valid()
      modifies this
      ensures Valid() && model == Enqueued(old(model), value)
      ensures queue == if old(stopped) then old(queue) else old(queue) + [value]
    {
      StepKeepsInv(model, Append(value));
      StepKeepsInv(Step(model, Append(value)), Signal);
      if !stopped {
        queue := queue + [value];
      }
      ready := true;
      model := Enqueued(model, value);
    }

    /** The locked section at the top of drain's loop; `next` is where the drain goes. */
    method TakeLocked() returns (next: Drain<T>)
      requires Valid() && model.drain.Top?
      modifies this
      ensures Valid() && model == Step(old(model), Take) && next == model.drain
      ensures next.Sending? ==> old(queue) == [next.value] + queue
      ensures next.ClosingOut? <==> old(stopped)
    {
      StepKeepsInv(model, Take);
      model := Step(model, Take);
      if stopped {
        queue := [];
        return ClosingOut;
      }
      if queue == [] {
        return Parked;
      }
      next := Sending(queue[0]);
      queue := queue[1..];
    }

    /** The select of a parked drain; `token` says which ready case committed. */
    method Wake(token: bool)
      requires Valid() && model.drain.Parked?
      requires if token then ready else doneClosed
      modifies this
      ensures Valid() && model == Step(old(model), if token then WakeReady else WakeDone)
    {
      StepKeepsInv(model, if token then WakeReady else WakeDone);
      if token {
        ready := false;
        model := Step(model, WakeReady);
      } else {
        model := Step(model, WakeDone);
      }
    }

    /** The two deferred closes: out first, then finished. */
    method Leave()
      requires Valid() && model.drain.ClosingOut?
      modifies this
      ensures Valid() && model == Step(Step(old(model), CloseOut), CloseFinished)
      ensures outClosed && finishedClosed && !old(outClosed) && !old(finishedClosed)
    {
      StepKeepsInv(model, CloseOut);
      StepKeepsInv(Step(model, CloseOut), CloseFinished);
      outClosed := true;
      finishedClosed := true;
      model := Step(Step(model, CloseOut), CloseFinished);
    }

    /** stop up to the point where it waits: mark under the lock, then close done. */
    method Stop()
      requires Valid() && !once
      modifies this
      ensures Valid() && model == Step(Step(old(model), Mark), CloseDone)
      ensures stopped && doneClosed && !old(doneClosed)
    {
      StepKeepsInv(model, Mark);
      StepKeepsInv(Step(model, Mark), CloseDone);
      once := true;
      stopped := true;
      doneClosed := true;
      model := Step(Step(model, Mark), CloseDone);
    }
  }

  class Stream<T> {
    var seq_: nat                      // the last seq stamped
    var subscribers: set<Sub<T>>

    ghost predicate Valid()
      reads this, subscribers
    {
      forall sub :: sub in subscribers ==> sub.Valid() && !sub.once
    }

    constructor ()
      ensures Valid() && seq_ == 0 && subscribers == {}
    {
      seq_, subscribers := 0, {};
    }

    method Next() returns (stamp: nat)
      modifies this`seq_
      ensures stamp == seq_ == NextSeq(old(seq_))
    {
      seq_ := (seq_ + 1) % SEQ_MODULUS;
      stamp := seq_;
    }

    /** Every live subscriber, and no one else, gains the value exactly once, at the end of its queue. */
    method Publish(value: T)
      requires Valid()
      modifies subscribers
      ensures Valid()
      ensures forall sub :: sub in subscribers ==> sub.model == Enqueued(old(sub.model), value)
      ensures forall sub :: sub in subscribers ==> sub.queue == old(sub.queue) + [value]
    {
      hide Conserved;
      var rest := subscribers;
      while rest != {}
        invariant rest <= subscribers && Valid()
        invariant forall sub :: sub in rest ==> sub.model == old(sub.model) && sub.queue == old(sub.queue)
        invariant forall sub :: sub in subscribers - rest ==>
          sub.model == Enqueued(old(sub.model), value) && sub.queue == old(sub.queue) + [value]
      {
        var sub :| sub in rest;
        sub.Enqueue(value);
        rest := rest - {sub};
      }
    }

    method Subscribe() returns (sub: Sub<T>)
      requires Valid()
      modifies this`subscribers
      ensures Valid() && fresh(sub) && subscribers == old(subscribers) + {sub}
      ensures sub.model == Init()
    {
      sub := new Sub<T>();
      subscribers := subscribers + {sub};
    }

    /** The cancel function: idempotent; it leaves the subscriber set before it stops the drain. */
    method Cancel(sub: Sub<T>)
      requires Valid() && sub.Valid()
      modifies this`subscribers, sub
      ensures Valid() && sub.Valid()
      ensures old(sub.once) ==> subscribers == old(subscribers) && sub.model == old(sub.model)
      ensures !old(sub.once) ==> subscribers == old(subscribers) - {sub}
      ensures !old(sub.once) ==> sub.model == Step(Step(old(sub.model), Mark), CloseDone)
    {
      if !sub.once {
        subscribers := subscribers - {sub};
        sub.Stop();
      }
    }
  }
}
