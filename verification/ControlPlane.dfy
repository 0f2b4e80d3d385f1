/**
 The control plane (pkg/op/control_plane.go:72-161): commands in, events out, neither side ever blocking.  First the
 object with its channels, then every interleaving of its users.
 */
module ControlPlane {
  import opened Options

  const QUEUE := 16
  const BUFFER := 64

  datatype Command = Pause | Stop | Step

  datatype Response = Served(command: Command) | Unsupported(command: Command) | QueueFull

  /** A non-blocking send. */
  function Offer<T>(buffer: seq<T>, x: T, capacity: nat): seq<T> {
    if |buffer| < capacity then buffer + [x] else buffer
  }

  // ----- The object -----

  datatype Event = Event(seqNo: nat, kind: int)

  class EventChannel {
    var buffer: seq<Event>
    var closed: bool

    constructor ()
      ensures buffer == [] && !closed
    {
      buffer, closed := [], false;
    }
  }

  class ResponseChannel {
    var buffer: seq<Response>

    constructor ()
      ensures buffer == []
    {
      buffer := [];
    }

    /** A send into the one-place buffer, which never blocks while the channel is empty. */
    method Send(r: Response)
      requires buffer == []
      modifies this
      ensures buffer == [r]
    {
      buffer := [r];
    }
  }

  datatype Request = Request(command: Command, response: ResponseChannel)

  class Plane {
    var requests: seq<Request>
    var subscribers: set<EventChannel>
    var seqNo: nat

    /** Pending requests have distinct, unanswered channels; subscribed channels are open. */
    ghost predicate Valid()
      reads this, subscribers, set r | r in requests :: r.response
    {
      && |requests| <= QUEUE
      && (forall i :: 0 <= i < |requests| ==> requests[i].response.buffer == [])
      && (forall i, j :: 0 <= i < j < |requests| ==> requests[i].response != requests[j].response)
      && (forall c :: c in subscribers ==> !c.closed)
    }

    constructor ()
      ensures Valid() && requests == [] && subscribers == {} && seqNo == 0
    {
      requests, subscribers, seqNo := [], {}, 0;
    }

    /** Request: queued, or answered at once when the queue is full. */
    method Ask(command: Command) returns (response: ResponseChannel)
      requires Valid()
      modifies this`requests
      ensures Valid() && fresh(response)
      ensures old(|requests|) < 16 ==>
                requests == old(requests) + [Request(command, response)] && response.buffer == []
      ensures old(|requests|) == 16 ==> requests == old(requests) && response.buffer == [QueueFull]
    {
      response := new ResponseChannel();
      if |requests| < QUEUE {
        requests := requests + [Request(command, response)];
      } else {
        response.Send(QueueFull);
      }
    }

    /** poll: the oldest request, if any. */
    method Poll() returns (request: Option<Request>)
      requires Valid()
      modifies this`requests
      ensures Valid()
      ensures old(requests) == [] ==> request.None? && requests == []
      ensures old(requests) != [] ==> request == Some(old(requests)[0]) && requests == old(requests)[1..]
                                      && request.value.response.buffer == []
    {
      if |requests| == 0 {
        return None;
      }
      request := Some(requests[0]);
      requests := requests[1..];
    }

    method Subscribe() returns (c: EventChannel)
      requires Valid()
      modifies this`subscribers
      ensures Valid() && fresh(c) && c.buffer == [] && subscribers == old(subscribers) + {c}
    {
      c := new EventChannel();
      subscribers := subscribers + {c};
    }

    /** The unsubscribe: idempotent, so a channel is closed at most once. */
    method Cancel(c: EventChannel)
      requires Valid()
      modifies this`subscribers, c`closed
      ensures Valid() && subscribers == old(subscribers) - {c} && c.buffer == old(c.buffer)
      ensures c.closed == (old(c.closed) || c in old(subscribers))
    {
      if c in subscribers {
        subscribers := subscribers - {c};
        c.closed := true;
      }
    }

    /** emit: stamped, then offered to every open channel; a full one misses it. */
    method Emit(kind: int)
      requires Valid()
      modifies this`seqNo, subscribers
      ensures Valid() && seqNo == old(seqNo) + 1
      ensures forall c :: c in subscribers ==>
                c.buffer == if old(|c.buffer|) < 64 then old(c.buffer) + [Event(seqNo, kind)] else old(c.buffer)
    {
      seqNo := seqNo + 1;
      var event := Event(seqNo, kind);
      var rest := subscribers;
      while rest != {}
        invariant rest <= subscribers && Valid() && seqNo == old(seqNo) + 1
        invariant forall c :: c in subscribers && c !in rest ==> c.buffer == Offer(old(c.buffer), event, BUFFER)
        invariant forall c :: c in rest ==> c.buffer == old(c.buffer)
        decreases |rest|
      {
        var c :| c in rest;
        if |c.buffer| < BUFFER {
          c.buffer := c.buffer + [event];
        }
        rest := rest - {c};
      }
    }
  }

  // ----- Events, under every interleaving -----

  /**
   One subscription.  `at` is history: which fan-outs its events came from.  `from` and `until` delimit the fan-outs
   made while it was live.
   */
  datatype Sub = Sub(live: bool, received: seq<nat>, buffer: seq<nat>, from: nat, until: nat, at: seq<nat>,
                     dropped: nat)

  /**
   `order` lists the sequence numbers in the order of their fan-outs; `flight` those stamped but not yet fanned out.
   */
  datatype Stream = Stream(counter: nat, order: seq<nat>, flight: map<nat, nat>, subs: seq<Sub>)

  datatype Move =
    | Stamp(emitter: nat)             // p.seq.Add(1), outside the lock
    | FanOut(emitter: nat)            // under the lock
    | Join                            // Subscribe
    | Quit(sub: nat)                  // cancel
    | Receive(sub: nat)

  function Fanned(s: Sub, x: nat, k: nat): Sub {
    if !s.live then s
    else if |s.buffer| < BUFFER then s.(buffer := s.buffer + [x], at := s.at + [k], until := k + 1)
    else s.(dropped := s.dropped + 1, until := k + 1)
  }

  function FanAll(subs: seq<Sub>, x: nat, k: nat): (r: seq<Sub>)
    ensures |r| == |subs| && forall i :: 0 <= i < |r| ==> r[i] == Fanned(subs[i], x, k)
  {
    if subs == [] then [] else FanAll(subs[..|subs|-1], x, k) + [Fanned(subs[|subs|-1], x, k)]
  }

  /** None when the move is not enabled. */
  function Next(s: Stream, m: Move): Option<Stream> {
    match m
    case Stamp(e) =>
      if e in s.flight then None else Some(s.(counter := s.counter + 1, flight := s.flight[e := s.counter + 1]))
    case FanOut(e) =>
      if e !in s.flight then None
      else Some(s.(order := s.order + [s.flight[e]], flight := s.flight - {e},
                   subs := FanAll(s.subs, s.flight[e], |s.order|)))
    case Join => Some(s.(subs := s.subs + [Sub(true, [], [], |s.order|, |s.order|, [], 0)]))
    case Quit(i) =>
      if i >= |s.subs| then None else Some(s.(subs := s.subs[i := s.subs[i].(live := false)]))
    case Receive(i) =>
      if i >= |s.subs| || s.subs[i].buffer == [] then None
      else
        var sub := s.subs[i];
        Some(s.(subs := s.subs[i := sub.(received := sub.received + [sub.buffer[0]], buffer := sub.buffer[1..])]))
  }

  function Begin(): Stream {
    Stream(0, [], map[], [])
  }

  function Run(moves: seq<Move>): Option<Stream> {
    if moves == [] then Some(Begin())
    else
      match Run(moves[..|moves|-1])
      case None => None
      case Some(s) => Next(s, moves[|moves|-1])
  }

  ghost predicate Increasing(s: seq<nat>) {
    forall i, j :: 0 <= i < j < |s| ==> s[i] < s[j]
  }

  /** A subscriber's events are exactly the picked fan-outs of its lifetime, in order; the others were dropped. */
  ghost predicate SubInv(sub: Sub, order: seq<nat>) {
    var got := sub.received + sub.buffer;
    && sub.from <= sub.until <= |order| && (sub.live ==> sub.until == |order|)
    && |sub.at| == |got| && Increasing(sub.at)
    && (forall i :: 0 <= i < |sub.at| ==> sub.from <= sub.at[i] < sub.until && got[i] == order[sub.at[i]])
    && |got| + sub.dropped == sub.until - sub.from
    && |sub.buffer| <= BUFFER
  }

  ghost predicate Distinct(s: seq<nat>) {
    forall i, j :: 0 <= i < j < |s| ==> s[i] != s[j]
  }

  /** Every stamp so far is in flight or fanned out, once. */
  ghost predicate StampInv(s: Stream) {
    && Distinct(s.order)
    && (forall i :: 0 <= i < |s.order| ==> 1 <= s.order[i] <= s.counter)
    && (forall e :: e in s.flight ==> 1 <= s.flight[e] <= s.counter && s.flight[e] !in s.order)
    && (forall e, f :: e in s.flight && f in s.flight && e != f ==> s.flight[e] != s.flight[f])
    && (forall n :: 1 <= n <= s.counter ==> n in s.order || InFlight(s.flight, n))
  }

  ghost predicate InFlight(flight: map<nat, nat>, n: nat) {
    exists e :: e in flight && flight[e] == n
  }

  ghost predicate Inv(s: Stream) {
    StampInv(s) && forall i :: 0 <= i < |s.subs| ==> SubInv(s.subs[i], s.order)
  }

  lemma FannedKeeps(sub: Sub, order: seq<nat>, x: nat)
    requires SubInv(sub, order)
    ensures SubInv(Fanned(sub, x, |order|), order + [x])
  {
    var after := Fanned(sub, x, |order|);
    assert forall i :: 0 <= i < |order| ==> (order + [x])[i] == order[i];
    if sub.live && |sub.buffer| < BUFFER {
      assert after.received + after.buffer == (sub.received + sub.buffer) + [x];
    }
  }

  lemma StampKeeps(s: Stream, e: nat)
    requires StampInv(s) && e !in s.flight
    ensures StampInv(Next(s, Stamp(e)).value)
  {
    var t := Next(s, Stamp(e)).value;
    hide InFlight;
    forall n | 1 <= n <= t.counter ensures n in t.order || InFlight(t.flight, n) {
      MoreFlight(s.flight, e, s.counter + 1, n);
    }
  }

  lemma MoreFlight(flight: map<nat, nat>, e: nat, x: nat, n: nat)
    requires e !in flight
    ensures InFlight(flight[e := x], n) <==> n == x || InFlight(flight, n)
  {
    assert e in flight[e := x];
    assert forall f :: f in flight ==> f in flight[e := x] && flight[e := x][f] == flight[f];
  }

  lemma LessFlight(flight: map<nat, nat>, e: nat, n: nat)
    requires e in flight
    ensures InFlight(flight, n) ==> n == flight[e] || InFlight(flight - {e}, n)
  {
    assert forall f :: f in flight && f != e ==> f in flight - {e};
  }

  lemma FanOutKeeps(s: Stream, e: nat)
    requires StampInv(s) && e in s.flight
    ensures StampInv(Next(s, FanOut(e)).value)
  {
    var t := Next(s, FanOut(e)).value;
    assert t.order == s.order + [s.flight[e]];
    hide InFlight;
    forall n | 1 <= n <= t.counter ensures n in t.order || InFlight(t.flight, n) {
      LessFlight(s.flight, e, n);
      assert n in t.order <==> n in s.order || n == s.flight[e];
    }
  }

  lemma StepKeepsInv(s: Stream, m: Move)
    requires Inv(s) && Next(s, m).Some?
    ensures Inv(Next(s, m).value)
  {
    hide StampInv, SubInv;
    match m
    case Stamp(e) => StampKeeps(s, e);
    case FanOut(e) =>
      FanOutKeeps(s, e);
      forall i | 0 <= i < |s.subs| ensures SubInv(FanAll(s.subs, s.flight[e], |s.order|)[i], s.order + [s.flight[e]]) {
        FannedKeeps(s.subs[i], s.order, s.flight[e]);
      }
    case Join =>
      SameStamps(s, Next(s, m).value);
      JoinKeeps(s.order);
    case Quit(i) =>
      SameStamps(s, Next(s, m).value);
      QuitKeeps(s.subs[i], s.order);
    case Receive(i) =>
      SameStamps(s, Next(s, m).value);
      ReceiveKeeps(s.subs[i], s.order);
  }

  lemma SameStamps(s: Stream, t: Stream)
    requires StampInv(s) && t.counter == s.counter && t.order == s.order && t.flight == s.flight
    ensures StampInv(t)
  {
  }

  lemma JoinKeeps(order: seq<nat>)
    ensures SubInv(Sub(true, [], [], |order|, |order|, [], 0), order)
  {
  }

  lemma QuitKeeps(sub: Sub, order: seq<nat>)
    requires SubInv(sub, order)
    ensures SubInv(sub.(live := false), order)
  {
  }

  lemma ReceiveKeeps(sub: Sub, order: seq<nat>)
    requires SubInv(sub, order) && sub.buffer != []
    ensures SubInv(sub.(received := sub.received + [sub.buffer[0]], buffer := sub.buffer[1..]), order)
  {
    assert (sub.received + [sub.buffer[0]]) + sub.buffer[1..] == sub.received + sub.buffer;
  }

  lemma {:induction false} RunKeepsInv(moves: seq<Move>)
    requires Run(moves).Some?
    ensures Inv(Run(moves).value)
    decreases |moves|
  {
    if moves != [] {
      RunKeepsInv(moves[..|moves|-1]);
      StepKeepsInv(Run(moves[..|moves|-1]).value, moves[|moves|-1]);
    }
  }

  /**
   In every run each subscriber has got, in fan-out order and without repetition, a subsequence of the fan-outs made
   while it was subscribed, and what it missed is counted exactly.
   */
  lemma SubscriberSees(moves: seq<Move>, i: nat)
    requires Run(moves).Some? && i < |Run(moves).value.subs|
    ensures var s := Run(moves).value;
            var sub := s.subs[i];
            var got := sub.received + sub.buffer;
            && |sub.at| == |got| && Increasing(sub.at)
            && (forall k :: 0 <= k < |got| ==>
                  sub.from <= sub.at[k] < sub.until <= |s.order| && got[k] == s.order[sub.at[k]])
            && Distinct(got)
            && |got| + sub.dropped == sub.until - sub.from
  {
    RunKeepsInv(moves);
    var s := Run(moves).value;
    var sub := s.subs[i];
    var got := sub.received + sub.buffer;
    assert SubInv(sub, s.order);
    forall j, k | 0 <= j < k < |got| ensures got[j] != got[k] {
      assert sub.at[j] < sub.at[k];
    }
  }

  /** After a subscription is cancelled nothing more is sent to it: only the buffer it had can still be received. */
  lemma NothingAfterCancel(s: Stream, m: Move, i: nat)
    requires Next(s, m).Some? && i < |s.subs| && !s.subs[i].live
    ensures var t := Next(s, m).value;
            && i < |t.subs| && !t.subs[i].live
            && t.subs[i].received + t.subs[i].buffer == s.subs[i].received + s.subs[i].buffer
  {
    var t := Next(s, m).value;
    if m == Receive(i) {
      var sub := s.subs[i];
      assert (sub.received + [sub.buffer[0]]) + sub.buffer[1..] == sub.received + sub.buffer;
    }
  }

  /** A fan-out reaches every live subscriber with room for it among its 64, and costs every other live one a drop. */
  lemma FanOutMeans(s: Stream, e: nat, i: nat)
    requires e in s.flight && i < |s.subs|
    ensures var t := Next(s, FanOut(e)).value;
            && |t.subs| == |s.subs| && t.order == s.order + [s.flight[e]] && t.counter == s.counter
            && var before, after := s.subs[i], t.subs[i];
            && after.live == before.live && after.received == before.received
            && (before.live && |before.buffer| < 64 ==>
                 after.buffer == before.buffer + [s.flight[e]] && after.dropped == before.dropped)
            && (before.live && |before.buffer| >= 64 ==>
                 after.buffer == before.buffer && after.dropped == before.dropped + 1)
            && (!before.live ==> after == before)
  {
  }

  // ----- What the numbers tell -----

  /** The emit takes its turn: no stamp in flight is smaller. */
  ghost predicate TakesFirst(s: Stream, e: nat) {
    e in s.flight ==> forall f :: f in s.flight ==> s.flight[e] <= s.flight[f]
  }

  /** Events are fanned out in the order they were stamped. */
  ghost predicate InStampOrder(moves: seq<Move>) {
    moves == [] ||
    (InStampOrder(moves[..|moves|-1]) &&
     (moves[|moves|-1].FanOut? && Run(moves[..|moves|-1]).Some? ==>
        TakesFirst(Run(moves[..|moves|-1]).value, moves[|moves|-1].emitter)))
  }

  /** Fan-outs are numbered 1, 2, 3, and so on. */
  ghost predicate InStep(order: seq<nat>) {
    forall k :: 0 <= k < |order| ==> order[k] == k + 1
  }

  lemma {:induction false} InStepExactly(moves: seq<Move>)
    requires Run(moves).Some?
    ensures InStampOrder(moves) <==> InStep(Run(moves).value.order)
    decreases |moves|
  {
    if moves != [] {
      var n := |moves| - 1;
      var s := Run(moves[..n]).value;
      RunKeepsInv(moves[..n]);
      InStepExactly(moves[..n]);
      if moves[n].FanOut? {
        OneMoreInStep(s, moves[n].emitter);
      }
    }
  }

  lemma OneMoreInStep(s: Stream, e: nat)
    requires StampInv(s) && e in s.flight
    ensures InStep(s.order) && TakesFirst(s, e) <==> InStep(s.order + [s.flight[e]])
  {
    var n, x := |s.order|, s.flight[e];
    var more := s.order + [x];
    assert forall k :: 0 <= k < n ==> more[k] == s.order[k];
    assert more[n] == x;
    if InStep(s.order) {
      forall v | 1 <= v <= n ensures v in s.order {
        assert s.order[v - 1] == v;
      }
      assert forall f :: f in s.flight ==> s.flight[f] > n;
      if x > n + 1 {
        assert 1 <= n + 1 <= s.counter;
        assert n + 1 !in s.order;
        assert InFlight(s.flight, n + 1);
      }
    }
  }

  /** A subscriber's numbers are the positions of its events among all that were fanned out. */
  ghost predicate NumbersArePositions(sub: Sub) {
    && |sub.at| == |sub.received + sub.buffer|
    && forall k :: 0 <= k < |sub.at| ==> (sub.received + sub.buffer)[k] == sub.at[k] + 1
  }

  /** Between two consecutive numbers a subscriber received lie exactly as many as it dropped in between. */
  ghost predicate GapsCount(sub: Sub) {
    && |sub.at| == |sub.received + sub.buffer|
    && forall k :: 0 < k < |sub.at| ==>
      (sub.received + sub.buffer)[k] + sub.at[k-1] == (sub.received + sub.buffer)[k-1] + sub.at[k]
  }

  /** A subscriber that was there from the beginning and missed nothing. */
  function Listener(order: seq<nat>): Sub {
    Sub(true, order, [], 0, |order|, seq(|order|, (k: nat) => k), 0)
  }

  lemma ListenerSees(order: seq<nat>)
    ensures SubInv(Listener(order), order)
  {
    assert order + [] == order;
  }

  lemma ListenerPositions(order: seq<nat>)
    ensures NumbersArePositions(Listener(order)) <==> InStep(order)
  {
    var l := Listener(order);
    assert l.received + l.buffer == order;
    assert forall k :: 0 <= k < |order| ==> l.at[k] == k;
  }

  /** Consecutive numbers that begin at 1: a listener's gaps and the completeness of the stamps say it. */
  lemma {:induction false} StepsAdd(order: seq<nat>, k: nat)
    requires k < |order| && forall j :: 0 < j < |order| ==> order[j] == order[j-1] + 1
    ensures order[k] == order[0] + k
    decreases k
  {
    if k > 0 {
      StepsAdd(order, k - 1);
    }
  }

  lemma ListenerInStep(s: Stream)
    requires StampInv(s) && s.flight == map[] && GapsCount(Listener(s.order))
    ensures InStep(s.order)
  {
    var order := s.order;
    assert order + [] == order;
    if order != [] {
      var l := Listener(order);
      assert l.received + l.buffer == order;
      forall j | 0 < j < |order| ensures order[j] == order[j-1] + 1 {
        assert l.at[j] == j && l.at[j-1] == j - 1;
      }
      assert 1 <= order[0] <= s.counter;
      assert 1 in order || InFlight(s.flight, 1);
      var i :| 0 <= i < |order| && order[i] == 1;
      StepsAdd(order, i);
      forall k | 0 <= k < |order| ensures order[k] == k + 1 {
        StepsAdd(order, k);
      }
    }
  }

  /**
   Of everything SubInv allows a subscriber to have seen, numbers are positions, and gaps count drops, in order only.
   */
  lemma AnyoneCountsExactly(moves: seq<Move>)
    requires Run(moves).Some?
    ensures var s := Run(moves).value;
            && ((forall sub: Sub :: SubInv(sub, s.order) ==> NumbersArePositions(sub)) <==> InStampOrder(moves))
            && (s.flight == map[] ==>
                 ((forall sub: Sub :: SubInv(sub, s.order) ==> GapsCount(sub)) <==> InStampOrder(moves)))
  {
    hide InStampOrder;
    var s := Run(moves).value;
    InStepExactly(moves);
    ListenerSees(s.order);
    if InStep(s.order) {
      forall sub: Sub | SubInv(sub, s.order) ensures NumbersArePositions(sub) && GapsCount(sub) {
        PositionsCount(sub, s.order);
      }
    } else {
      ListenerErrs(moves);
    }
  }

  /** Out of stamp order the listener's numbers are no positions, nor do its gaps count once every emit is over. */
  lemma ListenerErrs(moves: seq<Move>)
    requires Run(moves).Some? && !InStep(Run(moves).value.order)
    ensures var l := Listener(Run(moves).value.order);
            !NumbersArePositions(l) && (Run(moves).value.flight == map[] ==> !GapsCount(l))
  {
    var s := Run(moves).value;
    RunKeepsInv(moves);
    ListenerSees(s.order);
    ListenerPositions(s.order);
    if s.flight == map[] && GapsCount(Listener(s.order)) {
      ListenerInStep(s);
      assert false;
    }
  }

  /** What the emitters did in a run, whoever subscribed. */
  function Emits(moves: seq<Move>): seq<Move> {
    if moves == [] then []
    else
      var m := moves[|moves|-1];
      Emits(moves[..|moves|-1]) + if m.Stamp? || m.FanOut? then [m] else []
  }

  /** A run in which the emitters did the same. */
  ghost predicate Alike(run: seq<Move>, moves: seq<Move>) {
    Run(run).Some? && Emits(run) == Emits(moves)
  }

  ghost predicate AllPositions(subs: seq<Sub>) {
    forall i :: 0 <= i < |subs| ==> NumbersArePositions(subs[i])
  }

  ghost predicate AllCount(subs: seq<Sub>) {
    forall i :: 0 <= i < |subs| ==> GapsCount(subs[i])
  }

  /** The emitters alone decide the numbers and the order of the fan-outs. */
  lemma {:induction false} EmitsDecide(moves: seq<Move>)
    requires Run(moves).Some?
    ensures Run(Emits(moves)).Some?
    ensures Run(Emits(moves)).value.(subs := []) == Run(moves).value.(subs := [])
    decreases |moves|
  {
    if moves != [] {
      var n := |moves| - 1;
      EmitsDecide(moves[..n]);
      var es := Emits(moves[..n]);
      var s, t := Run(moves[..n]).value, Run(es).value;
      StepEmits(s, t, moves[n]);
      if moves[n].Stamp? || moves[n].FanOut? {
        assert Emits(moves) == es + [moves[n]];
        var _ := RunOne(es, moves[n]);
      } else {
        assert Emits(moves) == es;
      }
    }
  }

  lemma StepEmits(s: Stream, t: Stream, m: Move)
    requires s.(subs := []) == t.(subs := []) && Next(s, m).Some?
    ensures if m.Stamp? || m.FanOut? then
              Next(t, m).Some? && Next(t, m).value.(subs := []) == Next(s, m).value.(subs := [])
            else
              Next(s, m).value.(subs := []) == s.(subs := [])
  {
  }

  /** The same emits, heard by one subscriber that joins first and receives each event at once. */
  function Heard(moves: seq<Move>): seq<Move> {
    if moves == [] then [Join]
    else
      var m := moves[|moves|-1];
      Heard(moves[..|moves|-1]) + if m.Stamp? then [m] else if m.FanOut? then [m, Receive(0)] else []
  }

  /** It gets everything, in the order of the fan-outs. */
  lemma {:induction false} HeardInFull(moves: seq<Move>)
    requires Run(moves).Some?
    ensures Alike(Heard(moves), moves)
    ensures Run(Heard(moves)).value == Run(moves).value.(subs := [Listener(Run(moves).value.order)])
    decreases |moves|
  {
    hide Listener, Emits, Heard, Next;
    if moves == [] {
      HeardNothing();
    } else {
      HeardInFull(moves[..|moves|-1]);
      HeardOne(moves[..|moves|-1], moves[|moves|-1]);
      assert moves[..|moves|-1] + [moves[|moves|-1]] == moves;
    }
  }

  lemma HeardNothing()
    ensures Alike(Heard([]), []) && Run(Heard([])).value == Begin().(subs := [Listener([])])
  {
    assert [Join][..0] == [];
    assert Listener([]) == Sub(true, [], [], 0, 0, [], 0);
  }

  lemma HeardGrows(moves: seq<Move>, m: Move)
    ensures Heard(moves + [m]) ==
              Heard(moves) + if m.Stamp? then [m] else if m.FanOut? then [m, Receive(0)] else []
  {
    assert (moves + [m])[..|moves|] == moves;
  }

  lemma HeardOne(moves: seq<Move>, m: Move)
    requires Run(moves).Some? && Next(Run(moves).value, m).Some? && Alike(Heard(moves), moves)
    requires Run(Heard(moves)).value == Run(moves).value.(subs := [Listener(Run(moves).value.order)])
    ensures Alike(Heard(moves + [m]), moves + [m])
    ensures var t := Next(Run(moves).value, m).value;
            Run(Heard(moves + [m])).value == t.(subs := [Listener(t.order)])
  {
    hide Listener, Emits, Heard, Run;
    var before := Heard(moves);
    HeardGrows(moves, m);
    EmitsOne(moves, m);
    if m.Stamp? {
      EmitsOne(before, m);
      var _ := RunOne(before, m);
    } else if m.FanOut? {
      HeardFan(before, Run(moves).value, m.emitter);
    } else {
      assert before + [] == before;
    }
  }

  lemma ListenerHears(order: seq<nat>, x: nat)
    ensures var got := Fanned(Listener(order), x, |order|);
            got.buffer == [x] && got.(received := got.received + [x], buffer := [x][1..]) == Listener(order + [x])
  {
    assert Fanned(Listener(order), x, |order|).at == Listener(order + [x]).at;
  }

  lemma HeardFan(before: seq<Move>, s: Stream, e: nat)
    requires e in s.flight
    requires Run(before).Some? && Run(before).value == s.(subs := [Listener(s.order)])
    ensures var more := before + [FanOut(e), Receive(0)];
            Run(more).Some? && Run(more).value == Next(s, FanOut(e)).value.(subs := [Listener(s.order + [s.flight[e]])])
    ensures Emits(before + [FanOut(e), Receive(0)]) == Emits(before) + [FanOut(e)]
  {
    hide Listener, Fanned;
    var x := s.flight[e];
    var f := RunOne(before, FanOut(e));
    ListenerHears(s.order, x);
    var got := Fanned(Listener(s.order), x, |s.order|);
    assert f.subs == [got];
    assert Next(f, Receive(0)).value.subs[0] == Listener(s.order + [x]);
    var fanned := before + [FanOut(e)];
    var r := RunOne(fanned, Receive(0));
    assert fanned + [Receive(0)] == before + [FanOut(e), Receive(0)];
    EmitsOne(before, FanOut(e));
    EmitsOne(fanned, Receive(0));
  }

  lemma EmitsOne(moves: seq<Move>, m: Move)
    ensures Emits(moves + [m]) == if m.Stamp? || m.FanOut? then Emits(moves) + [m] else Emits(moves)
  {
    assert (moves + [m])[..|moves|] == moves;
    assert Emits(moves) + [] == Emits(moves);
  }

  /**
   Whoever subscribes, whenever it joins and whatever it drops, its numbers are positions if and only if events are
   fanned out in the order they were stamped; and when no emit is under way, its gaps count its drops if and only if
   they were.
   */
  lemma GapsCountExactly(moves: seq<Move>)
    requires Run(moves).Some?
    ensures (forall run :: Alike(run, moves) ==> AllPositions(Run(run).value.subs)) <==> InStampOrder(moves)
    ensures Run(moves).value.flight == map[] ==>
              ((forall run :: Alike(run, moves) ==> AllCount(Run(run).value.subs)) <==> InStampOrder(moves))
  {
    hide InStampOrder, NumbersArePositions, GapsCount, Listener, Emits, Heard;
    InStepExactly(moves);
    EmitsDecide(moves);
    if InStep(Run(moves).value.order) {
      forall run | Alike(run, moves) ensures AllPositions(Run(run).value.subs) && AllCount(Run(run).value.subs) {
        EmitsDecide(run);
        RunKeepsInv(run);
        var s := Run(run).value;
        forall i | 0 <= i < |s.subs| ensures NumbersArePositions(s.subs[i]) && GapsCount(s.subs[i]) {
          PositionsCount(s.subs[i], s.order);
        }
      }
    } else {
      HeardInFull(moves);
      ListenerErrs(moves);
      var l := Listener(Run(moves).value.order);
      assert Run(Heard(moves)).value.subs[0] == l;
      assert !AllPositions(Run(Heard(moves)).value.subs);
    }
  }

  lemma PositionsCount(sub: Sub, order: seq<nat>)
    requires SubInv(sub, order) && InStep(order)
    ensures NumbersArePositions(sub) && GapsCount(sub)
  {
    var got := sub.received + sub.buffer;
    assert forall k :: 0 <= k < |sub.at| ==> got[k] == order[sub.at[k]] == sub.at[k] + 1;
  }

  /**
   Then the numbers in a gap are exactly events fanned out to this subscriber and not kept: of two consecutive received
   numbers the second is larger, and what lies between was dropped.
   */
  lemma GapsCountDrops(moves: seq<Move>, i: nat, k: nat)
    requires InStampOrder(moves) && Run(moves).Some? && i < |Run(moves).value.subs|
    requires var sub := Run(moves).value.subs[i]; k + 1 < |sub.received + sub.buffer|
    ensures var sub := Run(moves).value.subs[i];
            var got := sub.received + sub.buffer;
            && |sub.at| == |got| && got[k] < got[k + 1] && got[k] == sub.at[k] + 1 && got[k + 1] == sub.at[k + 1] + 1
            && (forall x :: sub.at[k] < x < sub.at[k + 1] ==> sub.from <= x < sub.until && x !in sub.at)
  {
    hide InStampOrder;
    SubscriberSees(moves, i);
    InStepExactly(moves);
    var sub := Run(moves).value.subs[i];
    var got := sub.received + sub.buffer;
    assert forall j :: 0 <= j < |sub.at| ==> sub.at[j] <= sub.at[k] || sub.at[k + 1] <= sub.at[j] by {
      forall j | 0 <= j < |sub.at| ensures sub.at[j] <= sub.at[k] || sub.at[k + 1] <= sub.at[j] {
        if j <= k {
          assert j == k || sub.at[j] < sub.at[k];
        } else {
          assert j == k + 1 || sub.at[k + 1] < sub.at[j];
        }
      }
    }
  }

  /** At most one emit is ever under way. */
  predicate OneAtATime(moves: seq<Move>) {
    moves == [] ||
    (OneAtATime(moves[..|moves|-1]) &&
     (moves[|moves|-1].Stamp? && Run(moves[..|moves|-1]).Some? ==> Run(moves[..|moves|-1]).value.flight == map[]))
  }

  /** A single emitter fans out in stamp order; so its subscribers' gaps count their drops. */
  lemma {:induction false} OneEmitterInOrder(moves: seq<Move>)
    requires OneAtATime(moves) && Run(moves).Some?
    ensures InStampOrder(moves)
    ensures forall e, f :: e in Run(moves).value.flight && f in Run(moves).value.flight ==> e == f
    decreases |moves|
  {
    if moves != [] {
      OneEmitterInOrder(moves[..|moves|-1]);
    }
  }

  /** Two emitters can fan out in the opposite order of their stamps, so a subscriber's numbers can go down. */
  lemma TwoEmittersInvert()
    ensures var moves := [Join, Stamp(0), Stamp(1), FanOut(1), FanOut(0)];
            Run(moves).Some? && |Run(moves).value.subs| == 1 && Run(moves).value.subs[0].buffer == [2, 1]
  {
    var s0 := RunOne([], Join);
    var s1 := RunOne([Join], Stamp(0));
    var s2 := RunOne([Join, Stamp(0)], Stamp(1));
    var s3 := RunOne([Join, Stamp(0), Stamp(1)], FanOut(1));
    assert s3.subs == [Fanned(Sub(true, [], [], 0, 0, [], 0), 2, 0)];
    assert s3.flight == map[0 := 1];
    assert [Join, Stamp(0), Stamp(1)] + [FanOut(1)] == [Join, Stamp(0), Stamp(1), FanOut(1)];
    var s4 := RunOne([Join, Stamp(0), Stamp(1), FanOut(1)], FanOut(0));
    assert s4.subs == [Fanned(s3.subs[0], 1, 1)];
    assert [Join, Stamp(0), Stamp(1), FanOut(1)] + [FanOut(0)] == [Join, Stamp(0), Stamp(1), FanOut(1), FanOut(0)];
  }

  lemma RunOne(moves: seq<Move>, m: Move) returns (s: Stream)
    requires Run(moves).Some? && Next(Run(moves).value, m).Some?
    ensures Run(moves + [m]) == Some(s) && s == Next(Run(moves).value, m).value
  {
    assert (moves + [m])[..|moves|] == moves;
    s := Next(Run(moves).value, m).value;
  }

  // ----- Commands, under every interleaving -----

  /**
   Requests are numbered in the order they are made.  `hands` holds what each executor drained and has not answered;
   `answers` counts the sends on each response channel.
   */
  datatype Desk = Desk(made: nat, accepted: seq<nat>, queue: seq<nat>, polled: seq<nat>, hands: map<nat, nat>,
                       rejected: set<nat>, answers: map<nat, nat>)

  datatype Turn = Make | Drain(executor: nat) | Answer(executor: nat)

  function Answered(d: Desk, id: nat): Desk {
    d.(answers := d.answers[id := (if id in d.answers then d.answers[id] else 0) + 1])
  }

  function Act(d: Desk, t: Turn): Option<Desk> {
    match t
    case Make =>
      var next := d.(made := d.made + 1);
      if |d.queue| < QUEUE then Some(next.(accepted := d.accepted + [d.made], queue := d.queue + [d.made]))
      else Some(Answered(next.(rejected := d.rejected + {d.made}), d.made))
    case Drain(e) =>
      if d.queue == [] || e in d.hands then None
      else Some(d.(queue := d.queue[1..], polled := d.polled + [d.queue[0]], hands := d.hands[e := d.queue[0]]))
    case Answer(e) =>
      if e !in d.hands then None else Some(Answered(d.(hands := d.hands - {e}), d.hands[e]))
  }

  function Acts(turns: seq<Turn>): Option<Desk> {
    if turns == [] then Some(Desk(0, [], [], [], map[], {}, map[]))
    else
      match Acts(turns[..|turns|-1])
      case None => None
      case Some(d) => Act(d, turns[|turns|-1])
  }

  ghost predicate InHand(hands: map<nat, nat>, id: nat) {
    exists e :: e in hands && hands[e] == id
  }

  /** Requests still owed an answer. */
  ghost predicate Owed(d: Desk, id: nat) {
    id in d.queue || InHand(d.hands, id)
  }

  /** Accepted requests are drained in order; every other one was rejected. */
  ghost predicate OrderInv(d: Desk) {
    && d.accepted == d.polled + d.queue && |d.queue| <= QUEUE
    && Increasing(d.accepted) && (forall i :: 0 <= i < |d.accepted| ==> d.accepted[i] < d.made)
    && (forall id :: id in d.rejected ==> id < d.made && id !in d.accepted)
    && (forall id: nat :: id < d.made ==> id in d.accepted || id in d.rejected)
  }

  /** What executors hold was drained, and no two hold the same request. */
  ghost predicate HandInv(d: Desk) {
    && (forall e :: e in d.hands ==> d.hands[e] in d.polled)
    && (forall e, f :: e in d.hands && f in d.hands && e != f ==> d.hands[e] != d.hands[f])
  }

  /** One answer each, to the rejected and to what was drained and is not in hand. */
  ghost predicate AnswerInv(d: Desk) {
    && (forall id :: id in d.answers ==> d.answers[id] == 1)
    && (forall id :: id in d.answers <==> id in d.rejected || (id in d.polled && !InHand(d.hands, id)))
  }

  ghost predicate DeskInv(d: Desk) {
    OrderInv(d) && HandInv(d) && AnswerInv(d)
  }

  /** A request is queued behind at most fifteen others, or else rejected and answered at once. */
  lemma MakeMeans(d: Desk)
    requires DeskInv(d)
    ensures var t := Act(d, Make).value;
            && t.made == d.made + 1 && t.polled == d.polled && t.hands == d.hands
            && (|d.queue| < 16 ==>
                 t.queue == d.queue + [d.made] && t.answers == d.answers && t.rejected == d.rejected)
            && (|d.queue| >= 16 ==>
                 t.queue == d.queue && t.rejected == d.rejected + {d.made}
                 && t.answers == d.answers[d.made := 1])
  {
    hide InHand, Increasing;
    if d.made in d.polled {
      Apart(d, d.made);
    }
  }

  /** A drained request is neither queued nor rejected. */
  lemma Apart(d: Desk, id: nat)
    requires OrderInv(d) && id in d.polled
    ensures id !in d.queue && id !in d.rejected && id < d.made
  {
    var p :| 0 <= p < |d.polled| && d.polled[p] == id;
    assert d.accepted[p] == id;
    forall q | 0 <= q < |d.queue| ensures d.queue[q] != id {
      assert d.accepted[|d.polled| + q] == d.queue[q];
    }
  }

  lemma MakeKeeps(d: Desk)
    requires DeskInv(d)
    ensures DeskInv(Act(d, Make).value)
  {
    hide HandInv, AnswerInv, InHand, Increasing;
    var t := Act(d, Make).value;
    AcceptOne(d.accepted, d.made);
    assert d.accepted + [d.made] == d.polled + (d.queue + [d.made]);
    assert d.made !in d.accepted;
    assert d.made !in d.polled by {
      if d.made in d.polled {
        Apart(d, d.made);
      }
    }
    assert OrderInv(t);
    assert HandInv(t) by {
      SameHands(d, t);
    }
    assert AnswerInv(t) by {
      MakeAnswers(d);
    }
  }

  lemma AcceptOne(accepted: seq<nat>, id: nat)
    ensures Increasing(accepted) && (forall i :: 0 <= i < |accepted| ==> accepted[i] < id) ==>
              Increasing(accepted + [id])
    ensures forall x :: x in accepted + [id] <==> x in accepted || x == id
  {
  }

  lemma SameHands(d: Desk, t: Desk)
    requires HandInv(d) && t.hands == d.hands && t.polled == d.polled
    ensures HandInv(t)
  {
  }

  lemma MakeAnswers(d: Desk)
    requires AnswerInv(d) && d.made !in d.rejected && d.made !in d.polled
    ensures AnswerInv(Act(d, Make).value)
  {
    hide InHand;
  }

  lemma DrainKeeps(d: Desk, e: nat)
    requires DeskInv(d) && Act(d, Drain(e)).Some?
    ensures DeskInv(Act(d, Drain(e)).value)
  {
    hide HandInv, AnswerInv, InHand, Increasing;
    var t := Act(d, Drain(e)).value;
    var id := d.queue[0];
    assert d.polled + d.queue == (d.polled + [id]) + d.queue[1..];
    assert OrderInv(t);
    assert id !in d.polled by {
      if id in d.polled {
        Apart(d, id);
      }
    }
    Apart(t, id);
    assert HandInv(t) by {
      DrainHands(d, e);
    }
    assert AnswerInv(t) by {
      DrainAnswers(d, e);
    }
  }

  lemma DrainHands(d: Desk, e: nat)
    requires HandInv(d) && Act(d, Drain(e)).Some? && d.queue[0] !in d.polled
    ensures HandInv(Act(d, Drain(e)).value)
  {
  }

  lemma DrainAnswers(d: Desk, e: nat)
    requires AnswerInv(d) && Act(d, Drain(e)).Some? && d.queue[0] !in d.polled && d.queue[0] !in d.rejected
    ensures AnswerInv(Act(d, Drain(e)).value)
  {
    hide InHand;
    var t := Act(d, Drain(e)).value;
    forall id ensures InHand(t.hands, id) <==> id == d.queue[0] || InHand(d.hands, id) {
      MoreHands(d.hands, e, d.queue[0], id);
    }
    assert forall id :: id in t.polled <==> id in d.polled || id == d.queue[0];
  }

  lemma MoreHands(hands: map<nat, nat>, e: nat, x: nat, id: nat)
    requires e !in hands
    ensures InHand(hands[e := x], id) <==> id == x || InHand(hands, id)
  {
    assert e in hands[e := x];
    assert forall f :: f in hands ==> f in hands[e := x] && hands[e := x][f] == hands[f];
  }

  lemma AnswerKeeps(d: Desk, e: nat)
    requires DeskInv(d) && Act(d, Answer(e)).Some?
    ensures DeskInv(Act(d, Answer(e)).value)
  {
    hide InHand, AnswerInv, Increasing;
    var t := Act(d, Answer(e)).value;
    Apart(d, d.hands[e]);
    assert AnswerInv(t) by {
      AnswerAnswers(d, e);
    }
  }

  lemma AnswerAnswers(d: Desk, e: nat)
    requires HandInv(d) && AnswerInv(d) && e in d.hands && d.hands[e] !in d.rejected
    ensures AnswerInv(Act(d, Answer(e)).value)
  {
    hide InHand;
    var t := Act(d, Answer(e)).value;
    forall id ensures InHand(t.hands, id) <==> InHand(d.hands, id) && id != d.hands[e] {
      LessHands(d, e, id);
    }
    LessHands(d, e, d.hands[e]);
  }

  lemma LessHands(d: Desk, e: nat, id: nat)
    requires HandInv(d) && e in d.hands
    ensures InHand(d.hands, d.hands[e])
    ensures InHand(d.hands - {e}, id) <==> InHand(d.hands, id) && id != d.hands[e]
  {
    assert forall f :: f in d.hands && f != e ==> f in d.hands - {e};
  }

  lemma {:induction false} DeskKeepsInv(turns: seq<Turn>)
    requires Acts(turns).Some?
    ensures DeskInv(Acts(turns).value)
    decreases |turns|
  {
    hide DeskInv;
    if turns == [] {
      EmptyDesk();
    } else {
      var n := |turns| - 1;
      DeskKeepsInv(turns[..n]);
      var d := Acts(turns[..n]).value;
      match turns[n]
      case Make => MakeKeeps(d);
      case Drain(e) => DrainKeeps(d, e);
      case Answer(e) => AnswerKeeps(d, e);
    }
  }

  lemma EmptyDesk()
    ensures DeskInv(Desk(0, [], [], [], map[], {}, map[]))
  {
  }

  /**
   However many requesters and executors interleave: requests are drained in the order they were made, each response
   channel gets at most one response, and exactly the requests still queued or in an executor's hands have none.
   */
  lemma RequestsAreServedInOrder(turns: seq<Turn>, id: nat)
    requires Acts(turns).Some? && id < Acts(turns).value.made
    ensures var d := Acts(turns).value;
            && Increasing(d.polled + d.queue)
            && (id in d.rejected <==> id !in d.polled + d.queue)
            && (id in d.answers ==> d.answers[id] == 1)
            && (id in d.answers <==> !Owed(d, id))
  {
    hide Increasing;
    DeskKeepsInv(turns);
    var d := Acts(turns).value;
    assert id in d.polled + d.queue <==> id in d.polled || id in d.queue;
    if id in d.polled {
      Apart(d, id);
    }
    assert InHand(d.hands, id) ==> id in d.polled;
  }
}
