/** How a planned call's arguments reach its slots (pkg/op/planner.go:262-352, pkg/op/method.go:997-1015). */
module ArgumentBinding {
  import opened Options

  type Value = int

  /** Named, `*name` or `**name`. */
  datatype Kind = Plain | Variadic | Kwargs

  datatype Param = Param(name: string, kind: Kind, optional: bool, default: Option<Value>)

  datatype Slot =
    | Bound(value: Value)
    | Defaulted(value: Value)
    | Rest(rest: seq<Value>)
    | Keywords(keywords: map<string, Value>)

  datatype Error = Missing(name: string) | Refused(name: string)

  datatype Result<+T> = Ok(value: T) | Err(error: Error)

  /** Whether bindPresentValue takes the value. */
  type Acceptance = (Param, Value) -> bool

  /** validateParameterPositions. */
  predicate ValidPositions(params: seq<Param>) {
    forall i :: 0 <= i < |params| ==>
      && (params[i].kind == Kwargs ==> i == |params| - 1)
      && (params[i].kind == Variadic ==>
            i == |params| - 1 || (i == |params| - 2 && params[|params| - 1].kind == Kwargs))
  }

  predicate DistinctNames(params: seq<Param>) {
    forall i, j :: 0 <= i < j < |params| ==> params[i].name != params[j].name
  }

  // ----- Parameter by parameter -----

  datatype State = State(positional: nat, consumed: set<string>, slots: map<string, Slot>)

  function Put(s: State, p: Param, slot: Slot): State {
    s.(slots := s.slots[p.name := slot])
  }

  /** One turn of the loop. */
  function Step(p: Param, args: seq<Value>, kwargs: map<string, Value>, accepts: Acceptance, s: State): Result<State>
    requires s.positional <= |args|
  {
    if p.kind == Variadic then Ok(Put(s, p, Rest(args[s.positional..])).(positional := |args|))
    else if p.kind == Kwargs then Ok(Put(s, p, Keywords(kwargs - s.consumed)))
    else if s.positional < |args| then
      if accepts(p, args[s.positional]) then Ok(Put(s, p, Bound(args[s.positional])).(positional := s.positional + 1))
      else Err(Refused(p.name))
    else if p.name in kwargs then
      if accepts(p, kwargs[p.name]) then Ok(Put(s, p, Bound(kwargs[p.name])).(consumed := s.consumed + {p.name}))
      else Err(Refused(p.name))
    else if p.default.Some? then Ok(Put(s, p, Defaulted(p.default.value)))
    else if p.optional then Ok(s)
    else Err(Missing(p.name))
  }

  function Steps(params: seq<Param>, args: seq<Value>, kwargs: map<string, Value>,
                 accepts: Acceptance): (r: Result<State>)
    ensures r.Ok? ==> r.value.positional <= |args|
  {
    if params == [] then Ok(State(0, {}, map[]))
    else
      match Steps(params[..|params|-1], args, kwargs, accepts)
      case Err(e) => Err(e)
      case Ok(s) => Step(params[|params|-1], args, kwargs, accepts, s)
  }

  /** bindParameterSlots: the slots of the node. */
  function Bind(params: seq<Param>, args: seq<Value>, kwargs: map<string, Value>,
                accepts: Acceptance): Result<map<string, Slot>> {
    match Steps(params, args, kwargs, accepts)
    case Err(e) => Err(e)
    case Ok(s) => Ok(s.slots)
  }

  // ----- The source's loops -----

  method PositionalRest(args: seq<Value>, positional: nat) returns (rest: seq<Value>, next: nat)
    requires positional <= |args|
    ensures rest == args[positional..] && next == |args|
  {
    rest, next := [], positional;
    while next < |args|
      invariant positional <= next <= |args| && rest == args[positional..next]
    {
      rest := rest + [args[next]];
      next := next + 1;
    }
  }

  method RemainingKwargs(kwargs: map<string, Value>, consumed: set<string>) returns (remaining: map<string, Value>)
    ensures remaining == kwargs - consumed
  {
    remaining := map[];
    var keys := kwargs.Keys;
    while keys != {}
      invariant keys <= kwargs.Keys
      invariant remaining == kwargs - consumed - keys
      decreases |keys|
    {
      var k :| k in keys;
      if k !in consumed {
        remaining := remaining[k := kwargs[k]];
      }
      keys := keys - {k};
    }
  }

  method BindParameterSlots(params: seq<Param>, args: seq<Value>, kwargs: map<string, Value>, accepts: Acceptance)
    returns (r: Result<map<string, Slot>>)
    ensures r == Bind(params, args, kwargs, accepts)
  {
    hide Steps;
    NoSteps(args, kwargs, accepts);
    var slots: map<string, Slot> := map[];
    var consumed: set<string> := {};
    var positional: nat := 0;
    var i := 0;
    while i < |params|
      invariant 0 <= i <= |params| && positional <= |args|
      invariant Steps(params[..i], args, kwargs, accepts) == Ok(State(positional, consumed, slots))
    {
      var param := params[i];
      MoreSteps(params, args, kwargs, accepts, i);
      if param.kind == Variadic {
        var rest;
        rest, positional := PositionalRest(args, positional);
        slots := slots[param.name := Rest(rest)];
      } else if param.kind == Kwargs {
        var remaining := RemainingKwargs(kwargs, consumed);
        slots := slots[param.name := Keywords(remaining)];
      } else {
        var present: Option<Value> := None;
        if positional < |args| {
          present := Some(args[positional]);
          positional := positional + 1;
        } else if param.name in kwargs {
          present := Some(kwargs[param.name]);
          consumed := consumed + {param.name};
        }
        if present.None? {
          if param.default.Some? {
            slots := slots[param.name := Defaulted(param.default.value)];
          } else if !param.optional {
            FirstFailure(params, args, kwargs, accepts, i + 1);
            return Err(Missing(param.name));
          }
        } else {
          if !accepts(param, present.value) {
            FirstFailure(params, args, kwargs, accepts, i + 1);
            return Err(Refused(param.name));
          }
          slots := slots[param.name := Bound(present.value)];
        }
      }
      i := i + 1;
    }
    assert params[..i] == params;
    return Ok(slots);
  }

  lemma NoSteps(args: seq<Value>, kwargs: map<string, Value>, accepts: Acceptance)
    ensures Steps([], args, kwargs, accepts) == Ok(State(0, {}, map[]))
  {
  }

  lemma MoreSteps(params: seq<Param>, args: seq<Value>, kwargs: map<string, Value>, accepts: Acceptance, i: nat)
    requires i < |params| && Steps(params[..i], args, kwargs, accepts).Ok?
    ensures Steps(params[..i + 1], args, kwargs, accepts) ==
            Step(params[i], args, kwargs, accepts, Steps(params[..i], args, kwargs, accepts).value)
  {
    assert params[..i + 1][..i] == params[..i];
  }

  /** A parameter that fails ends the binding. */
  lemma {:induction false} FirstFailure(params: seq<Param>, args: seq<Value>, kwargs: map<string, Value>,
                                        accepts: Acceptance, k: nat)
    requires k <= |params| && Steps(params[..k], args, kwargs, accepts).Err?
    ensures Steps(params, args, kwargs, accepts) == Steps(params[..k], args, kwargs, accepts)
    decreases |params| - k
  {
    if k < |params| {
      assert params[..k + 1][..k] == params[..k];
      FirstFailure(params, args, kwargs, accepts, k + 1);
    } else {
      assert params[..k] == params;
    }
  }

  // ----- What a binding means -----

  /** How many named parameters there are before the sinks. */
  function Named(params: seq<Param>): (n: nat)
    ensures n <= |params|
  {
    var m := |params|;
    if m >= 2 && params[m - 2].kind == Variadic then m - 2
    else if m >= 1 && params[m - 1].kind != Plain then m - 1
    else m
  }

  /** `n` named parameters, then at most a variadic sink and a keyword sink. */
  ghost predicate Shape(params: seq<Param>, n: nat) {
    && n <= |params| <= n + 2
    && (forall k :: 0 <= k < n ==> params[k].kind == Plain)
    && (|params| == n + 1 ==> params[n].kind != Plain)
    && (|params| == n + 2 ==> params[n].kind == Variadic && params[n + 1].kind == Kwargs)
  }

  lemma ShapeOf(params: seq<Param>)
    requires ValidPositions(params)
    ensures Shape(params, Named(params))
  {
    forall k | 0 <= k < Named(params) ensures params[k].kind == Plain {
      assert params[k].kind == Kwargs ==> k == |params| - 1;
    }
  }

  /** The value given to the k-th named parameter: by position, else by keyword. */
  function Given(params: seq<Param>, args: seq<Value>, kwargs: map<string, Value>, k: nat): Option<Value>
    requires k < |params|
  {
    if k < |args| then Some(args[k])
    else if params[k].name in kwargs then Some(kwargs[params[k].name])
    else None
  }

  /** What ends up in its slot. */
  function SlotOf(params: seq<Param>, args: seq<Value>, kwargs: map<string, Value>, k: nat): Option<Slot>
    requires k < |params|
  {
    var given := Given(params, args, kwargs, k);
    if given.Some? then Some(Bound(given.value))
    else if params[k].default.Some? then Some(Defaulted(params[k].default.value))
    else None
  }

  /** The k-th named parameter raises no error. */
  predicate Fits(params: seq<Param>, args: seq<Value>, kwargs: map<string, Value>, accepts: Acceptance, k: nat)
    requires k < |params|
  {
    var given := Given(params, args, kwargs, k);
    if given.Some? then accepts(params[k], given.value) else params[k].default.Some? || params[k].optional
  }

  predicate AllFit(params: seq<Param>, args: seq<Value>, kwargs: map<string, Value>, accepts: Acceptance, n: nat)
    requires n <= |params|
  {
    forall k :: 0 <= k < n ==> Fits(params, args, kwargs, accepts, k)
  }

  /** Keywords that named parameters took. */
  function Taken(params: seq<Param>, args: seq<Value>, kwargs: map<string, Value>, n: nat): set<string>
    requires n <= |params|
  {
    set k | |args| <= k < n && params[k].name in kwargs :: params[k].name
  }

  function NamesOf(params: seq<Param>, i: nat): set<string>
    requires i <= |params|
  {
    set k | 0 <= k < i :: params[k].name
  }

  function Lookup(slots: map<string, Slot>, name: string): Option<Slot> {
    if name in slots then Some(slots[name]) else None
  }

  /** The slots of the first `i` parameters, all named. */
  ghost predicate NamedSlots(params: seq<Param>, args: seq<Value>, kwargs: map<string, Value>,
                             slots: map<string, Slot>, i: nat)
    requires i <= |params|
  {
    && (forall k :: 0 <= k < i ==> Lookup(slots, params[k].name) == SlotOf(params, args, kwargs, k))
    && slots.Keys <= NamesOf(params, i)
  }

  function Least(a: nat, b: nat): nat {
    if a < b then a else b
  }

  lemma {:induction false} NamedSteps(params: seq<Param>, args: seq<Value>, kwargs: map<string, Value>,
                                      accepts: Acceptance, i: nat)
    requires DistinctNames(params) && i <= |params| && forall k :: 0 <= k < i ==> params[k].kind == Plain
    ensures var r := Steps(params[..i], args, kwargs, accepts);
            && (r.Ok? <==> AllFit(params, args, kwargs, accepts, i))
            && (r.Ok? ==>
                 && r.value.positional == Least(i, |args|)
                 && r.value.consumed == Taken(params, args, kwargs, i)
                 && NamedSlots(params, args, kwargs, r.value.slots, i))
    decreases i
  {
    hide DistinctNames, NamedSlots, Step, Taken, Fits;
    if i == 0 {
      NothingNamed(params, args, kwargs);
    } else {
      NamedSteps(params, args, kwargs, accepts, i - 1);
      assert params[..i][..i - 1] == params[..i - 1] && params[..i][i - 1] == params[i - 1];
      var r := Steps(params[..i - 1], args, kwargs, accepts);
      if r.Ok? {
        StepFits(params, args, kwargs, accepts, i - 1, r.value);
        if Fits(params, args, kwargs, accepts, i - 1) {
          NamedStep(params, args, kwargs, accepts, i - 1, r.value);
        }
      }
    }
  }

  lemma NothingNamed(params: seq<Param>, args: seq<Value>, kwargs: map<string, Value>)
    ensures Taken(params, args, kwargs, 0) == {} && NamedSlots(params, args, kwargs, map[], 0)
  {
  }

  lemma StepFits(params: seq<Param>, args: seq<Value>, kwargs: map<string, Value>, accepts: Acceptance, i: nat,
                 s: State)
    requires i < |params| && params[i].kind == Plain && s.positional == Least(i, |args|)
    ensures Step(params[i], args, kwargs, accepts, s).Ok? <==> Fits(params, args, kwargs, accepts, i)
  {
  }

  lemma NamedStep(params: seq<Param>, args: seq<Value>, kwargs: map<string, Value>, accepts: Acceptance, i: nat,
                  s: State)
    requires DistinctNames(params) && i < |params| && params[i].kind == Plain
    requires s.positional == Least(i, |args|) && s.consumed == Taken(params, args, kwargs, i)
    requires NamedSlots(params, args, kwargs, s.slots, i) && Fits(params, args, kwargs, accepts, i)
    ensures var r := Step(params[i], args, kwargs, accepts, s);
            && r.Ok? && r.value.positional == Least(i + 1, |args|)
            && r.value.consumed == Taken(params, args, kwargs, i + 1)
            && NamedSlots(params, args, kwargs, r.value.slots, i + 1)
  {
    hide NamedSlots, Taken, DistinctNames;
    StepSlots(params, args, kwargs, accepts, i, s);
    TakenMore(params, args, kwargs, i);
    NotYet(params, args, kwargs, s.slots, i);
    SlotsMore(params, args, kwargs, s.slots, i);
  }

  /** What one turn changes, in terms of the declared slot. */
  lemma StepSlots(params: seq<Param>, args: seq<Value>, kwargs: map<string, Value>, accepts: Acceptance, i: nat,
                  s: State)
    requires i < |params| && params[i].kind == Plain && s.positional == Least(i, |args|)
    requires Fits(params, args, kwargs, accepts, i)
    ensures var r, slot := Step(params[i], args, kwargs, accepts, s), SlotOf(params, args, kwargs, i);
            && r.Ok? && r.value.positional == Least(i + 1, |args|)
            && r.value.slots == (if slot.Some? then s.slots[params[i].name := slot.value] else s.slots)
            && r.value.consumed ==
                 s.consumed + (if i >= |args| && params[i].name in kwargs then {params[i].name} else {})
  {
  }

  lemma TakenMore(params: seq<Param>, args: seq<Value>, kwargs: map<string, Value>, i: nat)
    requires i < |params|
    ensures Taken(params, args, kwargs, i + 1) ==
            Taken(params, args, kwargs, i) + (if i >= |args| && params[i].name in kwargs then {params[i].name} else {})
  {
    forall x ensures x in Taken(params, args, kwargs, i + 1) <==>
        x in Taken(params, args, kwargs, i) || (x == params[i].name && i >= |args| && x in kwargs)
    {
      if x in Taken(params, args, kwargs, i + 1) {
        var k :| |args| <= k < i + 1 && params[k].name in kwargs && params[k].name == x;
        assert k < i || k == i;
      }
    }
  }

  lemma NotYet(params: seq<Param>, args: seq<Value>, kwargs: map<string, Value>, slots: map<string, Slot>, i: nat)
    requires DistinctNames(params) && i < |params| && NamedSlots(params, args, kwargs, slots, i)
    ensures params[i].name !in slots
  {
    assert forall k :: 0 <= k < i ==> params[k].name != params[i].name;
    assert params[i].name !in NamesOf(params, i);
  }

  lemma SlotsMore(params: seq<Param>, args: seq<Value>, kwargs: map<string, Value>, slots: map<string, Slot>, i: nat)
    requires DistinctNames(params) && i < |params| && NamedSlots(params, args, kwargs, slots, i)
    requires params[i].name !in slots
    ensures var slot := SlotOf(params, args, kwargs, i);
            NamedSlots(params, args, kwargs, if slot.Some? then slots[params[i].name := slot.value] else slots, i + 1)
  {
    hide SlotOf;
    var slot := SlotOf(params, args, kwargs, i);
    var more := if slot.Some? then slots[params[i].name := slot.value] else slots;
    assert params[i].name in NamesOf(params, i + 1);
    assert NamesOf(params, i) <= NamesOf(params, i + 1);
    forall k | 0 <= k < i + 1 ensures Lookup(more, params[k].name) == SlotOf(params, args, kwargs, k) {
      if k < i {
        assert params[k].name != params[i].name;
      }
    }
  }

  // ----- Main results -----

  /** The name of the variadic sink, and of the keyword sink. */
  function VariadicSink(params: seq<Param>): Option<string> {
    var n := Named(params);
    if n < |params| && params[n].kind == Variadic then Some(params[n].name) else None
  }

  function KeywordSink(params: seq<Param>): Option<string> {
    if params != [] && params[|params|-1].kind == Kwargs then Some(params[|params|-1].name) else None
  }

  /** What the sinks hold, when there are any. */
  ghost predicate SinksFilled(params: seq<Param>, args: seq<Value>, kwargs: map<string, Value>,
                              slots: map<string, Slot>) {
    var n := Named(params);
    && (VariadicSink(params).Some? ==>
          Lookup(slots, VariadicSink(params).value) == Some(Rest(args[Least(n, |args|)..])))
    && (KeywordSink(params).Some? ==>
          Lookup(slots, KeywordSink(params).value) == Some(Keywords(kwargs - Taken(params, args, kwargs, n))))
  }

  /**
   Exactly what a binding does, for any parameters whose positions validate: it succeeds if and only if every named
   parameter fits, and then each named slot is as declared, the variadic sink holds the arguments past the named
   parameters, the keyword sink the keywords no named parameter took, and there are no other slots.
   */
  lemma BindMeans(params: seq<Param>, args: seq<Value>, kwargs: map<string, Value>, accepts: Acceptance)
    requires ValidPositions(params) && DistinctNames(params)
    ensures var n, r := Named(params), Bind(params, args, kwargs, accepts);
            && (r.Ok? <==> AllFit(params, args, kwargs, accepts, n))
            && (r.Ok? ==>
                 && (forall k :: 0 <= k < n ==> Lookup(r.value, params[k].name) == SlotOf(params, args, kwargs, k))
                 && SinksFilled(params, args, kwargs, r.value)
                 && r.value.Keys <= NamesOf(params, |params|))
  {
    hide Steps, Taken, SlotOf, AllFit, ValidPositions, DistinctNames, NamedSlots;
    ShapeOf(params);
    var n := Named(params);
    NamedSteps(params, args, kwargs, accepts, n);
    var r := Steps(params[..n], args, kwargs, accepts);
    assert params[..|params|] == params;
    if r.Err? {
      FirstFailure(params, args, kwargs, accepts, n);
    } else {
      SinkSteps(params, args, kwargs, accepts, n);
      AddSinks(params, args, kwargs, n, r.value);
    }
  }

  /** The slots after the sinks. */
  function WithSinks(params: seq<Param>, args: seq<Value>, kwargs: map<string, Value>, n: nat,
                     s: State): map<string, Slot>
    requires n <= |params| && s.positional <= |args|
  {
    if n == |params| then s.slots
    else if params[n].kind == Kwargs then s.slots[params[n].name := Keywords(kwargs - s.consumed)]
    else
      var filled := s.slots[params[n].name := Rest(args[s.positional..])];
      if n + 1 < |params| then filled[params[n + 1].name := Keywords(kwargs - s.consumed)] else filled
  }

  lemma SinkSteps(params: seq<Param>, args: seq<Value>, kwargs: map<string, Value>, accepts: Acceptance, n: nat)
    requires Shape(params, n) && Steps(params[..n], args, kwargs, accepts).Ok?
    ensures Bind(params, args, kwargs, accepts) ==
            Ok(WithSinks(params, args, kwargs, n, Steps(params[..n], args, kwargs, accepts).value))
  {
    assert params[..|params|] == params;
    var s := Steps(params[..n], args, kwargs, accepts).value;
    if n < |params| {
      MoreSteps(params, args, kwargs, accepts, n);
      if n + 1 < |params| {
        MoreSteps(params, args, kwargs, accepts, n + 1);
      }
    }
  }

  lemma AddSinks(params: seq<Param>, args: seq<Value>, kwargs: map<string, Value>, n: nat, s: State)
    requires Shape(params, n) && n == Named(params) && DistinctNames(params)
    requires NamedSlots(params, args, kwargs, s.slots, n)
    requires s.positional == Least(n, |args|) && s.consumed == Taken(params, args, kwargs, n)
    ensures var slots := WithSinks(params, args, kwargs, n, s);
            && (forall k :: 0 <= k < n ==> Lookup(slots, params[k].name) == SlotOf(params, args, kwargs, k))
            && SinksFilled(params, args, kwargs, slots)
            && slots.Keys <= NamesOf(params, |params|)
  {
    hide SlotOf, Taken, NamesOf;
    var slots := WithSinks(params, args, kwargs, n, s);
    SinkNames(params, args, kwargs, n, s);
    assert forall k, j :: 0 <= k < n <= j < |params| ==> params[k].name != params[j].name;
  }

  lemma SinkNames(params: seq<Param>, args: seq<Value>, kwargs: map<string, Value>, n: nat, s: State)
    requires n <= |params| <= n + 2 && s.slots.Keys <= NamesOf(params, n) && s.positional <= |args|
    ensures WithSinks(params, args, kwargs, n, s).Keys <= NamesOf(params, |params|)
  {
    assert NamesOf(params, n) <= NamesOf(params, |params|);
    assert forall k :: n <= k < |params| ==> params[k].name in NamesOf(params, |params|);
  }

  /**
   A binding fails at the first parameter that does not fit: it is missing if nothing was given for it, and refused if
   what was given is not accepted.
   */
  lemma FailureIsFirst(params: seq<Param>, args: seq<Value>, kwargs: map<string, Value>, accepts: Acceptance)
    returns (k: nat)
    requires ValidPositions(params) && DistinctNames(params) && Bind(params, args, kwargs, accepts).Err?
    ensures k < Named(params) <= |params| && !Fits(params, args, kwargs, accepts, k)
    ensures forall j :: 0 <= j < k ==> Fits(params, args, kwargs, accepts, j)
    ensures Bind(params, args, kwargs, accepts).error ==
              if k < |args| || params[k].name in kwargs then Refused(params[k].name) else Missing(params[k].name)
  {
    hide Steps, Fits, SlotOf, Taken, NamedSlots;
    ShapeOf(params);
    var n := Named(params);
    BindMeans(params, args, kwargs, accepts);
    k := 0;
    while Fits(params, args, kwargs, accepts, k)
      invariant k < n && forall j :: 0 <= j < k ==> Fits(params, args, kwargs, accepts, j)
      decreases n - k
    {
      k := k + 1;
    }
    NamedSteps(params, args, kwargs, accepts, k);
    MoreSteps(params, args, kwargs, accepts, k);
    StepRefuses(params, args, kwargs, accepts, k, Steps(params[..k], args, kwargs, accepts).value);
    FirstFailure(params, args, kwargs, accepts, k + 1);
  }

  lemma StepRefuses(params: seq<Param>, args: seq<Value>, kwargs: map<string, Value>, accepts: Acceptance, k: nat,
                    s: State)
    requires k < |params| && params[k].kind == Plain && s.positional == Least(k, |args|)
    requires !Fits(params, args, kwargs, accepts, k)
    ensures Step(params[k], args, kwargs, accepts, s) ==
              Err(if k < |args| || params[k].name in kwargs then Refused(params[k].name) else Missing(params[k].name))
  {
  }

  lemma SlotInPlace(params: seq<Param>, args: seq<Value>, kwargs: map<string, Value>, k: nat)
    requires k < |params| && k < |args|
    ensures SlotOf(params, args, kwargs, k) == Some(Bound(args[k]))
  {
  }

  /**
   Nothing is lost or invented: with both sinks, the positional slots in order and then the variadic one are `args`.
   */
  lemma ArgsAreConserved(params: seq<Param>, args: seq<Value>, kwargs: map<string, Value>, accepts: Acceptance)
    requires ValidPositions(params) && DistinctNames(params) && VariadicSink(params).Some?
    requires Bind(params, args, kwargs, accepts).Ok?
    ensures var n, slots := Named(params), Bind(params, args, kwargs, accepts).value;
            var m := Least(n, |args|);
            && (forall k :: 0 <= k < m ==> params[k].name in slots && slots[params[k].name].Bound?)
            && VariadicSink(params).value in slots && slots[VariadicSink(params).value].Rest?
            && args == seq(m, k requires 0 <= k < m => slots[params[k].name].value) +
                 slots[VariadicSink(params).value].rest
  {
    hide Bind, SlotOf, ValidPositions, DistinctNames, Taken, AllFit, VariadicSink, KeywordSink;
    BindMeans(params, args, kwargs, accepts);
    var n, slots := Named(params), Bind(params, args, kwargs, accepts).value;
    var m := Least(n, |args|);
    forall k | 0 <= k < m ensures params[k].name in slots && slots[params[k].name] == Bound(args[k]) {
      SlotInPlace(params, args, kwargs, k);
    }
    assert args == args[..m] + args[m..];
    assert args[..m] == seq(m, k requires 0 <= k < m => slots[params[k].name].value);
  }

  /** Every keyword is either taken by exactly the named parameter of its name or passed on, never both. */
  lemma KeywordsAreConserved(params: seq<Param>, args: seq<Value>, kwargs: map<string, Value>, accepts: Acceptance,
                             x: string)
    requires ValidPositions(params) && DistinctNames(params) && KeywordSink(params).Some?
    requires Bind(params, args, kwargs, accepts).Ok? && x in kwargs
    ensures var n, slots := Named(params), Bind(params, args, kwargs, accepts).value;
            && KeywordSink(params).value in slots
            && var passed := slots[KeywordSink(params).value];
            && passed.Keywords? && passed.keywords.Keys <= kwargs.Keys
            && (x in passed.keywords ==> passed.keywords[x] == kwargs[x])
            && (x in passed.keywords <==> !exists k :: |args| <= k < n && params[k].name == x)
            && (x !in passed.keywords ==> x in slots && slots[x] == Bound(kwargs[x]))
  {
    BindMeans(params, args, kwargs, accepts);
    var n, slots := Named(params), Bind(params, args, kwargs, accepts).value;
    if exists k :: |args| <= k < n && params[k].name == x {
      var k :| |args| <= k < n && params[k].name == x;
      assert x in Taken(params, args, kwargs, n);
      assert SlotOf(params, args, kwargs, k) == Some(Bound(kwargs[x]));
    }
  }

  /** A keyword for a parameter that was filled by position is never an error: the sink gets it, or nothing does. */
  lemma PositionShadowsKeyword(params: seq<Param>, args: seq<Value>, kwargs: map<string, Value>, accepts: Acceptance,
                               k: nat)
    requires ValidPositions(params) && DistinctNames(params) && k < Named(params) && k < |args|
    requires Bind(params, args, kwargs, accepts).Ok? && params[k].name in kwargs
    ensures var slots := Bind(params, args, kwargs, accepts).value;
            && params[k].name in slots && slots[params[k].name] == Bound(args[k])
            && (KeywordSink(params).Some? ==>
                 && KeywordSink(params).value in slots
                 && var passed := slots[KeywordSink(params).value];
                 passed.Keywords? && params[k].name in passed.keywords &&
                 passed.keywords[params[k].name] == kwargs[params[k].name])
  {
    BindMeans(params, args, kwargs, accepts);
    assert SlotOf(params, args, kwargs, k) == Some(Bound(args[k]));
    if KeywordSink(params).Some? {
      KeywordsAreConserved(params, args, kwargs, accepts, params[k].name);
    }
  }

  /** Without a variadic sink surplus arguments are dropped silently. */
  lemma SurplusIsDropped(params: seq<Param>, args: seq<Value>, kwargs: map<string, Value>, accepts: Acceptance)
    requires ValidPositions(params) && DistinctNames(params) && VariadicSink(params).None? && |args| > Named(params)
    ensures Bind(params, args, kwargs, accepts) == Bind(params, args[..Named(params)], kwargs, accepts)
  {
    var n := Named(params);
    ShapeOf(params);
    SurplusNamed(params, args, kwargs, accepts, n, n);
    assert params[..|params|] == params;
    if Steps(params[..n], args, kwargs, accepts).Err? {
      FirstFailure(params, args, kwargs, accepts, n);
      FirstFailure(params, args[..n], kwargs, accepts, n);
    } else if n < |params| {
      assert params[..n + 1] == params && params[..n + 1][..n] == params[..n];
    }
  }

  lemma {:induction false} SurplusNamed(params: seq<Param>, args: seq<Value>, kwargs: map<string, Value>,
                                        accepts: Acceptance, n: nat, i: nat)
    requires i <= n <= |params| && n < |args|
    requires forall k :: 0 <= k < n ==> params[k].kind == Plain
    ensures Steps(params[..i], args, kwargs, accepts) == Steps(params[..i], args[..n], kwargs, accepts)
    ensures Steps(params[..i], args, kwargs, accepts).Ok? ==>
              Steps(params[..i], args, kwargs, accepts).value.positional == i
    decreases i
  {
    if i > 0 {
      assert params[..i][..i - 1] == params[..i - 1] && params[..i][i - 1] == params[i - 1];
      SurplusNamed(params, args, kwargs, accepts, n, i - 1);
    }
  }

  /** Without a keyword sink, keywords no named parameter takes are dropped silently. */
  lemma {:induction false} UnknownKeywordIsDropped(params: seq<Param>, args: seq<Value>, kwargs: map<string, Value>,
                                                   accepts: Acceptance, x: string)
    requires forall k :: 0 <= k < |params| ==> params[k].kind != Kwargs && params[k].name != x
    ensures Steps(params, args, kwargs, accepts) == Steps(params, args, kwargs - {x}, accepts)
    ensures Bind(params, args, kwargs, accepts) == Bind(params, args, kwargs - {x}, accepts)
    decreases |params|
  {
    if params != [] {
      assert params[|params|-1].kind != Kwargs;
      UnknownKeywordIsDropped(params[..|params|-1], args, kwargs, accepts, x);
    }
  }
}
