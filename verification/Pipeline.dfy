/** The evaluator of deferred defaults (pkg/op/default_eval.go:31-233) and what a pipeline means. */
module Pipeline {
  import opened Options

  datatype Value =
    | Invalid                             // reflect's zero value, as a nil sibling yields
    | Int(i: int)
    | Uint(u: nat)
    | Float(f: real)
    | Complex(re: real, im: real)
    | Text(s: string)
    | Flag(b: bool)
    | Object(id: int)                     // anything else a function returns or a slot holds

  /** A parsed number: text/template presents every representation that fits. */
  datatype Numeral = Numeral(asInt: Option<int>, asUint: Option<nat>, asFloat: Option<real>,
                             asComplex: Option<(real, real)>)

  datatype Node =
    | Number(n: Numeral)
    | Str(text: string)
    | Bool(b: bool)
    | Field(path: seq<string>)
    | Nested(pipe: Pipe)
    | Identifier(name: string)
    | OtherNode

  datatype Command = Command(args: seq<Node>)

  datatype Pipe = Pipe(commands: seq<Command>)

  datatype Item = Action(pipe: Pipe) | OtherItem

  datatype Tree = NoTree | Tree(items: seq<Item>)

  datatype Error =
    | EmptyTree | NotSingle | NotAction | EmptyPipeline | EmptyCommand | NotFunction | Unknown(name: string)
    | In(name: string, inner: Error) | BadNumber | EmptyField | DeepField | Unfilled(name: string) | Unsupported
    | Failed(code: int)

  datatype Result<+T> = Ok(value: T) | Err(error: Error)

  type Function = (map<string, Value>, seq<Value>) -> Result<Value>

  /** The announced functions and the slots already filled; functions are taken to be pure. */
  datatype Scope = Scope(functions: map<string, Function>, siblings: map<string, Value>)

  // ----- Meaning -----

  function EvalNumber(n: Numeral): Result<Value> {
    if n.asInt.Some? then Ok(Int(n.asInt.value))
    else if n.asUint.Some? then Ok(Uint(n.asUint.value))
    else if n.asFloat.Some? then Ok(Float(n.asFloat.value))
    else if n.asComplex.Some? then Ok(Complex(n.asComplex.value.0, n.asComplex.value.1))
    else Err(BadNumber)
  }

  function EvalField(path: seq<string>, siblings: map<string, Value>): Result<Value> {
    if path == [] then Err(EmptyField)
    else if |path| > 1 then Err(DeepField)
    else if path[0] !in siblings then Err(Unfilled(path[0]))
    else Ok(siblings[path[0]])
  }

  function EvalArg(sc: Scope, node: Node): Result<Value>
    decreases node, 0
  {
    match node
    case Number(n) => EvalNumber(n)
    case Str(text) => Ok(Text(text))
    case Bool(b) => Ok(Flag(b))
    case Field(path) => EvalField(path, sc.siblings)
    case Nested(pipe) => EvalPipe(sc, pipe)
    case _ => Err(Unsupported)
  }

  /** Arguments in order, up to the first failure. */
  function EvalArgs(sc: Scope, args: seq<Node>): Result<seq<Value>>
    decreases args, 1
  {
    if args == [] then Ok([])
    else
      match EvalArgs(sc, args[..|args|-1])
      case Err(e) => Err(e)
      case Ok(values) =>
        match EvalArg(sc, args[|args|-1])
        case Err(e) => Err(e)
        case Ok(v) => Ok(values + [v])
  }

  /** One command, with the previous stage's value as its trailing argument. */
  function EvalCommand(sc: Scope, c: Command, previous: Option<Value>): Result<Value>
    decreases c, 0
  {
    if c.args == [] then Err(EmptyCommand)
    else
      match c.args[0]
      case Identifier(name) =>
        if name !in sc.functions then Err(Unknown(name))
        else
          (match EvalArgs(sc, c.args[1..])
           case Err(e) => Err(In(name, e))
           case Ok(values) => sc.functions[name](
                sc.siblings, if previous.Some? then values + [previous.value] else values))
      case _ => Err(NotFunction)
  }

  function EvalStages(sc: Scope, commands: seq<Command>): Result<Value>
    requires commands != []
    decreases commands, 1
  {
    var n := |commands| - 1;
    if n == 0 then EvalCommand(sc, commands[0], None)
    else
      match EvalStages(sc, commands[..n])
      case Err(e) => Err(e)
      case Ok(v) => EvalCommand(sc, commands[n], Some(v))
  }

  function EvalPipe(sc: Scope, p: Pipe): Result<Value>
    decreases p, 0
  {
    if p.commands == [] then Err(EmptyPipeline) else EvalStages(sc, p.commands)
  }

  function EvalTree(sc: Scope, t: Tree): Result<Value> {
    match t
    case NoTree => Err(EmptyTree)
    case Tree(items) =>
      if |items| != 1 then Err(NotSingle)
      else
        match items[0]
        case Action(pipe) => EvalPipe(sc, pipe)
        case OtherItem => Err(NotAction)
  }

  // ----- The nested form -----

  /** Every stage becomes the trailing argument of the next, at every depth. */
  function NestPipe(p: Pipe): Pipe
    decreases p, 0
  {
    if p.commands == [] then p else NestStages(p.commands)
  }

  function NestStages(commands: seq<Command>): Pipe
    requires commands != []
    decreases commands, 1
  {
    var n := |commands| - 1;
    var args := NestNodes(commands[n].args);
    Pipe([Command(if n == 0 then args else args + [Nested(NestStages(commands[..n]))])])
  }

  function NestNodes(args: seq<Node>): seq<Node>
    decreases args, 1
  {
    if args == [] then [] else NestNodes(args[..|args|-1]) + [NestNode(args[|args|-1])]
  }

  function NestNode(node: Node): Node
    decreases node, 0
  {
    match node
    case Nested(pipe) => Nested(NestPipe(pipe))
    case _ => node
  }

  function NestTree(t: Tree): Tree {
    match t
    case Tree(items) => Tree(seq(|items|, i requires 0 <= i < |items| =>
        match items[i] case Action(pipe) => Action(NestPipe(pipe)) case OtherItem => OtherItem))
    case NoTree => NoTree
  }

  /** No pipe anywhere has a second stage. */
  predicate SingleStage(p: Pipe)
    decreases p, 0
  {
    |p.commands| <= 1 && (p.commands != [] ==> AllSingle(p.commands[0].args))
  }

  predicate AllSingle(args: seq<Node>)
    decreases args, 1
  {
    forall i :: 0 <= i < |args| ==> NodeSingle(args[i])
  }

  predicate NodeSingle(node: Node)
    decreases node, 0
  {
    node.Nested? ==> SingleStage(node.pipe)
  }

  lemma {:induction false} NestIsSingle(p: Pipe)
    ensures SingleStage(NestPipe(p))
    decreases p, 0
  {
    if p.commands != [] {
      StagesAreSingle(p.commands);
    }
  }

  lemma {:induction false} StagesAreSingle(commands: seq<Command>)
    requires commands != []
    ensures SingleStage(NestStages(commands))
    decreases commands, 1
  {
    var n := |commands| - 1;
    NodesAreSingle(commands[n].args);
    if n > 0 {
      StagesAreSingle(commands[..n]);
    }
  }

  lemma {:induction false} NodesAreSingle(args: seq<Node>)
    ensures AllSingle(NestNodes(args))
    decreases args, 1
  {
    if args != [] {
      NodesAreSingle(args[..|args|-1]);
      NodeIsSingle(args[|args|-1]);
    }
  }

  lemma {:induction false} NodeIsSingle(node: Node)
    ensures NodeSingle(NestNode(node))
    decreases node, 0
  {
    if node.Nested? {
      NestIsSingle(node.pipe);
    }
  }

  // ----- The two forms agree -----

  /** They succeed together and with the same value; which failure is reported may differ. */
  predicate Agree<T(==)>(a: Result<T>, b: Result<T>) {
    if a.Ok? then a == b else b.Err?
  }

  lemma {:induction false} ArgsLength(sc: Scope, args: seq<Node>)
    ensures |NestNodes(args)| == |args|
    ensures args != [] ==> NestNodes(args)[0] == NestNode(args[0])
    ensures args != [] ==> NestNodes(args)[1..] == NestNodes(args[1..])
    decreases |args|
  {
    if |args| > 1 {
      var init := args[..|args|-1];
      ArgsLength(sc, init);
      assert args[1..][..|args|-2] == init[1..];
      assert NestNodes(args)[1..] == NestNodes(init)[1..] + [NestNode(args[|args|-1])];
    }
  }

  /** Evaluating one argument more. */
  lemma EvalArgsPush(sc: Scope, args: seq<Node>, last: Node)
    ensures EvalArgs(sc, args + [last]) ==
      match EvalArgs(sc, args)
      case Err(e) => Err(e)
      case Ok(values) =>
        match EvalArg(sc, last)
        case Err(e) => Err(e)
        case Ok(v) => Ok(values + [v])
  {
    assert (args + [last])[..|args|] == args;
  }

  lemma {:induction false} PipesAgree(sc: Scope, p: Pipe)
    ensures Agree(EvalPipe(sc, p), EvalPipe(sc, NestPipe(p)))
    decreases p, 0
  {
    if p.commands != [] {
      StagesAgree(sc, p.commands);
    }
  }

  lemma {:induction false} NodesAgree(sc: Scope, node: Node)
    ensures Agree(EvalArg(sc, node), EvalArg(sc, NestNode(node)))
    decreases node, 0
  {
    if node.Nested? {
      PipesAgree(sc, node.pipe);
    }
  }

  lemma {:induction false} ArgsAgree(sc: Scope, args: seq<Node>)
    ensures Agree(EvalArgs(sc, args), EvalArgs(sc, NestNodes(args)))
    decreases args, 1
  {
    hide EvalArg, NestNode;
    if args != [] {
      var init, last := args[..|args|-1], args[|args|-1];
      ArgsAgree(sc, init);
      NodesAgree(sc, last);
      assert args == init + [last];
      EvalArgsPush(sc, init, last);
      EvalArgsPush(sc, NestNodes(init), NestNode(last));
    }
  }

  /** Commands of the same function on agreeing arguments. */
  lemma CommandsAgree(sc: Scope, args: seq<Node>, nested: seq<Node>, previous: Option<Value>)
    requires |args| == |nested|
    requires args != [] ==> nested[0] == NestNode(args[0]) && Agree(EvalArgs(sc, args[1..]), EvalArgs(sc, nested[1..]))
    ensures Agree(EvalCommand(sc, Command(args), previous), EvalCommand(sc, Command(nested), previous))
  {
    hide EvalArgs;
  }

  /** Feeding a value and passing an argument that evaluates to it are the same. */
  lemma FedByArgument(sc: Scope, args: seq<Node>, pipe: Pipe)
    ensures var inner := EvalPipe(sc, pipe);
            var fed := EvalCommand(sc, Command(args + [Nested(pipe)]), None);
            if inner.Ok? then Agree(EvalCommand(sc, Command(args), Some(inner.value)), fed) else fed.Err?
  {
    hide EvalArgs, EvalPipe;
    if args != [] {
      assert (args + [Nested(pipe)])[1..] == args[1..] + [Nested(pipe)];
      EvalArgsPush(sc, args[1..], Nested(pipe));
    }
  }

  lemma {:induction false} StagesAgree(sc: Scope, commands: seq<Command>)
    requires commands != []
    ensures Agree(EvalStages(sc, commands), EvalPipe(sc, NestStages(commands)))
    decreases commands, 1
  {
    hide EvalCommand, EvalArgs, NestNodes;
    var n := |commands| - 1;
    var args := commands[n].args;
    var nested := NestNodes(args);
    ArgsLength(sc, args);
    if args != [] {
      RestAgrees(sc, commands[n]);
    }
    assert commands[n] == Command(args);
    if n == 0 {
      CommandsAgree(sc, args, nested, None);
    } else {
      StagesAgree(sc, commands[..n]);
      var inner := NestStages(commands[..n]);
      assert EvalPipe(sc, NestStages(commands)) == EvalCommand(sc, Command(nested + [Nested(inner)]), None);
      FedByArgument(sc, nested, inner);
      match EvalStages(sc, commands[..n])
      case Ok(v) => CommandsAgree(sc, args, nested, Some(v));
      case Err(_) =>
    }
  }

  lemma {:induction false} RestAgrees(sc: Scope, c: Command)
    requires c.args != []
    ensures Agree(EvalArgs(sc, c.args[1..]), EvalArgs(sc, NestNodes(c.args[1..])))
    decreases c, 2
  {
    ArgsAgree(sc, c.args[1..]);
  }

  /**
   A default succeeds with `v` as written if and only if it succeeds with `v` when every stage is passed as the last
   argument of the next, for every tree, table of pure functions and filled slots; and the nested form has no pipes.
   */
  lemma PipelineMeansNesting(sc: Scope, t: Tree, v: Value)
    ensures EvalTree(sc, t) == Ok(v) <==> EvalTree(sc, NestTree(t)) == Ok(v)
    ensures forall i :: NestTree(t).Tree? && 0 <= i < |NestTree(t).items| && NestTree(t).items[i].Action? ==>
              SingleStage(NestTree(t).items[i].pipe)
  {
    if t.Tree? {
      forall i | 0 <= i < |t.items| && t.items[i].Action? ensures SingleStage(NestTree(t).items[i].pipe) {
        NestIsSingle(t.items[i].pipe);
      }
      if |t.items| == 1 && t.items[0].Action? {
        PipesAgree(sc, t.items[0].pipe);
      }
    }
  }

  /**
   The failures need not be the same: a pipe runs its first stage first, a nested call looks its function up first.
   */
  lemma FailuresDiffer(sc: Scope)
    requires "f" !in sc.functions && "g" !in sc.functions
    ensures var p := Pipe([Command([Identifier("f")]), Command([Identifier("g")])]);
            EvalPipe(sc, p) == Err(Unknown("f")) && EvalPipe(sc, NestPipe(p)) == Err(Unknown("g"))
  {
    var f, g := Command([Identifier("f")]), Command([Identifier("g")]);
    var p := Pipe([f, g]);
    assert p.commands[..1] == [f];
    assert EvalStages(sc, [f]) == Err(Unknown("f"));
    ArgsLength(sc, g.args);
    ArgsLength(sc, f.args);
    var fed := NestNodes(g.args) + [Nested(NestStages([f]))];
    assert NestPipe(p) == Pipe([Command(fed)]);
    assert fed[0] == Identifier("g");
    assert EvalCommand(sc, Command(fed), None) == Err(Unknown("g"));
  }

  // ----- What a command and a pipe mean, value by value -----

  /** The arguments, each evaluated on its own. */
  ghost predicate Feeds(sc: Scope, args: seq<Node>, values: seq<Value>) {
    |values| == |args| && forall i :: 0 <= i < |args| ==> EvalArg(sc, args[i]) == Ok(values[i])
  }

  lemma {:induction false} ArgsMean(sc: Scope, args: seq<Node>, values: seq<Value>)
    ensures EvalArgs(sc, args) == Ok(values) <==> Feeds(sc, args, values)
    decreases |args|
  {
    hide EvalArg;
    if args != [] {
      var n := |args| - 1;
      assert forall i :: 0 <= i < n ==> args[..n][i] == args[i];
      if |values| == |args| {
        ArgsMean(sc, args[..n], values[..n]);
        assert values == values[..n] + [values[n]];
      }
      if EvalArgs(sc, args[..n]).Ok? {
        ArgsMean(sc, args[..n], EvalArgs(sc, args[..n]).value);
      }
    }
  }

  /** The first argument that fails decides the failure. */
  lemma {:induction false} ArgsFail(sc: Scope, args: seq<Node>, e: Error)
    ensures EvalArgs(sc, args) == Err(e) <==>
      exists k :: 0 <= k < |args| && EvalArg(sc, args[k]) == Err(e)
                  && forall i :: 0 <= i < k ==> EvalArg(sc, args[i]).Ok?
    decreases |args|
  {
    hide EvalArg;
    if args != [] {
      var n := |args| - 1;
      assert forall i :: 0 <= i < n ==> args[..n][i] == args[i];
      ArgsFail(sc, args[..n], e);
      match EvalArgs(sc, args[..n])
      case Ok(values) => ArgsMean(sc, args[..n], values);
      case Err(f) => ArgsFail(sc, args[..n], f);
    }
  }

  /**
   A command calls the function its first node names, on the filled slots, with its other nodes' values in order and the
   previous stage's value last.
   */
  lemma CommandMeans(sc: Scope, c: Command, previous: Option<Value>, r: Result<Value>)
    ensures c.args == [] ==> EvalCommand(sc, c, previous) == Err(EmptyCommand)
    ensures c.args != [] && !c.args[0].Identifier? ==> EvalCommand(sc, c, previous) == Err(NotFunction)
    ensures c.args != [] && c.args[0].Identifier? ==>
      var name := c.args[0].name;
      && (name !in sc.functions ==> EvalCommand(sc, c, previous) == Err(Unknown(name)))
      && (name in sc.functions ==>
           && (forall values :: Feeds(sc, c.args[1..], values) ==>
                EvalCommand(sc, c, previous) ==
                  sc.functions[name](sc.siblings, values + if previous.Some? then [previous.value] else []))
           && (forall e :: EvalArgs(sc, c.args[1..]) == Err(e) ==> EvalCommand(sc, c, previous) == Err(In(name, e))))
  {
    hide EvalArgs, Feeds;
    if c.args != [] && c.args[0].Identifier? {
      forall values | Feeds(sc, c.args[1..], values) ensures EvalArgs(sc, c.args[1..]) == Ok(values) {
        ArgsMean(sc, c.args[1..], values);
      }
      assert forall values: seq<Value> :: values + [] == values;
    }
  }

  /** The value a stage is fed. */
  function Fed(values: seq<Value>, i: nat): Option<Value>
    requires i <= |values|
  {
    if i == 0 then None else Some(values[i - 1])
  }

  /** The stages' values, each stage fed with the one before. */
  ghost predicate Stages(sc: Scope, commands: seq<Command>, values: seq<Value>) {
    |values| == |commands| && forall i :: 0 <= i < |commands| ==>
      EvalCommand(sc, commands[i], Fed(values, i)) == Ok(values[i])
  }

  /** A pipe succeeds with the value of its last stage, each stage being fed the value of the one before. */
  lemma {:induction false} PipeMeans(sc: Scope, p: Pipe, v: Value)
    ensures EvalPipe(sc, p) == Ok(v) <==>
      p.commands != [] && exists values :: values != [] && Stages(sc, p.commands, values) && values[|values|-1] == v
  {
    hide EvalCommand;
    if p.commands != [] {
      StagesMean(sc, p.commands, v);
    }
  }

  lemma StagesPush(sc: Scope, commands: seq<Command>, values: seq<Value>)
    requires commands != [] && |values| == |commands|
    ensures var n := |commands| - 1;
            Stages(sc, commands, values) <==>
              Stages(sc, commands[..n], values[..n]) && EvalCommand(sc, commands[n], Fed(values, n)) == Ok(values[n])
  {
    hide EvalCommand;
    var n := |commands| - 1;
    forall i | 0 <= i < n ensures commands[..n][i] == commands[i] && values[..n][i] == values[i] {
    }
    forall i | 0 <= i < n ensures Fed(values[..n], i) == Fed(values, i) {
    }
  }

  lemma {:induction false} StagesMean(sc: Scope, commands: seq<Command>, v: Value)
    requires commands != []
    ensures EvalStages(sc, commands) == Ok(v) <==>
      exists values :: values != [] && Stages(sc, commands, values) && values[|values|-1] == v
    decreases |commands|
  {
    hide EvalCommand, Stages;
    var n := |commands| - 1;
    if EvalStages(sc, commands) == Ok(v) {
      var values := StagesFound(sc, commands, v);
    }
    if values :| values != [] && Stages(sc, commands, values) && values[|values|-1] == v {
      StagesLength(sc, commands, values);
      StagesPush(sc, commands, values);
      if n > 0 {
        StagesLength(sc, commands[..n], values[..n]);
        StagesMean(sc, commands[..n], values[n - 1]);
      }
    }
  }

  lemma StagesLength(sc: Scope, commands: seq<Command>, values: seq<Value>)
    requires Stages(sc, commands, values)
    ensures |values| == |commands|
  {
  }

  lemma {:induction false} StagesFound(sc: Scope, commands: seq<Command>, v: Value) returns (values: seq<Value>)
    requires commands != [] && EvalStages(sc, commands) == Ok(v)
    ensures Stages(sc, commands, values) && values != [] && values[|values|-1] == v
    decreases |commands|
  {
    hide EvalCommand;
    var n := |commands| - 1;
    var before := [];
    if n > 0 {
      before := StagesFound(sc, commands[..n], EvalStages(sc, commands[..n]).value);
    }
    values := before + [v];
    assert values[..n] == before;
    StagesPush(sc, commands, values);
  }

  /** What the other nodes mean: of a number the first representation that fits, of a field its filled slot. */
  lemma NodesMean(sc: Scope, node: Node, v: Value)
    ensures node.Number? ==>
      (EvalArg(sc, node) == Ok(v) <==>
        match v
        case Int(i) => node.n.asInt == Some(i)
        case Uint(u) => node.n.asInt.None? && node.n.asUint == Some(u)
        case Float(f) => node.n.asInt.None? && node.n.asUint.None? && node.n.asFloat == Some(f)
        case Complex(re, im) => node.n.asInt.None? && node.n.asUint.None? && node.n.asFloat.None?
                                && node.n.asComplex == Some((re, im))
        case _ => false)
    ensures node.Str? ==> (EvalArg(sc, node) == Ok(v) <==> v == Text(node.text))
    ensures node.Bool? ==> (EvalArg(sc, node) == Ok(v) <==> v == Flag(node.b))
    ensures node.Field? ==>
      (EvalArg(sc, node) == Ok(v) <==>
        |node.path| == 1 && node.path[0] in sc.siblings && sc.siblings[node.path[0]] == v)
    ensures node.Nested? ==> (EvalArg(sc, node) == Ok(v) <==> EvalPipe(sc, node.pipe) == Ok(v))
    ensures node.Identifier? || node.OtherNode? ==> EvalArg(sc, node) == Err(Unsupported)
  {
    hide EvalPipe;
  }

  // ----- The loops -----

  method RunPipe(sc: Scope, p: Pipe) returns (r: Result<Value>)
    ensures r == EvalPipe(sc, p)
    decreases p, 1
  {
    if |p.commands| == 0 {
      return Err(EmptyPipeline);
    }
    var previous: Option<Value> := None;
    var i := 0;
    while i < |p.commands|
      invariant 0 <= i <= |p.commands|
      invariant if i == 0 then previous == None
                else previous.Some? && EvalStages(sc, p.commands[..i]) == Ok(previous.value)
      invariant forall k :: 0 < k <= i ==> EvalStages(sc, p.commands[..k]).Ok?
    {
      assert p.commands[..i + 1][..i] == p.commands[..i];
      r := RunCommand(sc, p.commands[i], previous);
      if r.Err? {
        FailureStays(sc, p.commands, i + 1);
        return;
      }
      previous := Some(r.value);
      i := i + 1;
    }
    assert p.commands[..i] == p.commands;
    return Ok(previous.value);
  }

  /** A failed stage is the pipeline's failure. */
  lemma {:induction false} FailureStays(sc: Scope, commands: seq<Command>, k: nat)
    requires 0 < k <= |commands| && EvalStages(sc, commands[..k]).Err?
    ensures EvalStages(sc, commands) == EvalStages(sc, commands[..k])
    decreases |commands| - k
  {
    if k < |commands| {
      assert commands[..k + 1][..k] == commands[..k];
      FailureStays(sc, commands, k + 1);
    } else {
      assert commands[..k] == commands;
    }
  }

  method RunCommand(sc: Scope, c: Command, previous: Option<Value>) returns (r: Result<Value>)
    ensures r == EvalCommand(sc, c, previous)
    decreases c, 1
  {
    if |c.args| == 0 {
      return Err(EmptyCommand);
    }
    match c.args[0] {
      case Identifier(name) =>
        if name !in sc.functions {
          return Err(Unknown(name));
        }
        var values: seq<Value> := [];
        var rest := c.args[1..];
        var i := 0;
        while i < |rest|
          invariant 0 <= i <= |rest| && EvalArgs(sc, rest[..i]) == Ok(values)
        {
          assert rest[..i + 1][..i] == rest[..i];
          var v := RunArg(sc, rest[i]);
          if v.Err? {
            ArgFailureStays(sc, rest, i + 1);
            return Err(In(name, v.error));
          }
          values := values + [v.value];
          i := i + 1;
        }
        assert rest[..i] == rest;
        if previous.Some? {
          values := values + [previous.value];
        }
        r := sc.functions[name](sc.siblings, values);
      case _ =>
        return Err(NotFunction);
    }
  }

  lemma {:induction false} ArgFailureStays(sc: Scope, args: seq<Node>, k: nat)
    requires k <= |args| && EvalArgs(sc, args[..k]).Err?
    ensures EvalArgs(sc, args) == EvalArgs(sc, args[..k])
    decreases |args| - k
  {
    if k < |args| {
      assert args[..k + 1][..k] == args[..k];
      ArgFailureStays(sc, args, k + 1);
    } else {
      assert args[..k] == args;
    }
  }

  method RunArg(sc: Scope, node: Node) returns (r: Result<Value>)
    ensures r == EvalArg(sc, node)
    decreases node, 1
  {
    match node {
      case Number(n) => return EvalNumber(n);
      case Str(text) => return Ok(Text(text));
      case Bool(b) => return Ok(Flag(b));
      case Field(path) => return EvalField(path, sc.siblings);
      case Nested(pipe) => r := RunPipe(sc, pipe);
      case _ => return Err(Unsupported);
    }
  }
}
