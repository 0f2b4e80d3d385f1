/** The incremental gitignore stack (pkg/gitignore/tracker.go) against recomputing every ancestor's rules. */
module Gitignore {
  import opened Options

  // ----- Paths -----

  /** strings.Split(s, "/"). */
  function Split(s: string): (r: seq<string>)
    ensures |r| >= 1
  {
    if s == "" then [""]
    else
      var rest := Split(s[1..]);
      if s[0] == '/' then [""] + rest else [[s[0]] + rest[0]] + rest[1..]
  }

  function Join(c: seq<string>): string
    requires c != []
  {
    if |c| == 1 then c[0] else c[0] + "/" + Join(c[1..])
  }

  lemma {:induction false} JoinSplit(s: string)
    ensures Join(Split(s)) == s
    decreases |s|
  {
    if s != "" {
      JoinSplit(s[1..]);
      var rest := Split(s[1..]);
      if s[0] == '/' {
        assert Split(s)[1..] == rest;
      } else if |rest| == 1 {
        assert s == [s[0]] + s[1..];
      } else {
        assert Split(s)[1..] == rest[1..];
        assert Join(rest) == rest[0] + "/" + Join(rest[1..]);
        assert [s[0]] + rest[0] + "/" + Join(rest[1..]) == [s[0]] + (rest[0] + "/" + Join(rest[1..]));
        assert s == [s[0]] + s[1..];
      }
    }
  }

  predicate NoSlash(s: string) { '/' !in s }

  lemma {:induction false} SplitWord(w: string, s: string)
    requires NoSlash(w)
    ensures Split(w) == [w] && Split(w + "/" + s) == [w] + Split(s)
    decreases |w|
  {
    if w == "" {
      assert "" + "/" + s == "/" + s;
      assert ("/" + s)[1..] == s;
    } else {
      assert w == [w[0]] + w[1..];
      SplitWord(w[1..], s);
      assert (w + "/" + s)[1..] == w[1..] + "/" + s;
    }
  }

  lemma {:induction false} SplitJoin(c: seq<string>)
    requires c != [] && forall i :: 0 <= i < |c| ==> NoSlash(c[i])
    ensures Split(Join(c)) == c
    decreases |c|
  {
    if |c| == 1 {
      SplitWord(c[0], "");
    } else {
      SplitJoin(c[1..]);
      SplitWord(c[0], Join(c[1..]));
    }
  }

  lemma {:induction false} SplitHasNoSlash(s: string)
    ensures forall i :: 0 <= i < |Split(s)| ==> NoSlash(Split(s)[i])
    decreases |s|
  {
    if s != "" {
      SplitHasNoSlash(s[1..]);
    }
  }

  /** Push's test whether `top` is an ancestor of `dir` or `dir` itself. */
  predicate AtOrBelow(dir: string, top: string) {
    dir == top || top + "/" <= dir
  }

  lemma HeadPrefix<T>(a: seq<T>, b: seq<T>)
    requires a != [] && b != []
    ensures a <= b <==> a[0] == b[0] && a[1..] <= b[1..]
  {
    if a[0] == b[0] && a[1..] <= b[1..] {
      assert a == [a[0]] + a[1..] && b == [b[0]] + b[1..];
      assert a == b[..|a|];
    }
    if a <= b {
      assert forall i :: 0 <= i < |a| - 1 ==> a[1..][i] == a[i + 1] == b[i + 1] == b[1..][i];
    }
  }

  /** The string test is the prefix order on path components, for all strings. */
  lemma {:induction false} StringTestIsComponentPrefix(dir: string, top: string)
    ensures AtOrBelow(dir, top) <==> Split(top) <= Split(dir)
    decreases |top|
  {
    if top == "" {
      assert top + "/" == "/";
      HeadPrefix([""], Split(dir));
      if dir != "" {
        HeadPrefix("/", dir);
      }
    } else if dir == "" {
      HeadPrefix(Split(top), Split(dir));
      if top[0] == '/' {
        assert Split(top)[1..] == Split(top[1..]);
      } else {
        assert Split(top)[0][0] == top[0];
      }
    } else if dir[0] == top[0] {
      StringTestIsComponentPrefix(dir[1..], top[1..]);
      assert (top + "/")[1..] == top[1..] + "/" && (top + "/")[0] == top[0];
      HeadPrefix(top + "/", dir);
      assert top == dir <==> top[1..] == dir[1..] by {
        assert top == [top[0]] + top[1..] && dir == [dir[0]] + dir[1..];
      }
      ConsSplit(top, dir);
    } else {
      assert (top + "/")[0] == top[0];
      FirstChars(top, dir);
    }
  }

  lemma ConsSplit(a: string, b: string)
    requires a != "" && b != "" && a[0] == b[0]
    ensures Split(a) <= Split(b) <==> Split(a[1..]) <= Split(b[1..])
  {
    var x, y := Split(a[1..]), Split(b[1..]);
    var c := a[0];
    HeadPrefix(Split(a), Split(b));
    HeadPrefix(x, y);
    if c == '/' {
      assert Split(a)[1..] == x && Split(b)[1..] == y;
    } else {
      assert Split(a)[1..] == x[1..] && Split(b)[1..] == y[1..];
      SameHead(c, x[0], y[0]);
    }
  }

  lemma SameHead(c: char, a: string, b: string)
    ensures [c] + a == [c] + b <==> a == b
  {
    assert ([c] + a)[1..] == a && ([c] + b)[1..] == b;
  }

  lemma FirstChars(a: string, b: string)
    requires a != "" && b != "" && a[0] != b[0]
    ensures !(Split(a) <= Split(b))
  {
    if a[0] == '/' {
      assert Split(a)[0] == "" && Split(b)[0] != "";
    } else if b[0] == '/' {
      assert Split(b)[0] == "" && Split(a)[0] != "";
    } else {
      assert Split(a)[0][0] == a[0] && Split(b)[0][0] == b[0];
    }
  }

  // ----- Patterns and layers -----

  datatype Match = NoMatch | Exclude | Include

  datatype Pattern = Pattern(id: int)

  /** go-git's Pattern.Match. */
  type Matcher = (Pattern, seq<string>, bool) -> Match

  /** One rule file on the stack; `dir` is empty for the base layers. */
  datatype Layer = Layer(dir: string, source: string, patterns: seq<Pattern>)

  /** loadPatterns: an unreachable file is an empty list. */
  datatype Loaded = Rules(patterns: seq<Pattern>) | Broken

  function Source(root: string, dir: string): string {
    root + "/" + dir + "/.gitignore"
  }

  datatype Rule = Rule(source: string, pattern: Pattern)

  function RulesOf(source: string, patterns: seq<Pattern>): seq<Rule> {
    if patterns == [] then []
    else RulesOf(source, patterns[..|patterns|-1]) + [Rule(source, patterns[|patterns|-1])]
  }

  /** All rules in force, the least specific first. */
  function Flat(layers: seq<Layer>): seq<Rule> {
    if layers == [] then []
    else
      var top := layers[|layers|-1];
      Flat(layers[..|layers|-1]) + RulesOf(top.source, top.patterns)
  }

  /** What the last matching rule says, and where it is from. */
  function LastMatch(m: Matcher, rules: seq<Rule>, path: seq<string>, isDir: bool): (bool, string) {
    if rules == [] then (false, "")
    else
      var last := rules[|rules|-1];
      match m(last.pattern, path, isDir)
      case NoMatch => LastMatch(m, rules[..|rules|-1], path, isDir)
      case Exclude => (true, last.source)
      case Include => (false, last.source)
  }

  /** The last rule that matches is at `k`. */
  ghost predicate Decides(m: Matcher, rules: seq<Rule>, path: seq<string>, isDir: bool, k: nat) {
    && k < |rules| && m(rules[k].pattern, path, isDir) != NoMatch
    && forall j :: k < j < |rules| ==> m(rules[j].pattern, path, isDir) == NoMatch
  }

  /** The verdict: an exclusion by the last rule that matches ignores, an inclusion or no match does not. */
  lemma {:induction false} VerdictMeans(m: Matcher, rules: seq<Rule>, path: seq<string>, isDir: bool)
    ensures var v := LastMatch(m, rules, path, isDir);
            && ((forall k :: 0 <= k < |rules| ==> m(rules[k].pattern, path, isDir) == NoMatch) ==> v == (false, ""))
            && (forall k: nat :: Decides(m, rules, path, isDir, k) ==>
                 v == (m(rules[k].pattern, path, isDir) == Exclude, rules[k].source))
    decreases |rules|
  {
    if rules != [] {
      var n := |rules| - 1;
      VerdictMeans(m, rules[..n], path, isDir);
      assert forall j :: 0 <= j < n ==> rules[..n][j] == rules[j];
      forall k: nat | Decides(m, rules, path, isDir, k)
        ensures LastMatch(m, rules, path, isDir) == (m(rules[k].pattern, path, isDir) == Exclude, rules[k].source)
      {
        if k < n {
          assert Decides(m, rules[..n], path, isDir, k);
        }
      }
    }
  }

  /** Where the layer's rules begin. */
  function Offset(layers: seq<Layer>, i: nat): nat
    requires i <= |layers|
  {
    if i == 0 then 0 else Offset(layers, i - 1) + |layers[i - 1].patterns|
  }

  /** The rules in force stand in the order of their layers, and in the order of their files within one. */
  lemma {:induction false} FlatIs(layers: seq<Layer>, i: nat, j: nat)
    requires i < |layers| && j < |layers[i].patterns|
    ensures Offset(layers, i) + j < |Flat(layers)| == Offset(layers, |layers|)
    ensures Flat(layers)[Offset(layers, i) + j] == Rule(layers[i].source, layers[i].patterns[j])
    decreases |layers|
  {
    var n := |layers| - 1;
    var top := layers[n];
    RulesOfIs(top.source, top.patterns);
    FlatSize(layers[..n]);
    OffsetInit(layers, n);
    if i < n {
      FlatIs(layers[..n], i, j);
      OffsetInit(layers, i);
    }
  }

  lemma {:induction false} FlatSize(layers: seq<Layer>)
    ensures |Flat(layers)| == Offset(layers, |layers|)
    decreases |layers|
  {
    if layers != [] {
      var n := |layers| - 1;
      FlatSize(layers[..n]);
      OffsetInit(layers, n);
      RulesOfIs(layers[n].source, layers[n].patterns);
    }
  }

  lemma {:induction false} OffsetInit(layers: seq<Layer>, i: nat)
    requires layers != [] && i < |layers|
    ensures Offset(layers[..|layers|-1], i) == Offset(layers, i)
    decreases i
  {
    if i > 0 {
      OffsetInit(layers, i - 1);
    }
  }

  /** Rules that do not match can be left out at the specific end. */
  lemma {:induction false} SilentTail(m: Matcher, a: seq<Rule>, b: seq<Rule>, path: seq<string>, isDir: bool)
    requires forall i :: 0 <= i < |b| ==> m(b[i].pattern, path, isDir) == NoMatch
    ensures LastMatch(m, a + b, path, isDir) == LastMatch(m, a, path, isDir)
    decreases |b|
  {
    if b == [] {
      assert a + b == a;
    } else {
      assert (a + b)[..|a + b| - 1] == a + b[..|b|-1];
      SilentTail(m, a, b[..|b|-1], path, isDir);
    }
  }

  lemma {:induction false} FlatConcat(a: seq<Layer>, b: seq<Layer>)
    ensures Flat(a + b) == Flat(a) + Flat(b)
    decreases |b|
  {
    hide RulesOf;
    if b == [] {
      assert a + b == a;
    } else {
      assert (a + b)[..|a + b| - 1] == a + b[..|b|-1];
      FlatConcat(a, b[..|b|-1]);
    }
  }

  // ----- Push -----

  /** The pops. */
  function Popped(layers: seq<Layer>, dir: string): (r: seq<Layer>)
    ensures r <= layers
  {
    if layers == [] then []
    else
      var top := layers[|layers|-1];
      if top.dir == "" || AtOrBelow(dir, top.dir) then layers else Popped(layers[..|layers|-1], dir)
  }

  /** The whole of Push; false is the load error, after the pops. */
  function Pushed(root: string, rules: string -> Loaded, layers: seq<Layer>, dir: string): (seq<Layer>, bool) {
    var kept := Popped(layers, dir);
    if kept != [] && kept[|kept|-1].dir == dir then (kept, true)
    else
      match rules(dir)
      case Broken => (kept, false)
      case Rules(patterns) =>
        (if patterns == [] then kept else kept + [Layer(dir, Source(root, dir), patterns)], true)
  }

  /** The stack after a sequence of pushes. */
  function After(root: string, rules: string -> Loaded, base: seq<Layer>, dirs: seq<string>): seq<Layer> {
    if dirs == [] then base
    else Pushed(root, rules, After(root, rules, base, dirs[..|dirs|-1]), dirs[|dirs|-1]).0
  }

  /** What the directory's rule file holds; nothing when it cannot be read. */
  function PatternsOf(rules: string -> Loaded, dir: string): seq<Pattern> {
    match rules(dir)
    case Rules(patterns) => patterns
    case Broken => []
  }

  predicate HasRules(rules: string -> Loaded, dir: string) {
    PatternsOf(rules, dir) != []
  }

  function LayerOf(root: string, rules: string -> Loaded, dir: string): Layer {
    Layer(dir, Source(root, dir), PatternsOf(rules, dir))
  }

  /** A clean relative path: no empty component. */
  predicate Proper(dir: string) {
    forall i :: 0 <= i < |Split(dir)| ==> Split(dir)[i] != ""
  }

  /** The directory was pushed, and every push since was at or below it. */
  predicate Live(dirs: seq<string>, d: string) {
    dirs != [] && AtOrBelow(dirs[|dirs|-1], d) && (dirs[|dirs|-1] == d || Live(dirs[..|dirs|-1], d))
  }

  lemma {:induction false} LiveMeans(dirs: seq<string>, d: string)
    ensures Live(dirs, d) <==>
      exists i :: 0 <= i < |dirs| && dirs[i] == d && forall j :: i <= j < |dirs| ==> AtOrBelow(dirs[j], d)
    decreases |dirs|
  {
    if dirs != [] {
      var n := |dirs| - 1;
      LiveMeans(dirs[..n], d);
      if Live(dirs, d) && dirs[n] != d {
        var i :| 0 <= i < n && dirs[..n][i] == d && forall j :: i <= j < n ==> AtOrBelow(dirs[..n][j], d);
        assert dirs[i] == d;
        forall j | i <= j < |dirs| ensures AtOrBelow(dirs[j], d) {
          if j < n {
            assert AtOrBelow(dirs[..n][j], d);
          }
        }
      }
      if exists i :: 0 <= i < |dirs| && dirs[i] == d && forall j :: i <= j < |dirs| ==> AtOrBelow(dirs[j], d) {
        var i :| 0 <= i < |dirs| && dirs[i] == d && forall j :: i <= j < |dirs| ==> AtOrBelow(dirs[j], d);
        assert AtOrBelow(dirs[n], d);
        if i < n {
          assert dirs[..n][i] == d;
          assert forall j :: i <= j < n ==> AtOrBelow(dirs[..n][j], d);
        }
      }
    }
  }

  /** A pushed layer holds its directory's rules. */
  predicate Right(root: string, rules: string -> Loaded, l: Layer) {
    l.dir != "" && HasRules(rules, l.dir) && l == LayerOf(root, rules, l.dir)
  }

  /** The layers above the base: right, and each strictly below the one before. */
  ghost predicate Chain(root: string, rules: string -> Loaded, own: seq<Layer>) {
    && (forall i :: 0 <= i < |own| ==> Right(root, rules, own[i]))
    && (forall i, j :: 0 <= i < j < |own| ==> Split(own[i].dir) < Split(own[j].dir))
  }

  predicate OnStack(own: seq<Layer>, d: string) {
    exists i :: 0 <= i < |own| && own[i].dir == d
  }

  predicate IsBase(base: seq<Layer>) {
    forall i :: 0 <= i < |base| ==> base[i].dir == ""
  }

  /** The pops keep exactly the layers that the new directory is at or below. */
  lemma {:induction false} PopsExactly(root: string, rules: string -> Loaded, base: seq<Layer>, own: seq<Layer>,
                                       dir: string)
    returns (k: nat)
    requires IsBase(base) && Chain(root, rules, own)
    ensures k <= |own| && Popped(base + own, dir) == base + own[..k]
    ensures forall i :: 0 <= i < |own| ==> (i < k <==> AtOrBelow(dir, own[i].dir))
    decreases |own|
  {
    hide Split, AtOrBelow, Chain, Popped, HasRules;
    if own == [] {
      assert base + own == base;
      PopsNoBase(base, dir);
      k := 0;
    } else {
      var n := |own| - 1;
      TopNamed(root, rules, own);
      assert (base + own)[..|base + own| - 1] == base + own[..n];
      PopOne(base + own, dir);
      if AtOrBelow(dir, own[n].dir) {
        k := |own|;
        assert own[..k] == own;
        AllAbove(root, rules, own, dir);
      } else {
        KeptChain(root, rules, own, n);
        k := PopsExactly(root, rules, base, own[..n], dir);
        assert own[..n][..k] == own[..k];
        forall i | 0 <= i < n ensures i < k <==> AtOrBelow(dir, own[i].dir) {
          assert own[..n][i] == own[i];
        }
      }
    }
  }

  lemma PopsNoBase(base: seq<Layer>, dir: string)
    requires IsBase(base)
    ensures Popped(base, dir) == base
  {
  }

  lemma TopNamed(root: string, rules: string -> Loaded, own: seq<Layer>)
    requires Chain(root, rules, own) && own != []
    ensures own[|own|-1].dir != ""
  {
    assert Right(root, rules, own[|own|-1]);
  }

  lemma AllAbove(root: string, rules: string -> Loaded, own: seq<Layer>, dir: string)
    requires Chain(root, rules, own) && own != [] && AtOrBelow(dir, own[|own|-1].dir)
    ensures forall i :: 0 <= i < |own| ==> AtOrBelow(dir, own[i].dir)
  {
    hide AtOrBelow, Split, HasRules;
    var n := |own| - 1;
    StringTestIsComponentPrefix(dir, own[n].dir);
    forall i | 0 <= i < n ensures AtOrBelow(dir, own[i].dir) {
      StringTestIsComponentPrefix(dir, own[i].dir);
      assert Split(own[i].dir) < Split(own[n].dir);
    }
  }

  lemma PopOne(layers: seq<Layer>, dir: string)
    ensures Popped(layers, dir) ==
      if layers == [] || layers[|layers|-1].dir == "" || AtOrBelow(dir, layers[|layers|-1].dir) then layers
      else Popped(layers[..|layers|-1], dir)
  {
  }

  lemma SplitInjective(a: string, b: string)
    requires Split(a) == Split(b)
    ensures a == b
  {
    JoinSplit(a);
    JoinSplit(b);
  }

  /** One push, on the layers above the base. */
  lemma PushStep(root: string, rules: string -> Loaded, base: seq<Layer>, own: seq<Layer>, dir: string)
    returns (next: seq<Layer>)
    requires IsBase(base) && Chain(root, rules, own) && dir != ""
    ensures Pushed(root, rules, base + own, dir).0 == base + next && Chain(root, rules, next)
    ensures forall d :: OnStack(next, d) <==> (d == dir && HasRules(rules, d)) || (OnStack(own, d) && AtOrBelow(dir, d))
  {
    hide OnStack, AtOrBelow, Split, HasRules, Popped, Chain;
    var k := PopsExactly(root, rules, base, own, dir);
    var kept := own[..k];
    assert forall i :: 0 <= i < k ==> kept[i] == own[i] && AtOrBelow(dir, own[i].dir);
    forall d ensures OnStack(kept, d) <==> OnStack(own, d) && AtOrBelow(dir, d) {
      KeptIs(own, kept, k, dir, d);
    }
    KeptChain(root, rules, own, k);
    TopOf(base, kept);
    if k > 0 && kept[k - 1].dir == dir {
      next := kept;
      OnTop(root, rules, own, k, dir);
    } else {
      NotAmong(root, rules, own, k, dir);
      Loads(rules, dir);
      if HasRules(rules, dir) {
        var l := LayerOf(root, rules, dir);
        next := kept + [l];
        assert (base + kept) + [l] == base + next;
        ChainGrows(root, rules, own, k, dir, l);
        forall d ensures OnStack(next, d) <==> d == dir || OnStack(kept, d) {
          OnStackPush(kept, l, d);
        }
      } else {
        next := kept;
      }
    }
  }

  /** The top of the stack after the pops, seen from the layers above the base. */
  lemma TopOf(base: seq<Layer>, kept: seq<Layer>)
    requires IsBase(base)
    ensures var all := base + kept;
            all != [] ==> all[|all|-1].dir == if kept == [] then "" else kept[|kept|-1].dir
  {
  }

  lemma Loads(rules: string -> Loaded, dir: string)
    ensures HasRules(rules, dir) <==> rules(dir).Rules? && rules(dir).patterns != []
    ensures rules(dir).Rules? ==> PatternsOf(rules, dir) == rules(dir).patterns
  {
  }

  lemma KeptChain(root: string, rules: string -> Loaded, own: seq<Layer>, k: nat)
    requires Chain(root, rules, own) && k <= |own|
    ensures Chain(root, rules, own[..k])
  {
  }

  lemma OnTop(root: string, rules: string -> Loaded, own: seq<Layer>, k: nat, dir: string)
    requires Chain(root, rules, own) && 0 < k <= |own| && own[k - 1].dir == dir
    ensures HasRules(rules, dir) && OnStack(own[..k], dir)
  {
    assert Right(root, rules, own[k - 1]);
    assert own[..k][k - 1].dir == dir;
  }

  lemma KeptIs(own: seq<Layer>, kept: seq<Layer>, k: nat, dir: string, d: string)
    requires k <= |own| && kept == own[..k]
    requires forall i :: 0 <= i < |own| ==> (i < k <==> AtOrBelow(dir, own[i].dir))
    ensures OnStack(kept, d) <==> OnStack(own, d) && AtOrBelow(dir, d)
  {
    if OnStack(kept, d) {
      var i :| 0 <= i < k && kept[i].dir == d;
      assert own[i].dir == d;
    }
    if OnStack(own, d) && AtOrBelow(dir, d) {
      var i :| 0 <= i < |own| && own[i].dir == d;
      assert kept[i].dir == d;
    }
  }

  lemma OnStackPush(kept: seq<Layer>, l: Layer, d: string)
    ensures OnStack(kept + [l], d) <==> d == l.dir || OnStack(kept, d)
  {
    var next := kept + [l];
    assert next[|kept|] == l;
    if OnStack(kept, d) {
      var i :| 0 <= i < |kept| && kept[i].dir == d;
      assert next[i].dir == d;
    }
    if OnStack(next, d) {
      var i :| 0 <= i < |next| && next[i].dir == d;
      if i < |kept| {
        assert kept[i].dir == d;
      }
    }
  }

  /** A directory that is not on top is not on the kept stack at all. */
  lemma NotAmong(root: string, rules: string -> Loaded, own: seq<Layer>, k: nat, dir: string)
    requires Chain(root, rules, own) && k <= |own|
    requires forall i :: 0 <= i < k ==> AtOrBelow(dir, own[i].dir)
    requires k > 0 ==> own[k - 1].dir != dir
    ensures forall i :: 0 <= i < k ==> own[i].dir != dir
    ensures !OnStack(own[..k], dir)
  {
    if k > 0 {
      StringTestIsComponentPrefix(dir, own[k - 1].dir);
      assert forall i :: 0 <= i < k - 1 ==> Split(own[i].dir) < Split(own[k - 1].dir) <= Split(dir);
    }
  }

  lemma ChainGrows(root: string, rules: string -> Loaded, own: seq<Layer>, k: nat, dir: string, l: Layer)
    requires Chain(root, rules, own) && k <= |own| && dir != "" && HasRules(rules, dir)
    requires l == LayerOf(root, rules, dir)
    requires forall i :: 0 <= i < k ==> AtOrBelow(dir, own[i].dir) && own[i].dir != dir
    ensures Chain(root, rules, own[..k] + [l])
  {
    var next := own[..k] + [l];
    forall i, j | 0 <= i < j < |next| ensures Split(next[i].dir) < Split(next[j].dir) {
      if j == k {
        StringTestIsComponentPrefix(dir, own[i].dir);
        if Split(own[i].dir) == Split(dir) {
          SplitInjective(own[i].dir, dir);
        }
      } else {
        assert Split(own[i].dir) < Split(own[j].dir);
      }
    }
    assert forall i :: 0 <= i < k ==> Right(root, rules, own[i]);
  }

  /**
   After any sequence of pushes: the base layers, then a chain of rule files each strictly below the one before; and a
   directory is on it if and only if its file has rules, it was pushed, and every push since was at or below it.
   */
  lemma {:induction false} StackExactly(root: string, rules: string -> Loaded, base: seq<Layer>, dirs: seq<string>)
    returns (own: seq<Layer>)
    requires IsBase(base) && forall i :: 0 <= i < |dirs| ==> dirs[i] != ""
    ensures After(root, rules, base, dirs) == base + own && Chain(root, rules, own)
    ensures forall d :: OnStack(own, d) <==> HasRules(rules, d) && Live(dirs, d)
    decreases |dirs|
  {
    if dirs == [] {
      own := [];
      assert base + own == base;
    } else {
      var n := |dirs| - 1;
      var before := StackExactly(root, rules, base, dirs[..n]);
      own := PushStep(root, rules, base, before, dirs[n]);
      forall d ensures OnStack(own, d) <==> HasRules(rules, d) && Live(dirs, d) {
        assert OnStack(before, d) <==> HasRules(rules, d) && Live(dirs[..n], d);
        StringTestIsComponentPrefix(dirs[n], dirs[n]);
      }
    }
  }

  // ----- Agreement with recomputation -----

  /** The rule files of the first `n` prefixes of a path, shallowest first. */
  function Ancestry(root: string, rules: string -> Loaded, path: seq<string>, n: nat): seq<Layer>
    requires n <= |path|
  {
    if n == 0 then []
    else
      var dir := Join(path[..n]);
      Ancestry(root, rules, path, n - 1)
      + if HasRules(rules, dir) then [LayerOf(root, rules, dir)] else []
  }

  /** Every directory's parent is the root, or the previously visited directory or one above it. */
  predicate Walks(dirs: seq<string>) {
    forall k :: 0 <= k < |dirs| ==> Proper(dirs[k]) && Follows(dirs[..k], Split(dirs[k]))
  }

  predicate Follows(dirs: seq<string>, path: seq<string>)
    requires path != []
  {
    |path| == 1 || (dirs != [] && path[..|path|-1] <= Split(dirs[|dirs|-1]))
  }

  lemma WalksInit(dirs: seq<string>)
    requires Walks(dirs) && dirs != []
    ensures var n := |dirs| - 1; Walks(dirs[..n]) && Follows(dirs[..n], Split(dirs[n])) && Proper(dirs[n])
  {
    var n := |dirs| - 1;
    forall k | 0 <= k < n ensures Proper(dirs[..n][k]) && Follows(dirs[..n][..k], Split(dirs[..n][k])) {
      assert dirs[..n][..k] == dirs[..k];
      assert Proper(dirs[k]) && Follows(dirs[..k], Split(dirs[k]));
    }
    assert Proper(dirs[n]) && Follows(dirs[..n], Split(dirs[n]));
  }

  /** On a walk, every ancestor of the last directory is live. */
  lemma {:induction false} WalkKeepsAncestors(dirs: seq<string>, d: string)
    requires Walks(dirs) && dirs != [] && Split(d) <= Split(dirs[|dirs|-1])
    ensures Live(dirs, d)
    decreases |dirs|
  {
    hide Split, Walks, AtOrBelow;
    var n := |dirs| - 1;
    var c := Split(dirs[n]);
    StringTestIsComponentPrefix(dirs[n], d);
    if dirs[n] != d {
      assert Split(d) != c by {
        if Split(d) == c {
          SplitInjective(d, dirs[n]);
        }
      }
      WalksInit(dirs);
      assert Split(d) <= c[..|c|-1];
      WalkKeepsAncestors(dirs[..n], d);
    }
  }

  /** The layers are for prefixes of the path, up to the given length. */
  ghost predicate Within(own: seq<Layer>, path: seq<string>, n: nat) {
    forall i :: 0 <= i < |own| ==> |Split(own[i].dir)| <= n && Split(own[i].dir) <= path
  }

  lemma {:induction false} AncestryHolds(root: string, rules: string -> Loaded, path: seq<string>, n: nat)
    requires n <= |path| && forall i :: 0 <= i < |path| ==> NoSlash(path[i]) && path[i] != ""
    ensures Chain(root, rules, Ancestry(root, rules, path, n)) && Within(Ancestry(root, rules, path, n), path, n)
    ensures forall d :: OnStack(Ancestry(root, rules, path, n), d) <==>
              HasRules(rules, d) && |Split(d)| <= n && Split(d) <= path
    decreases n
  {
    hide Chain, OnStack, HasRules, Split, Join, NoSlash;
    if n > 0 {
      var dir := Join(path[..n]);
      var before := Ancestry(root, rules, path, n - 1);
      AncestryHolds(root, rules, path, n - 1);
      SplitJoin(path[..n]);
      AncestryGrows(root, rules, path, n, before, dir);
      var after := if HasRules(rules, dir) then before + [LayerOf(root, rules, dir)] else before;
      assert before + [] == before;
      assert Ancestry(root, rules, path, n) == after;
    } else {
      AncestryEmpty(root, rules, path);
    }
  }

  lemma AncestryEmpty(root: string, rules: string -> Loaded, path: seq<string>)
    ensures Ancestry(root, rules, path, 0) == [] && Chain(root, rules, []) && forall d :: !OnStack([], d)
  {
  }

  lemma AncestryGrows(root: string, rules: string -> Loaded, path: seq<string>, n: nat, before: seq<Layer>, dir: string)
    requires 0 < n <= |path| && Split(dir) == path[..n] && path[0] != ""
    requires Chain(root, rules, before) && Within(before, path, n - 1)
    requires forall d :: OnStack(before, d) <==> HasRules(rules, d) && |Split(d)| <= n - 1 && Split(d) <= path
    ensures var after := if HasRules(rules, dir) then before + [LayerOf(root, rules, dir)] else before;
            && Chain(root, rules, after) && Within(after, path, n)
            && (forall d :: OnStack(after, d) <==> HasRules(rules, d) && |Split(d)| <= n && Split(d) <= path)
  {
    hide HasRules, OnStack, Split, Chain, Within;
    var l := LayerOf(root, rules, dir);
    var after := if HasRules(rules, dir) then before + [l] else before;
    WithinGrows(before, path, n, l);
    if HasRules(rules, dir) {
      NotEmpty(dir);
      DeeperChain(root, rules, path, n, before, dir);
    }
    forall d ensures OnStack(after, d) <==> HasRules(rules, d) && |Split(d)| <= n && Split(d) <= path {
      OnStackPush(before, l, d);
      if |Split(d)| == n && Split(d) <= path {
        assert Split(d) == path[..n];
        SplitInjective(d, dir);
      }
    }
  }

  lemma WithinGrows(before: seq<Layer>, path: seq<string>, n: nat, l: Layer)
    requires 0 < n <= |path| && Split(l.dir) == path[..n] && Within(before, path, n - 1)
    ensures Within(before, path, n) && Within(before + [l], path, n)
  {
    hide Split;
  }

  lemma DeeperChain(root: string, rules: string -> Loaded, path: seq<string>, n: nat, before: seq<Layer>, dir: string)
    requires 0 < n <= |path| && Split(dir) == path[..n] && dir != "" && HasRules(rules, dir)
    requires Chain(root, rules, before) && Within(before, path, n - 1)
    ensures Chain(root, rules, before + [LayerOf(root, rules, dir)])
  {
    hide HasRules, Split;
    var after := before + [LayerOf(root, rules, dir)];
    forall i, j | 0 <= i < j < |after| ensures Split(after[i].dir) < Split(after[j].dir) {
      if j == |before| {
        assert Split(before[i].dir) <= path[..n];
      }
    }
  }

  lemma NotEmpty(dir: string)
    requires Split(dir)[0] != ""
    ensures dir != ""
  {
  }

  /** Two chains with the same directories are the same. */
  lemma {:induction false} ChainsAgree(root: string, rules: string -> Loaded, a: seq<Layer>, b: seq<Layer>)
    requires Chain(root, rules, a) && Chain(root, rules, b)
    requires forall d :: OnStack(a, d) <==> OnStack(b, d)
    ensures a == b
    decreases |a|
  {
    hide OnStack, Split, Chain;
    SomeOnStack(a, b);
    if a != [] {
      var n, m := |a| - 1, |b| - 1;
      SameTop(root, rules, a, b);
      TopRight(root, rules, a);
      TopRight(root, rules, b);
      forall d ensures OnStack(a[..n], d) <==> OnStack(b[..m], d) {
        WithoutTop(root, rules, a, d);
        WithoutTop(root, rules, b, d);
      }
      ChainsAgree(root, rules, a[..n], b[..m]);
      assert a == a[..n] + [a[n]] && b == b[..m] + [b[m]];
    }
  }

  lemma SomeOnStack(a: seq<Layer>, b: seq<Layer>)
    requires forall d :: OnStack(a, d) <==> OnStack(b, d)
    ensures a == [] <==> b == []
  {
    assert a != [] ==> OnStack(a, a[0].dir);
    assert b != [] ==> OnStack(b, b[0].dir);
  }

  lemma TopRight(root: string, rules: string -> Loaded, a: seq<Layer>)
    requires Chain(root, rules, a) && a != []
    ensures a[|a|-1] == LayerOf(root, rules, a[|a|-1].dir) && Chain(root, rules, a[..|a|-1])
  {
    assert Right(root, rules, a[|a|-1]);
  }

  lemma SameTop(root: string, rules: string -> Loaded, a: seq<Layer>, b: seq<Layer>)
    requires Chain(root, rules, a) && Chain(root, rules, b) && a != [] && b != []
    requires forall d :: OnStack(a, d) <==> OnStack(b, d)
    ensures a[|a|-1].dir == b[|b|-1].dir
  {
    var x, y := a[|a|-1].dir, b[|b|-1].dir;
    assert OnStack(a, x) && OnStack(b, y);
    var i :| 0 <= i < |b| && b[i].dir == x;
    var j :| 0 <= j < |a| && a[j].dir == y;
    assert i < |b| - 1 ==> Split(x) < Split(y);
    assert j < |a| - 1 ==> Split(y) < Split(x);
  }

  lemma WithoutTop(root: string, rules: string -> Loaded, a: seq<Layer>, d: string)
    requires Chain(root, rules, a) && a != []
    ensures OnStack(a[..|a|-1], d) <==> OnStack(a, d) && d != a[|a|-1].dir
  {
    var n := |a| - 1;
    if OnStack(a[..n], d) {
      var i :| 0 <= i < n && a[..n][i].dir == d;
      assert a[i].dir == d && Split(a[i].dir) < Split(a[n].dir);
    }
    if OnStack(a, d) && d != a[n].dir {
      var i :| 0 <= i < |a| && a[i].dir == d;
      assert a[..n][i].dir == d;
    }
  }

  lemma ProperMeans(dir: string)
    requires Proper(dir)
    ensures dir != "" && forall i :: 0 <= i < |Split(dir)| ==> NoSlash(Split(dir)[i]) && Split(dir)[i] != ""
  {
    SplitHasNoSlash(dir);
    NotEmpty(dir);
  }

  /**
   On a walk the stack is the base, then the rule files of the last directory's ancestors and its own, shallowest
   first.
   */
  lemma StackIsRecomputed(root: string, rules: string -> Loaded, base: seq<Layer>, dirs: seq<string>)
    requires IsBase(base) && Walks(dirs) && dirs != []
    ensures var path := Split(dirs[|dirs|-1]);
            After(root, rules, base, dirs) == base + Ancestry(root, rules, path, |path|)
  {
    hide Chain, OnStack, HasRules, Split, After;
    forall i | 0 <= i < |dirs| ensures dirs[i] != "" {
      ProperMeans(dirs[i]);
    }
    var last := dirs[|dirs|-1];
    var path := Split(last);
    var own := StackExactly(root, rules, base, dirs);
    ProperMeans(last);
    AncestryHolds(root, rules, path, |path|);
    var again := Ancestry(root, rules, path, |path|);
    forall d ensures OnStack(own, d) <==> OnStack(again, d) {
      StringTestIsComponentPrefix(last, d);
      if Split(d) <= path {
        WalkKeepsAncestors(dirs, d);
      }
    }
    ChainsAgree(root, rules, own, again);
  }

  /** The stack agrees with recomputation whatever the rule files hold. */
  ghost predicate AlwaysAgrees(root: string, dirs: seq<string>)
    requires dirs != []
  {
    var last := Split(dirs[|dirs|-1]);
    forall rules: string -> Loaded :: After(root, rules, [], dirs) == Ancestry(root, rules, last, |last|)
  }

  /** Every ancestor of the last directory, and itself, is live. */
  ghost predicate Covered(dirs: seq<string>)
    requires dirs != []
  {
    forall d :: Split(d) <= Split(dirs[|dirs|-1]) ==> Live(dirs, d)
  }

  /** For any pushes, not only a walk's: when the stack can be relied on. */
  lemma AgreesExactly(root: string, dirs: seq<string>)
    requires dirs != [] && forall i :: 0 <= i < |dirs| ==> Proper(dirs[i])
    ensures AlwaysAgrees(root, dirs) <==> Covered(dirs)
  {
    hide Chain, OnStack, HasRules, Split, After, Live, Ancestry;
    if Covered(dirs) {
      forall rules: string -> Loaded {
        LiveAgrees(root, rules, dirs);
      }
    }
    if AlwaysAgrees(root, dirs) {
      AgreementCovers(root, dirs);
    }
  }

  lemma AgreementCovers(root: string, dirs: seq<string>)
    requires dirs != [] && forall i :: 0 <= i < |dirs| ==> Proper(dirs[i])
    requires AlwaysAgrees(root, dirs)
    ensures Covered(dirs)
  {
    hide Chain, OnStack, HasRules, Split, After, Live, Ancestry;
    var last := Split(dirs[|dirs|-1]);
    ProperMeans(dirs[|dirs|-1]);
    forall i | 0 <= i < |dirs| ensures dirs[i] != "" {
      ProperMeans(dirs[i]);
    }
    var rules: string -> Loaded := (d: string) => Rules([Pattern(0)]);
    var own := StackExactly(root, rules, [], dirs);
    assert [] + own == own;
    AncestryHolds(root, rules, last, |last|);
    var again := Ancestry(root, rules, last, |last|);
    assert own == again;
    forall d | Split(d) <= last ensures Live(dirs, d) {
      Loads(rules, d);
      assert |Split(d)| <= |last|;
      assert OnStack(again, d);
    }
  }

  lemma LiveAgrees(root: string, rules: string -> Loaded, dirs: seq<string>)
    requires dirs != [] && forall i :: 0 <= i < |dirs| ==> Proper(dirs[i])
    requires Covered(dirs)
    ensures var last := dirs[|dirs|-1];
            After(root, rules, [], dirs) == Ancestry(root, rules, Split(last), |Split(last)|)
  {
    hide Chain, OnStack, HasRules, Split, After;
    var last := dirs[|dirs|-1];
    ProperMeans(last);
    forall i | 0 <= i < |dirs| ensures dirs[i] != "" {
      ProperMeans(dirs[i]);
    }
    var own := StackExactly(root, rules, [], dirs);
    assert [] + own == own;
    AncestryHolds(root, rules, Split(last), |Split(last)|);
    var again := Ancestry(root, rules, Split(last), |Split(last)|);
    forall d ensures OnStack(own, d) <==> OnStack(again, d) {
      StringTestIsComponentPrefix(last, d);
    }
    ChainsAgree(root, rules, own, again);
  }

  // ----- The verdict on every visited path -----

  /** A pattern read in a directory matches only paths strictly below it (go-git's domain). */
  ghost predicate Scoped(m: Matcher, rules: string -> Loaded) {
    forall d, i, path, isDir :: rules(d).Rules? && 0 <= i < |rules(d).patterns| && !(Split(d) < path) ==>
      m(rules(d).patterns[i], path, isDir) == NoMatch
  }

  lemma {:induction false} AncestrySplits(root: string, rules: string -> Loaded, path: seq<string>, k: nat, n: nat)
    returns (deeper: seq<Layer>)
    requires k <= n <= |path| && forall i :: 0 <= i < |path| ==> NoSlash(path[i]) && path[i] != ""
    ensures Ancestry(root, rules, path, n) == Ancestry(root, rules, path, k) + deeper
    ensures forall i :: 0 <= i < |deeper| ==> Right(root, rules, deeper[i]) && |Split(deeper[i].dir)| > k
    decreases n
  {
    if n == k {
      deeper := [];
      assert Ancestry(root, rules, path, n) + [] == Ancestry(root, rules, path, n);
    } else {
      var before := AncestrySplits(root, rules, path, k, n - 1);
      var dir := Join(path[..n]);
      SplitJoin(path[..n]);
      NotEmpty(dir);
      if HasRules(rules, dir) {
        deeper := before + [LayerOf(root, rules, dir)];
        assert Ancestry(root, rules, path, k) + deeper ==
               Ancestry(root, rules, path, k) + before + [LayerOf(root, rules, dir)];
      } else {
        deeper := before;
      }
    }
  }

  lemma {:induction false} AncestryOfPrefix(root: string, rules: string -> Loaded, a: seq<string>, b: seq<string>,
                                            n: nat)
    requires n <= |a| && n <= |b| && a[..n] == b[..n]
    ensures Ancestry(root, rules, a, n) == Ancestry(root, rules, b, n)
    decreases n
  {
    if n > 0 {
      assert a[..n - 1] == a[..n][..n - 1] && b[..n - 1] == b[..n][..n - 1];
      AncestryOfPrefix(root, rules, a, b, n - 1);
    }
  }

  lemma {:induction false} RulesOfIs(source: string, patterns: seq<Pattern>)
    ensures |RulesOf(source, patterns)| == |patterns|
    ensures forall i :: 0 <= i < |patterns| ==> RulesOf(source, patterns)[i] == Rule(source, patterns[i])
    decreases |patterns|
  {
    if patterns != [] {
      RulesOfIs(source, patterns[..|patterns|-1]);
    }
  }

  /** Layers too deep for a path are silent about it. */
  lemma {:induction false} DeepIsSilent(root: string, rules: string -> Loaded, m: Matcher, deeper: seq<Layer>,
                                        path: seq<string>, isDir: bool)
    requires Scoped(m, rules)
    requires forall i :: 0 <= i < |deeper| ==> Right(root, rules, deeper[i]) && |Split(deeper[i].dir)| >= |path|
    ensures forall i :: 0 <= i < |Flat(deeper)| ==> m(Flat(deeper)[i].pattern, path, isDir) == NoMatch
    decreases |deeper|
  {
    if deeper != [] {
      var top := deeper[|deeper|-1];
      DeepIsSilent(root, rules, m, deeper[..|deeper|-1], path, isDir);
      RulesOfIs(top.source, top.patterns);
      assert Right(root, rules, top) && !(Split(top.dir) < path);
      forall i | 0 <= i < |top.patterns| ensures m(top.patterns[i], path, isDir) == NoMatch {
        assert top.patterns[i] == rules(top.dir).patterns[i];
      }
    }
  }

  lemma NothingPushed(root: string, rules: string -> Loaded, base: seq<Layer>, path: seq<string>)
    ensures After(root, rules, base, []) == base + Ancestry(root, rules, path, 0)
  {
    assert base + [] == base;
  }

  /**
   Every path a walk visits, file or directory, wherever the stack stands by then: the tracker's verdict is the last
   match among the base layers and the rule files of the path's own ancestors.
   */
  lemma VerdictIsRecomputed(root: string, rules: string -> Loaded, m: Matcher, base: seq<Layer>, dirs: seq<string>,
                            path: seq<string>, isDir: bool)
    requires IsBase(base) && Walks(dirs) && Scoped(m, rules)
    requires path != [] && Follows(dirs, path)
    ensures LastMatch(m, Flat(After(root, rules, base, dirs)), path, isDir) ==
            LastMatch(m, Flat(base + Ancestry(root, rules, path, |path| - 1)), path, isDir)
  {
    hide Split, Scoped, Flat, LastMatch, Right, After, Walks, Proper, Ancestry;
    var k := |path| - 1;
    if dirs == [] {
      NothingPushed(root, rules, base, path);
    } else {
      var last := dirs[|dirs|-1];
      var c := Split(last);
      WalksInit(dirs);
      ProperMeans(last);
      StackIsRecomputed(root, rules, base, dirs);
      assert k <= |c| && c[..k] == path[..k];
      AncestryOfPrefix(root, rules, path, c, k);
      var deeper := AncestrySplits(root, rules, c, k, |c|);
      DeepIsSilent(root, rules, m, deeper, path, isDir);
      var near := base + Ancestry(root, rules, path, k);
      assert base + Ancestry(root, rules, c, |c|) == near + deeper;
      FlatConcat(near, deeper);
      SilentTail(m, Flat(near), Flat(deeper), path, isDir);
    }
  }

  // ----- The tracker as the source writes it -----

  datatype PatternSource = PatternSource(path: string, patterns: seq<Pattern>)

  /** The files that hold patterns, in order; they are never popped. */
  function BaseLayers(files: seq<PatternSource>): (r: seq<Layer>)
    ensures IsBase(r)
  {
    if files == [] then []
    else
      var last := files[|files|-1];
      BaseLayers(files[..|files|-1]) + if last.patterns == [] then [] else [Layer("", last.path, last.patterns)]
  }

  class Tracker {
    const root: string
    var stack: seq<PatternSource>
    var dirs: seq<string>

    ghost predicate Valid()
      reads this
    {
      |stack| == |dirs|
    }

    ghost function Layers(): (r: seq<Layer>)
      requires Valid()
      reads this
      ensures |r| == |stack|
    {
      seq(|stack|, (i: nat) requires i < |stack| && |stack| == |dirs| reads this =>
        Layer(dirs[i], stack[i].path, stack[i].patterns))
    }

    /** NewTracker: the global file, .git/info/exclude and the root's own .gitignore, as loaded. */
    constructor (r: string, files: seq<PatternSource>)
      ensures Valid() && root == r && Layers() == BaseLayers(files)
    {
      root := r;
      stack, dirs := [], [];
      new;
      var i := 0;
      while i < |files|
        invariant 0 <= i <= |files| && Valid() && Layers() == BaseLayers(files[..i])
      {
        assert files[..i + 1][..i] == files[..i];
        if files[i].patterns != [] {
          ghost var before := Layers();
          stack := stack + [files[i]];
          dirs := dirs + [""];
          assert Layers() == before + [Layer("", files[i].path, files[i].patterns)];
        }
        i := i + 1;
      }
      assert files[..i] == files;
    }

    method Push(dir: string, rules: string -> Loaded) returns (ok: bool)
      requires Valid()
      modifies this
      ensures Valid() && (Layers(), ok) == Pushed(root, rules, old(Layers()), dir)
    {
      hide Popped, Split, Source;
      ghost var before := Layers();
      while |dirs| > 0
        invariant Valid() && Popped(Layers(), dir) == Popped(before, dir)
        decreases |dirs|
      {
        var top := dirs[|dirs|-1];
        assert Layers()[|dirs|-1].dir == top;
        PopOne(Layers(), dir);
        if top == "" {
          break;
        }
        if dir == top || top + "/" <= dir {
          break;
        }
        ghost var now := Layers();
        stack := stack[..|stack|-1];
        dirs := dirs[..|dirs|-1];
        assert Layers() == now[..|now|-1];
      }
      PopOne(Layers(), dir);
      assert Layers() == Popped(before, dir);
      if |dirs| > 0 && dirs[|dirs|-1] == dir {
        assert Layers()[|dirs|-1].dir == dir;
        return true;
      }
      assert |dirs| > 0 ==> Layers()[|dirs|-1].dir != dir;
      match rules(dir) {
        case Broken =>
          return false;
        case Rules(patterns) =>
          Loads(rules, dir);
          if |patterns| > 0 {
            ghost var now := Layers();
            stack := stack + [PatternSource(Source(root, dir), patterns)];
            dirs := dirs + [dir];
            assert Layers() == now + [Layer(dir, Source(root, dir), patterns)];
          }
          return true;
      }
    }

    method IsIgnored(path: seq<string>, isDir: bool, m: Matcher) returns (ignored: bool, source: string)
      requires Valid()
      ensures (ignored, source) == LastMatch(m, Flat(Layers()), path, isDir)
    {
      hide LastMatch, Flat, RulesOf;
      ghost var layers := Layers();
      ghost var verdict := LastMatch(m, Flat(layers), path, isDir);
      var i := |stack|;
      assert layers[..i] == layers;
      while i > 0
        invariant 0 <= i <= |stack| && verdict == LastMatch(m, Flat(layers[..i]), path, isDir)
      {
        i := i - 1;
        var patterns := stack[i].patterns;
        ghost var below := Flat(layers[..i]);
        FlatTop(layers, i);
        var j := |patterns|;
        assert patterns[..j] == patterns;
        while j > 0
          invariant 0 <= j <= |patterns|
          invariant verdict == LastMatch(m, below + RulesOf(stack[i].path, patterns[..j]), path, isDir)
        {
          j := j - 1;
          LastRule(m, below, stack[i].path, patterns, j, path, isDir);
          match m(patterns[j], path, isDir) {
            case Exclude => return true, stack[i].path;
            case Include => return false, stack[i].path;
            case NoMatch =>
          }
        }
        NoRules(below, stack[i].path, patterns);
      }
      NoLayers(m, layers, path, isDir);
      return false, "";
    }
  }

  lemma FlatTop(layers: seq<Layer>, i: nat)
    requires i < |layers|
    ensures Flat(layers[..i + 1]) == Flat(layers[..i]) + RulesOf(layers[i].source, layers[i].patterns)
  {
    assert layers[..i + 1][..i] == layers[..i];
  }

  lemma NoRules(below: seq<Rule>, source: string, patterns: seq<Pattern>)
    ensures below + RulesOf(source, patterns[..0]) == below
  {
  }

  lemma NoLayers(m: Matcher, layers: seq<Layer>, path: seq<string>, isDir: bool)
    ensures LastMatch(m, Flat(layers[..0]), path, isDir) == (false, "")
  {
  }

  lemma LastRule(m: Matcher, below: seq<Rule>, source: string, patterns: seq<Pattern>, j: nat, path: seq<string>,
                 isDir: bool)
    requires j < |patterns|
    ensures LastMatch(m, below + RulesOf(source, patterns[..j + 1]), path, isDir) ==
      match m(patterns[j], path, isDir)
      case NoMatch => LastMatch(m, below + RulesOf(source, patterns[..j]), path, isDir)
      case Exclude => (true, source)
      case Include => (false, source)
  {
    assert patterns[..j + 1][..j] == patterns[..j];
    var all := below + RulesOf(source, patterns[..j + 1]);
    assert all[..|all|-1] == below + RulesOf(source, patterns[..j]);
    assert all[|all|-1] == Rule(source, patterns[j]);
  }
}
