/**
  The check that the agent makes before it touches a file
  (cmd/agent/main.go, handleFileUpload and handleFileDownload).

  filepath.Clean is modelled on path components. Its documentation gives rewriting rules
  that are applied until none applies; Normal computes the outcome with a stack, and
  the lemmas show that this is the only outcome the rules can have.
 */
module PathGuard {
  import opened Strings

  predicate Rooted(path: string) {
    path != "" && path[0] == '/'
  }

  function Components(path: string): seq<string> {
    Split(path, '/')
  }

  /** Neither empty, nor this directory. */
  predicate Moves(c: string) {
    c != "" && c != "."
  }

  predicate IsName(c: string) {
    Moves(c) && c != ".."
  }

  function Push(rooted: bool, stack: seq<string>, c: string): seq<string> {
    if !Moves(c) then stack
    else if c == ".." then
      if stack != [] && stack[|stack| - 1] != ".." then stack[..|stack| - 1]
      else if rooted then stack
      else stack + [c]
    else stack + [c]
  }

  function PushAll(rooted: bool, stack: seq<string>, comps: seq<string>): seq<string>
    decreases |comps|
  {
    if comps == [] then stack else PushAll(rooted, Push(rooted, stack, comps[0]), comps[1..])
  }

  function Normal(rooted: bool, comps: seq<string>): seq<string> {
    PushAll(rooted, [], comps)
  }

  /** filepath.Clean */
  function Clean(path: string): string {
    var stack := Normal(Rooted(path), Components(path));
    if Rooted(path) then (if stack == [] then "/" else "/" + Join(stack, '/'))
    else if stack == [] then "."
    else Join(stack, '/')
  }

  const TMP := "/tmp/"
  const OPT := "/opt/multi-ops/"

  /** What gets past the guard of an upload or a download. */
  predicate Allowed(path: string) {
    TMP <= Clean(path) || OPT <= Clean(path)
  }

  // ---------- the rewriting rules ----------

  datatype Rule =
    | Drop(i: nat)    // an empty or "." element
    | Cancel(i: nat)  // a name and the ".." right after it
    | AtRoot          // ".." at the start of a rooted path

  predicate Applies(rooted: bool, comps: seq<string>, rule: Rule) {
    match rule
    case Drop(i) => i < |comps| && !Moves(comps[i])
    case Cancel(i) => i + 1 < |comps| && IsName(comps[i]) && comps[i + 1] == ".."
    case AtRoot => rooted && comps != [] && comps[0] == ".."
  }

  function Rewritten(rooted: bool, comps: seq<string>, rule: Rule): seq<string>
    requires Applies(rooted, comps, rule)
  {
    match rule
    case Drop(i) => comps[..i] + comps[i + 1..]
    case Cancel(i) => comps[..i] + comps[i + 2..]
    case AtRoot => comps[1..]
  }

  ghost predicate Irreducible(rooted: bool, comps: seq<string>) {
    forall rule :: !Applies(rooted, comps, rule)
  }

  ghost predicate Rewrites(rooted: bool, comps: seq<string>, rules: seq<Rule>, comps': seq<string>)
    decreases |rules|
  {
    if rules == [] then comps' == comps
    else Applies(rooted, comps, rules[0]) && Rewrites(rooted, Rewritten(rooted, comps, rules[0]), rules[1..], comps')
  }

  lemma {:induction false} PushAllAppend(rooted: bool, stack: seq<string>, a: seq<string>, b: seq<string>)
    ensures PushAll(rooted, stack, a + b) == PushAll(rooted, PushAll(rooted, stack, a), b)
    decreases |a|
  {
    if a == [] {
      assert a + b == b;
    } else {
      assert (a + b)[1..] == a[1..] + b;
      PushAllAppend(rooted, Push(rooted, stack, a[0]), a[1..], b);
    }
  }

  /** A name and ".." after it leave the stack as it was. */
  lemma NameAndBack(rooted: bool, stack: seq<string>, comps: seq<string>)
    requires |comps| >= 2 && IsName(comps[0]) && comps[1] == ".."
    ensures PushAll(rooted, stack, comps) == PushAll(rooted, stack, comps[2..])
  {
    var up := Push(rooted, stack, comps[0]);
    assert up == stack + [comps[0]];
    assert Push(rooted, up, "..") == stack;
    assert comps[1..][1..] == comps[2..];
  }

  lemma RuleKeepsNormal(rooted: bool, comps: seq<string>, rule: Rule)
    requires Applies(rooted, comps, rule)
    ensures Normal(rooted, Rewritten(rooted, comps, rule)) == Normal(rooted, comps)
  {
    match rule
    case Drop(i) =>
      PushAllAppend(rooted, [], comps[..i], comps[i..]);
      PushAllAppend(rooted, [], comps[..i], comps[i + 1..]);
      assert comps == comps[..i] + comps[i..];
    case Cancel(i) =>
      PushAllAppend(rooted, [], comps[..i], comps[i..]);
      PushAllAppend(rooted, [], comps[..i], comps[i + 2..]);
      assert comps == comps[..i] + comps[i..];
      NameAndBack(rooted, PushAll(rooted, [], comps[..i]), comps[i..]);
      assert comps[i..][2..] == comps[i + 2..];
    case AtRoot =>
  }

  /** What a stack can hold: names, after leading ".." elements when the path is relative. */
  ghost predicate Settled(rooted: bool, stack: seq<string>) {
    && (forall i :: 0 <= i < |stack| ==> Moves(stack[i]))
    && (rooted ==> forall i :: 0 <= i < |stack| ==> stack[i] != "..")
    && (forall i, j :: 0 <= i < j < |stack| && stack[j] == ".." ==> stack[i] == "..")
  }

  lemma {:induction false} PushAllSettles(rooted: bool, stack: seq<string>, comps: seq<string>)
    requires Settled(rooted, stack)
    ensures Settled(rooted, PushAll(rooted, stack, comps))
    decreases |comps|
  {
    if comps != [] {
      PushAllSettles(rooted, Push(rooted, stack, comps[0]), comps[1..]);
    }
  }

  lemma SettledIsIrreducible(rooted: bool, stack: seq<string>)
    ensures Settled(rooted, stack) <==> Irreducible(rooted, stack)
  {
    if Irreducible(rooted, stack) {
      forall j | 0 <= j < |stack| ensures Moves(stack[j]) {
        assert !Applies(rooted, stack, Drop(j));
      }
      forall i, j | 0 <= i < j < |stack| && stack[j] == ".." ensures stack[i] == ".." {
        DotsLead(rooted, stack, i, j);
      }
      assert !Applies(rooted, stack, AtRoot);
    }
  }

  lemma {:induction false} DotsLead(rooted: bool, stack: seq<string>, i: nat, j: nat)
    requires Irreducible(rooted, stack) && i < j < |stack| && stack[j] == ".."
    requires forall k :: 0 <= k < |stack| ==> Moves(stack[k])
    ensures stack[i] == ".."
  {
    assert !Applies(rooted, stack, Cancel(j - 1));
    if i < j - 1 {
      DotsLead(rooted, stack, i, j - 1);
    }
  }

  /** A settled list pushed on a stack that it continues stays as it is. */
  lemma {:induction false} SettledIsNormal(rooted: bool, stack: seq<string>, comps: seq<string>)
    requires Settled(rooted, stack + comps)
    ensures PushAll(rooted, stack, comps) == stack + comps
    decreases |comps|
  {
    if comps != [] {
      var c := comps[0];
      assert (stack + comps)[|stack|] == c;
      if stack != [] {
        assert (stack + comps)[|stack| - 1] == stack[|stack| - 1];
      }
      assert stack + comps == (stack + [c]) + comps[1..];
      SettledIsNormal(rooted, stack + [c], comps[1..]);
    }
  }

  lemma {:induction false} RulesKeepNormal(rooted: bool, comps: seq<string>, rules: seq<Rule>, comps': seq<string>)
    requires Rewrites(rooted, comps, rules, comps')
    ensures Normal(rooted, comps') == Normal(rooted, comps)
    decreases |rules|
  {
    if rules != [] {
      RuleKeepsNormal(rooted, comps, rules[0]);
      RulesKeepNormal(rooted, Rewritten(rooted, comps, rules[0]), rules[1..], comps');
    }
  }

  /** Main result: however the rules are applied, when none applies any more the stack form is what is left. */
  lemma RulesEndInNormal(rooted: bool, comps: seq<string>, rules: seq<Rule>, comps': seq<string>)
    requires Rewrites(rooted, comps, rules, comps') && Irreducible(rooted, comps')
    ensures comps' == Normal(rooted, comps)
  {
    RulesKeepNormal(rooted, comps, rules, comps');
    SettledIsIrreducible(rooted, comps');
    SettledIsNormal(rooted, [], comps');
    assert [] + comps' == comps';
  }

  /** And the rules do get there. */
  lemma {:induction false} RulesReachNormal(rooted: bool, comps: seq<string>) returns (rules: seq<Rule>)
    ensures Rewrites(rooted, comps, rules, Normal(rooted, comps))
    decreases |comps|
  {
    if rule :| Applies(rooted, comps, rule) {
      RuleKeepsNormal(rooted, comps, rule);
      var rest := RulesReachNormal(rooted, Rewritten(rooted, comps, rule));
      rules := [rule] + rest;
      assert rules[1..] == rest;
    } else {
      rules := [];
      SettledIsIrreducible(rooted, comps);
      SettledIsNormal(rooted, [], comps);
      assert [] + comps == comps;
    }
  }

  // ---------- where a path leads ----------

  /** The directory that is reached from dir, component by component, without looking at the disk. */
  function Walk(dir: seq<string>, comps: seq<string>): seq<string>
    decreases |comps|
  {
    if comps == [] then dir else Walk(Moved(dir, comps[0]), comps[1..])
  }

  /** One component: a name goes down, ".." goes up and stays at the root, the rest stays. */
  function Moved(dir: seq<string>, c: string): seq<string> {
    if !Moves(c) then dir
    else if c != ".." then dir + [c]
    else if dir == [] then dir
    else dir[..|dir| - 1]
  }

  lemma WalkOne(dir: seq<string>, c: string)
    ensures Walk(dir, [c]) == Moved(dir, c)
  {
    assert [c][1..] == [];
  }

  lemma {:induction false} WalkAppend(dir: seq<string>, a: seq<string>, b: seq<string>)
    ensures Walk(dir, a + b) == Walk(Walk(dir, a), b)
    decreases |a|
  {
    if a == [] {
      assert a + b == b;
    } else {
      assert (a + b)[1..] == a[1..] + b;
      WalkAppend(Moved(dir, a[0]), a[1..], b);
    }
  }

  /** For a rooted path the stack is the directory that the walk from the root reaches. */
  lemma {:induction false} RootedNormalIsWalk(stack: seq<string>, comps: seq<string>)
    requires forall i :: 0 <= i < |stack| ==> stack[i] != ".."
    ensures PushAll(true, stack, comps) == Walk(stack, comps)
    decreases |comps|
  {
    if comps != [] {
      RootedNormalIsWalk(Push(true, stack, comps[0]), comps[1..]);
    }
  }

  lemma PushWalks(dir: seq<string>, stack: seq<string>, c: string)
    requires Settled(false, stack)
    ensures Walk(dir, Push(false, stack, c)) == Walk(Walk(dir, stack), [c])
  {
    WalkOne(Walk(dir, stack), c);
    if c == ".." && stack != [] && stack[|stack| - 1] != ".." {
      var front, top := stack[..|stack| - 1], stack[|stack| - 1];
      assert stack == front + [top];
      WalkAppend(dir, front, [top]);
      WalkOne(Walk(dir, front), top);
    } else if Moves(c) {
      WalkAppend(dir, stack, [c]);
    }
  }

  /** A relative path and its stack lead to the same place from every directory. */
  lemma {:induction false} PushAllWalks(dir: seq<string>, stack: seq<string>, comps: seq<string>)
    requires Settled(false, stack)
    ensures Walk(dir, PushAll(false, stack, comps)) == Walk(Walk(dir, stack), comps)
    decreases |comps|
  {
    if comps != [] {
      PushAllSettles(false, stack, comps[..1]);
      assert comps[..1][1..] == [];
      PushWalks(dir, stack, comps[0]);
      PushAllWalks(dir, Push(false, stack, comps[0]), comps[1..]);
      assert [comps[0]] + comps[1..] == comps;
      WalkAppend(Walk(dir, stack), [comps[0]], comps[1..]);
    }
  }

  // ---------- from strings to components and back ----------

  ghost predicate Segments(stack: seq<string>) {
    forall i :: 0 <= i < |stack| ==> Free(stack[i], '/')
  }

  lemma {:induction false} PushAllFree(rooted: bool, stack: seq<string>, comps: seq<string>)
    requires Segments(stack) && Segments(comps)
    ensures Segments(PushAll(rooted, stack, comps))
    decreases |comps|
  {
    if comps != [] {
      PushAllFree(rooted, Push(rooted, stack, comps[0]), comps[1..]);
    }
  }

  lemma NormalOf(path: string)
    ensures Settled(Rooted(path), Normal(Rooted(path), Components(path)))
    ensures Segments(Normal(Rooted(path), Components(path)))
  {
    PushAllSettles(Rooted(path), [], Components(path));
    JoinSplit(path, '/');
    PushAllFree(Rooted(path), [], Components(path));
  }

  lemma JoinStarts(stack: seq<string>)
    requires stack != [] && Segments(stack) && stack[0] != ""
    ensures Join(stack, '/') != "" && Join(stack, '/')[0] == stack[0][0] != '/'
  {
  }

  /** The clean form splits into the stack it was made from, up to elements that do not move. */
  lemma ComponentsOfClean(path: string)
    ensures var stack := Normal(Rooted(path), Components(path));
            && Rooted(Clean(path)) == Rooted(path)
            && Components(Clean(path))
               == if Rooted(path) then (if stack == [] then ["", ""] else [""] + stack)
                  else if stack == [] then ["."] else stack
  {
    var stack := Normal(Rooted(path), Components(path));
    NormalOf(path);
    if stack != [] {
      SplitJoin(stack, '/');
      JoinStarts(stack);
      assert "/" + Join(stack, '/') == "" + ['/'] + Join(stack, '/');
      SplitFirst("", Join(stack, '/'), '/');
    } else if Rooted(path) {
      assert "/" == "" + ['/'] + "";
      SplitFirst("", "", '/');
    } else {
      SplitWhole(".", '/');
    }
  }

  lemma {:induction false} NothingMoves(rooted: bool, stack: seq<string>, comps: seq<string>)
    requires forall i :: 0 <= i < |comps| ==> !Moves(comps[i])
    ensures PushAll(rooted, stack, comps) == stack
    decreases |comps|
  {
    if comps != [] {
      NothingMoves(rooted, stack, comps[1..]);
    }
  }

  lemma NormalOfClean(path: string)
    ensures Normal(Rooted(Clean(path)), Components(Clean(path))) == Normal(Rooted(path), Components(path))
  {
    var rooted := Rooted(path);
    var stack := Normal(rooted, Components(path));
    NormalOf(path);
    ComponentsOfClean(path);
    SettledIsNormal(rooted, [], stack);
    assert [] + stack == stack;
    if stack == [] {
      NothingMoves(rooted, [], Components(Clean(path)));
    } else if rooted {
      PushAllAppend(rooted, [], [""], stack);
      NothingMoves(rooted, [], [""]);
    }
  }

  /** Main result: cleaning twice is cleaning once. */
  lemma CleanIsIdempotent(path: string)
    ensures Clean(Clean(path)) == Clean(path)
  {
    NormalOfClean(path);
    ComponentsOfClean(path);
  }

  /** Where a path leads for a process in directory dir. */
  function Resolved(dir: seq<string>, path: string): seq<string> {
    Walk(if Rooted(path) then [] else dir, Components(path))
  }

  /** Main result: the clean form leads where the path leads, from every directory. */
  lemma CleanKeepsTarget(dir: seq<string>, path: string)
    ensures Resolved(dir, Clean(path)) == Resolved(dir, path)
  {
    NormalOf(path);
    NormalOfClean(path);
    ComponentsOfClean(path);
    if Rooted(path) {
      RootedNormalIsWalk([], Components(path));
      RootedNormalIsWalk([], Components(Clean(path)));
    } else {
      PushAllWalks(dir, [], Components(path));
      PushAllWalks(dir, [], Components(Clean(path)));
    }
  }

  // ---------- what the guard lets through ----------

  /** dir lies strictly below the directory named by the components of top. */
  predicate StrictlyBelow(dir: seq<string>, top: seq<string>) {
    |dir| > |top| && dir[..|top|] == top
  }

  lemma {:induction false} SplitJoinThen(dirs: seq<string>, rest: string)
    requires dirs != [] && Segments(dirs)
    ensures Split(Join(dirs, '/') + "/" + rest, '/') == dirs + Split(rest, '/')
  {
    if |dirs| == 1 {
      SplitFirst(dirs[0], rest, '/');
    } else {
      var tail := Join(dirs[1..], '/') + "/" + rest;
      SplitJoinThen(dirs[1..], rest);
      assert Join(dirs, '/') + "/" + rest == dirs[0] + ['/'] + tail;
      SplitFirst(dirs[0], tail, '/');
    }
  }

  /** A joined stack starts with the joined top and a slash exactly when it lies strictly below top. */
  lemma PrefixMeansBelow(top: seq<string>, stack: seq<string>)
    requires top != [] && stack != [] && Segments(top) && Segments(stack)
    ensures Join(top, '/') + "/" <= Join(stack, '/') <==> StrictlyBelow(stack, top)
  {
    var prefix, whole := Join(top, '/') + "/", Join(stack, '/');
    if prefix <= whole {
      var rest := whole[|prefix|..];
      assert whole == Join(top, '/') + "/" + rest;
      SplitJoin(stack, '/');
      SplitJoinThen(top, rest);
    }
    if StrictlyBelow(stack, top) {
      var rest := stack[|top|..];
      assert stack == top + rest;
      JoinAppend(top, rest, '/');
    }
  }

  lemma SlashPrefix(a: string, b: string)
    ensures "/" + a <= "/" + b <==> a <= b
  {
    assert ("/" + a)[1..] == a && ("/" + b)[1..] == b;
    if "/" + a <= "/" + b {
      assert forall i :: 0 <= i < |a| ==> a[i] == ("/" + a)[i + 1] == ("/" + b)[i + 1] == b[i];
    }
  }

  lemma CleanBelow(path: string, top: seq<string>)
    requires top != [] && Segments(top)
    ensures "/" + (Join(top, '/') + "/") <= Clean(path)
            <==> Rooted(path) && StrictlyBelow(Resolved([], path), top)
  {
    var stack := Normal(Rooted(path), Components(path));
    NormalOf(path);
    if !Rooted(path) {
      ComponentsOfClean(path);
    } else {
      RootedNormalIsWalk([], Components(path));
      if stack != [] {
        SlashPrefix(Join(top, '/') + "/", Join(stack, '/'));
        PrefixMeansBelow(top, stack);
      }
    }
  }

  lemma TopsAreNames()
    ensures Segments(["tmp"]) && "/" + (Join(["tmp"], '/') + "/") == TMP
    ensures Segments(["opt", "multi-ops"]) && "/" + (Join(["opt", "multi-ops"], '/') + "/") == OPT
  {
    var parts := ["opt", "multi-ops"];
    assert parts[1..] == ["multi-ops"];
    assert Join(parts, '/') == "opt" + ['/'] + "multi-ops";
  }

  /**
    Main result: a path gets past the guard iff it is absolute and leads strictly below
    /tmp or /opt/multi-ops.
   */
  lemma AllowedExactly(path: string)
    ensures Allowed(path) <==>
            Rooted(path) && (StrictlyBelow(Resolved([], path), ["tmp"]) || StrictlyBelow(Resolved([], path), ["opt", "multi-ops"]))
  {
    TopsAreNames();
    CleanBelow(path, ["tmp"]);
    CleanBelow(path, ["opt", "multi-ops"]);
  }
}
