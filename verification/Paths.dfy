// Lexical paths: filepath.Clean as a stack of components, and where extractLayer puts an
// entry.

module Paths {
  import opened Strings

  predicate IsAbs(s: string) { s != "" && s[0] == '/' }

  /** A component that Clean leaves alone. */
  predicate PlainName(c: string) { c != "" && c != "." && c != ".." && '/' !in c }

  /** One component on the stack: "" and "." vanish, ".." takes the last name away. */
  function Push(rooted: bool, stack: seq<string>, c: string): seq<string> {
    if c == "" || c == "." then stack
    else if c == ".." then
      if stack != [] && stack[|stack| - 1] != ".." then stack[..|stack| - 1]
      else if rooted then stack
      else stack + [".."]
    else stack + [c]
  }

  function Reduce(rooted: bool, comps: seq<string>): seq<string> {
    if comps == [] then [] else Push(rooted, Reduce(rooted, comps[..|comps| - 1]), comps[|comps| - 1])
  }

  /** The components that remain of a path. */
  function Comps(s: string): seq<string> { Reduce(IsAbs(s), Split(s, '/')) }

  function Render(rooted: bool, stack: seq<string>): string {
    if rooted then "/" + Join(stack, '/')
    else if stack == [] then "."
    else Join(stack, '/')
  }

  /** filepath.Clean */
  function Clean(s: string): string { Render(IsAbs(s), Comps(s)) }

  /** filepath.Join of a directory and a name */
  function JoinPath(dst: string, name: string): string
    requires dst != ""
  {
    Clean(if name == "" then dst else dst + "/" + name)
  }

  /** The only stacks that come out: plain names, after a run of ".." that a rooted path does not have. */
  ghost predicate Normal(rooted: bool, stack: seq<string>) {
    && (forall i :: 0 <= i < |stack| ==> stack[i] != "" && stack[i] != "." && '/' !in stack[i])
    && (forall i, j :: 0 <= i < j < |stack| && stack[j] == ".." ==> stack[i] == "..")
    && (rooted ==> forall i :: 0 <= i < |stack| ==> stack[i] != "..")
  }

  lemma {:induction false} ReduceNormal(rooted: bool, comps: seq<string>)
    requires forall i :: 0 <= i < |comps| ==> '/' !in comps[i]
    ensures Normal(rooted, Reduce(rooted, comps))
  {
    if comps != [] {
      ReduceNormal(rooted, comps[..|comps| - 1]);
    }
  }

  lemma {:induction false} ReduceFixed(rooted: bool, stack: seq<string>)
    requires Normal(rooted, stack)
    ensures Reduce(rooted, stack) == stack
  {
    if stack != [] {
      var init, last := stack[..|stack| - 1], stack[|stack| - 1];
      ReduceFixed(rooted, init);
      assert stack == init + [last];
      if last == ".." && init != [] {
        assert init[|init| - 1] == stack[|stack| - 2];
      }
    }
  }

  lemma {:induction false} ReduceBlankHead(rooted: bool, comps: seq<string>)
    ensures Reduce(rooted, [""] + comps) == Reduce(rooted, comps)
  {
    var all := [""] + comps;
    if comps == [] {
      assert all[..0] == [];
    } else {
      ReduceBlankHead(rooted, comps[..|comps| - 1]);
      assert all[..|all| - 1] == [""] + comps[..|comps| - 1];
    }
  }

  /** Cleaning twice is cleaning once, and a cleaned path has ".." only as a leading run. */
  lemma CleanIdempotent(s: string)
    ensures Clean(Clean(s)) == Clean(s)
    ensures Comps(Clean(s)) == Comps(s) && IsAbs(Clean(s)) == IsAbs(s)
    ensures Normal(IsAbs(s), Comps(s))
  {
    var rooted, stack := IsAbs(s), Comps(s);
    ReduceNormal(rooted, Split(s, '/'));
    ReduceFixed(rooted, stack);
    if stack == [] {
      assert Split("", '/') == [""];
      assert [""][..0] == [] && ["."][..0] == [] && ["", ""][..1] == [""];
      assert Clean(s) == if rooted then "/" else ".";
      assert "/"[1..] == "";
      SplitNone(".", '/');
      assert Split("/", '/') == ["", ""];
      assert Split(".", '/') == ["."];
    } else {
      SplitJoin(stack, '/');
      JoinHead(stack);
      if rooted {
        assert Clean(s)[1..] == Join(stack, '/');
        assert Split(Clean(s), '/') == [""] + stack;
        ReduceBlankHead(true, stack);
      }
    }
  }

  lemma JoinHead(stack: seq<string>)
    requires stack != [] && stack[0] != "" && '/' !in stack[0]
    ensures Join(stack, '/') != "" && Join(stack, '/')[0] == stack[0][0] && stack[0] <= Join(stack, '/')
  {
    assert stack[0][0] in stack[0];
  }

  /** The check on a tar header's name: skip what cleans to an absolute path or starts with "..". */
  predicate Survives(name: string) {
    !HasPrefix(Clean(name), "..") && !IsAbs(Clean(name))
  }

  /** Exactly which names survive: relative ones whose first component does not begin with "..". */
  lemma SurvivesIff(name: string)
    ensures Survives(name) <==> !IsAbs(name) && (Comps(name) == [] || !HasPrefix(Comps(name)[0], ".."))
  {
    CleanIdempotent(name);
    var stack := Comps(name);
    if !IsAbs(name) && stack != [] {
      JoinHead(stack);
      if |stack[0]| == 1 && |stack| > 1 {
        assert Join(stack, '/')[1] == '/';
      }
    }
  }

  /** A leading ".." stays at the bottom of the stack. */
  lemma {:induction false} LeadingStays(comps: seq<string>, k: nat)
    requires k <= |comps|
    requires Reduce(false, comps[..k]) != [] && Reduce(false, comps[..k])[0] == ".."
    ensures Reduce(false, comps) != [] && Reduce(false, comps)[0] == ".."
    decreases |comps|
  {
    if k < |comps| {
      var init := comps[..|comps| - 1];
      assert init[..k] == comps[..k];
      LeadingStays(init, k);
      var stack := Reduce(false, init);
      if |stack| == 1 {
        assert stack[|stack| - 1] == "..";
      }
    } else {
      assert comps[..k] == comps;
    }
  }

  predicate Inside(stack: seq<string>) { stack == [] || stack[0] != ".." }

  /** A relative path that does not climb out is simply appended to where one stands. */
  lemma {:induction false} ReduceAppend(rooted: bool, a: seq<string>, b: seq<string>)
    requires Inside(Reduce(false, b))
    ensures Reduce(rooted, a + b) == Reduce(rooted, a) + Reduce(false, b)
    decreases |b|
  {
    if b == [] {
      assert a + b == a;
    } else {
      var init, last := b[..|b| - 1], b[|b| - 1];
      assert (a + b)[..|a + b| - 1] == a + init;
      if !Inside(Reduce(false, init)) {
        LeadingStays(b, |b| - 1);
      }
      ReduceAppend(rooted, a, init);
      InsideHasNoDots(init);
      PushAppend(rooted, Reduce(rooted, a), Reduce(false, init), last);
    }
  }

  lemma PushAppend(rooted: bool, x: seq<string>, y: seq<string>, c: string)
    requires forall i :: 0 <= i < |y| ==> y[i] != ".."
    requires Inside(Push(false, y, c))
    ensures Push(rooted, x + y, c) == x + Push(false, y, c)
  {
    if c == ".." {
      if y != [] {
        assert (x + y)[|x + y| - 1] == y[|y| - 1];
        assert (x + y)[..|x + y| - 1] == x + y[..|y| - 1];
      }
    } else if c != "" && c != "." {
      assert (x + y) + [c] == x + (y + [c]);
    }
  }

  lemma {:induction false} InsideHasNoDots(comps: seq<string>)
    requires Inside(Reduce(false, comps))
    ensures forall i :: 0 <= i < |Reduce(false, comps)| ==> Reduce(false, comps)[i] != ".."
    decreases |comps|
  {
    if comps != [] {
      var init := comps[..|comps| - 1];
      if !Inside(Reduce(false, init)) {
        LeadingStays(comps, |comps| - 1);
      }
      InsideHasNoDots(init);
    }
  }

  /** Joining a relative name that stays inside to any directory extends the directory's components. */
  lemma JoinExtends(dst: string, name: string)
    requires dst != "" && Inside(Reduce(false, Split(name, '/')))
    ensures Comps(JoinPath(dst, name)) == Comps(dst) + Reduce(false, Split(name, '/'))
  {
    if name == "" {
      assert Split("", '/') == [""] && [""][..0] == [];
      CleanIdempotent(dst);
    } else {
      var whole := dst + "/" + name;
      CleanIdempotent(whole);
      SplitConcat(dst, name, '/');
      assert whole == dst + ['/'] + name;
      ReduceAppend(IsAbs(dst), Split(dst, '/'), Split(name, '/'));
    }
  }

  /**
   Every header name that survives the check has a target whose component path is the
   destination's followed by the name's own components: it never leaves the destination.
   */
  lemma TargetInside(dst: string, name: string)
    requires dst != "" && Survives(name)
    ensures Comps(JoinPath(dst, Clean(name))) == Comps(dst) + Comps(name)
    ensures forall i :: 0 <= i < |Comps(name)| ==> Comps(name)[i] != ".."
  {
    SurvivesIff(name);
    CleanIdempotent(name);
    InsideHasNoDots(Split(name, '/'));
    JoinExtends(dst, Clean(name));
  }

  // ---- walking on from a directory

  function Walk(rooted: bool, stack: seq<string>, comps: seq<string>): seq<string> {
    if comps == [] then stack else Push(rooted, Walk(rooted, stack, comps[..|comps| - 1]), comps[|comps| - 1])
  }

  lemma {:induction false} ReduceWalk(rooted: bool, a: seq<string>, b: seq<string>)
    ensures Reduce(rooted, a + b) == Walk(rooted, Reduce(rooted, a), b)
    decreases |b|
  {
    if b == [] {
      assert a + b == a;
    } else {
      assert (a + b)[..|a + b| - 1] == a + b[..|b| - 1];
      ReduceWalk(rooted, a, b[..|b| - 1]);
    }
  }

  lemma WalkLast(rooted: bool, stack: seq<string>, comps: seq<string>, c: string)
    ensures Walk(rooted, stack, comps + [c]) == Push(rooted, Walk(rooted, stack, comps), c)
  {
    assert (comps + [c])[..|comps|] == comps;
  }

  /** Walking along a path is walking along what is left of it when it is cleaned by itself. */
  lemma {:induction false} WalkReduced(rooted: bool, stack: seq<string>, comps: seq<string>)
    requires forall i :: 0 <= i < |comps| ==> '/' !in comps[i]
    ensures Walk(rooted, stack, comps) == Walk(rooted, stack, Reduce(false, comps))
    decreases |comps|
  {
    if comps != [] {
      var init, c := comps[..|comps| - 1], comps[|comps| - 1];
      var left := Reduce(false, init);
      WalkReduced(rooted, stack, init);
      ReduceNormal(false, init);
      WalkLast(rooted, stack, left, c);
      if c == ".." {
        WalkLast(rooted, stack, left, "..");
        if left != [] && left[|left| - 1] != ".." {
          var name := left[|left| - 1];
          assert left == left[..|left| - 1] + [name];
          WalkLast(rooted, stack, left[..|left| - 1], name);
        }
      }
    }
  }

  lemma {:induction false} WalkInside(rooted: bool, stack: seq<string>, comps: seq<string>)
    requires forall i :: 0 <= i < |comps| ==> '/' !in comps[i]
    requires Inside(Reduce(false, comps))
    ensures Walk(rooted, stack, Reduce(false, comps)) == stack + Reduce(false, comps)
  {
    ReduceNormal(false, comps);
    InsideHasNoDots(comps);
    WalkPlain(rooted, stack, Reduce(false, comps));
  }

  lemma {:induction false} WalkPlain(rooted: bool, stack: seq<string>, names: seq<string>)
    requires forall i :: 0 <= i < |names| ==> names[i] != "" && names[i] != "." && names[i] != ".."
    ensures Walk(rooted, stack, names) == stack + names
  {
    if names != [] {
      WalkPlain(rooted, stack, names[..|names| - 1]);
      assert names == names[..|names| - 1] + [names[|names| - 1]];
    }
  }
}
