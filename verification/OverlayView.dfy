// The union view of a stack of trees, as the kernel's overlay filesystem looks a path up,
// and the same view as a fold of two-tree merges.

module OverlayView {
  import opened LayerOps
  import opened LayerTree

  type View = map<Path, VNode>

  const BARE: View := map[[] := VDir]

  /** Only directories have anything below them. */
  ghost predicate Proper(v: View) {
    && [] in v && v[[]] == VDir
    && forall p :: p in v && p != [] ==> Parent(p) in v && v[Parent(p)] == VDir
  }

  // ---- looking a path up, component by component

  datatype Found = Absent | There(node: VNode)

  function OnTop(there: bool, top: View, rest: seq<View>): seq<View> {
    if there then [top] + rest else rest
  }

  function Having(stack: seq<View>, p: Path): seq<View> {
    if stack == [] then []
    else OnTop(p in stack[0], stack[0], Having(stack[1..], p))
  }

  /** Directories merge downwards until a layer has something else at the path. */
  function LeadingDirs(stack: seq<View>, p: Path): seq<View> {
    if stack == [] || p !in stack[0] || stack[0][p] != VDir then []
    else [stack[0]] + LeadingDirs(stack[1..], p)
  }

  /** The layers that a lookup inside the directory p searches, topmost first. */
  function Contributors(stack: seq<View>, p: Path): seq<View> {
    if p == [] then stack
    else LeadingDirs(Having(Contributors(stack, Parent(p)), p), p)
  }

  /** The topmost layer that has the name decides. */
  function Lookup(stack: seq<View>, p: Path): Found {
    if p == [] then There(VDir)
    else
      var layers := Having(Contributors(stack, Parent(p)), p);
      if layers == [] || p !in layers[0] then Absent else There(layers[0][p])
  }

  // ---- the same as a fold

  /** Something that is not a directory stands on the way to p. */
  predicate Hides(top: View, p: Path) {
    exists q :: q in Prefixes(p) && q != p && q in top && top[q] != VDir
  }

  function Merge(top: View, low: View): (m: View)
    ensures forall p :: p in m <==> p in top || (p in low && !Hides(top, p))
    ensures forall p :: p in m ==> m[p] == if p in top then top[p] else low[p]
  {
    map p | p in top.Keys + low.Keys && (p in top || !Hides(top, p)) :: if p in top then top[p] else low[p]
  }

  function Flatten(stack: seq<View>): View {
    if stack == [] then BARE else Merge(stack[0], Flatten(stack[1..]))
  }

  ghost predicate AllProper(stack: seq<View>) {
    forall i :: 0 <= i < |stack| ==> Proper(stack[i])
  }

  lemma HavingCons(top: View, rest: seq<View>, p: Path)
    ensures Having([top] + rest, p) == OnTop(p in top, top, Having(rest, p))
  {
    assert ([top] + rest)[1..] == rest;
  }

  lemma LeadingCons(top: View, rest: seq<View>, p: Path)
    ensures LeadingDirs([top] + rest, p) == if p in top && top[p] == VDir then [top] + LeadingDirs(rest, p) else []
  {
    assert ([top] + rest)[1..] == rest;
  }

  /** A non-directory at p or above it. */
  predicate Stops(top: View, p: Path) { Hides(top, p) || (p in top && top[p] != VDir) }

  lemma StopsDown(top: View, p: Path)
    requires Proper(top) && p != []
    ensures Hides(top, p) <==> Stops(top, Parent(p))
    ensures p in top ==> Parent(p) in top && top[Parent(p)] == VDir && !Hides(top, p)
  {
    if Stops(top, Parent(p)) {
      var q :| q in Prefixes(Parent(p)) && q in top && top[q] != VDir;
      assert q in Prefixes(p) && q != p;
    }
    if Hides(top, p) {
      var q :| q in Prefixes(p) && q != p && q in top && top[q] != VDir;
      assert q in Prefixes(Parent(p));
    }
    if p in top {
      NothingAbove(top, p);
    }
  }

  lemma {:induction false} NothingAbove(top: View, p: Path)
    requires Proper(top) && p in top
    ensures !Hides(top, p)
  {
    if p != [] {
      NothingAbove(top, Parent(p));
      forall q | q in Prefixes(p) && q != p && q in top
        ensures top[q] == VDir
      {
        assert q in Prefixes(Parent(p));
      }
    }
  }

  /**
   A stack's contributors are the top layer, if it has the directory, and those of the
   rest unless the top is in the way.
   */
  lemma {:induction false} ContributorsCons(top: View, rest: seq<View>, p: Path)
    requires Proper(top)
    ensures Contributors([top] + rest, p) ==
      OnTop(p in top && top[p] == VDir, top, if Stops(top, p) then [] else Contributors(rest, p))
  {
    if p != [] {
      var dir := Parent(p);
      ContributorsCons(top, rest, dir);
      StopsDown(top, p);
      var below := if Stops(top, dir) then [] else Contributors(rest, dir);
      if p in top {
        HavingCons(top, below, p);
        LeadingCons(top, Having(below, p), p);
      } else if dir in top && top[dir] == VDir {
        HavingCons(top, below, p);
      }
    }
  }

  function Shows(v: View, p: Path): Found { if p in v then There(v[p]) else Absent }

  lemma {:induction false} HavingHas(stack: seq<View>, p: Path)
    ensures Having(stack, p) != [] ==> p in Having(stack, p)[0]
  {
    if stack != [] {
      HavingHas(stack[1..], p);
    }
  }

  lemma LookupCons(top: View, rest: seq<View>, p: Path)
    requires Proper(top)
    ensures Lookup([top] + rest, p) ==
      if p in top then There(top[p]) else if Hides(top, p) then Absent else Lookup(rest, p)
  {
    if p != [] {
      var dir := Parent(p);
      ContributorsCons(top, rest, dir);
      StopsDown(top, p);
      var below := if Stops(top, dir) then [] else Contributors(rest, dir);
      if dir in top && top[dir] == VDir {
        HavingCons(top, below, p);
      }
    }
  }

  /** Looking any path up in the stack finds what the fold of merges has there. */
  lemma {:induction false} LookupIsFlatten(stack: seq<View>, p: Path)
    requires AllProper(stack)
    ensures Lookup(stack, p) == Shows(Flatten(stack), p)
  {
    if stack == [] {
      if p != [] {
        NoContributors(Parent(p));
      }
    } else {
      assert stack == [stack[0]] + stack[1..];
      LookupCons(stack[0], stack[1..], p);
      LookupIsFlatten(stack[1..], p);
    }
  }

  lemma {:induction false} NoContributors(p: Path)
    ensures Contributors([], p) == []
  {
    if p != [] {
      NoContributors(Parent(p));
    }
  }

  lemma MergeProper(top: View, low: View)
    requires Proper(top) && Proper(low)
    ensures Proper(Merge(top, low))
  {
    var m := Merge(top, low);
    NothingAbove(low, []);
    forall p | p in m && p != []
      ensures Parent(p) in m && m[Parent(p)] == VDir
    {
      StopsDown(top, p);
    }
  }

  lemma {:induction false} FlattenProper(stack: seq<View>)
    requires AllProper(stack)
    ensures Proper(Flatten(stack))
  {
    if stack != [] {
      FlattenProper(stack[1..]);
      MergeProper(stack[0], Flatten(stack[1..]));
    }
  }

  lemma ViewProper(fs: Fs)
    requires Tree(fs)
    ensures Proper(ViewOf(fs))
  {
  }
}
