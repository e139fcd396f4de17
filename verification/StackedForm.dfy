// The stacked form against the flat form: the overlay over separately extracted layers,
// and the layers applied one after the other as changesets.

module LayerContent {
  import opened LayerOps
  import opened LayerTree
  import opened LinkedTree
  import opened LinkFree
  import opened LayerShape
  import opened ExtractSteps
  import opened ExtractResume
  import opened OverlayView
  import opened OciChangeset

  /** What the layer's entries say about a path: its root's content, or a directory. */
  function Says(ops: seq<LayerOp>, roots: map<Path, nat>, p: Path): VNode {
    if p in roots && roots[p] < |ops| then
      match ops[roots[p]]
      case Write(_, data) => VFile(data)
      case SymLink(_, text) => VSym(text)
      case _ => VDir
    else VDir
  }

  function Described(ops: seq<LayerOp>, roots: map<Path, nat>, paths: set<Path>): (v: View)
    ensures v.Keys == paths
    ensures forall p :: p in paths ==> v[p] == Says(ops, roots, p)
  {
    map p | p in paths :: Says(ops, roots, p)
  }

  /** The tree a layer is extracted to, as a reader sees it. */
  function Extracted(ops: seq<LayerOp>): View { ViewOf(Run(EMPTY, ops, |ops|).fs) }

  lemma PassShows(ops: seq<LayerOp>, fs: Fs)
    requires WellFormed(ops) && Leftover(ops, fs)
    ensures ViewOf(Run(fs, ops, |ops|).fs) == Described(ops, Roots(ops, |ops|), Present(ops, |ops|))
  {
    var roots, present := Roots(ops, |ops|), Present(ops, |ops|);
    var end := Run(fs, ops, |ops|).fs;
    Pass(ops, |ops|, fs);
    SameKeys(Touched(ops, |ops|), present, end.nodes);
    forall p | p in present
      ensures Shown(end, p) == Says(ops, roots, p)
    {
      ShownIsSaid(ops, roots, present, end, p);
    }
  }

  lemma ShownIsSaid(ops: seq<LayerOp>, roots: map<Path, nat>, present: set<Path>, fs: Fs, p: Path)
    requires p in present && p in fs.nodes && Kinds(ops, roots, fs.nodes) && Contents(ops, roots, present, fs)
    ensures Shown(fs, p) == Says(ops, roots, p)
  {
    assert RightKind(ops, roots, p, fs.nodes[p]) && RightContent(ops, roots, p, fs);
  }

  lemma ExtractedIsPresent(ops: seq<LayerOp>)
    requires WellFormed(ops)
    ensures Extracted(ops) == Described(ops, Roots(ops, |ops|), Present(ops, |ops|))
  {
    EmptyIsLeftover(ops);
    PassShows(ops, EMPTY);
  }

  // ---- the additions of a layer, in the same terms

  lemma AddedDirs(ops: seq<LayerOp>, roots: map<Path, nat>, paths: set<Path>, p: Path)
    requires forall q :: q <= p ==> q !in roots
    ensures AddDirs(Described(ops, roots, paths), p) == Described(ops, roots, paths + Prefixes(p))
  {
  }

  lemma AddedLeaf(ops: seq<LayerOp>, roots: map<Path, nat>, paths: set<Path>, p: Path)
    requires p != [] && forall q :: q <= p && q != p ==> q !in roots
    requires forall q :: q in paths ==> !(p <= q)
    ensures PutLeaf(Described(ops, roots, paths), p, Says(ops, roots, p)) == Described(ops, roots, paths + Prefixes(p))
  {
  }

  lemma AddedEntry(ops: seq<LayerOp>, roots: map<Path, nat>, paths: set<Path>, n: nat)
    requires n < |ops| && Fits(roots, paths, n, ops[n])
    requires IsLeaf(ops[n]) ==> forall q :: q in paths ==> !(ops[n].p <= q)
    requires ops[n].HardLink? ==> Says(ops, roots, ops[n].src) != VDir
    ensures Fresh(Described(ops, roots, paths), ops[n])
    ensures AddEntry(Described(ops, roots, paths), ops[n]) == Described(ops, roots, paths + Adding(ops[n]))
  {
    assert paths + {} == paths;
    match ops[n]
    case MkDir(p) => AddedDirs(ops, roots, paths, p);
    case Write(p, _) => AddedLeaf(ops, roots, paths, p);
    case SymLink(p, _) => AddedLeaf(ops, roots, paths, p);
    case HardLink(p, _) => AddedLeaf(ops, roots, paths, p);
    case _ =>
  }

  lemma RootSays(ops: seq<LayerOp>, n: nat, p: Path)
    requires LinksBack(ops) && n <= |ops| && p in Roots(ops, n)
    ensures Says(ops, Roots(ops, n), p) != VDir
    decreases n
  {
    RootIsContent(ops, n, p);
  }

  lemma {:induction false} RootIsContent(ops: seq<LayerOp>, n: nat, p: Path)
    requires n <= |ops| && p in Roots(ops, n)
    ensures ops[Roots(ops, n)[p]].Write? || ops[Roots(ops, n)[p]].SymLink?
  {
    var op := ops[n - 1];
    if p in Roots(ops, n - 1) {
      RootIsContent(ops, n - 1, p);
    }
    if op.HardLink? && op.src in Roots(ops, n - 1) {
      RootIsContent(ops, n - 1, op.src);
    }
  }

  lemma LeafAboveNothing(ops: seq<LayerOp>, n: nat, q: Path)
    requires DistinctPaths(ops) && OnlyDirsAbove(ops) && StaysInside(ops)
    requires n < |ops| && IsLeaf(ops[n]) && q in Touched(ops, n)
    ensures !(ops[n].p <= q)
  {
    TouchedBy(ops, n, q);
  }

  lemma NothingAdded(ops: seq<LayerOp>)
    requires WellFormed(ops)
    ensures Described(ops, Roots(ops, |ops|), Touched(ops, 0)) == BARE
  {
    RootsDomain(ops, |ops|, []);
  }

  lemma {:induction false} AddedSoFar(ops: seq<LayerOp>, n: nat)
    requires WellFormed(ops) && n <= |ops|
    ensures AllFresh(ops, n)
    ensures AddAll(BARE, ops, n) == Described(ops, Roots(ops, |ops|), Touched(ops, n))
  {
    hide Says, AddEntry, Fresh, Roots;
    var roots := Roots(ops, |ops|);
    if n == 0 {
      NothingAdded(ops);
    } else {
      AddedSoFar(ops, n - 1);
      EntryFits(ops, n - 1);
      if IsLeaf(ops[n - 1]) {
        var touched := Touched(ops, n - 1);
        forall q | q in touched
          ensures !(ops[n - 1].p <= q)
        {
          LeafAboveNothing(ops, n - 1, q);
        }
      }
      if ops[n - 1].HardLink? {
        RootSays(ops, |ops|, ops[n - 1].src);
      }
      AddedEntry(ops, roots, Touched(ops, n - 1), n - 1);
    }
  }

  // ---- when a layer keeps what it adds

  /** A later entry creates q or something below it. */
  ghost predicate AddedAfter(ops: seq<LayerOp>, n: nat, q: Path) {
    exists m :: n < m < |ops| && Adds(ops[m]) && q <= ops[m].p
  }

  /** Whatever a whiteout takes away of its own layer's earlier entries, a later entry puts back. */
  ghost predicate WhiteoutsRefilled(ops: seq<LayerOp>) {
    forall i, j, q :: 0 <= i < j < |ops| && Adds(ops[i]) && ops[j].Whiteout? && ops[j].p <= q && q <= ops[i].p
      ==> AddedAfter(ops, j, q)
  }

  /** No whiteout follows a file or link of its own layer that it names. */
  ghost predicate LeavesKept(ops: seq<LayerOp>) {
    forall i, j :: 0 <= i < j < |ops| && IsLeaf(ops[i]) && ops[j].Whiteout? ==> !(ops[j].p <= ops[i].p)
  }

  lemma {:induction false} StaysGone(ops: seq<LayerOp>, n: nat, m: nat, q: Path)
    requires n <= m <= |ops| && q !in Present(ops, n)
    requires forall k :: n <= k < m && Adds(ops[k]) ==> !(q <= ops[k].p)
    ensures q !in Present(ops, m)
    decreases m - n
  {
    if n < m {
      StaysGone(ops, n, m - 1, q);
      if Adds(ops[m - 1]) {
        assert q !in Prefixes(ops[m - 1].p);
      }
    }
  }

  lemma {:induction false} StaysThere(ops: seq<LayerOp>, n: nat, m: nat, q: Path)
    requires n <= m <= |ops| && q in Present(ops, n)
    requires forall k :: n <= k < m && ops[k].Whiteout? ==> !(ops[k].p <= q)
    ensures q in Present(ops, m)
    decreases m - n
  {
    if n < m {
      StaysThere(ops, n, m - 1, q);
    }
  }

  /** A file or link that no whiteout takes away is there from its entry on; a link's source is there for it. */
  lemma {:induction false} LeafThere(ops: seq<LayerOp>, i: nat, n: nat)
    requires LinksBack(ops) && StaysInside(ops) && LeavesKept(ops)
    requires i < n <= |ops| && IsLeaf(ops[i])
    ensures ops[i].p in Present(ops, n)
    decreases i
  {
    if ops[i].HardLink? {
      assert LeafBefore(ops, i, ops[i].src);
      var k :| 0 <= k < i && IsLeaf(ops[k]) && ops[k].p == ops[i].src;
      LeafThere(ops, k, i);
    }
    assert ops[i].p in Present(ops, i + 1);
    StaysThere(ops, i + 1, n, ops[i].p);
  }

  lemma RefilledKeepsLeaves(ops: seq<LayerOp>)
    requires WellFormed(ops) && WhiteoutsRefilled(ops)
    ensures LeavesKept(ops)
  {
    forall i, j | 0 <= i < j < |ops| && IsLeaf(ops[i]) && ops[j].Whiteout?
      ensures !(ops[j].p <= ops[i].p)
    {
      assert ops[j].p <= ops[i].p ==> AddedAfter(ops, j, ops[i].p);
    }
  }

  /** An entry of such a layer creates its path and the directories above it. */
  lemma AddedThere(ops: seq<LayerOp>, m: nat, q: Path)
    requires LinksBack(ops) && StaysInside(ops) && LeavesKept(ops)
    requires m < |ops| && Adds(ops[m]) && q <= ops[m].p
    ensures q in Present(ops, m + 1)
  {
    if ops[m].HardLink? {
      assert LeafBefore(ops, m, ops[m].src);
      var k :| 0 <= k < m && IsLeaf(ops[k]) && ops[k].p == ops[m].src;
      LeafThere(ops, k, m);
    }
  }

  /** The last entry that creates q or something below it. */
  lemma {:induction false} LastAdder(ops: seq<LayerOp>, i: nat, q: Path) returns (m: nat)
    requires i < |ops| && Adds(ops[i]) && q <= ops[i].p
    ensures i <= m < |ops| && Adds(ops[m]) && q <= ops[m].p && !AddedAfter(ops, m, q)
    decreases |ops| - i
  {
    if AddedAfter(ops, i, q) {
      var k :| i < k < |ops| && Adds(ops[k]) && q <= ops[k].p;
      m := LastAdder(ops, k, q);
    } else {
      m := i;
    }
  }

  lemma RefilledKeeps(ops: seq<LayerOp>, q: Path)
    requires WellFormed(ops) && WhiteoutsRefilled(ops) && q in Touched(ops, |ops|)
    ensures q in Present(ops, |ops|)
  {
    TouchedBy(ops, |ops|, q);
    if q == [] {
      StaysThere(ops, 0, |ops|, q);
    } else {
      var i :| 0 <= i < |ops| && Adds(ops[i]) && q <= ops[i].p;
      var m := LastAdder(ops, i, q);
      RefilledKeepsLeaves(ops);
      AddedThere(ops, m, q);
      forall k | m + 1 <= k < |ops| && ops[k].Whiteout?
        ensures !(ops[k].p <= q)
      {
        assert ops[k].p <= q ==> AddedAfter(ops, k, q);
      }
      StaysThere(ops, m + 1, |ops|, q);
    }
  }

  lemma UnfilledLoses(ops: seq<LayerOp>, i: nat, j: nat, q: Path)
    requires i < j < |ops| && Adds(ops[i]) && ops[j].Whiteout? && ops[j].p <= q && q <= ops[i].p
    requires !AddedAfter(ops, j, q)
    ensures q in Touched(ops, |ops|) && q !in Present(ops, |ops|)
  {
    TouchedBy(ops, |ops|, q);
    assert q !in Present(ops, j + 1);
    StaysGone(ops, j + 1, |ops|, q);
  }

  lemma NothingLostIff(ops: seq<LayerOp>)
    requires WellFormed(ops)
    ensures Touched(ops, |ops|) <= Present(ops, |ops|) <==> WhiteoutsRefilled(ops)
  {
    if WhiteoutsRefilled(ops) {
      forall q | q in Touched(ops, |ops|)
        ensures q in Present(ops, |ops|)
      {
        RefilledKeeps(ops, q);
      }
    } else {
      var i, j, q :| 0 <= i < j < |ops| && Adds(ops[i]) && ops[j].Whiteout? && ops[j].p <= q && q <= ops[i].p
        && !AddedAfter(ops, j, q);
      UnfilledLoses(ops, i, j, q);
    }
  }

  lemma {:induction false} PresentIsTouched(ops: seq<LayerOp>, n: nat)
    requires n <= |ops|
    ensures Present(ops, n) <= Touched(ops, n)
  {
    if n > 0 {
      PresentIsTouched(ops, n - 1);
    }
  }

  /**
   Extracting a layer by itself shows exactly its additions if and only if every path that
   a whiteout takes away of the layer's own earlier entries is created again later.
   */
  lemma {:induction false} ExtractionIsAdditionsIff(ops: seq<LayerOp>)
    requires WellFormed(ops)
    ensures Extracted(ops) == Additions(ops) <==> WhiteoutsRefilled(ops)
    ensures Proper(Extracted(ops)) && Proper(Additions(ops))
  {
    EmptyIsLeftover(ops);
    PassShows(ops, EMPTY);
    AddedSoFar(ops, |ops|);
    assert Extracted(ops).Keys == Present(ops, |ops|) && Additions(ops).Keys == Touched(ops, |ops|);
    NothingLostIff(ops);
    PresentIsTouched(ops, |ops|);
    Pass(ops, |ops|, EMPTY);
    ViewProper(Run(EMPTY, ops, |ops|).fs);
    AddAllProper(BARE, ops, |ops|);
  }

  /**
   The layer's first n entries leave p in its directory: one of them creates it, a link only
   if its source was there, and no later whiteout names it or a directory it is in.
   */
  predicate Kept(ops: seq<LayerOp>, n: nat, p: Path)
    requires n <= |ops|
  {
    p == [] || exists i :: 0 <= i < n && NotWiped(ops, i, n, p) && Adds(ops[i]) && p <= ops[i].p
                        && (ops[i].HardLink? && p == ops[i].p ==> Kept(ops, i, ops[i].src))
  }

  /** No whiteout behind entry i, up to the n-th, names p or a directory it is in. */
  predicate NotWiped(ops: seq<LayerOp>, i: nat, n: nat, p: Path)
    requires n <= |ops|
  {
    forall j :: i < j < n && ops[j].Whiteout? ==> !(ops[j].p <= p)
  }

  predicate KeptBy(ops: seq<LayerOp>, n: nat, p: Path, i: nat)
    requires i < n <= |ops|
  {
    NotWiped(ops, i, n, p) && Adds(ops[i]) && p <= ops[i].p &&
      (ops[i].HardLink? && p == ops[i].p ==> Kept(ops, i, ops[i].src))
  }

  lemma KeptBySome(ops: seq<LayerOp>, n: nat, p: Path)
    requires n <= |ops| && p != []
    ensures Kept(ops, n, p) <==> exists i :: 0 <= i < n && KeptBy(ops, n, p, i)
  {
    if Kept(ops, n, p) {
      var i :| 0 <= i < n && NotWiped(ops, i, n, p) && Adds(ops[i]) && p <= ops[i].p
            && (ops[i].HardLink? && p == ops[i].p ==> Kept(ops, i, ops[i].src));
      assert KeptBy(ops, n, p, i);
    }
    if i :| 0 <= i < n && KeptBy(ops, n, p, i) {
      assert NotWiped(ops, i, n, p);
    }
  }

  lemma {:induction false} KeptIff(ops: seq<LayerOp>, n: nat, p: Path)
    requires StaysInside(ops) && n <= |ops|
    ensures Kept(ops, n, p) <==> p in Present(ops, n)
    decreases n
  {
    if n > 0 {
      var op := ops[n - 1];
      KeptIff(ops, n - 1, p);
      if op.HardLink? {
        KeptIff(ops, n - 1, op.src);
        LinkPrefixes(op.p, p);
      }
      if p != [] {
        KeptStep(ops, n, p);
      }
    }
  }

  lemma LinkPrefixes(q: Path, p: Path)
    requires q != []
    ensures p in Prefixes(q) <==> p == q || p in Prefixes(Parent(q))
  {
  }

  lemma KeptByStep(ops: seq<LayerOp>, n: nat, p: Path, i: nat)
    requires i < n - 1 && n <= |ops|
    ensures KeptBy(ops, n, p, i) <==> KeptBy(ops, n - 1, p, i) && !(ops[n - 1].Whiteout? && ops[n - 1].p <= p)
  {
    hide Kept;
    assert NotWiped(ops, i, n, p) <==> NotWiped(ops, i, n - 1, p) && !(ops[n - 1].Whiteout? && ops[n - 1].p <= p);
  }

  /** The last entry creates p, or p was there before and it does not take it away. */
  lemma KeptStep(ops: seq<LayerOp>, n: nat, p: Path)
    requires 0 < n <= |ops| && p != []
    ensures Kept(ops, n, p) <==>
      KeptBy(ops, n, p, n - 1) || (Kept(ops, n - 1, p) && !(ops[n - 1].Whiteout? && ops[n - 1].p <= p))
  {
    hide Kept, KeptBy;
    KeptBySome(ops, n, p);
    KeptBySome(ops, n - 1, p);
    if i :| 0 <= i < n && KeptBy(ops, n, p, i) {
      if i < n - 1 {
        KeptByStep(ops, n, p, i);
      }
    }
    var m := n - 1;
    if i :| 0 <= i < m && KeptBy(ops, m, p, i) {
      KeptByStep(ops, n, p, i);
    }
  }

  predicate Keeps(ops: seq<LayerOp>, p: Path) { Kept(ops, |ops|, p) }

  // ---- when a layer keeps its hard links

  /** Symbolic links of the tree stand where the layer makes links. */
  ghost predicate LinksAtLinks(ops: seq<LayerOp>, nodes: map<Path, Node>) {
    forall q :: q in nodes && nodes[q].Sym? ==>
      exists i :: 0 <= i < |ops| && IsLeaf(ops[i]) && !ops[i].Write? && ops[i].p == q
  }

  lemma ShapedIsStraight(ops: seq<LayerOp>, n: nat, nodes: map<Path, Node>)
    requires StaysInside(ops) && DistinctPaths(ops) && OnlyDirsAbove(ops)
    requires n < |ops| && LinksAtLinks(ops, nodes)
    ensures Straight(nodes, ops[n])
  {
    if Adds(ops[n]) || ops[n].Whiteout? {
      assert OnlyDirsOver(ops, ops[n].p);
    }
    if ops[n].HardLink? {
      assert OnlyDirsOver(ops, ops[n].src);
    }
  }

  lemma PlainOpLinks(ops: seq<LayerOp>, n: nat, fs: Fs)
    requires n < |ops| && LinksAtLinks(ops, fs.nodes)
    ensures LinksAtLinks(ops, PlainOp(fs, ops[n]).fs.nodes)
  {
    var after := PlainOp(fs, ops[n]).fs.nodes;
    forall q | q in after && after[q].Sym?
      ensures exists i :: 0 <= i < |ops| && IsLeaf(ops[i]) && !ops[i].Write? && ops[i].p == q
    {
      if !(q in fs.nodes && fs.nodes[q].Sym?) {
        assert IsLeaf(ops[n]) && !ops[n].Write? && ops[n].p == q;
      }
    }
  }

  /** Extracted into an empty directory, such a layer meets no symbolic link anywhere, whatever its links name. */
  lemma {:induction false} ShapedRun(ops: seq<LayerOp>, n: nat)
    requires StaysInside(ops) && DistinctPaths(ops) && OnlyDirsAbove(ops) && n <= |ops|
    ensures Tree(Run(EMPTY, ops, n).fs) && LinksAtLinks(ops, Run(EMPTY, ops, n).fs.nodes)
    ensures n < |ops| ==> ApplyOp(Run(EMPTY, ops, n).fs, ops[n]) == PlainOp(Run(EMPTY, ops, n).fs, ops[n])
  {
    hide ApplyOp, PlainOp, Straight, Tree, LinksAtLinks, StaysInside, DistinctPaths, OnlyDirsAbove;
    if n == 0 {
      EmptyIsShaped(ops);
    } else {
      var before := Run(EMPTY, ops, n - 1).fs;
      ShapedRun(ops, n - 1);
      MarkersNamed(ops, n - 1);
      ApplyTree(before, ops[n - 1]);
      PlainOpLinks(ops, n - 1, before);
    }
    if n < |ops| {
      ShapedIsStraight(ops, n, Run(EMPTY, ops, n).fs.nodes);
      OpIsPlain(Run(EMPTY, ops, n).fs, ops[n]);
    }
  }

  lemma EmptyIsShaped(ops: seq<LayerOp>)
    ensures Tree(EMPTY) && LinksAtLinks(ops, EMPTY.nodes)
  {
  }

  lemma MarkersNamed(ops: seq<LayerOp>, n: nat)
    requires StaysInside(ops) && n < |ops|
    ensures ops[n].Whiteout? ==> ops[n].p != []
  {
  }

  lemma {:induction false} NeverMade(ops: seq<LayerOp>, n: nat, m: nat, p: Path)
    requires StaysInside(ops) && DistinctPaths(ops) && OnlyDirsAbove(ops)
    requires n <= m <= |ops| && p !in Run(EMPTY, ops, n).fs.nodes
    requires forall k :: n <= k < m && Adds(ops[k]) ==> !(p <= ops[k].p)
    ensures p !in Run(EMPTY, ops, m).fs.nodes
    decreases m - n
  {
    hide ApplyOp, PlainOp;
    if n < m {
      NeverMade(ops, n, m - 1, p);
      ShapedRun(ops, m - 1);
      PlainOpKeys(Run(EMPTY, ops, m - 1).fs, ops[m - 1]);
    }
  }

  lemma {:induction false} RunOfPrefix(fs: Fs, ops: seq<LayerOp>, n: nat, m: nat)
    requires m <= n <= |ops|
    ensures Run(fs, ops[..n], m) == Run(fs, ops, m)
  {
    if m > 0 {
      RunOfPrefix(fs, ops, n, m - 1);
    }
  }

  /** Before a link whose source no earlier entry made, the source is missing or a directory. */
  lemma NoSource(ops: seq<LayerOp>, n: nat, src: Path)
    requires StaysInside(ops) && DistinctPaths(ops) && OnlyDirsAbove(ops)
    requires n < |ops| && forall j :: 0 <= j < n && ops[j].HardLink? ==> LeafBefore(ops, j, ops[j].src)
    requires !LeafBefore(ops, n, src)
    ensures Run(EMPTY, ops, n).ok
    ensures src in Run(EMPTY, ops, n).fs.nodes ==> Run(EMPTY, ops, n).fs.nodes[src] == Dir
  {
    var before := ops[..n];
    PrefixWellFormed(ops, n);
    EmptyIsLeftover(before);
    Pass(before, n, EMPTY);
    RunOfPrefix(EMPTY, ops, n, n);
    RootsDomain(before, n, src);
    if src in Run(EMPTY, ops, n).fs.nodes {
      assert RightKind(before, Roots(before, n), src, Run(EMPTY, ops, n).fs.nodes[src]);
    }
  }

  lemma PrefixWellFormed(ops: seq<LayerOp>, n: nat)
    requires StaysInside(ops) && DistinctPaths(ops) && OnlyDirsAbove(ops)
    requires n < |ops| && forall j :: 0 <= j < n && ops[j].HardLink? ==> LeafBefore(ops, j, ops[j].src)
    ensures WellFormed(ops[..n])
  {
    var before := ops[..n];
    forall j | 0 <= j < n && before[j].HardLink?
      ensures LeafBefore(before, j, before[j].src)
    {
      assert LeafBefore(ops, j, ops[j].src);
      var i :| 0 <= i < j && IsLeaf(ops[i]) && ops[i].p == ops[j].src;
      assert IsLeaf(before[i]) && before[i].p == before[j].src;
    }
  }

  lemma LinkFails(fs: Fs, p: Path, src: Path)
    requires p != [] && p !in fs.nodes && (src in fs.nodes ==> fs.nodes[src] == Dir)
    ensures p !in PlainOp(fs, HardLink(p, src)).fs.nodes
  {
  }

  lemma LeafTargetFree(ops: seq<LayerOp>, n: nat, m: nat)
    requires StaysInside(ops) && DistinctPaths(ops) && OnlyDirsAbove(ops) && n < |ops| && IsLeaf(ops[n])
    requires m < |ops| && m != n && Adds(ops[m])
    ensures !(ops[n].p <= ops[m].p)
  {
  }

  lemma LinkNotMade(ops: seq<LayerOp>, n: nat)
    requires StaysInside(ops) && DistinctPaths(ops) && OnlyDirsAbove(ops)
    requires n < |ops| && ops[n].HardLink? && !LeafBefore(ops, n, ops[n].src)
    requires forall j :: 0 <= j < n && ops[j].HardLink? ==> LeafBefore(ops, j, ops[j].src)
    requires ops[n].p !in Run(EMPTY, ops, n).fs.nodes
    ensures ops[n].p !in Run(EMPTY, ops, n + 1).fs.nodes
  {
    hide ApplyOp, PlainOp, DistinctPaths, OnlyDirsAbove, LeafBefore;
    NoSource(ops, n, ops[n].src);
    ShapedRun(ops, n);
    LinkFails(Run(EMPTY, ops, n).fs, ops[n].p, ops[n].src);
  }

  /** The first link whose source no earlier entry made is lost. */
  lemma FirstBadLinkIsLost(ops: seq<LayerOp>, n: nat)
    requires StaysInside(ops) && DistinctPaths(ops) && OnlyDirsAbove(ops)
    requires n < |ops| && ops[n].HardLink? && !LeafBefore(ops, n, ops[n].src)
    requires forall j :: 0 <= j < n && ops[j].HardLink? ==> LeafBefore(ops, j, ops[j].src)
    ensures ops[n].p !in Extracted(ops)
  {
    hide ApplyOp, DistinctPaths, OnlyDirsAbove, LeafBefore;
    var p := ops[n].p;
    forall m | 0 <= m < |ops| && m != n && Adds(ops[m])
      ensures !(p <= ops[m].p)
    {
      LeafTargetFree(ops, n, m);
    }
    assert p !in Run(EMPTY, ops, 0).fs.nodes;
    NeverMade(ops, 0, n, p);
    LinkNotMade(ops, n);
    NeverMade(ops, n + 1, |ops|, p);
  }

  lemma {:induction false} FirstBadLink(ops: seq<LayerOp>, m: nat) returns (n: nat)
    requires m < |ops| && ops[m].HardLink? && !LeafBefore(ops, m, ops[m].src)
    ensures n <= m && ops[n].HardLink? && !LeafBefore(ops, n, ops[n].src)
    ensures forall j :: 0 <= j < n && ops[j].HardLink? ==> LeafBefore(ops, j, ops[j].src)
  {
    if j :| 0 <= j < m && ops[j].HardLink? && !LeafBefore(ops, j, ops[j].src) {
      n := FirstBadLink(ops, j);
    } else {
      n := m;
    }
  }

  /**
   Exactly when a layer keeps all its hard links: each names a file or link that an earlier
   entry of the same layer made. A link to a lower layer's file is lost, without an error.
   */
  lemma {:induction false} LinksKeptIff(ops: seq<LayerOp>)
    requires StaysInside(ops) && DistinctPaths(ops) && OnlyDirsAbove(ops) && LeavesKept(ops)
    ensures (forall n :: 0 <= n < |ops| && ops[n].HardLink? ==> ops[n].p in Extracted(ops)) <==> LinksBack(ops)
  {
    if LinksBack(ops) {
      EmptyIsLeftover(ops);
      PassShows(ops, EMPTY);
      forall n | 0 <= n < |ops| && ops[n].HardLink?
        ensures ops[n].p in Extracted(ops)
      {
        LeafThere(ops, n, |ops|);
      }
    } else {
      var m :| 0 <= m < |ops| && ops[m].HardLink? && !LeafBefore(ops, m, ops[m].src);
      var n := FirstBadLink(ops, m);
      FirstBadLinkIsLost(ops, n);
    }
  }
}

module StackedForm {
  import opened LayerOps
  import opened LayerTree
  import opened LayerShape
  import opened OverlayView
  import opened OciChangeset
  import opened LayerContent

  /** Layers lowest first, as a manifest lists them. */
  type Image = seq<seq<LayerOp>>

  ghost predicate AllWellFormed(image: Image) {
    forall k :: 0 <= k < |image| ==> WellFormed(image[k])
  }

  /** Layers that show exactly their additions when extracted. */
  ghost predicate Ordinary(image: Image) {
    forall k :: 0 <= k < |image| ==> WellFormed(image[k]) && WhiteoutsRefilled(image[k])
  }

  /** The extracted layers, topmost first: what the overlay mount is given. */
  function StackOf(image: Image): seq<View> {
    if image == [] then [] else [Extracted(image[|image| - 1])] + StackOf(image[..|image| - 1])
  }

  /** What the overlay shows. */
  function StackView(image: Image): View { Flatten(StackOf(image)) }

  lemma {:induction false} StackProper(image: Image)
    requires AllWellFormed(image)
    ensures AllProper(StackOf(image)) && Proper(StackView(image))
  {
    hide Extracted, WellFormed;
    if image != [] {
      StackProper(image[..|image| - 1]);
      ExtractionIsAdditionsIff(image[|image| - 1]);
    }
    FlattenProper(StackOf(image));
  }

  lemma {:induction false} FlatProper(image: Image)
    ensures Proper(FlatForm(image))
  {
    if image != [] {
      var low, ops := FlatForm(image[..|image| - 1]), image[|image| - 1];
      FlatProper(image[..|image| - 1]);
      StripProper(low, ops);
      AddAllProper(Strip(low, ops), ops, |ops|);
    }
  }

  // ---- which paths a layer has, and which it keeps out of sight, read off its entries

  predicate Creates(ops: seq<LayerOp>, p: Path) {
    exists i :: 0 <= i < |ops| && Adds(ops[i]) && p <= ops[i].p
  }

  /** A file or link of the layer stands on the way to p. */
  predicate Blocks(ops: seq<LayerOp>, p: Path) {
    exists i :: 0 <= i < |ops| && IsLeaf(ops[i]) && ops[i].p <= p && ops[i].p != p
  }

  predicate Covers(ops: seq<LayerOp>, p: Path) { Creates(ops, p) || Blocks(ops, p) }

  lemma LeafIsRoot(ops: seq<LayerOp>, i: nat)
    requires WellFormed(ops) && i < |ops| && IsLeaf(ops[i])
    ensures ops[i].p in Touched(ops, |ops|) && Says(ops, Roots(ops, |ops|), ops[i].p) != VDir
  {
    TouchedBy(ops, |ops|, ops[i].p);
    RootsDomain(ops, |ops|, ops[i].p);
    assert LeafBefore(ops, |ops|, ops[i].p);
    RootSays(ops, |ops|, ops[i].p);
  }

  /** What the layer's entries say of a path that they create. */
  function ContentOf(ops: seq<LayerOp>, p: Path): VNode { Says(ops, Roots(ops, |ops|), p) }

  /** What a changeset adds, and what it is in the way of. */
  lemma {:induction false} AdditionsAre(ops: seq<LayerOp>, p: Path)
    requires WellFormed(ops) && p != []
    ensures p in Additions(ops) <==> Creates(ops, p)
    ensures p in Additions(ops) ==> Additions(ops)[p] == ContentOf(ops, p)
    ensures Hides(Additions(ops), p) <==> Blocks(ops, p)
  {
    AddedSoFar(ops, |ops|);
    TouchedBy(ops, |ops|, p);
    if Blocks(ops, p) {
      var i :| 0 <= i < |ops| && IsLeaf(ops[i]) && ops[i].p <= p && ops[i].p != p;
      LeafIsRoot(ops, i);
      assert ops[i].p in Prefixes(p);
    }
    if Hides(Additions(ops), p) {
      var q :| q in Prefixes(p) && q != p && q in Additions(ops) && Additions(ops)[q] != VDir;
      RootsDomain(ops, |ops|, q);
      assert LeafBefore(ops, |ops|, q);
    }
  }

  /** A file or link that the layer keeps stands on the way to p. */
  predicate KeepsOver(ops: seq<LayerOp>, p: Path) {
    exists i :: 0 <= i < |ops| && IsLeaf(ops[i]) && ops[i].p <= p && ops[i].p != p && Keeps(ops, ops[i].p)
  }

  /** What the extracted layer has, and what it is in the way of. */
  lemma {:induction false} ExtractionIs(ops: seq<LayerOp>, p: Path)
    requires WellFormed(ops) && p != []
    ensures p in Extracted(ops) <==> Keeps(ops, p)
    ensures p in Extracted(ops) ==> Extracted(ops)[p] == ContentOf(ops, p)
    ensures Hides(Extracted(ops), p) <==> KeepsOver(ops, p)
  {
    hide Extracted, Keeps, Present, Kept;
    ExtractedIsPresent(ops);
    KeptIsPresent(ops, p);
    if KeepsOver(ops, p) {
      var i :| 0 <= i < |ops| && IsLeaf(ops[i]) && ops[i].p <= p && ops[i].p != p && Keeps(ops, ops[i].p);
      LeafIsRoot(ops, i);
      KeptIsPresent(ops, ops[i].p);
      assert ops[i].p in Prefixes(p);
    }
    if Hides(Extracted(ops), p) {
      var q :| q in Prefixes(p) && q != p && q in Extracted(ops) && Extracted(ops)[q] != VDir;
      RootsDomain(ops, |ops|, q);
      assert LeafBefore(ops, |ops|, q);
      KeptIsPresent(ops, q);
    }
  }

  lemma KeptIsPresent(ops: seq<LayerOp>, p: Path)
    requires WellFormed(ops)
    ensures Keeps(ops, p) <==> p in Present(ops, |ops|)
  {
    KeptIff(ops, |ops|, p);
  }

  // ---- which paths the stack shows, and which the flat form has

  /** Layer m keeps p, and no layer above keeps it or anything in its way. */
  ghost predicate ShownFrom(image: Image, m: nat, p: Path)
    requires m < |image|
  {
    Keeps(image[m], p) && forall j :: m < j < |image| ==> !Keeps(image[j], p) && !KeepsOver(image[j], p)
  }

  /** One more layer is merged over the view below. */
  lemma StackStep(image: Image, p: Path)
    requires AllWellFormed(image) && image != [] && p != []
    ensures var top, low := image[|image| - 1], StackView(image[..|image| - 1]);
            && (p in StackView(image) <==> Keeps(top, p) || (p in low && !KeepsOver(top, p)))
            && (p in StackView(image) ==> StackView(image)[p] == if Keeps(top, p) then ContentOf(top, p) else low[p])
  {
    hide Keeps, KeepsOver, WellFormed, ContentOf, Extracted;
    ExtractionIs(image[|image| - 1], p);
    assert StackOf(image)[1..] == StackOf(image[..|image| - 1]);
  }

  lemma {:induction false} InStackIff(image: Image, p: Path)
    requires AllWellFormed(image) && p != []
    ensures p in StackView(image) <==> exists m :: 0 <= m < |image| && ShownFrom(image, m, p)
    ensures forall m :: 0 <= m < |image| && ShownFrom(image, m, p) ==>
      p in StackView(image) && StackView(image)[p] == ContentOf(image[m], p)
  {
    hide Keeps, KeepsOver, WellFormed, ContentOf, StackView;
    if image == [] {
      NothingStacked();
    } else {
      var n, init := |image| - 1, image[..|image| - 1];
      InStackIff(init, p);
      StackStep(image, p);
      forall m | 0 <= m < n
        ensures ShownFrom(image, m, p) <==> ShownFrom(init, m, p) && !Keeps(image[n], p) && !KeepsOver(image[n], p)
      {
        assert forall j :: m < j < n ==> init[j] == image[j];
      }
      if Keeps(image[n], p) {
        assert ShownFrom(image, n, p);
      }
    }
  }

  lemma NothingStacked()
    ensures StackView([]) == BARE
  {
  }

  /** Layer k creates p, and no layer above covers it or asks for it to be gone. */
  ghost predicate StandsFrom(image: Image, k: nat, p: Path)
    requires k < |image|
  {
    Creates(image[k], p) && forall j :: k < j < |image| ==> !Covers(image[j], p) && !Marked(image[j], p)
  }

  /** One more changeset strips the view below it and is merged over the rest. */
  lemma FlatStep(image: Image, p: Path)
    requires AllWellFormed(image) && image != [] && p != []
    ensures var top, low := image[|image| - 1], FlatForm(image[..|image| - 1]);
            && (p in FlatForm(image) <==> Creates(top, p) || (p in low && !Marked(top, p) && !Blocks(top, p)))
            && (p in FlatForm(image) ==> FlatForm(image)[p] == if Creates(top, p) then ContentOf(top, p) else low[p])
  {
    hide Creates, Blocks, WellFormed, ContentOf, Marked;
    var top, low := image[|image| - 1], FlatForm(image[..|image| - 1]);
    FlatProper(image[..|image| - 1]);
    StripProper(low, top);
    AddedSoFar(top, |top|);
    AddAllMerge(Strip(low, top), top, |top|);
    AdditionsAre(top, p);
  }

  lemma {:induction false} InFlatIff(image: Image, p: Path)
    requires AllWellFormed(image) && p != []
    ensures p in FlatForm(image) <==> exists k :: 0 <= k < |image| && StandsFrom(image, k, p)
    ensures forall k :: 0 <= k < |image| && StandsFrom(image, k, p) ==>
      p in FlatForm(image) && FlatForm(image)[p] == ContentOf(image[k], p)
  {
    hide Creates, Blocks, Marked, WellFormed, ContentOf, FlatForm;
    if image == [] {
      NothingFlat();
    } else {
      var n, init := |image| - 1, image[..|image| - 1];
      InFlatIff(init, p);
      FlatStep(image, p);
      forall k | 0 <= k < n
        ensures StandsFrom(image, k, p) <==> StandsFrom(init, k, p) && !Covers(image[n], p) && !Marked(image[n], p)
      {
        assert forall j :: k < j < n ==> init[j] == image[j];
      }
      if Creates(image[n], p) {
        assert StandsFrom(image, n, p);
      }
    }
  }

  lemma NothingFlat()
    ensures FlatForm([]) == BARE
  {
  }

  // ---- the two forms

  /**
   Read off the entries: p is in neither form, or each form has it from a layer and the two
   layers say the same of it. The layers as they are extracted need not be those that the
   specification is applied to.
   */
  ghost predicate Agrees(image: Image, meant: Image, p: Path) {
    || p == []
    || (exists m, k :: 0 <= m < |image| && 0 <= k < |meant| && ShownFrom(image, m, p) && StandsFrom(meant, k, p)
          && ContentOf(image[m], p) == ContentOf(meant[k], p))
    || ((forall m :: 0 <= m < |image| ==> !ShownFrom(image, m, p))
        && forall k :: 0 <= k < |meant| ==> !StandsFrom(meant, k, p))
  }

  /** At every path: the mounted stack shows what the flat form has exactly if the layers agree on it. */
  lemma {:induction false} StackAtPath(image: Image, meant: Image, p: Path)
    requires AllWellFormed(image) && AllWellFormed(meant)
    ensures Lookup(StackOf(image), p) == Shows(StackView(image), p)
    ensures Lookup(StackOf(image), p) == Shows(FlatForm(meant), p) <==> Agrees(image, meant, p)
  {
    hide ShownFrom, StandsFrom, StackView, FlatForm, StackOf, Lookup, WellFormed, ContentOf;
    StackProper(image);
    LookupIsFlatten(StackOf(image), p);
    FlatProper(meant);
    assert Shows(StackView(image), p) == Lookup(StackOf(image), p) by {
      hide *;
      ViewIsFlatten(image);
    }
    if p != [] {
      InStackIff(image, p);
      InFlatIff(meant, p);
    }
  }

  lemma ViewIsFlatten(image: Image)
    ensures StackView(image) == Flatten(StackOf(image))
  {
  }

  /** The stacked form equals the flat form exactly if that holds everywhere. */
  lemma {:induction false} StackedIsFlatIff(image: Image, meant: Image)
    requires AllWellFormed(image) && AllWellFormed(meant)
    ensures StackView(image) == FlatForm(meant) <==> forall p :: Agrees(image, meant, p)
  {
    hide StackView, FlatForm, Agrees, Lookup, StackOf;
    forall p
      ensures Shows(StackView(image), p) == Shows(FlatForm(meant), p) <==> Agrees(image, meant, p)
    {
      StackAtPath(image, meant, p);
    }
    if forall p :: Agrees(image, meant, p) {
      SameShows(StackView(image), FlatForm(meant));
    }
  }
}

module Resurfacing {
  import opened LayerOps
  import opened LayerShape
  import opened OverlayView
  import opened OciChangeset
  import opened LayerContent
  import opened StackedForm

  /** A path that the stack has from layer m although a higher layer k asks for it to be gone. */
  ghost predicate Resurfaces(image: Image, m: nat, k: nat, p: Path)
    requires m < k < |image|
  {
    ShownFrom(image, m, p) && Marked(image[k], p)
  }

  ghost predicate SomeResurface(image: Image, p: Path) {
    exists m, k :: 0 <= m < k < |image| && Resurfaces(image, m, k, p)
  }

  lemma {:induction false} OrdinaryKeeps(ops: seq<LayerOp>, p: Path)
    requires WellFormed(ops) && WhiteoutsRefilled(ops) && p != []
    ensures Keeps(ops, p) <==> Creates(ops, p)
    ensures KeepsOver(ops, p) <==> Blocks(ops, p)
  {
    hide Extracted, Additions, Keeps, KeepsOver, Creates, Blocks;
    ExtractionIsAdditionsIff(ops);
    ExtractionIs(ops, p);
    AdditionsAre(ops, p);
  }

  lemma OneShower(image: Image, m: nat, k: nat, p: Path)
    requires m < |image| && k < |image| && ShownFrom(image, m, p) && ShownFrom(image, k, p)
    ensures m == k
  {
  }

  /**
   In an ordinary image the flat form has a path exactly if the stack does and no marker
   above asks for it to be gone.
   */
  lemma StandsIsShown(image: Image, k: nat, p: Path)
    requires Ordinary(image) && k < |image| && p != []
    ensures StandsFrom(image, k, p) <==> ShownFrom(image, k, p) && forall j :: k < j < |image| ==> !Marked(image[j], p)
  {
    hide Keeps, KeepsOver, Creates, Blocks, Marked, WellFormed, WhiteoutsRefilled;
    OrdinaryKeeps(image[k], p);
    forall j | k < j < |image|
      ensures Keeps(image[j], p) || KeepsOver(image[j], p) <==> Covers(image[j], p)
    {
      OrdinaryKeeps(image[j], p);
    }
  }

  /** For layers that show exactly their additions the two forms agree on a path unless it resurfaces. */
  lemma {:induction false} AgreesUnlessResurfaces(image: Image, p: Path)
    requires Ordinary(image)
    ensures Agrees(image, image, p) <==> p == [] || !SomeResurface(image, p)
  {
    hide ShownFrom, StandsFrom, Marked, WellFormed, WhiteoutsRefilled, ContentOf;
    if p != [] {
      forall k | 0 <= k < |image|
        ensures StandsFrom(image, k, p) <==>
          ShownFrom(image, k, p) && forall j :: k < j < |image| ==> !Marked(image[j], p)
      {
        StandsIsShown(image, k, p);
      }
      if SomeResurface(image, p) {
        var m, k :| 0 <= m < k < |image| && Resurfaces(image, m, k, p);
        forall j | 0 <= j < |image| && StandsFrom(image, j, p)
          ensures false
        {
          OneShower(image, m, j, p);
        }
      } else if m :| 0 <= m < |image| && ShownFrom(image, m, p) {
        forall j | m < j < |image|
          ensures !Marked(image[j], p)
        {
          assert !Resurfaces(image, m, j, p);
        }
      }
    }
  }

  /** A whiteout does not hide: a lower path it names, and no layer above that path's covers, is still found. */
  lemma {:induction false} WhiteoutDoesNotHide(image: Image, m: nat, k: nat, p: Path)
    requires AllWellFormed(image) && m < k < |image| && p != [] && Resurfaces(image, m, k, p)
    ensures Lookup(StackOf(image), p) == There(ContentOf(image[m], p))
    ensures Ordinary(image) ==> p !in FlatForm(image)
  {
    hide ShownFrom, StandsFrom, Marked, WellFormed, WhiteoutsRefilled, ContentOf, Lookup, StackOf, StackView, FlatForm;
    StackAtPath(image, image, p);
    InStackIff(image, p);
    if Ordinary(image) {
      InFlatIff(image, p);
      forall j | 0 <= j < |image| && StandsFrom(image, j, p)
        ensures false
      {
        StandsIsShown(image, j, p);
        OneShower(image, m, j, p);
      }
    }
  }
}
