// Extraction resumes: over whatever earlier attempts at the same layer left behind, a
// full pass gives the tree it gives on an empty directory.

module LayerShape {
  import opened LayerOps
  import opened LayerTree

  /** Some file or link entry before the n-th has the path p. */
  ghost predicate LeafBefore(ops: seq<LayerOp>, n: nat, p: Path)
    requires n <= |ops|
  {
    exists i :: 0 <= i < n && IsLeaf(ops[i]) && ops[i].p == p
  }

  ghost predicate StaysInside(ops: seq<LayerOp>) {
    forall i :: 0 <= i < |ops| ==> !ops[i].Outside? && (IsLeaf(ops[i]) || ops[i].Whiteout? ==> ops[i].p != [])
  }

  /** No path is created twice, unless as a directory both times. */
  ghost predicate DistinctPaths(ops: seq<LayerOp>) {
    forall i, j :: 0 <= i < j < |ops| && Adds(ops[i]) && Adds(ops[j]) && ops[i].p == ops[j].p ==>
      ops[i].MkDir? && ops[j].MkDir?
  }

  /** No file or link of the layer lies strictly above p. */
  ghost predicate OnlyDirsOver(ops: seq<LayerOp>, p: Path) {
    forall i :: 0 <= i < |ops| && IsLeaf(ops[i]) && ops[i].p <= p ==> ops[i].p == p
  }

  /** Nor above any path that an entry creates, whites out or links to. */
  ghost predicate OnlyDirsAbove(ops: seq<LayerOp>) {
    && (forall j :: 0 <= j < |ops| && (Adds(ops[j]) || ops[j].Whiteout?) ==> OnlyDirsOver(ops, ops[j].p))
    && (forall j :: 0 <= j < |ops| && ops[j].HardLink? ==> OnlyDirsOver(ops, ops[j].src))
  }

  ghost predicate LinksBack(ops: seq<LayerOp>) {
    forall j :: 0 <= j < |ops| && ops[j].HardLink? ==> LeafBefore(ops, j, ops[j].src)
  }

  /**
   An ordinary layer: entries stay below the destination, only directories are named
   twice or have anything below them, and a hard link names an earlier file.
   */
  ghost predicate WellFormed(ops: seq<LayerOp>) {
    StaysInside(ops) && DistinctPaths(ops) && OnlyDirsAbove(ops) && LinksBack(ops)
  }

  /** For each path that is a file or link in the layer, the entry its content comes from. */
  function Roots(ops: seq<LayerOp>, n: nat): (r: map<Path, nat>)
    requires n <= |ops|
    ensures forall p :: p in r ==> r[p] < n
  {
    if n == 0 then map[]
    else
      var r := Roots(ops, n - 1);
      match ops[n - 1]
      case Write(p, _) => r[p := n - 1]
      case SymLink(p, _) => r[p := n - 1]
      case HardLink(p, src) => if src in r then r[p := r[src]] else r
      case _ => r
  }

  /** The paths that one of the first n entries creates or makes a directory for. */
  function Touched(ops: seq<LayerOp>, n: nat): set<Path>
    requires n <= |ops|
  {
    if n == 0 then {[]}
    else if Adds(ops[n - 1]) then Touched(ops, n - 1) + Prefixes(ops[n - 1].p)
    else Touched(ops, n - 1)
  }

  function NotUnder(paths: set<Path>, p: Path): set<Path> { set q | q in paths && !(p <= q) }

  /** The paths present after the first n entries of a pass over an empty directory. */
  function Present(ops: seq<LayerOp>, n: nat): set<Path>
    requires n <= |ops|
  {
    if n == 0 then {[]}
    else
      var there := Present(ops, n - 1);
      match ops[n - 1]
      case Whiteout(p) => NotUnder(there, p)
      case MkDir(p) => there + Prefixes(p)
      case Write(p, _) => there + Prefixes(p)
      case SymLink(p, _) => there + Prefixes(p)
      case HardLink(p, src) =>
        if p != [] && src in there then there + Prefixes(p)
        else if p != [] then there + Prefixes(Parent(p))
        else there
      case _ => there
  }

  lemma {:induction false} RootsDomain(ops: seq<LayerOp>, n: nat, p: Path)
    requires LinksBack(ops) && n <= |ops|
    ensures p in Roots(ops, n) <==> LeafBefore(ops, n, p)
  {
    if n > 0 {
      RootsDomain(ops, n - 1, p);
      var op := ops[n - 1];
      if op.HardLink? {
        RootsDomain(ops, n - 1, op.src);
      }
      if LeafBefore(ops, n - 1, p) {
        var i :| 0 <= i < n - 1 && IsLeaf(ops[i]) && ops[i].p == p;
        assert LeafBefore(ops, n, p);
      } else if IsLeaf(op) && op.p == p {
        assert LeafBefore(ops, n, p);
      }
    }
  }

  lemma {:induction false} RootsGrow(ops: seq<LayerOp>, n: nat, m: nat, p: Path)
    requires LinksBack(ops) && DistinctPaths(ops) && n <= m <= |ops|
    requires p in Roots(ops, n)
    ensures p in Roots(ops, m) && Roots(ops, m)[p] == Roots(ops, n)[p]
    decreases m - n
  {
    if n < m {
      RootsGrow(ops, n, m - 1, p);
      RootsDomain(ops, n, p);
      DistinctFrom(ops, n, m - 1, p);
    }
  }

  lemma DistinctFrom(ops: seq<LayerOp>, n: nat, m: nat, p: Path)
    requires DistinctPaths(ops) && n <= m < |ops| && LeafBefore(ops, n, p)
    ensures Adds(ops[m]) ==> ops[m].p != p
  {
  }

  lemma {:induction false} TouchedBy(ops: seq<LayerOp>, n: nat, q: Path)
    requires n <= |ops|
    ensures q in Touched(ops, n) <==> q == [] || exists i :: 0 <= i < n && Adds(ops[i]) && q <= ops[i].p
  {
    if n > 0 {
      TouchedBy(ops, n - 1, q);
    }
  }

  /**
   What an ordinary layer guarantees about its n-th entry, given the roots of all paths
   and the paths touched so far.
   */
  ghost predicate Fits(roots: map<Path, nat>, touched: set<Path>, n: nat, op: LayerOp) {
    && !op.Outside?
    && (op.Whiteout? ==> op.p != [] && forall q :: q <= op.p && q != op.p ==> q !in roots)
    && (Adds(op) ==> forall q :: q <= op.p && (q != op.p || op.MkDir?) ==> q !in roots)
    && (forall q :: q in touched && q in roots ==> roots[q] < n)
    && (IsLeaf(op) ==> op.p != [] && op.p !in touched && op.p in roots)
    && (op.Write? || op.SymLink? ==> roots[op.p] == n)
    && (op.HardLink? ==> op.src in touched && op.src in roots && roots[op.p] == roots[op.src])
    && (op.HardLink? ==> forall q :: q <= op.src && q != op.src ==> q !in roots)
  }

  lemma NoRootOver(ops: seq<LayerOp>, p: Path, q: Path)
    requires LinksBack(ops) && OnlyDirsOver(ops, p) && q <= p && q != p
    ensures q !in Roots(ops, |ops|)
  {
    RootsDomain(ops, |ops|, q);
  }

  lemma NoRootAbove(ops: seq<LayerOp>, n: nat, q: Path)
    requires LinksBack(ops) && DistinctPaths(ops) && OnlyDirsAbove(ops)
    requires n < |ops| && Adds(ops[n]) && q <= ops[n].p && (q != ops[n].p || ops[n].MkDir?)
    ensures q !in Roots(ops, |ops|)
  {
    hide LinksBack, Roots, OnlyDirsOver;
    if q != ops[n].p {
      NoRootOver(ops, ops[n].p, q);
    } else {
      RootsDomain(ops, |ops|, q);
    }
  }

  lemma TouchedRootsAreEarlier(ops: seq<LayerOp>, n: nat, q: Path)
    requires LinksBack(ops) && DistinctPaths(ops) && OnlyDirsAbove(ops) && StaysInside(ops)
    requires n <= |ops| && q in Touched(ops, n) && q in Roots(ops, |ops|)
    ensures q in Roots(ops, n) && Roots(ops, |ops|)[q] == Roots(ops, n)[q]
  {
    RootsDomain(ops, |ops|, q);
    TouchedBy(ops, n, q);
    assert LeafBefore(ops, n, q);
    RootsDomain(ops, n, q);
    RootsGrow(ops, n, |ops|, q);
  }

  lemma LeafIsNew(ops: seq<LayerOp>, n: nat)
    requires DistinctPaths(ops) && OnlyDirsAbove(ops) && StaysInside(ops) && n < |ops| && IsLeaf(ops[n])
    ensures ops[n].p !in Touched(ops, n)
  {
    TouchedBy(ops, n, ops[n].p);
  }

  lemma LeafFits(ops: seq<LayerOp>, n: nat)
    requires LinksBack(ops) && DistinctPaths(ops) && n < |ops| && (ops[n].Write? || ops[n].SymLink?)
    ensures ops[n].p in Roots(ops, |ops|) && Roots(ops, |ops|)[ops[n].p] == n
  {
    RootsGrow(ops, n + 1, |ops|, ops[n].p);
  }

  lemma LinkFits(ops: seq<LayerOp>, n: nat)
    requires LinksBack(ops) && DistinctPaths(ops) && n < |ops| && ops[n].HardLink?
    ensures ops[n].src in Touched(ops, n)
    ensures ops[n].p in Roots(ops, |ops|) && ops[n].src in Roots(ops, |ops|)
    ensures Roots(ops, |ops|)[ops[n].p] == Roots(ops, |ops|)[ops[n].src]
  {
    var p, src := ops[n].p, ops[n].src;
    TouchedBy(ops, n, src);
    RootsDomain(ops, n, src);
    RootsGrow(ops, n, |ops|, src);
    RootsGrow(ops, n + 1, |ops|, p);
  }

  lemma {:induction false} EntryFits(ops: seq<LayerOp>, n: nat)
    requires WellFormed(ops) && n < |ops|
    ensures Fits(Roots(ops, |ops|), Touched(ops, n), n, ops[n])
  {
    var roots := Roots(ops, |ops|);
    forall q | Adds(ops[n]) && q <= ops[n].p && (q != ops[n].p || ops[n].MkDir?)
      ensures q !in roots
    {
      NoRootAbove(ops, n, q);
    }
    forall q | ops[n].Whiteout? && q <= ops[n].p && q != ops[n].p
      ensures q !in roots
    {
      NoRootOver(ops, ops[n].p, q);
    }
    forall q | ops[n].HardLink? && q <= ops[n].src && q != ops[n].src
      ensures q !in roots
    {
      NoRootOver(ops, ops[n].src, q);
    }
    forall q | q in Touched(ops, n) && q in roots
      ensures roots[q] < n
    {
      TouchedRootsAreEarlier(ops, n, q);
    }
    if IsLeaf(ops[n]) {
      LeafIsNew(ops, n);
      if ops[n].HardLink? {
        LinkFits(ops, n);
      } else {
        LeafFits(ops, n);
      }
    }
  }
}

module ExtractSteps {
  import opened LayerOps
  import opened LayerTree
  import opened LayerShape

  /** A node has the type, and a link the text, that the layer gives its path. */
  ghost predicate RightKind(ops: seq<LayerOp>, roots: map<Path, nat>, p: Path, node: Node) {
    match node
    case Dir => p !in roots
    case File(_) => p in roots && roots[p] < |ops| && ops[roots[p]].Write?
    case Sym(text) => p in roots && roots[p] < |ops| && ops[roots[p]].SymLink? && ops[roots[p]].text == text
  }

  ghost predicate Kinds(ops: seq<LayerOp>, roots: map<Path, nat>, nodes: map<Path, Node>) {
    forall p :: p in nodes ==> RightKind(ops, roots, p, nodes[p])
  }

  /** Only hard links of one file share an inode. */
  ghost predicate Sharing(roots: map<Path, nat>, nodes: map<Path, Node>) {
    forall p, q :: p in nodes && q in nodes && nodes[p].File? && nodes[p] == nodes[q] && p in roots && q in roots
      ==> roots[p] == roots[q]
  }

  ghost predicate Sound(ops: seq<LayerOp>, roots: map<Path, nat>, fs: Fs) {
    Tree(fs) && Kinds(ops, roots, fs.nodes) && Sharing(roots, fs.nodes)
  }

  /** On the paths this pass has touched, exactly the present ones exist. */
  ghost predicate Exact(touched: set<Path>, present: set<Path>, nodes: map<Path, Node>) {
    present <= touched && forall p :: p in touched ==> (p in nodes <==> p in present)
  }

  ghost predicate RightContent(ops: seq<LayerOp>, roots: map<Path, nat>, p: Path, fs: Fs)
    requires p in fs.nodes
  {
    fs.nodes[p].File? ==>
      && p in roots && roots[p] < |ops| && ops[roots[p]].Write?
      && fs.nodes[p].ino in fs.data && fs.data[fs.nodes[p].ino] == ops[roots[p]].data
  }

  ghost predicate Contents(ops: seq<LayerOp>, roots: map<Path, nat>, present: set<Path>, fs: Fs) {
    forall p :: p in present && p in fs.nodes ==> RightContent(ops, roots, p, fs)
  }

  /** Hard links of one file that this pass made do share. */
  ghost predicate Linked(roots: map<Path, nat>, present: set<Path>, nodes: map<Path, Node>) {
    forall p, q :: p in present && q in present && p in nodes && q in nodes && p in roots && q in roots &&
      roots[p] == roots[q]
      ==> nodes[p] == nodes[q]
  }

  ghost predicate Matches(ops: seq<LayerOp>, roots: map<Path, nat>, touched: set<Path>, present: set<Path>, fs: Fs) {
    && Exact(touched, present, fs.nodes)
    && Contents(ops, roots, present, fs)
    && Linked(roots, present, fs.nodes)
  }

  // ---- making the directories on the way

  lemma WithDirsTree(fs: Fs, p: Path)
    requires Tree(fs) && !Blocked(fs.nodes, p)
    ensures Tree(fs.(nodes := WithDirs(fs.nodes, p)))
  {
    var nodes := WithDirs(fs.nodes, p);
    forall q | q in nodes && q != []
      ensures Parent(q) in nodes && nodes[Parent(q)] == Dir
    {
      if q !in fs.nodes {
        assert Parent(q) in Prefixes(p);
      }
    }
  }

  lemma NotBlocked(ops: seq<LayerOp>, roots: map<Path, nat>, nodes: map<Path, Node>, p: Path)
    requires Kinds(ops, roots, nodes)
    requires forall q :: q <= p ==> q !in roots
    ensures !Blocked(nodes, p)
  {
    forall q | q in Prefixes(p) && q in nodes
      ensures nodes[q] == Dir
    {
      assert RightKind(ops, roots, q, nodes[q]);
    }
  }

  lemma {:induction false} DirsSound(ops: seq<LayerOp>, roots: map<Path, nat>, fs: Fs, p: Path)
    requires Sound(ops, roots, fs)
    requires forall q :: q <= p ==> q !in roots
    ensures !Blocked(fs.nodes, p) && WithDirs(fs.nodes, p)[p] == Dir
    ensures Sound(ops, roots, fs.(nodes := WithDirs(fs.nodes, p)))
  {
    NotBlocked(ops, roots, fs.nodes, p);
    WithDirsTree(fs, p);
    WithDirsSound(ops, roots, fs.nodes, p);
  }

  lemma {:induction false} DirsStep(ops: seq<LayerOp>, roots: map<Path, nat>, touched: set<Path>, present: set<Path>,
                                    fs: Fs, p: Path)
    requires Sound(ops, roots, fs) && Matches(ops, roots, touched, present, fs)
    requires forall q :: q <= p ==> q !in roots
    ensures !Blocked(fs.nodes, p) && WithDirs(fs.nodes, p)[p] == Dir
    ensures Sound(ops, roots, fs.(nodes := WithDirs(fs.nodes, p)))
    ensures Matches(ops, roots, touched + Prefixes(p), present + Prefixes(p), fs.(nodes := WithDirs(fs.nodes, p)))
  {
    DirsSound(ops, roots, fs, p);
    WithDirsMatches(ops, roots, touched, present, fs, p);
  }

  lemma WithDirsSound(ops: seq<LayerOp>, roots: map<Path, nat>, nodes: map<Path, Node>, p: Path)
    requires Kinds(ops, roots, nodes) && Sharing(roots, nodes)
    requires forall q :: q <= p ==> q !in roots
    ensures Kinds(ops, roots, WithDirs(nodes, p)) && Sharing(roots, WithDirs(nodes, p))
  {
  }

  lemma WithDirsMatches(ops: seq<LayerOp>, roots: map<Path, nat>, touched: set<Path>, present: set<Path>, fs: Fs,
                        p: Path)
    requires Matches(ops, roots, touched, present, fs)
    requires forall q :: q <= p ==> q !in roots
    requires !Blocked(fs.nodes, p)
    ensures Matches(ops, roots, touched + Prefixes(p), present + Prefixes(p), fs.(nodes := WithDirs(fs.nodes, p)))
  {
  }

  // ---- taking a path away

  /** Whatever is taken away, as long as directories go after their children. */
  ghost predicate TakesAway(before: map<Path, Node>, after: map<Path, Node>) {
    && (forall q :: q in after ==> q in before && after[q] == before[q])
    && (forall q :: q in after && q != [] ==> Parent(q) in after)
    && [] in after
  }

  lemma TakenAwaySound(ops: seq<LayerOp>, roots: map<Path, nat>, fs: Fs, nodes: map<Path, Node>)
    requires Sound(ops, roots, fs) && TakesAway(fs.nodes, nodes)
    ensures Sound(ops, roots, fs.(nodes := nodes))
  {
  }

  lemma TakenAwayMatches(ops: seq<LayerOp>, roots: map<Path, nat>, touched: set<Path>, present: set<Path>,
                         left: set<Path>, fs: Fs, nodes: map<Path, Node>)
    requires Matches(ops, roots, touched, present, fs)
    requires forall q :: q in nodes ==> q in fs.nodes && nodes[q] == fs.nodes[q]
    requires left <= present && forall q :: q in present ==> (q in nodes <==> q in left)
    ensures Matches(ops, roots, touched, left, fs.(nodes := nodes))
  {
  }

  lemma RemoveAllTakesAway(nodes: map<Path, Node>, p: Path)
    requires p != [] && [] in nodes
    requires forall q :: q in nodes && q != [] ==> Parent(q) in nodes
    ensures TakesAway(nodes, RemoveAll(nodes, p))
  {
  }

  lemma RemoveSomeTakesAway(nodes: map<Path, Node>, p: Path, gone: set<Path>)
    requires p != [] && [] in nodes
    requires forall q :: q in nodes && q != [] ==> Parent(q) in nodes
    ensures TakesAway(nodes, RemoveSome(nodes, p, gone))
  {
    var after := RemoveSome(nodes, p, gone);
    forall q | q in after && q != []
      ensures Parent(q) in after
    {
      if p <= Parent(q) {
        assert p <= q;
        var r :| r in nodes && q <= r && r !in gone;
        assert Parent(q) <= r;
      }
    }
  }

  lemma RemoveTakesAway(nodes: map<Path, Node>, p: Path)
    requires p != [] && [] in nodes
    requires forall q :: q in nodes && q != [] ==> Parent(q) in nodes && nodes[Parent(q)] == Dir
    ensures TakesAway(nodes, Remove(nodes, p))
  {
    var after := Remove(nodes, p);
    forall q | q in after && q != []
      ensures Parent(q) in after
    {
      if Parent(q) == p {
        assert |q| == |p| + 1 && p <= q;
      }
    }
  }

  /** A name of the layer's files and links is free after Remove. */
  lemma RemoveFrees(ops: seq<LayerOp>, roots: map<Path, nat>, touched: set<Path>, present: set<Path>, fs: Fs, p: Path)
    requires Sound(ops, roots, fs) && Matches(ops, roots, touched, present, fs)
    requires p != [] && p in roots && p !in touched
    ensures p !in Remove(fs.nodes, p)
    ensures Sound(ops, roots, fs.(nodes := Remove(fs.nodes, p)))
    ensures Matches(ops, roots, touched, present, fs.(nodes := Remove(fs.nodes, p)))
  {
    if p in fs.nodes {
      assert RightKind(ops, roots, p, fs.nodes[p]);
    }
    RemoveTakesAway(fs.nodes, p);
    TakenAwaySound(ops, roots, fs, Remove(fs.nodes, p));
    TakenAwayMatches(ops, roots, touched, present, present, fs, Remove(fs.nodes, p));
  }

  // ---- putting a file or a link

  lemma PutSound(ops: seq<LayerOp>, roots: map<Path, nat>, fs: Fs, p: Path, node: Node)
    requires Sound(ops, roots, fs)
    requires Room(fs.nodes, p) && node != Dir && RightKind(ops, roots, p, node)
    requires node.File? ==> node.ino in fs.data
    requires forall q :: q in fs.nodes && node.File? && fs.nodes[q] == node && q in roots ==> roots[q] == roots[p]
    ensures Sound(ops, roots, fs.(nodes := fs.nodes[p := node]))
  {
  }

  lemma PutMatches(ops: seq<LayerOp>, roots: map<Path, nat>, touched: set<Path>, present: set<Path>, fs: Fs, p: Path,
                   node: Node)
    requires Matches(ops, roots, touched, present, fs)
    requires p !in touched && p in roots
    requires RightContent(ops, roots, p, fs.(nodes := fs.nodes[p := node]))
    requires forall q :: q in present && q in fs.nodes && q in roots && roots[q] == roots[p] ==> fs.nodes[q] == node
    ensures Matches(ops, roots, touched + {p}, present + {p}, fs.(nodes := fs.nodes[p := node]))
  {
  }

  lemma OpenSound(ops: seq<LayerOp>, roots: map<Path, nat>, fs: Fs, p: Path, data: Bytes)
    requires Sound(ops, roots, fs)
    requires p != [] && Parent(p) in fs.nodes && fs.nodes[Parent(p)] == Dir
    requires p in roots && roots[p] < |ops| && ops[roots[p]].Write?
    ensures OpenAndWrite(fs, p, data).ok
    ensures Sound(ops, roots, OpenAndWrite(fs, p, data).fs)
  {
    if p !in fs.nodes {
      var grown := fs.(data := fs.data[fs.next := data], next := fs.next + 1);
      assert Sound(ops, roots, grown);
      PutSound(ops, roots, grown, p, File(fs.next));
    } else {
      assert RightKind(ops, roots, p, fs.nodes[p]);
    }
  }

  /** Truncating in place changes the content under every name of the inode, and those all have the same root. */
  lemma OpenMatches(ops: seq<LayerOp>, roots: map<Path, nat>, touched: set<Path>, present: set<Path>, fs: Fs, p: Path)
    requires Sound(ops, roots, fs) && Matches(ops, roots, touched, present, fs)
    requires p != [] && p !in touched && p in roots && roots[p] < |ops| && ops[roots[p]].Write?
    requires forall q :: q in touched && q in roots ==> roots[q] < roots[p]
    ensures Matches(ops, roots, touched + {p}, present + {p}, OpenAndWrite(fs, p, ops[roots[p]].data).fs)
  {
    var data := ops[roots[p]].data;
    if p !in fs.nodes {
      var grown := fs.(data := fs.data[fs.next := data], next := fs.next + 1);
      assert Matches(ops, roots, touched, present, grown);
      PutMatches(ops, roots, touched, present, grown, p, File(fs.next));
    } else {
      assert RightKind(ops, roots, p, fs.nodes[p]);
      var after := fs.(data := fs.data[fs.nodes[p].ino := data]);
      OverwriteKeeps(ops, roots, touched, present, fs, p, data);
      assert fs.nodes[p := fs.nodes[p]] == fs.nodes;
      PutMatches(ops, roots, touched, present, after, p, fs.nodes[p]);
    }
  }

  lemma OverwriteKeeps(ops: seq<LayerOp>, roots: map<Path, nat>, touched: set<Path>, present: set<Path>, fs: Fs,
                       p: Path, data: Bytes)
    requires Sound(ops, roots, fs) && Matches(ops, roots, touched, present, fs)
    requires p in fs.nodes && fs.nodes[p].File? && p in roots
    requires forall q :: q in touched && q in roots ==> roots[q] < roots[p]
    ensures Matches(ops, roots, touched, present, fs.(data := fs.data[fs.nodes[p].ino := data]))
  {
    var after := fs.(data := fs.data[fs.nodes[p].ino := data]);
    forall q | q in present && q in after.nodes
      ensures RightContent(ops, roots, q, after)
    {
      assert RightContent(ops, roots, q, fs);
    }
  }

  // ---- one entry of a pass

  lemma SplitPrefixes(paths: set<Path>, p: Path)
    requires p != []
    ensures paths + Prefixes(Parent(p)) + {p} == paths + Prefixes(p)
  {
    forall q | q in Prefixes(p)
      ensures q in Prefixes(Parent(p)) + {p}
    {
      if |q| == |p| {
        assert q == p;
      }
    }
  }

  lemma {:induction false} WriteStep(ops: seq<LayerOp>, roots: map<Path, nat>, touched: set<Path>, present: set<Path>,
                                     n: nat, fs: Fs)
    requires n < |ops| && ops[n].Write? && Fits(roots, touched, n, ops[n])
    requires Sound(ops, roots, fs) && Matches(ops, roots, touched, present, fs)
    ensures PlainOp(fs, ops[n]).ok && Sound(ops, roots, PlainOp(fs, ops[n]).fs)
    ensures Matches(ops, roots, touched + Prefixes(ops[n].p), present + Prefixes(ops[n].p), PlainOp(fs, ops[n]).fs)
  {
    var p := ops[n].p;
    var dir := Parent(p);
    DirsStep(ops, roots, touched, present, fs, dir);
    var made := fs.(nodes := WithDirs(fs.nodes, dir));
    OpenSound(ops, roots, made, p, ops[n].data);
    OpenMatches(ops, roots, touched + Prefixes(dir), present + Prefixes(dir), made, p);
    SplitPrefixes(touched, p);
    SplitPrefixes(present, p);
  }

  /** The directories are there and the name is free: the state in which a link is made. */
  lemma {:induction false} LinkRoom(ops: seq<LayerOp>, roots: map<Path, nat>, touched: set<Path>, present: set<Path>,
                                    n: nat, fs: Fs)
    requires n < |ops| && (ops[n].SymLink? || ops[n].HardLink?) && Fits(roots, touched, n, ops[n])
    requires Sound(ops, roots, fs) && Matches(ops, roots, touched, present, fs)
    ensures var p := ops[n].p;
            var nodes := Remove(PlainDirs(fs.nodes, Parent(p)), p);
            && Room(nodes, p)
            && Sound(ops, roots, fs.(nodes := nodes))
            && Matches(ops, roots, touched + Prefixes(Parent(p)), present + Prefixes(Parent(p)), fs.(nodes := nodes))
  {
    var p := ops[n].p;
    var dir := Parent(p);
    DirsStep(ops, roots, touched, present, fs, dir);
    var made := fs.(nodes := WithDirs(fs.nodes, dir));
    RemoveFrees(ops, roots, touched + Prefixes(dir), present + Prefixes(dir), made, p);
  }

  lemma {:induction false} SymLinkStep(ops: seq<LayerOp>, roots: map<Path, nat>, touched: set<Path>, present: set<Path>,
                                       n: nat, fs: Fs)
    requires n < |ops| && ops[n].SymLink? && Fits(roots, touched, n, ops[n])
    requires Sound(ops, roots, fs) && Matches(ops, roots, touched, present, fs)
    ensures PlainOp(fs, ops[n]).ok && Sound(ops, roots, PlainOp(fs, ops[n]).fs)
    ensures Matches(ops, roots, touched + Prefixes(ops[n].p), present + Prefixes(ops[n].p), PlainOp(fs, ops[n]).fs)
  {
    var p, node := ops[n].p, Sym(ops[n].text);
    var dir := Parent(p);
    LinkRoom(ops, roots, touched, present, n, fs);
    var room := fs.(nodes := Remove(PlainDirs(fs.nodes, dir), p));
    PutSound(ops, roots, room, p, node);
    PutMatches(ops, roots, touched + Prefixes(dir), present + Prefixes(dir), room, p, node);
    SplitPrefixes(touched, p);
    SplitPrefixes(present, p);
  }

  lemma {:induction false} HardLinkStep(ops: seq<LayerOp>, roots: map<Path, nat>, touched: set<Path>,
                                        present: set<Path>, n: nat, fs: Fs)
    requires n < |ops| && ops[n].HardLink? && Fits(roots, touched, n, ops[n])
    requires Sound(ops, roots, fs) && Matches(ops, roots, touched, present, fs)
    ensures PlainOp(fs, ops[n]).ok && Sound(ops, roots, PlainOp(fs, ops[n]).fs)
    ensures Matches(ops, roots, touched + Prefixes(ops[n].p),
                    present + Prefixes(if ops[n].src in present then ops[n].p else Parent(ops[n].p)),
                    PlainOp(fs, ops[n]).fs)
  {
    var p, src := ops[n].p, ops[n].src;
    var dir := Parent(p);
    LinkRoom(ops, roots, touched, present, n, fs);
    var room := fs.(nodes := Remove(PlainDirs(fs.nodes, dir), p));
    SplitPrefixes(touched, p);
    SourceThere(ops, roots, touched, present, n, room);
    if src in present {
      var node := room.nodes[src];
      PutSound(ops, roots, room, p, node);
      PutMatches(ops, roots, touched + Prefixes(dir), present + Prefixes(dir), room, p, node);
      SplitPrefixes(present, p);
    } else {
      assert Exact(touched + Prefixes(dir) + {p}, present + Prefixes(dir), room.nodes);
    }
  }

  /** A hard link's source is in the tree exactly if the pass has it; it is a file or a symbolic link. */
  lemma SourceThere(ops: seq<LayerOp>, roots: map<Path, nat>, touched: set<Path>, present: set<Path>, n: nat, room: Fs)
    requires n < |ops| && ops[n].HardLink? && Fits(roots, touched, n, ops[n])
    requires Sound(ops, roots, room)
    requires Exact(touched + Prefixes(Parent(ops[n].p)), present + Prefixes(Parent(ops[n].p)), room.nodes)
    ensures ops[n].src in room.nodes <==> ops[n].src in present
    ensures ops[n].src in room.nodes ==>
      room.nodes[ops[n].src] != Dir && RightKind(ops, roots, ops[n].p, room.nodes[ops[n].src])
  {
    var src, dir := ops[n].src, Parent(ops[n].p);
    assert src !in Prefixes(dir);
    if src in room.nodes {
      assert RightKind(ops, roots, src, room.nodes[src]);
    }
  }

  lemma WhiteoutStep(ops: seq<LayerOp>, roots: map<Path, nat>, touched: set<Path>, present: set<Path>, fs: Fs, p: Path)
    requires p != [] && Sound(ops, roots, fs) && Matches(ops, roots, touched, present, fs)
    ensures Sound(ops, roots, fs.(nodes := RemoveAll(fs.nodes, p)))
    ensures Matches(ops, roots, touched, NotUnder(present, p), fs.(nodes := RemoveAll(fs.nodes, p)))
  {
    RemoveAllTakesAway(fs.nodes, p);
    TakenAwaySound(ops, roots, fs, RemoveAll(fs.nodes, p));
    TakenAwayMatches(ops, roots, touched, present, NotUnder(present, p), fs, RemoveAll(fs.nodes, p));
  }
}

module ExtractResume {
  import opened LayerOps
  import opened LayerTree
  import opened LinkedTree
  import opened LinkFree
  import opened LayerShape
  import opened ExtractSteps

  /** What a pass has reached after its first n entries, whatever it started from. */
  ghost predicate Reached(ops: seq<LayerOp>, n: nat, fs: Fs)
    requires n <= |ops|
  {
    && Sound(ops, Roots(ops, |ops|), fs)
    && Matches(ops, Roots(ops, |ops|), Touched(ops, n), Present(ops, n), fs)
  }

  /** Over a sound tree an entry of an ordinary layer meets no symbolic link on its way. */
  lemma {:induction false} EntryIsStraight(ops: seq<LayerOp>, roots: map<Path, nat>, touched: set<Path>, n: nat, fs: Fs)
    requires n < |ops| && Fits(roots, touched, n, ops[n]) && Sound(ops, roots, fs)
    ensures Straight(fs.nodes, ops[n])
  {
    match ops[n]
    case Whiteout(p) => RootlessIsStraight(ops, roots, fs.nodes, p);
    case MkDir(p) =>
      RootlessIsStraight(ops, roots, fs.nodes, p);
      assert p in fs.nodes ==> RightKind(ops, roots, p, fs.nodes[p]);
    case Write(p, _) =>
      RootlessIsStraight(ops, roots, fs.nodes, p);
      assert p in fs.nodes ==> RightKind(ops, roots, p, fs.nodes[p]);
    case SymLink(p, _) => RootlessIsStraight(ops, roots, fs.nodes, p);
    case HardLink(p, src) =>
      RootlessIsStraight(ops, roots, fs.nodes, p);
      RootlessIsStraight(ops, roots, fs.nodes, src);
    case _ =>
  }

  lemma RootlessIsStraight(ops: seq<LayerOp>, roots: map<Path, nat>, nodes: map<Path, Node>, p: Path)
    requires Kinds(ops, roots, nodes) && forall q :: q <= p && q != p ==> q !in roots
    ensures NoLinkAbove(nodes, p)
  {
    forall q | q <= p && q != p && q in nodes
      ensures !nodes[q].Sym?
    {
      assert RightKind(ops, roots, q, nodes[q]);
    }
  }

  lemma {:induction false} EntryStep(ops: seq<LayerOp>, n: nat, fs: Fs)
    requires WellFormed(ops) && n < |ops| && Reached(ops, n, fs)
    ensures ApplyOp(fs, ops[n]) == PlainOp(fs, ops[n])
    ensures ApplyOp(fs, ops[n]).ok && Reached(ops, n + 1, ApplyOp(fs, ops[n]).fs)
  {
    hide ApplyOp, Straight;
    var roots, touched, present := Roots(ops, |ops|), Touched(ops, n), Present(ops, n);
    EntryFits(ops, n);
    EntryIsStraight(ops, roots, touched, n, fs);
    OpIsPlain(fs, ops[n]);
    match ops[n]
    case Whiteout(p) => WhiteoutStep(ops, roots, touched, present, fs, p);
    case MkDir(p) => DirsStep(ops, roots, touched, present, fs, p);
    case Write(p, _) => WriteStep(ops, roots, touched, present, n, fs);
    case SymLink(p, _) => SymLinkStep(ops, roots, touched, present, n, fs);
    case HardLink(p, _) => HardLinkStep(ops, roots, touched, present, n, fs);
    case _ =>
  }

  /**
   What any number of interrupted attempts at this layer can leave: a tree of paths of the
   layer, of the right types, where only hard links of one file share an inode. File
   contents may be anything.
   */
  ghost predicate Leftover(ops: seq<LayerOp>, fs: Fs) {
    && Sound(ops, Roots(ops, |ops|), fs)
    && fs.nodes.Keys <= Touched(ops, |ops|)
  }

  lemma {:induction false} TouchedGrows(ops: seq<LayerOp>, n: nat, m: nat)
    requires n <= m <= |ops|
    ensures Touched(ops, n) <= Touched(ops, m)
    decreases m - n
  {
    if n < m {
      TouchedGrows(ops, n, m - 1);
    }
  }

  function Adding(op: LayerOp): set<Path> { if Adds(op) then Prefixes(op.p) else {} }

  lemma PlainOpKeys(fs: Fs, op: LayerOp)
    ensures PlainOp(fs, op).fs.nodes.Keys <= fs.nodes.Keys + Adding(op)
  {
  }

  lemma EntryTouches(ops: seq<LayerOp>, n: nat)
    requires n < |ops|
    ensures Adding(ops[n]) <= Touched(ops, |ops|)
  {
    TouchedGrows(ops, n + 1, |ops|);
  }

  lemma EmptyIsLeftover(ops: seq<LayerOp>)
    requires WellFormed(ops)
    ensures Leftover(ops, EMPTY)
  {
    RootsDomain(ops, |ops|, []);
    TouchedGrows(ops, 0, |ops|);
  }

  /** A pass over any leftover tree never fails, and after each entry the touched paths are as the layer says. */
  lemma {:induction false} Pass(ops: seq<LayerOp>, n: nat, fs: Fs)
    requires WellFormed(ops) && Leftover(ops, fs) && n <= |ops|
    ensures Run(fs, ops, n).ok && Reached(ops, n, Run(fs, ops, n).fs)
    ensures Leftover(ops, Run(fs, ops, n).fs)
  {
    if n == 0 {
      assert RightKind(ops, Roots(ops, |ops|), [], Dir);
    } else {
      Pass(ops, n - 1, fs);
      var before := Run(fs, ops, n - 1).fs;
      EntryStep(ops, n - 1, before);
      PlainOpKeys(before, ops[n - 1]);
      EntryTouches(ops, n - 1);
    }
  }

  // ---- interruptions

  lemma {:induction false} TornSound(ops: seq<LayerOp>, roots: map<Path, nat>, touched: set<Path>, n: nat, fs: Fs,
                                     tear: Tear)
    requires n < |ops| && Fits(roots, touched, n, ops[n]) && Sound(ops, roots, fs)
    ensures Sound(ops, roots, PlainTorn(fs, ops[n], tear))
  {
    match ops[n]
    case Whiteout(p) =>
      RemoveSomeTakesAway(fs.nodes, p, tear.gone);
      TakenAwaySound(ops, roots, fs, RemoveSome(fs.nodes, p, tear.gone));
    case MkDir(p) => DirsSound(ops, roots, fs, Upto(p, tear.made));
    case Write(p, data) =>
      if tear.began {
        DirsSound(ops, roots, fs, Parent(p));
        var made := fs.(nodes := WithDirs(fs.nodes, Parent(p)));
        OpenSound(ops, roots, made, p, if tear.written <= |data| then data[..tear.written] else data);
      } else {
        DirsSound(ops, roots, fs, Upto(Parent(p), tear.made));
      }
    case SymLink(p, _) => TornLinkSound(ops, roots, fs, p, tear);
    case HardLink(p, _) => TornLinkSound(ops, roots, fs, p, tear);
    case _ =>
  }

  lemma TornLinkSound(ops: seq<LayerOp>, roots: map<Path, nat>, fs: Fs, p: Path, tear: Tear)
    requires Sound(ops, roots, fs) && p != []
    requires forall q :: q <= p && q != p ==> q !in roots
    ensures Sound(ops, roots, PlainTornLink(fs, p, tear))
  {
    if tear.began {
      DirsSound(ops, roots, fs, Parent(p));
      var made := fs.(nodes := WithDirs(fs.nodes, Parent(p)));
      RemoveTakesAway(made.nodes, p);
      TakenAwaySound(ops, roots, made, Remove(made.nodes, p));
    } else {
      DirsSound(ops, roots, fs, Upto(Parent(p), tear.made));
    }
  }

  lemma TornKeys(fs: Fs, op: LayerOp, tear: Tear)
    ensures PlainTorn(fs, op, tear).nodes.Keys <= fs.nodes.Keys + Adding(op)
  {
  }

  /** An entry that is carried out, or one that an error or a crash cuts short. */
  datatype Go = Through | Cut(tear: Tear)

  /**
   One attempt at a layer: all of it; or some entries whole and some cut short, until it
   ends anywhere. In a limping attempt the errors are all that happens, and those that the
   code ignores do not end it.
   */
  datatype Attempt = Complete | Stopped(course: seq<Go>) | Limping(course: seq<Go>)

  /** The loop goes on behind an error of this entry. */
  predicate Swallows(op: LayerOp) { op.Whiteout? || op.HardLink? }

  function GoOn(fs: Fs, op: LayerOp, go: Go): Fs {
    match go
    case Through => ApplyOp(fs, op).fs
    case Cut(tear) => Torn(fs, op, tear)
  }

  function Limp(fs: Fs, ops: seq<LayerOp>, course: seq<Go>, n: nat): Fs
    requires n <= |ops| && n <= |course|
  {
    if n == 0 then fs else GoOn(Limp(fs, ops, course, n - 1), ops[n - 1], course[n - 1])
  }

  function Try(fs: Fs, ops: seq<LayerOp>, a: Attempt): Fs {
    match a
    case Complete => Run(fs, ops, |ops|).fs
    case Stopped(course) => Limp(fs, ops, course, if |course| <= |ops| then |course| else |ops|)
    case Limping(course) => Limp(fs, ops, course, if |course| <= |ops| then |course| else |ops|)
  }

  /** No error so far that the code returns. */
  predicate LimpOk(fs: Fs, ops: seq<LayerOp>, course: seq<Go>, n: nat)
    requires n <= |ops| && n <= |course|
  {
    n == 0 || (LimpOk(fs, ops, course, n - 1) &&
               match course[n - 1]
               case Through => ApplyOp(Limp(fs, ops, course, n - 1), ops[n - 1]).ok
               case Cut(_) => Swallows(ops[n - 1]))
  }

  /** What the code reports of the attempt, if it comes to report anything. */
  predicate Reports(fs: Fs, ops: seq<LayerOp>, a: Attempt) {
    match a
    case Complete => Run(fs, ops, |ops|).ok
    case Stopped(_) => false
    case Limping(course) => |course| >= |ops| && LimpOk(fs, ops, course, |ops|)
  }

  function TryAll(fs: Fs, ops: seq<LayerOp>, attempts: seq<Attempt>): Fs {
    if attempts == [] then fs
    else Try(TryAll(fs, ops, attempts[..|attempts| - 1]), ops, attempts[|attempts| - 1])
  }

  /** A whole entry keeps a tree sound whatever the files on it hold. */
  lemma EntrySound(ops: seq<LayerOp>, roots: map<Path, nat>, touched: set<Path>, n: nat, fs: Fs)
    requires n < |ops| && Fits(roots, touched, n, ops[n]) && Sound(ops, roots, fs)
    ensures Sound(ops, roots, PlainOp(fs, ops[n]).fs)
  {
    match ops[n]
    case Whiteout(p) =>
      RemoveAllTakesAway(fs.nodes, p);
      TakenAwaySound(ops, roots, fs, RemoveAll(fs.nodes, p));
    case MkDir(p) => DirsSound(ops, roots, fs, p);
    case Write(p, data) =>
      DirsSound(ops, roots, fs, Parent(p));
      OpenSound(ops, roots, fs.(nodes := WithDirs(fs.nodes, Parent(p))), p, data);
    case SymLink(p, text) =>
      RoomSound(ops, roots, fs, p);
      PutSound(ops, roots, fs.(nodes := Remove(PlainDirs(fs.nodes, Parent(p)), p)), p, Sym(text));
    case HardLink(p, src) =>
      RoomSound(ops, roots, fs, p);
      LinkSound(ops, roots, fs.(nodes := Remove(PlainDirs(fs.nodes, Parent(p)), p)), p, src);
    case _ =>
  }

  lemma RoomSound(ops: seq<LayerOp>, roots: map<Path, nat>, fs: Fs, p: Path)
    requires Sound(ops, roots, fs) && p != [] && p in roots
    requires forall q :: q <= p && q != p ==> q !in roots
    ensures Sound(ops, roots, fs.(nodes := Remove(PlainDirs(fs.nodes, Parent(p)), p)))
    ensures Room(Remove(PlainDirs(fs.nodes, Parent(p)), p), p)
  {
    DirsSound(ops, roots, fs, Parent(p));
    var made := fs.(nodes := WithDirs(fs.nodes, Parent(p)));
    RemoveTakesAway(made.nodes, p);
    TakenAwaySound(ops, roots, made, Remove(made.nodes, p));
    if p in made.nodes {
      assert RightKind(ops, roots, p, made.nodes[p]);
    }
  }

  lemma LinkSound(ops: seq<LayerOp>, roots: map<Path, nat>, room: Fs, p: Path, src: Path)
    requires Sound(ops, roots, room) && Room(room.nodes, p)
    requires p in roots && src in roots && roots[p] == roots[src]
    ensures src in room.nodes ==>
      room.nodes[src] != Dir && Sound(ops, roots, room.(nodes := room.nodes[p := room.nodes[src]]))
  {
    if src in room.nodes {
      assert RightKind(ops, roots, src, room.nodes[src]);
      PutSound(ops, roots, room, p, room.nodes[src]);
    }
  }

  lemma GoOnKeepsLeftover(ops: seq<LayerOp>, n: nat, fs: Fs, go: Go)
    requires WellFormed(ops) && Leftover(ops, fs) && n < |ops|
    ensures Leftover(ops, GoOn(fs, ops[n], go))
    ensures GoOn(fs, ops[n], go) ==
      match go
      case Through => PlainOp(fs, ops[n]).fs
      case Cut(tear) => PlainTorn(fs, ops[n], tear)
  {
    hide WellFormed, Fits, Sound, ApplyOp, PlainOp, Torn, PlainTorn, Roots, Touched, Adding, Straight;
    var roots, touched := Roots(ops, |ops|), Touched(ops, n);
    EntryFits(ops, n);
    EntryTouches(ops, n);
    EntryIsStraight(ops, roots, touched, n, fs);
    SoundIsTree(ops, roots, fs);
    match go
    case Through =>
      OpIsPlain(fs, ops[n]);
      EntrySound(ops, roots, touched, n, fs);
      PlainOpKeys(fs, ops[n]);
    case Cut(tear) =>
      TornIsPlain(fs, ops[n], tear);
      TornSound(ops, roots, touched, n, fs, tear);
      TornKeys(fs, ops[n], tear);
  }

  lemma SoundIsTree(ops: seq<LayerOp>, roots: map<Path, nat>, fs: Fs)
    requires Sound(ops, roots, fs)
    ensures Tree(fs)
  {
  }

  lemma {:induction false} LimpKeepsLeftover(ops: seq<LayerOp>, fs: Fs, course: seq<Go>, n: nat)
    requires WellFormed(ops) && Leftover(ops, fs) && n <= |ops| && n <= |course|
    ensures Leftover(ops, Limp(fs, ops, course, n))
  {
    hide WellFormed, Leftover, GoOn;
    if n > 0 {
      LimpKeepsLeftover(ops, fs, course, n - 1);
      GoOnKeepsLeftover(ops, n - 1, Limp(fs, ops, course, n - 1), course[n - 1]);
    }
  }

  /** Nothing was cut short. */
  predicate NoErrors(a: Attempt) {
    match a
    case Complete => true
    case Stopped(course) => forall i :: 0 <= i < |course| ==> course[i].Through?
    case Limping(course) => forall i :: 0 <= i < |course| ==> course[i].Through?
  }

  lemma {:induction false} ThroughIsRun(fs: Fs, ops: seq<LayerOp>, course: seq<Go>, n: nat)
    requires n <= |ops| && n <= |course| && forall i :: 0 <= i < n ==> course[i] == Through
    ensures LimpOk(fs, ops, course, n) ==> Run(fs, ops, n).ok
    ensures Run(fs, ops, n).ok ==> Limp(fs, ops, course, n) == Run(fs, ops, n).fs
  {
    hide ApplyOp;
    if n > 0 {
      ThroughIsRun(fs, ops, course, n - 1);
    }
  }

  /** An attempt that the code reports as a success, and that met no error it ignored, is a full pass. */
  lemma ReportedIsPass(fs: Fs, ops: seq<LayerOp>, a: Attempt)
    requires Reports(fs, ops, a) && NoErrors(a)
    ensures Run(fs, ops, |ops|).ok && Try(fs, ops, a) == Run(fs, ops, |ops|).fs
  {
    if a.Limping? {
      ThroughIsRun(fs, ops, a.course, |ops|);
    }
  }

  lemma {:induction false} TryKeepsLeftover(ops: seq<LayerOp>, fs: Fs, a: Attempt)
    requires WellFormed(ops) && Leftover(ops, fs)
    ensures Leftover(ops, Try(fs, ops, a))
  {
    match a
    case Complete => Pass(ops, |ops|, fs);
    case Stopped(course) => LimpKeepsLeftover(ops, fs, course, if |course| <= |ops| then |course| else |ops|);
    case Limping(course) => LimpKeepsLeftover(ops, fs, course, if |course| <= |ops| then |course| else |ops|);
  }

  lemma {:induction false} AttemptsLeaveLeftover(ops: seq<LayerOp>, fs: Fs, attempts: seq<Attempt>)
    requires WellFormed(ops) && Leftover(ops, fs)
    ensures Leftover(ops, TryAll(fs, ops, attempts))
  {
    if attempts != [] {
      AttemptsLeaveLeftover(ops, fs, attempts[..|attempts| - 1]);
      TryKeepsLeftover(ops, TryAll(fs, ops, attempts[..|attempts| - 1]), attempts[|attempts| - 1]);
    }
  }

  // ---- a pass over leftovers ends where a fresh one does

  /** Two trees that nothing but inode numbers tells apart: paths, types, texts, contents and which names share. */
  ghost predicate SameTree(a: Fs, b: Fs) {
    && ViewOf(a) == ViewOf(b)
    && forall p, q ::
         p in a.nodes && q in a.nodes && p in b.nodes && q in b.nodes && a.nodes[p].File? && a.nodes[q].File? ==>
         (a.nodes[p] == a.nodes[q] <==> b.nodes[p] == b.nodes[q])
  }

  lemma {:induction false} PassDetermines(ops: seq<LayerOp>, a: Fs, b: Fs)
    requires Leftover(ops, a) && Reached(ops, |ops|, a)
    requires Leftover(ops, b) && Reached(ops, |ops|, b)
    ensures SameTree(a, b) && a.nodes.Keys == Present(ops, |ops|)
  {
    var roots, touched, present := Roots(ops, |ops|), Touched(ops, |ops|), Present(ops, |ops|);
    SameKeys(touched, present, a.nodes);
    SameKeys(touched, present, b.nodes);
    forall p | p in present
      ensures Shown(a, p) == Shown(b, p)
    {
      SameShown(ops, roots, present, a, b, p);
    }
    forall p, q | p in present && q in present && a.nodes[p].File? && a.nodes[q].File?
      ensures a.nodes[p] == a.nodes[q] <==> b.nodes[p] == b.nodes[q]
    {
      SameSharing(ops, roots, present, a, b, p, q);
    }
  }

  lemma SameKeys(touched: set<Path>, present: set<Path>, nodes: map<Path, Node>)
    requires Exact(touched, present, nodes) && nodes.Keys <= touched
    ensures nodes.Keys == present
  {
  }

  lemma SameShown(ops: seq<LayerOp>, roots: map<Path, nat>, present: set<Path>, a: Fs, b: Fs, p: Path)
    requires p in present && p in a.nodes && p in b.nodes
    requires Kinds(ops, roots, a.nodes) && Contents(ops, roots, present, a)
    requires Kinds(ops, roots, b.nodes) && Contents(ops, roots, present, b)
    ensures Shown(a, p) == Shown(b, p)
  {
    assert RightKind(ops, roots, p, a.nodes[p]) && RightKind(ops, roots, p, b.nodes[p]);
    assert RightContent(ops, roots, p, a) && RightContent(ops, roots, p, b);
  }

  lemma SameSharing(ops: seq<LayerOp>, roots: map<Path, nat>, present: set<Path>, a: Fs, b: Fs, p: Path, q: Path)
    requires p in present && q in present && p in a.nodes && q in a.nodes && p in b.nodes && q in b.nodes
    requires a.nodes[p].File? && a.nodes[q].File?
    requires Kinds(ops, roots, a.nodes) && Sharing(roots, a.nodes) && Linked(roots, present, a.nodes)
    requires Kinds(ops, roots, b.nodes) && Sharing(roots, b.nodes) && Linked(roots, present, b.nodes)
    ensures a.nodes[p] == a.nodes[q] <==> b.nodes[p] == b.nodes[q]
  {
    assert RightKind(ops, roots, p, a.nodes[p]) && RightKind(ops, roots, q, a.nodes[q]);
    assert RightKind(ops, roots, p, b.nodes[p]) && RightKind(ops, roots, q, b.nodes[q]);
  }

  /**
   However many attempts at a layer went wrong, and wherever they did, the next full pass
   succeeds and ends in the tree of a pass over an empty directory.
   */
  lemma {:induction false} Resumes(ops: seq<LayerOp>, attempts: seq<Attempt>)
    requires WellFormed(ops)
    ensures Run(TryAll(EMPTY, ops, attempts), ops, |ops|).ok && Run(EMPTY, ops, |ops|).ok
    ensures SameTree(Run(TryAll(EMPTY, ops, attempts), ops, |ops|).fs, Run(EMPTY, ops, |ops|).fs)
    ensures Run(EMPTY, ops, |ops|).fs.nodes.Keys == Present(ops, |ops|)
  {
    EmptyIsLeftover(ops);
    AttemptsLeaveLeftover(ops, EMPTY, attempts);
    Pass(ops, |ops|, TryAll(EMPTY, ops, attempts));
    Pass(ops, |ops|, EMPTY);
    PassDetermines(ops, Run(TryAll(EMPTY, ops, attempts), ops, |ops|).fs, Run(EMPTY, ops, |ops|).fs);
    PassDetermines(ops, Run(EMPTY, ops, |ops|).fs, Run(EMPTY, ops, |ops|).fs);
  }
}
