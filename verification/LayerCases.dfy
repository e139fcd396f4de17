// Layers outside the conditions of the theorems, each with what goes wrong.

module LayerCases {
  import opened Strings
  import opened Paths
  import opened LayerOps
  import opened LayerTree
  import opened LinkedTree
  import opened LinkFree
  import opened LayerDir
  import opened LayerShape
  import opened OverlayView
  import opened OciChangeset
  import opened LayerContent
  import opened StackedForm
  import opened Resurfacing

  lemma RunOne(fs: Fs, ops: seq<LayerOp>)
    requires |ops| >= 1
    ensures Run(fs, ops, 1) == ApplyOp(fs, ops[0])
  {
    assert Run(fs, ops, 0) == Applied(fs, true);
  }

  lemma RunNext(fs: Fs, ops: seq<LayerOp>, n: nat)
    requires n < |ops| && Run(fs, ops, n).ok
    ensures Run(fs, ops, n + 1) == ApplyOp(Run(fs, ops, n).fs, ops[n])
  {
  }

  /** One name twice: a directory, whited out, then a file. The first pass succeeds, and every later one fails. */
  lemma {:induction false} RepeatedNameBreaksResume(name: string, data: Bytes)
    ensures var ops := [MkDir([name]), Whiteout([name]), Write([name], data)];
            Run(EMPTY, ops, 3).ok && !Run(Run(EMPTY, ops, 3).fs, ops, 3).ok
  {
    hide ApplyOp, RemoveAll;
    var p: Path := [name];
    var ops := [MkDir(p), Whiteout(p), Write(p, data)];
    EmptyTree();
    RunOne(EMPTY, ops);
    MkdirTop(EMPTY, p);
    var made := Run(EMPTY, ops, 1).fs;
    RunNext(EMPTY, ops, 1);
    WipeTop(made, p);
    var gone := Run(EMPTY, ops, 2).fs;
    assert p !in gone.nodes;
    RunNext(EMPTY, ops, 2);
    WriteNew(gone, p, data);
    var end := Run(EMPTY, ops, 3).fs;
    assert end.nodes[p].File?;
    RunOne(end, ops);
    MkdirTop(end, p);
    assert p in Prefixes(p);
    assert !Run(end, ops, 2).ok;
  }

  /** A file, whited out, then a hard link of another file: the second pass truncates the inode they now share. */
  lemma {:induction false} RelinkedNameBreaksResume(a: string, b: string, x: Bytes, y: Bytes)
    requires a != b
    ensures var ops := [Write([a], x), Write([b], y), Whiteout([b]), HardLink([b], [a])];
            var once := Run(EMPTY, ops, 4);
            var twice := Run(once.fs, ops, 4);
            && once.ok && [a] in once.fs.nodes && Shown(once.fs, [a]) == VFile(x)
            && twice.ok && [a] in twice.fs.nodes && Shown(twice.fs, [a]) == VFile(y)
  {
    var p: Path, q: Path := [a], [b];
    var ops := [Write(p, x), Write(q, y), Whiteout(q), HardLink(q, p)];
    hide WithDirs, RemoveAll, ApplyOp, Tree;
    OtherName(b, a);
    EmptyTree();
    var nodes := map[[] := Dir, p := File(0)];
    RunOne(EMPTY, ops);
    WriteNew(EMPTY, p, x);
    var one := Fs(nodes, map[0 := x], 1);
    RunNext(EMPTY, ops, 1);
    WriteNew(one, q, y);
    var two := Fs(nodes[q := File(1)], map[0 := x, 1 := y], 2);
    RunNext(EMPTY, ops, 2);
    WipeTop(two, q);
    assert RemoveAll(two.nodes, q) == nodes;
    var three := two.(nodes := nodes);
    RunNext(EMPTY, ops, 3);
    Relink(three, q, p);
    var once := three.(nodes := nodes[q := File(0)]);
    assert Run(EMPTY, ops, 4) == Applied(once, true);
    RunOne(once, ops);
    WriteAgain(once, p, x);
    var again := once.(data := once.data[0 := x]);
    RunNext(once, ops, 1);
    WriteAgain(again, q, y);
    var shared := once.(data := once.data[0 := y]);
    assert Run(once, ops, 2) == Applied(shared, true);
    RunNext(once, ops, 2);
    WipeTop(shared, q);
    assert RemoveAll(shared.nodes, q) == nodes;
    RunNext(once, ops, 3);
    Relink(shared.(nodes := nodes), q, p);
  }

  // ---- resumption fails for every layer of this kind

  ghost predicate NoLinks(nodes: map<Path, Node>) { forall q :: q in nodes ==> !nodes[q].Sym? }

  /** A layer of files, directories, hard links and whiteouts. */
  ghost predicate Linkless(ops: seq<LayerOp>) {
    forall i :: 0 <= i < |ops| ==> !ops[i].SymLink? && (ops[i].Whiteout? ==> ops[i].p != [])
  }

  lemma LinklessIsPlain(fs: Fs, op: LayerOp)
    requires Tree(fs) && NoLinks(fs.nodes) && !op.SymLink? && (op.Whiteout? ==> op.p != [])
    ensures ApplyOp(fs, op) == PlainOp(fs, op)
    ensures Tree(ApplyOp(fs, op).fs) && NoLinks(ApplyOp(fs, op).fs.nodes)
  {
    hide ApplyOp, PlainOp, Tree;
    assert Straight(fs.nodes, op);
    OpIsPlain(fs, op);
    ApplyTree(fs, op);
    NoLinkMade(fs, op);
  }

  lemma NoLinkMade(fs: Fs, op: LayerOp)
    requires NoLinks(fs.nodes) && !op.SymLink?
    ensures NoLinks(PlainOp(fs, op).fs.nodes)
  {
  }

  lemma {:induction false} LinklessRun(fs: Fs, ops: seq<LayerOp>, n: nat)
    requires Tree(fs) && NoLinks(fs.nodes) && Linkless(ops) && n <= |ops|
    ensures Tree(Run(fs, ops, n).fs) && NoLinks(Run(fs, ops, n).fs.nodes)
  {
    hide ApplyOp, Tree, NoLinks;
    if n > 0 {
      LinklessRun(fs, ops, n - 1);
      LinklessIsPlain(Run(fs, ops, n - 1).fs, ops[n - 1]);
    }
  }

  /** An entry that neither whites the file out nor links over it leaves a file there. */
  lemma FileStays(fs: Fs, op: LayerOp, p: Path)
    requires Tree(fs) && p in fs.nodes && fs.nodes[p].File?
    requires !(op.Whiteout? && op.p <= p) && !(op.HardLink? && op.p == p) && !op.SymLink?
    ensures p in PlainOp(fs, op).fs.nodes && PlainOp(fs, op).fs.nodes[p].File?
  {
  }

  /** The entry needs a directory where p is. */
  predicate WantsDirAt(op: LayerOp, p: Path) { (op.MkDir? && p <= op.p) || (op.Write? && p <= op.p && p != op.p) }

  lemma WantingFails(fs: Fs, op: LayerOp, p: Path)
    requires p in fs.nodes && fs.nodes[p].File? && WantsDirAt(op, p)
    ensures !PlainOp(fs, op).ok
  {
    if op.MkDir? {
      assert p in Prefixes(op.p);
    } else {
      assert op.p != [] && p <= Parent(op.p);
      assert p in Prefixes(Parent(op.p));
    }
  }

  lemma {:induction false} FileStaysSoFar(fs: Fs, ops: seq<LayerOp>, n: nat, p: Path)
    requires Tree(fs) && NoLinks(fs.nodes) && Linkless(ops) && n <= |ops|
    requires p in fs.nodes && fs.nodes[p].File?
    requires forall k :: 0 <= k < n ==> !(ops[k].Whiteout? && ops[k].p <= p) && !(ops[k].HardLink? && ops[k].p == p)
    ensures p in Run(fs, ops, n).fs.nodes && Run(fs, ops, n).fs.nodes[p].File?
  {
    hide ApplyOp, PlainOp, Tree, NoLinks;
    if n > 0 {
      FileStaysSoFar(fs, ops, n - 1, p);
      LinklessRun(fs, ops, n - 1);
      LinklessIsPlain(Run(fs, ops, n - 1).fs, ops[n - 1]);
      FileStays(Run(fs, ops, n - 1).fs, ops[n - 1], p);
    }
  }

  /**
   Any layer without symbolic links whose pass leaves a file at p, although an entry wants
   a directory there and no entry before that one whites p out or links over it: every
   later pass fails.
   */
  lemma {:induction false} FileBlocksResume(ops: seq<LayerOp>, i: nat, p: Path)
    requires Linkless(ops) && i < |ops| && WantsDirAt(ops[i], p)
    requires forall k :: 0 <= k < i ==> !(ops[k].Whiteout? && ops[k].p <= p) && !(ops[k].HardLink? && ops[k].p == p)
    requires var end := Run(EMPTY, ops, |ops|).fs; p in end.nodes && end.nodes[p].File?
    ensures !Run(Run(EMPTY, ops, |ops|).fs, ops, |ops|).ok
  {
    hide ApplyOp, PlainOp, Tree, NoLinks;
    var end := Run(EMPTY, ops, |ops|).fs;
    EmptyTree();
    LinklessRun(EMPTY, ops, |ops|);
    LinklessRun(end, ops, i);
    FileStaysSoFar(end, ops, i, p);
    var before := Run(end, ops, i).fs;
    LinklessIsPlain(before, ops[i]);
    WantingFails(before, ops[i], p);
    assert !Run(end, ops, i + 1).ok;
    StopsThere(end, ops, i + 1);
  }

  lemma OtherName(a: string, b: string)
    requires a != b
    ensures !([a] <= [b])
  {
    assert [a][0] == a && [b][0] == b;
  }

  lemma WithRoot(nodes: map<Path, Node>)
    requires [] in nodes && nodes[[]] == Dir
    ensures WithDirs(nodes, []) == nodes && !Blocked(nodes, [])
  {
  }

  /** An entry at the top of the tree meets no link, unless the name itself is one. */
  lemma TopIsPlain(fs: Fs, op: LayerOp)
    requires Tree(fs) && (Adds(op) || op.Whiteout?) && |op.p| == 1 && (op.HardLink? ==> |op.src| == 1)
    requires op.p in fs.nodes && fs.nodes[op.p].Sym? ==> !op.MkDir? && !op.Write?
    ensures ApplyOp(fs, op) == PlainOp(fs, op) && Tree(ApplyOp(fs, op).fs)
  {
    assert Straight(fs.nodes, op);
    OpIsPlain(fs, op);
    ApplyTree(fs, op);
  }

  lemma WriteNew(fs: Fs, p: Path, data: Bytes)
    requires Tree(fs) && |p| == 1 && p !in fs.nodes
    ensures ApplyOp(fs, Write(p, data)) ==
      Applied(Fs(fs.nodes[p := File(fs.next)], fs.data[fs.next := data], fs.next + 1), true)
    ensures Tree(ApplyOp(fs, Write(p, data)).fs)
  {
    TopIsPlain(fs, Write(p, data));
    WithRoot(fs.nodes);
    assert Parent(p) == [];
  }

  lemma WriteAgain(fs: Fs, p: Path, data: Bytes)
    requires Tree(fs) && |p| == 1 && p in fs.nodes && fs.nodes[p].File?
    ensures ApplyOp(fs, Write(p, data)) == Applied(fs.(data := fs.data[fs.nodes[p].ino := data]), true)
    ensures Tree(ApplyOp(fs, Write(p, data)).fs)
  {
    TopIsPlain(fs, Write(p, data));
    WithRoot(fs.nodes);
    assert Parent(p) == [];
  }

  lemma Relink(fs: Fs, p: Path, src: Path)
    requires Tree(fs) && |p| == 1 && |src| == 1 && p !in fs.nodes && src in fs.nodes && fs.nodes[src].File?
    ensures ApplyOp(fs, HardLink(p, src)) == Applied(fs.(nodes := fs.nodes[p := fs.nodes[src]]), true)
    ensures Tree(ApplyOp(fs, HardLink(p, src)).fs)
  {
    TopIsPlain(fs, HardLink(p, src));
    WithRoot(fs.nodes);
    assert Parent(p) == [];
  }

  lemma WipeTop(fs: Fs, p: Path)
    requires Tree(fs) && |p| == 1
    ensures ApplyOp(fs, Whiteout(p)) == Applied(fs.(nodes := RemoveAll(fs.nodes, p)), true)
    ensures Tree(ApplyOp(fs, Whiteout(p)).fs)
  {
    TopIsPlain(fs, Whiteout(p));
  }

  lemma MkdirTop(fs: Fs, p: Path)
    requires Tree(fs) && |p| == 1 && (p in fs.nodes ==> !fs.nodes[p].Sym?)
    ensures ApplyOp(fs, MkDir(p)) == Applied(fs.(nodes := PlainDirs(fs.nodes, p)), !Blocked(fs.nodes, p))
    ensures Tree(ApplyOp(fs, MkDir(p)).fs)
  {
    TopIsPlain(fs, MkDir(p));
  }

  lemma EmptyTree()
    ensures Tree(EMPTY) && NoLinks(EMPTY.nodes)
  {
  }

  // ---- through a symbolic link of the same layer

  /** A directory b with a file x in it, and a link a to the directory. */
  ghost predicate LinkedDir(nodes: map<Path, Node>, a: string, b: string, x: string) {
    && [a] in nodes && nodes[[a]] == Sym(b)
    && [b] in nodes && nodes[[b]] == Dir
    && [b, x] in nodes && nodes[[b, x]].File?
  }

  lemma ThroughLink(nodes: map<Path, Node>, a: string, b: string, x: string)
    requires PlainName(b) && [a] in nodes && nodes[[a]] == Sym(b) && [b] in nodes && nodes[[b]] == Dir
    ensures Resolve(nodes, [a, x], false) == At([b, x])
  {
    SplitNone(b, '/');
    assert [b][1..] == [];
    assert HopsOf([b]) == [HopOf(b)] + HopsOf([]);
    assert TextHops(b) == [Name(b)];
    assert [a, x][1..] == [x] && [x][1..] == [];
    assert Steps([x]) == [Name(x)] + Steps([]);
    assert Steps([a, x]) == [Name(a)] + Steps([x]) == [Name(a), Name(x)];
    assert [Name(a), Name(x)][1..] == [Name(x)];
    assert [Name(b)] + [Name(x)] == [Name(b), Name(x)] && [Name(b), Name(x)][1..] == [Name(x)];
    assert [] + [a] == [a] && [] + [b] == [b] && [b] + [x] == [b, x];
    assert Find(nodes, [b], [Name(x)], false, MAX_LINKS - 1) == At([b, x]);
    assert Find(nodes, [], [Name(b), Name(x)], false, MAX_LINKS - 1) == At([b, x]);
    assert Find(nodes, [], [Name(a), Name(x)], false, MAX_LINKS) == At([b, x]);
  }

  lemma OverTwo(nodes: map<Path, Node>, b: string, x: string)
    requires [] in nodes && nodes[[]] == Dir && ([b] in nodes ==> !nodes[[b]].Sym?)
    ensures Parent([b, x]) == [b] && Parent([b]) == []
    ensures NoLinkAbove(nodes, [b, x])
  {
    forall q: Path | q <= [b, x] && q != [b, x] && q in nodes
      ensures !nodes[q].Sym?
    {
      assert q == [b, x][..|q|];
      assert q == [] || q == [b];
    }
  }

  /** The only changes are those of writing b/x. */
  predicate Written(before: Fs, after: Fs, b: string, x: string) {
    && [b] in after.nodes && after.nodes[[b]] == Dir
    && [b, x] in after.nodes && after.nodes[[b, x]].File?
    && after.nodes.Keys == before.nodes.Keys + {[b], [b, x]}
    && forall q :: q in before.nodes && q != [b, x] ==> after.nodes[q] == before.nodes[q]
  }

  lemma PlainWriteBelow(fs: Fs, b: string, x: string, data: Bytes)
    requires Tree(fs) && ([b] in fs.nodes ==> fs.nodes[[b]] == Dir) && ([b, x] in fs.nodes ==> fs.nodes[[b, x]].File?)
    ensures PlainOp(fs, Write([b, x], data)).ok && Written(fs, PlainOp(fs, Write([b, x], data)).fs, b, x)
  {
    assert Parent([b, x]) == [b];
    forall q | q in Prefixes([b])
      ensures q == [] || q == [b]
    {
      assert q == [b][..|q|];
    }
    var made := WithDirs(fs.nodes, [b]);
    forall q
      ensures q in made <==> q in fs.nodes || q == [b]
    {
      assert q <= [b] <==> q in Prefixes([b]);
      assert [b] in Prefixes([b]);
    }
  }

  /** Writing b/x, where b is a directory or missing and b/x a file or missing. */
  lemma WriteBelow(fs: Fs, b: string, x: string, data: Bytes)
    requires Tree(fs) && ([b] in fs.nodes ==> fs.nodes[[b]] == Dir) && ([b, x] in fs.nodes ==> fs.nodes[[b, x]].File?)
    ensures ApplyOp(fs, Write([b, x], data)).ok && Written(fs, ApplyOp(fs, Write([b, x], data)).fs, b, x)
    ensures Tree(ApplyOp(fs, Write([b, x], data)).fs)
  {
    hide ApplyOp, PlainOp, Written;
    OverTwo(fs.nodes, b, x);
    OpIsPlain(fs, Write([b, x], data));
    ApplyTree(fs, Write([b, x], data));
    PlainWriteBelow(fs, b, x, data);
  }

  /** Linking a to b by name. */
  lemma LinkTop(fs: Fs, a: string, b: string)
    requires Tree(fs) && ([a] in fs.nodes ==> fs.nodes[[a]].Sym?)
    ensures ApplyOp(fs, SymLink([a], b)) == Applied(fs.(nodes := fs.nodes[[a] := Sym(b)]), true)
    ensures Tree(ApplyOp(fs, SymLink([a], b)).fs)
  {
    hide ApplyOp, Tree;
    RootThere(fs);
    TopIsPlain(fs, SymLink([a], b));
    WithRoot(fs.nodes);
    assert Parent([a]) == [];
    Replaced(fs.nodes, [a], Sym(b));
  }

  lemma RootThere(fs: Fs)
    requires Tree(fs)
    ensures [] in fs.nodes && fs.nodes[[]] == Dir
  {
  }

  lemma Replaced(nodes: map<Path, Node>, p: Path, node: Node)
    requires p in nodes ==> nodes[p].Sym?
    ensures Remove(nodes, p)[p := node] == nodes[p := node] && p !in Remove(nodes, p)
    ensures forall q :: q in nodes && q != p ==> q in Remove(nodes, p) && Remove(nodes, p)[q] == nodes[q]
  {
  }

  /** Whiting out a/x behind the link takes b/x away. */
  lemma WipeBehind(fs: Fs, a: string, b: string, x: string)
    requires PlainName(b) && Tree(fs) && LinkedDir(fs.nodes, a, b, x)
    ensures ApplyOp(fs, Whiteout([a, x])) == Applied(fs.(nodes := RemoveAll(fs.nodes, [b, x])), true)
    ensures Tree(ApplyOp(fs, Whiteout([a, x])).fs)
    ensures [b, x] !in RemoveAll(fs.nodes, [b, x])
  {
    ThroughLink(fs.nodes, a, b, x);
    ApplyTree(fs, Whiteout([a, x]));
  }

  lemma WipeNothing(fs: Fs, a: string, x: string)
    requires Tree(fs) && [a] !in fs.nodes
    ensures ApplyOp(fs, Whiteout([a, x])) == Applied(fs, true)
  {
    OverTwo(fs.nodes, a, x);
    assert Straight(fs.nodes, Whiteout([a, x]));
    OpIsPlain(fs, Whiteout([a, x]));
    assert [a, x] !in fs.nodes;
    forall q | q in fs.nodes
      ensures !([a, x] <= q)
    {
      if [a, x] <= q {
        assert [a] <= q && [a] != q;
        TreeAbove(fs, q, [a]);
      }
    }
    assert RemoveAll(fs.nodes, [a, x]) == fs.nodes;
  }

  /**
   A whiteout below a link of the same layer: the first pass makes the link last and keeps
   the file, and the second one meets the link and removes the file behind it. Both report
   success.
   */
  lemma {:induction false} WhiteoutThroughLinkBreaksResume(a: string, b: string, x: string, data: Bytes)
    requires PlainName(b) && a != b
    ensures var ops := [Write([b, x], data), Whiteout([a, x]), SymLink([a], b)];
            var once := Run(EMPTY, ops, 3);
            var twice := Run(once.fs, ops, 3);
            && once.ok && [b, x] in once.fs.nodes
            && twice.ok && [b, x] !in twice.fs.nodes
  {
    hide ApplyOp, RemoveAll, Tree;
    var ops := [Write([b, x], data), Whiteout([a, x]), SymLink([a], b)];
    assert [a][0] != [b][0];
    EmptyTree();
    RunOne(EMPTY, ops);
    WriteBelow(EMPTY, b, x, data);
    var one := Run(EMPTY, ops, 1).fs;
    RunNext(EMPTY, ops, 1);
    WipeNothing(one, a, x);
    RunNext(EMPTY, ops, 2);
    LinkTop(one, a, b);
    var once := Run(EMPTY, ops, 3).fs;
    RunOne(once, ops);
    WriteBelow(once, b, x, data);
    var again := Run(once, ops, 1).fs;
    RunNext(once, ops, 1);
    WipeBehind(again, a, b, x);
    RunNext(once, ops, 2);
    LinkStays(again, a, b, x);
    LinkTop(Run(once, ops, 2).fs, a, b);
  }

  lemma LinkStays(fs: Fs, a: string, b: string, x: string)
    requires a != b && [a] in fs.nodes && fs.nodes[[a]] == Sym(b)
    ensures [a] in RemoveAll(fs.nodes, [b, x]) && RemoveAll(fs.nodes, [b, x])[[a]] == Sym(b)
  {
    assert !([b, x] <= [a]);
  }

  /** With the link first, the first pass already loses a file that no whiteout of the layer names. */
  lemma {:induction false} WhiteoutThroughLinkLosesFile(a: string, b: string, x: string, data: Bytes)
    requires PlainName(b) && a != b
    ensures var ops := [SymLink([a], b), Write([b, x], data), Whiteout([a, x])];
            Run(EMPTY, ops, 3).ok && [b, x] in Additions(ops) && [b, x] !in Extracted(ops)
  {
    hide ApplyOp, RemoveAll, Tree;
    var ops := [SymLink([a], b), Write([b, x], data), Whiteout([a, x])];
    assert [a][0] != [b][0];
    EmptyTree();
    RunOne(EMPTY, ops);
    LinkTop(EMPTY, a, b);
    var one := Run(EMPTY, ops, 1).fs;
    RunNext(EMPTY, ops, 1);
    WriteBelow(one, b, x, data);
    RunNext(EMPTY, ops, 2);
    WipeBehind(Run(EMPTY, ops, 2).fs, a, b, x);
    assert AddAll(BARE, ops, 2) == AddEntry(AddAll(BARE, ops, 1), ops[1]);
    assert AddAll(BARE, ops, 3) == AddEntry(AddAll(BARE, ops, 2), ops[2]);
  }

  /** A hard link whose source is named through a link of the layer is made, though no entry has that path. */
  lemma {:induction false} LinkThroughLinkIsKept(a: string, b: string, c: string, x: string, data: Bytes)
    requires PlainName(b) && a != b && c != a && c != b
    ensures var ops := [Write([b, x], data), SymLink([a], b), HardLink([c], [a, x])];
            [c] in Extracted(ops) && !LinksBack(ops)
  {
    hide ApplyOp, Tree;
    var ops := [Write([b, x], data), SymLink([a], b), HardLink([c], [a, x])];
    assert [a][0] != [b][0] && [c][0] != [b][0] && [c][0] != [a][0];
    EmptyTree();
    RunOne(EMPTY, ops);
    WriteBelow(EMPTY, b, x, data);
    var one := Run(EMPTY, ops, 1).fs;
    RunNext(EMPTY, ops, 1);
    LinkTop(one, a, b);
    var two := Run(EMPTY, ops, 2).fs;
    RunNext(EMPTY, ops, 2);
    LinkBehind(two, a, b, c, x);
    assert !LeafBefore(ops, 2, [a, x]);
  }

  lemma LinkBehind(fs: Fs, a: string, b: string, c: string, x: string)
    requires PlainName(b) && Tree(fs) && LinkedDir(fs.nodes, a, b, x) && c != a && c != b && [c] !in fs.nodes
    ensures [c] in ApplyOp(fs, HardLink([c], [a, x])).fs.nodes
  {
    hide Resolve;
    var p: Path := [c];
    assert Parent(p) == [] && [b, x] != p;
    ClearedPlain(fs, p);
    WithRoot(fs.nodes);
    assert ClearedName(fs.nodes, p) == fs.nodes;
    ThroughLink(fs.nodes, a, b, x);
    ResolvePlain(fs, p, false);
  }

  /** A whiteout after an entry it names takes the layer's own file away, which the specification keeps. */
  lemma {:induction false} LateWhiteoutLosesFile(name: string, data: Bytes)
    ensures var ops := [Write([name], data), Whiteout([name])];
            WellFormed(ops) && [name] in Additions(ops) && [name] !in Extracted(ops)
  {
    var p: Path := [name];
    var ops := [Write(p, data), Whiteout(p)];
    hide ApplyOp, Tree, RemoveAll;
    assert forall i :: 0 <= i < |ops| && IsLeaf(ops[i]) ==> i == 0;
    EmptyTree();
    RunOne(EMPTY, ops);
    WriteNew(EMPTY, p, data);
    RunNext(EMPTY, ops, 1);
    WipeTop(Run(EMPTY, ops, 1).fs, p);
    assert AddAll(BARE, ops, 0) == BARE;
    assert AddAll(BARE, ops, 1) == PutLeaf(BARE, p, VFile(data));
    assert AddAll(BARE, ops, 2) == AddAll(BARE, ops, 1);
  }

  /** A hard link to a file of a lower layer: the specification has the link, the extracted layer silently does not. */
  lemma {:induction false} LinkAcrossLayersIsLost(low: View, link: string, target: string)
    requires link != target && [target] in low && low[[target]] != VDir
    ensures var ops := [HardLink([link], [target])];
            && Run(EMPTY, ops, 1).ok
            && [link] !in Extracted(ops)
            && [link] in ApplyChangeset(low, ops)
  {
    hide ApplyOp, Tree;
    var ops := [HardLink([link], [target])];
    EmptyTree();
    RunOne(EMPTY, ops);
    TopIsPlain(EMPTY, ops[0]);
    assert Parent([link]) == [];
    assert !Marked(ops, [target]);
    assert AddAll(Strip(low, ops), ops, 0) == Strip(low, ops);
    assert AddAll(Strip(low, ops), ops, 1) == AddEntry(Strip(low, ops), ops[0]);
  }

  lemma OneFile(p: Path, data: Bytes)
    requires p != []
    ensures Additions([Write(p, data)]) == PutLeaf(BARE, p, VFile(data))
    ensures WellFormed([Write(p, data)]) && WhiteoutsRefilled([Write(p, data)])
  {
    assert AddAll(BARE, [Write(p, data)], 0) == BARE;
  }

  lemma OneWhiteout(p: Path)
    requires p != []
    ensures Additions([Whiteout(p)]) == BARE && Marked([Whiteout(p)], p)
    ensures WellFormed([Whiteout(p)]) && WhiteoutsRefilled([Whiteout(p)])
  {
    assert AddAll(BARE, [Whiteout(p)], 0) == BARE;
    assert MarkedBy([Whiteout(p)][0], p);
  }

  /** The simplest image that mounts wrongly: a file, and a layer that deletes it. */
  lemma {:induction false} DeletedFileStillShows(name: string, data: Bytes)
    ensures var image := [[Write([name], data)], [Whiteout([name])]];
            && Ordinary(image) && [name] !in FlatForm(image)
            && Lookup(StackOf(image), [name]) == There(VFile(data))
  {
    hide Additions, WellFormed, WhiteoutsRefilled, Marked, FlatForm, StackOf, Lookup, Keeps, KeepsOver, Creates, Blocks,
         ContentOf;
    var p: Path := [name];
    var write, delete := [Write(p, data)], [Whiteout(p)];
    var image := [write, delete];
    OneFile(p, data);
    OneWhiteout(p);
    CreatesAndCovers(p, data);
    OrdinaryKeeps(write, p);
    OrdinaryKeeps(delete, p);
    assert Resurfaces(image, 0, 1, p);
    WhiteoutDoesNotHide(image, 0, 1, p);
  }

  lemma CreatesAndCovers(p: Path, data: Bytes)
    requires p != []
    ensures Creates([Write(p, data)], p) && !Creates([Whiteout(p)], p) && !Blocks([Whiteout(p)], p)
    ensures ContentOf([Write(p, data)], p) == VFile(data)
  {
    var ops := [Write(p, data)];
    assert Adds(ops[0]) && p <= ops[0].p;
    assert Roots(ops, 0) == map[];
    assert Roots(ops, 1) == map[p := 0];
  }
}
