// extractLayer on a directory that is changed in place: nodes name inodes, and inodes
// live on a heap, so that truncating one name of a file truncates all of them.

module LayerDir {
  import opened Strings
  import opened Paths
  import opened LayerOps
  import opened LayerTree
  import opened LinkedTree
  import opened LinkFree

  function PlanAll(headers: seq<Header>): (ops: seq<LayerOp>)
    ensures |ops| == |headers|
  {
    if headers == [] then [] else [Plan(headers[0])] + PlanAll(headers[1..])
  }

  lemma {:induction false} PlanAt(headers: seq<Header>, i: nat)
    requires i < |headers|
    ensures PlanAll(headers)[i] == Plan(headers[i])
  {
    if i > 0 {
      PlanAt(headers[1..], i - 1);
    }
  }

  /** Truncating and then filling is writing. */
  lemma FillParts(fs: Fs, q: Path, content: Bytes)
    ensures OpenAndWrite(fs, q, []).ok == OpenAndWrite(fs, q, content).ok
    ensures !OpenAndWrite(fs, q, []).ok ==> OpenAndWrite(fs, q, content) == OpenAndWrite(fs, q, [])
    ensures var cut := OpenAndWrite(fs, q, []).fs;
            q in cut.nodes && cut.nodes[q].File? ==>
              OpenAndWrite(fs, q, content).fs == cut.(data := cut.data[cut.nodes[q].ino := content])
  {
  }

  class Directory {
    var nodes: map<Path, Node>
    var data: map<nat, Bytes>
    var next: nat

    function Contents(): Fs
      reads this
    {
      Fs(nodes, data, next)
    }

    constructor (fs: Fs)
      ensures Contents() == fs
    {
      nodes, data, next := fs.nodes, fs.data, fs.next;
    }

    /** mkdir, where a directory that is there already will do. */
    method MakeDir(p: Path) returns (ok: bool)
      requires Tree(Contents()) && p != []
      modifies this`nodes
      ensures Tree(Contents())
      ensures Made(nodes, ok) == Mkdir(old(nodes), p)
    {
      MkdirOneTree(Contents(), p);
      match Resolve(nodes, p, false)
      case At(q) =>
        if q in nodes {
          return nodes[q] == Dir;
        }
        nodes := nodes[q := Dir];
        ok := true;
      case _ => ok := false;
    }

    /** os.MkdirAll: stat, then the parent, then mkdir. */
    method MakeDirs(p: Path) returns (ok: bool)
      requires Tree(Contents())
      modifies this`nodes
      ensures Tree(Contents())
      ensures Made(nodes, ok) == MkdirAll(old(nodes), p)
      decreases |p|
    {
      var there := Resolve(nodes, p, true);
      if there.At? && there.p in nodes {
        return nodes[there.p] == Dir;
      }
      if p == [] {
        return true;
      }
      ok := MakeDirs(Parent(p));
      if ok {
        ok := MakeDir(p);
      }
    }

    /** os.OpenFile with O_CREATE, O_WRONLY and O_TRUNC, at the place the path leads to. */
    method OpenTruncated(q: Path) returns (ok: bool, ino: nat)
      requires Tree(Contents()) && (q != [] ==> Roomy(nodes, q))
      modifies this
      ensures Tree(Contents())
      ensures ok ==> q in nodes && nodes[q] == File(ino) && ino in data
      ensures Applied(Contents(), ok) == OpenAndWrite(old(Contents()), q, [])
    {
      if q !in nodes {
        nodes, data, next := nodes[q := File(next)], data[next := []], next + 1;
        return true, next - 1;
      }
      match nodes[q]
      case File(i) =>
        data := data[i := []];
        return true, i;
      case _ => return false, 0;
    }

    /** The regular-file branch behind MkdirAll: open, and copy. */
    method OpenAndFill(p: Path, content: Bytes) returns (ok: bool)
      requires Tree(Contents())
      modifies this
      ensures Tree(Contents())
      ensures Applied(Contents(), ok) == OpenThrough(old(Contents()), p, content)
    {
      ResolveEnds(Contents(), p, true);
      match Resolve(nodes, p, true)
      case At(q) =>
        FillParts(Contents(), q, content);
        var ino;
        ok, ino := OpenTruncated(q);
        if ok {
          data := data[ino := content];
        }
      case _ => ok := false;
    }

    /** The regular-file branch. */
    method WriteFile(p: Path, content: Bytes) returns (ok: bool)
      requires Tree(Contents())
      modifies this
      ensures Tree(Contents())
      ensures Applied(Contents(), ok) == ApplyOp(old(Contents()), Write(p, content))
    {
      hide MkdirAll, OpenThrough;
      if p == [] {
        return false;
      }
      ok := MakeDirs(Parent(p));
      if ok {
        ok := OpenAndFill(p, content);
      }
    }

    /** os.Remove, whose error the link branches ignore. */
    method FreeName(p: Path)
      requires Tree(Contents()) && p != []
      modifies this`nodes
      ensures Tree(Contents())
      ensures nodes == Unlink(old(nodes), p)
    {
      ResolveEnds(Contents(), p, false);
      match Resolve(nodes, p, false)
      case At(q) =>
        RemoveTree(Contents(), q);
        if q in nodes && !(nodes[q] == Dir && HasChild(nodes, q)) {
          nodes := nodes - {q};
        }
      case _ =>
    }

    /** Parents made and the name freed as far as possible; errors are ignored, as both link branches do. */
    method ClearName(p: Path)
      requires Tree(Contents()) && p != []
      modifies this`nodes
      ensures Tree(Contents())
      ensures nodes == ClearedName(old(nodes), p)
    {
      var _ := MakeDirs(Parent(p));
      FreeName(p);
    }

    /** os.Symlink and os.Link: the name must be free in an existing directory. */
    method PutLink(p: Path, node: Node) returns (ok: bool)
      requires Tree(Contents()) && p != [] && (node.File? ==> node.ino in data)
      modifies this`nodes
      ensures Tree(Contents())
      ensures Applied(Contents(), ok) == PutAt(old(Contents()), p, node)
    {
      PutTree(Contents(), p, node);
      match Resolve(nodes, p, false)
      case At(q) =>
        ok := q !in nodes;
        if ok {
          nodes := nodes[q := node];
        }
      case _ => ok := false;
    }

    /** The symbolic-link branch. */
    method MakeSymlink(p: Path, text: string) returns (ok: bool)
      requires Tree(Contents()) && p != []
      modifies this
      ensures Tree(Contents())
      ensures Applied(Contents(), ok) == ApplyOp(old(Contents()), SymLink(p, text))
    {
      ClearName(p);
      ok := PutLink(p, Sym(text));
    }

    /** The hard-link branch: a failing link is not an error. */
    method MakeHardLink(p: Path, src: Path)
      requires Tree(Contents()) && p != []
      modifies this
      ensures Tree(Contents())
      ensures Applied(Contents(), true) == ApplyOp(old(Contents()), HardLink(p, src))
    {
      ClearName(p);
      match Resolve(nodes, src, false)
      case At(s) =>
        if s in nodes && nodes[s] != Dir {
          var _ := PutLink(p, nodes[s]);
        }
      case _ =>
    }

    /** The whiteout branch: os.RemoveAll, whose error is ignored. */
    method WipeOut(p: Path)
      requires Tree(Contents()) && p != []
      modifies this`nodes
      ensures Tree(Contents())
      ensures nodes == RemovedAt(old(nodes), p)
    {
      RemovedTree(Contents(), p, {});
      match Resolve(nodes, p, false)
      case At(q) => nodes := RemoveAll(nodes, q);
      case _ =>
    }

    /** The switch on the entry's type. */
    method Create(p: Path, h: Header) returns (ok: bool)
      requires Tree(Contents())
      modifies this
      ensures Tree(Contents())
      ensures Applied(Contents(), ok) == ApplyOp(old(Contents()), ByKind(p, h))
    {
      ok := true;
      match h.kind
      case TypeDir => ok := MakeDirs(p);
      case TypeReg => ok := WriteFile(p, h.data);
      case TypeSymlink =>
        if p != [] {
          ok := MakeSymlink(p, h.linkname);
        }
      case TypeLink =>
        var src := Reduce(false, Split(h.linkname, '/'));
        if p != [] && Inside(src) {
          MakeHardLink(p, src);
        }
      case TypeOther =>
    }

    /** The loop body of extractLayer. */
    method Entry(h: Header, ghost op: LayerOp) returns (ok: bool)
      requires Tree(Contents()) && op == Plan(h)
      modifies this
      ensures Tree(Contents())
      ensures Applied(Contents(), ok) == ApplyOp(old(Contents()), op)
    {
      if HasPrefix(Clean(h.name), "..") || IsAbs(Clean(h.name)) {
        return true;
      }
      var p := Comps(h.name);
      if p != [] && Base(p) == OPAQUE {
        return true;
      }
      if p != [] && HasPrefix(Base(p), WHITEOUT) {
        var orig := TrimPrefix(Base(p), WHITEOUT);
        if orig != "" && orig != "." && orig != ".." {
          WipeOut(Parent(p) + [orig]);
        }
        return true;
      }
      ok := Create(p, h);
    }

    /** One iteration: the directory follows the run over the planned operations. */
    method Iterate(headers: seq<Header>, i: nat, ghost start: Fs) returns (ok: bool)
      requires i < |headers| && Tree(Contents())
      requires Run(start, PlanAll(headers), i) == Applied(Contents(), true)
      modifies this
      ensures Tree(Contents())
      ensures Run(start, PlanAll(headers), i + 1) == Applied(Contents(), ok)
    {
      PlanAt(headers, i);
      ok := Entry(headers[i], PlanAll(headers)[i]);
    }

    /** extractLayer: entry by entry until the archive ends, breaks off or an entry fails. */
    method ExtractLayer(headers: seq<Header>, clean: bool) returns (ok: bool)
      requires Tree(Contents())
      modifies this
      ensures Tree(Contents())
      ensures Contents() == Run(old(Contents()), PlanAll(headers), |headers|).fs
      ensures ok == (Run(old(Contents()), PlanAll(headers), |headers|).ok && clean)
    {
      hide ApplyOp, Plan;
      ghost var start := Contents();
      var i := 0;
      while i < |headers|
        invariant i <= |headers| && Tree(Contents())
        invariant Run(start, PlanAll(headers), i) == Applied(Contents(), true)
      {
        ok := Iterate(headers, i, start);
        i := i + 1;
        if !ok {
          StopsThere(start, PlanAll(headers), i);
          return;
        }
      }
      ok := clean;
    }
  }

  lemma {:induction false} StopsThere(fs: Fs, ops: seq<LayerOp>, n: nat)
    requires n <= |ops| && !Run(fs, ops, n).ok
    ensures Run(fs, ops, |ops|) == Run(fs, ops, n)
    decreases |ops| - n
  {
    if n < |ops| {
      StopsThere(fs, ops, n + 1);
    }
  }
}
