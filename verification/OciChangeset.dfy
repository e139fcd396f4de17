// Applying a changeset as the OCI Image Format Specification puts it (layer.md, "Applying
// Changesets" and "Whiteouts"): markers act on the lower layers only, then the entries are
// added one by one. And what extracting a layer by itself shows of it.

module OciChangeset {
  import opened LayerOps
  import opened LayerTree
  import opened OverlayView

  /** The ancestors become directories, replacing anything else in the way. */
  function AddDirs(v: View, p: Path): (r: View)
    ensures forall q :: q in r <==> q in v || q <= p
    ensures forall q :: q in r ==> r[q] == if q <= p then VDir else v[q]
  {
    map q | q in v.Keys + Prefixes(p) :: if q <= p then VDir else v[q]
  }

  /** An existing path of any kind is removed and the entry created in its place. */
  function PutLeaf(v: View, p: Path, node: VNode): (r: View)
    requires p != []
    ensures forall q :: q in r <==> (q in v && !(p <= q)) || q <= p
    ensures forall q :: q in r ==> r[q] == if q == p then node else if q <= p then VDir else v[q]
  {
    map q | q in v.Keys + Prefixes(p) && (q <= p || !(p <= q)) ::
      if q == p then node else if q <= p then VDir else v[q]
  }

  function AddEntry(v: View, op: LayerOp): View {
    match op
    case MkDir(p) => AddDirs(v, p)
    case Write(p, data) => if p == [] then v else PutLeaf(v, p, VFile(data))
    case SymLink(p, text) => if p == [] then v else PutLeaf(v, p, VSym(text))
    case HardLink(p, src) =>
      if p == [] then v else if src in v && v[src] != VDir then PutLeaf(v, p, v[src]) else AddDirs(v, Parent(p))
    case _ => v
  }

  function AddAll(v: View, ops: seq<LayerOp>, n: nat): View
    requires n <= |ops|
  {
    if n == 0 then v else AddEntry(AddAll(v, ops, n - 1), ops[n - 1])
  }

  /** The path, or a directory it is in, is named by a whiteout or an opaque marker of the layer. */
  predicate Marked(ops: seq<LayerOp>, p: Path) {
    exists i :: 0 <= i < |ops| && MarkedBy(ops[i], p)
  }

  predicate MarkedBy(op: LayerOp, p: Path) {
    (op.Whiteout? && op.p != [] && op.p <= p) || (op.Opaque? && op.p <= p && op.p != p)
  }

  function Strip(v: View, ops: seq<LayerOp>): (r: View)
    ensures forall p :: p in r <==> p in v && !Marked(ops, p)
    ensures forall p :: p in r ==> r[p] == v[p]
  {
    map p | p in v && !Marked(ops, p) :: v[p]
  }

  function ApplyChangeset(v: View, ops: seq<LayerOp>): View { AddAll(Strip(v, ops), ops, |ops|) }

  /** The whole image, lowest layer first. */
  function FlatForm(layers: seq<seq<LayerOp>>): View {
    if layers == [] then BARE else ApplyChangeset(FlatForm(layers[..|layers| - 1]), layers[|layers| - 1])
  }

  function Additions(ops: seq<LayerOp>): View { AddAll(BARE, ops, |ops|) }

  // ---- adding an entry keeps a view a tree

  lemma AddEntryProper(v: View, op: LayerOp)
    requires Proper(v)
    ensures Proper(AddEntry(v, op))
  {
    match op
    case MkDir(p) => AddDirsProper(v, p);
    case Write(p, data) => if p != [] { PutLeafProper(v, p, VFile(data)); }
    case SymLink(p, text) => if p != [] { PutLeafProper(v, p, VSym(text)); }
    case HardLink(p, src) =>
      if p != [] {
        AddDirsProper(v, Parent(p));
        if src in v {
          PutLeafProper(v, p, v[src]);
        }
      }
    case _ =>
  }

  lemma AddDirsProper(v: View, p: Path)
    requires Proper(v)
    ensures Proper(AddDirs(v, p))
  {
    forall q | q in AddDirs(v, p) && q != []
      ensures Parent(q) in AddDirs(v, p) && AddDirs(v, p)[Parent(q)] == VDir
    {
      if q <= p {
        assert Parent(q) <= p;
      }
    }
  }

  lemma PutLeafProper(v: View, p: Path, node: VNode)
    requires Proper(v) && p != []
    ensures Proper(PutLeaf(v, p, node))
  {
    var r := PutLeaf(v, p, node);
    forall q | q in r && q != []
      ensures Parent(q) in r && r[Parent(q)] == VDir
    {
      if q <= p {
        assert Parent(q) <= p && Parent(q) != p;
      }
    }
  }

  lemma StripProper(v: View, ops: seq<LayerOp>)
    requires Proper(v)
    ensures Proper(Strip(v, ops))
  {
    forall p | p in v && p != [] && Marked(ops, Parent(p))
      ensures Marked(ops, p)
    {
      var i :| 0 <= i < |ops| && MarkedBy(ops[i], Parent(p));
      assert MarkedBy(ops[i], p);
    }
  }

  lemma {:induction false} AddAllProper(v: View, ops: seq<LayerOp>, n: nat)
    requires Proper(v) && n <= |ops|
    ensures Proper(AddAll(v, ops, n))
  {
    if n > 0 {
      AddAllProper(v, ops, n - 1);
      AddEntryProper(AddAll(v, ops, n - 1), ops[n - 1]);
    }
  }

  // ---- adding on top of a merge is adding to its top

  /**
   The entry finds only directories of its own layer above it, nothing at a new leaf, and
   its link source in its own layer.
   */
  predicate Fresh(top: View, op: LayerOp) {
    && (Adds(op) ==> forall q :: q in top.Keys && q <= op.p ==> top[q] == VDir)
    && (IsLeaf(op) ==> op.p != [] && op.p !in top)
    && (op.HardLink? ==> op.src in top && top[op.src] != VDir)
  }

  lemma AddDirsMerge(top: View, low: View, p: Path)
    requires Proper(top) && Proper(low)
    requires forall q :: q in top && q <= p ==> top[q] == VDir
    ensures AddDirs(Merge(top, low), p) == Merge(AddDirs(top, p), low)
  {
    forall q
      ensures Hides(AddDirs(top, p), q) <==> Hides(top, q)
    {
      SameHides(top, AddDirs(top, p), q);
    }
  }

  lemma SameHides(a: View, b: View, p: Path)
    requires forall q :: q <= p && q != p ==> (q in a && a[q] != VDir <==> q in b && b[q] != VDir)
    ensures Hides(a, p) <==> Hides(b, p)
  {
  }

  lemma PutLeafHides(top: View, p: Path, node: VNode, q: Path)
    requires p != [] && node != VDir
    requires forall r :: r in top && r <= p ==> top[r] == VDir
    ensures Hides(PutLeaf(top, p, node), q) <==> Hides(top, q) || (p <= q && p != q)
  {
    var put := PutLeaf(top, p, node);
    if p <= q && p != q {
      assert p in Prefixes(q) && p in put && put[p] == node;
    } else {
      SameHides(top, put, q);
    }
  }

  lemma PutLeafMergeAt(top: View, low: View, p: Path, node: VNode, q: Path)
    requires p != [] && p !in top && node != VDir
    requires forall r :: r in top && r <= p ==> top[r] == VDir
    requires q in top && p <= q ==> q == p
    ensures Shows(PutLeaf(Merge(top, low), p, node), q) == Shows(Merge(PutLeaf(top, p, node), low), q)
  {
    PutLeafHides(top, p, node, q);
  }

  lemma SameShows(a: View, b: View)
    requires forall q :: Shows(a, q) == Shows(b, q)
    ensures a == b
  {
    forall q
      ensures q in a <==> q in b
      ensures q in a ==> a[q] == b[q]
    {
      assert Shows(a, q) == Shows(b, q);
    }
  }

  lemma {:induction false} NothingBelow(top: View, p: Path, q: Path)
    requires Proper(top) && p !in top && p <= q
    ensures q !in top
  {
    if q != p && q in top {
      NothingBelow(top, p, Parent(q));
    }
  }

  lemma {:induction false} LeafMerge(top: View, low: View, p: Path, node: VNode)
    requires Proper(top) && p != [] && p !in top && node != VDir
    requires forall q :: q in top && q <= p ==> top[q] == VDir
    ensures PutLeaf(Merge(top, low), p, node) == Merge(PutLeaf(top, p, node), low)
  {
    forall q
      ensures Shows(PutLeaf(Merge(top, low), p, node), q) == Shows(Merge(PutLeaf(top, p, node), low), q)
    {
      if p <= q {
        NothingBelow(top, p, q);
      }
      PutLeafMergeAt(top, low, p, node, q);
    }
    SameShows(PutLeaf(Merge(top, low), p, node), Merge(PutLeaf(top, p, node), low));
  }

  lemma {:induction false} AddEntryMerge(top: View, low: View, op: LayerOp)
    requires Proper(top) && Proper(low) && Fresh(top, op)
    ensures AddEntry(Merge(top, low), op) == Merge(AddEntry(top, op), low)
  {
    match op
    case MkDir(p) => AddDirsMerge(top, low, p);
    case Write(p, data) => LeafMerge(top, low, p, VFile(data));
    case SymLink(p, text) => LeafMerge(top, low, p, VSym(text));
    case HardLink(p, src) => LeafMerge(top, low, p, top[src]);
    case _ =>
  }

  ghost predicate AllFresh(ops: seq<LayerOp>, n: nat)
    requires n <= |ops|
  {
    n == 0 || (AllFresh(ops, n - 1) && Fresh(AddAll(BARE, ops, n - 1), ops[n - 1]))
  }

  lemma BareMerge(low: View)
    requires Proper(low)
    ensures Merge(BARE, low) == low
  {
    forall p
      ensures !Hides(BARE, p)
    {
    }
  }

  lemma {:induction false} AddAllMerge(low: View, ops: seq<LayerOp>, n: nat)
    requires Proper(low) && n <= |ops| && AllFresh(ops, n)
    ensures AddAll(low, ops, n) == Merge(AddAll(BARE, ops, n), low)
  {
    if n == 0 {
      BareMerge(low);
    } else {
      AddAllMerge(low, ops, n - 1);
      AddAllProper(BARE, ops, n - 1);
      AddEntryMerge(AddAll(BARE, ops, n - 1), low, ops[n - 1]);
    }
  }
}
