// Entries that the name check drops although their names are legal: what the layer means,
// and what is extracted of it.

module DroppedNames {
  import opened Strings
  import opened Paths
  import opened LayerOps
  import opened LayerShape
  import opened LayerDir
  import opened OciChangeset
  import opened LayerContent
  import opened StackedForm
  import opened Resurfacing

  function MeantAll(headers: seq<Header>): (ops: seq<LayerOp>)
    ensures |ops| == |headers|
  {
    if headers == [] then [] else [Meant(headers[0])] + MeantAll(headers[1..])
  }

  lemma {:induction false} MeantAt(headers: seq<Header>, i: nat)
    requires i < |headers|
    ensures MeantAll(headers)[i] == Meant(headers[i])
  {
    if i > 0 {
      MeantAt(headers[1..], i - 1);
    }
  }

  /** The entry is about a path whose first name begins with two dots, if it is about any. */
  predicate AboutDotted(op: LayerOp) { Adds(op) || op.Whiteout? || op.Opaque? ==> DotDotted(op.p) }

  predicate MaskedOp(done: LayerOp, meant: LayerOp) {
    || (done == meant && !(Adds(done) && DotDotted(done.p)))
    || (done == Skip && AboutDotted(meant))
  }

  /** What the check leaves of a layer: entries about dotted paths are skipped, and nothing else is. */
  ghost predicate Masked(done: seq<LayerOp>, meant: seq<LayerOp>) {
    |done| == |meant| && forall i :: 0 <= i < |done| ==> MaskedOp(done[i], meant[i])
  }

  lemma {:induction false} PlanIsMasked(h: Header)
    ensures MaskedOp(Plan(h), Meant(h))
  {
    LostNameIff(h.name);
    SurvivesIff(h.name);
    ClassifyPath(Comps(h.name), h);
    if Legal(h.name) && !Survives(h.name) {
      DottedStays(Comps(h.name), h);
    }
  }

  lemma DottedStays(p: Path, h: Header)
    requires DotDotted(p)
    ensures AboutDotted(Classify(p, h))
  {
    ClassifyPath(p, h);
    if Base(p) == OPAQUE || HasPrefix(Base(p), WHITEOUT) {
      assert Base(p)[1] == 'w' && p[0][1] == '.';
      assert |p| > 1 && Parent(p)[0] == p[0];
    }
  }

  lemma {:induction false} PlanAllMasked(headers: seq<Header>)
    ensures Masked(PlanAll(headers), MeantAll(headers))
  {
    forall i | 0 <= i < |headers|
      ensures MaskedOp(PlanAll(headers)[i], MeantAll(headers)[i])
    {
      PlanAt(headers, i);
      MeantAt(headers, i);
      PlanIsMasked(headers[i]);
    }
  }

  // ---- other paths are not concerned

  lemma SameFirst(p: Path, q: Path)
    requires p != [] && q != [] && (p <= q || q <= p)
    ensures DotDotted(p) == DotDotted(q)
  {
  }

  lemma SameEntries(done: seq<LayerOp>, meant: seq<LayerOp>, p: Path)
    requires Masked(done, meant) && StaysInside(meant) && p != [] && !DotDotted(p)
    ensures Creates(done, p) <==> Creates(meant, p)
    ensures Blocks(done, p) <==> Blocks(meant, p)
    ensures Marked(done, p) <==> Marked(meant, p)
  {
    forall i | 0 <= i < |done|
      ensures Adds(done[i]) && p <= done[i].p <==> Adds(meant[i]) && p <= meant[i].p
      ensures IsLeaf(done[i]) && done[i].p <= p && done[i].p != p <==>
        IsLeaf(meant[i]) && meant[i].p <= p && meant[i].p != p
      ensures MarkedBy(done[i], p) <==> MarkedBy(meant[i], p)
    {
      assert MaskedOp(done[i], meant[i]);
      if Adds(meant[i]) || meant[i].Whiteout? || meant[i].Opaque? {
        if meant[i].p != [] && (p <= meant[i].p || meant[i].p <= p) {
          SameFirst(p, meant[i].p);
        }
      }
    }
  }

  lemma {:induction false} SameRoots(done: seq<LayerOp>, meant: seq<LayerOp>, n: nat, p: Path)
    requires Masked(done, meant) && LinksBack(done) && n <= |done| && !DotDotted(p)
    ensures p in Roots(done, n) <==> p in Roots(meant, n)
    ensures p in Roots(done, n) ==> Roots(done, n)[p] == Roots(meant, n)[p]
  {
    if n > 0 {
      var op := done[n - 1];
      assert MaskedOp(op, meant[n - 1]);
      SameRoots(done, meant, n - 1, p);
      if op.HardLink? {
        assert LeafBefore(done, n - 1, op.src);
        var i :| 0 <= i < n - 1 && IsLeaf(done[i]) && done[i].p == op.src;
        assert MaskedOp(done[i], meant[i]);
        SameRoots(done, meant, n - 1, op.src);
      }
    }
  }

  lemma SameContent(done: seq<LayerOp>, meant: seq<LayerOp>, p: Path)
    requires Masked(done, meant) && LinksBack(done) && !DotDotted(p)
    ensures ContentOf(done, p) == ContentOf(meant, p)
  {
    SameRoots(done, meant, |done|, p);
    if p in Roots(done, |done|) {
      RootIsContent(done, |done|, p);
      assert MaskedOp(done[Roots(done, |done|)[p]], meant[Roots(done, |done|)[p]]);
    }
  }

  ghost predicate AllMasked(image: Image, meant: Image) {
    |image| == |meant| && forall k :: 0 <= k < |image| ==> Masked(image[k], meant[k])
  }

  lemma SameStands(image: Image, meant: Image, k: nat, p: Path)
    requires AllMasked(image, meant) && AllWellFormed(image) && AllWellFormed(meant)
    requires k < |image| && p != [] && !DotDotted(p)
    ensures StandsFrom(image, k, p) <==> StandsFrom(meant, k, p)
    ensures ContentOf(image[k], p) == ContentOf(meant[k], p)
  {
    hide Creates, Blocks, Marked, ContentOf, Masked;
    forall j | 0 <= j < |image|
      ensures Creates(image[j], p) <==> Creates(meant[j], p)
      ensures Blocks(image[j], p) <==> Blocks(meant[j], p)
      ensures Marked(image[j], p) <==> Marked(meant[j], p)
    {
      SameEntries(image[j], meant[j], p);
    }
    SameContent(image[k], meant[k], p);
  }

  lemma DottedIsNotKept(done: seq<LayerOp>, meant: seq<LayerOp>, p: Path)
    requires Masked(done, meant) && DotDotted(p)
    ensures !Keeps(done, p)
  {
    KeptBySome(done, |done|, p);
    forall i | 0 <= i < |done|
      ensures !KeptBy(done, |done|, p, i)
    {
      assert MaskedOp(done[i], meant[i]);
      if Adds(done[i]) && p <= done[i].p {
        SameFirst(p, done[i].p);
      }
    }
  }

  /** The specification has the path. */
  ghost predicate Stands(meant: Image, p: Path) { exists k :: 0 <= k < |meant| && StandsFrom(meant, k, p) }

  /**
   Layers that show their additions, with the entries that the check drops: the mounted
   stack agrees with what the image means exactly on the paths that no dropped entry would
   have made and that do not resurface.
   */
  lemma {:induction false} AgreesWithMeaningIff(image: Image, meant: Image, p: Path)
    requires AllMasked(image, meant) && Ordinary(image) && AllWellFormed(meant) && p != []
    ensures Agrees(image, meant, p) <==> if DotDotted(p) then !Stands(meant, p) else !SomeResurface(image, p)
  {
    hide ShownFrom, StandsFrom, ContentOf, WellFormed, WhiteoutsRefilled, Masked;
    if DotDotted(p) {
      forall m | 0 <= m < |image|
        ensures !ShownFrom(image, m, p)
      {
        DottedIsNotShown(image, meant, m, p);
      }
    } else {
      forall k | 0 <= k < |image|
        ensures StandsFrom(image, k, p) <==> StandsFrom(meant, k, p)
        ensures ContentOf(image[k], p) == ContentOf(meant[k], p)
      {
        SameStands(image, meant, k, p);
      }
      AgreesUnlessResurfaces(image, p);
    }
  }

  lemma DottedIsNotShown(image: Image, meant: Image, m: nat, p: Path)
    requires AllMasked(image, meant) && m < |image| && DotDotted(p)
    ensures !ShownFrom(image, m, p)
  {
    hide Keeps, KeepsOver, Masked;
    DottedIsNotKept(image[m], meant[m], p);
  }
}
