// Errors that extractLayer ignores: the pull reports success, and what the layer's directory
// shows then.

module SwallowedErrors {
  import opened LayerOps
  import opened LayerTree
  import opened LinkedTree
  import opened LayerShape
  import opened ExtractResume
  import opened LayerContent

  /** The tree as the limping pass leaves it after n entries. */
  lemma LimpingKeys(ops: seq<LayerOp>, course: seq<Go>, n: nat)
    requires WellFormed(ops) && n < |ops| && n < |course|
    ensures Limp(EMPTY, ops, course, n + 1).nodes.Keys <= Limp(EMPTY, ops, course, n).nodes.Keys + Adding(ops[n])
    ensures course[n].Cut? && ops[n].HardLink? && ops[n].p !in Limp(EMPTY, ops, course, n).nodes
      ==> ops[n].p !in Limp(EMPTY, ops, course, n + 1).nodes
  {
    hide WellFormed, Leftover, GoOn, PlainOp, PlainTorn, Adding;
    var before := Limp(EMPTY, ops, course, n);
    EmptyIsLeftover(ops);
    LimpKeepsLeftover(ops, EMPTY, course, n);
    GoOnKeepsLeftover(ops, n, before, course[n]);
    PlainOpKeys(before, ops[n]);
    if course[n].Cut? {
      TornKeys(before, ops[n], course[n].tear);
      if ops[n].HardLink? && ops[n].p !in before.nodes {
        TornLinkIsNotMade(before, ops[n], course[n].tear);
      }
    }
  }

  lemma TornLinkIsNotMade(fs: Fs, op: LayerOp, tear: Tear)
    requires op.HardLink? && op.p !in fs.nodes
    ensures op.p !in PlainTorn(fs, op, tear).nodes
  {
  }

  lemma {:induction false} StillNotMade(ops: seq<LayerOp>, course: seq<Go>, n: nat, m: nat, p: Path)
    requires WellFormed(ops) && n <= m <= |ops| && m <= |course| && p !in Limp(EMPTY, ops, course, n).nodes
    requires forall k :: n <= k < m && Adds(ops[k]) ==> !(p <= ops[k].p)
    ensures p !in Limp(EMPTY, ops, course, m).nodes
    decreases m - n
  {
    hide WellFormed, Limp;
    if n < m {
      StillNotMade(ops, course, n, m - 1, p);
      LimpingKeys(ops, course, m - 1);
    }
  }

  /** A link that failed is missing at the end: no other entry makes its name. */
  lemma CutLinkIsMissing(ops: seq<LayerOp>, course: seq<Go>, n: nat)
    requires WellFormed(ops) && n < |ops| <= |course| && ops[n].HardLink? && course[n].Cut?
    ensures ops[n].p !in Limp(EMPTY, ops, course, |ops|).nodes
  {
    hide Limp;
    forall m | 0 <= m < |ops| && m != n && Adds(ops[m])
      ensures !(ops[n].p <= ops[m].p)
    {
      LeafTargetFree(ops, n, m);
    }
    NothingMadeYet(ops, course, ops[n].p);
    StillNotMade(ops, course, 0, n, ops[n].p);
    LimpingKeys(ops, course, n);
    StillNotMade(ops, course, n + 1, |ops|, ops[n].p);
  }

  lemma NothingMadeYet(ops: seq<LayerOp>, course: seq<Go>, p: Path)
    requires p != []
    ensures p !in Limp(EMPTY, ops, course, 0).nodes
  {
  }

  /**
   A pull into an empty directory that the code reports as a success, where at most hard
   links failed: the directory shows the layer exactly if none did.
   */
  lemma {:induction false} ReportedShowsIff(ops: seq<LayerOp>, course: seq<Go>)
    requires WellFormed(ops) && LeavesKept(ops) && Reports(EMPTY, ops, Limping(course))
    requires forall i :: 0 <= i < |ops| && course[i].Cut? ==> ops[i].HardLink?
    ensures ViewOf(Try(EMPTY, ops, Limping(course))) == Extracted(ops) <==>
      forall i :: 0 <= i < |ops| ==> course[i].Through?
  {
    hide Limp, Run, ApplyOp, WellFormed, LeavesKept, LimpOk, ViewOf;
    assert Try(EMPTY, ops, Limping(course)) == Limp(EMPTY, ops, course, |ops|);
    if i :| 0 <= i < |ops| && course[i].Cut? {
      CutLinkIsMissing(ops, course, i);
      LinkIsMeant(ops, i);
      assert ViewOf(Limp(EMPTY, ops, course, |ops|)).Keys == Limp(EMPTY, ops, course, |ops|).nodes.Keys;
    } else {
      ThroughIsRun(EMPTY, ops, course, |ops|);
    }
  }

  lemma LinkIsMeant(ops: seq<LayerOp>, n: nat)
    requires WellFormed(ops) && LeavesKept(ops) && n < |ops| && ops[n].HardLink?
    ensures ops[n].p in Extracted(ops)
  {
    ExtractedIsPresent(ops);
    LeafThere(ops, n, |ops|);
  }
}
