// What a tar header becomes in the file tree: read from the header's own name, type,
// content and link name.

module HeaderMeaning {
  import opened Strings
  import opened Paths
  import opened LayerOps
  import opened LayerTree
  import opened LinkedTree
  import opened LinkFree
  import opened Delivered
  import opened LayerShape
  import opened ExtractSteps
  import opened ExtractResume
  import opened LayerDir
  import opened OverlayView
  import opened OciChangeset
  import opened LayerContent
  import opened StackedForm
  import opened DroppedNames

  /** extractLayer over a list of headers. */
  function Extraction(fs: Fs, headers: seq<Header>): Applied { Run(fs, PlanAll(headers), |headers|) }

  function Last(p: Path): string
    requires p != []
  {
    p[|p| - 1]
  }

  /** The name stays below the destination, passes the check and is no marker. */
  predicate Entry(h: Header) {
    && !IsAbs(h.name) && Comps(h.name) != [] && !(".." <= Comps(h.name)[0])
    && !(".wh." <= Last(Comps(h.name)))
  }

  lemma EntrySurvives(h: Header)
    requires Entry(h)
    ensures Survives(h.name) && Legal(h.name)
  {
    SurvivesIff(h.name);
  }

  lemma ExtractOne(fs: Fs, h: Header)
    ensures Extraction(fs, [h]) == ApplyOp(fs, Plan(h))
  {
    var ops := PlanAll([h]);
    assert [h][1..] == [];
    assert ops == [Plan(h)];
    assert Run(fs, ops, 0) == Applied(fs, true);
    assert Run(fs, ops, 1) == ApplyOp(fs, ops[0]);
  }

  // ---- entries

  lemma SkipDoesNothing(fs: Fs)
    ensures ApplyOp(fs, Skip) == Applied(fs, true)
    ensures forall p :: ApplyOp(fs, Opaque(p)) == Applied(fs, true)
  {
  }

  /** Just the path and its directories. */
  ghost predicate Just(fs: Fs, p: Path, node: VNode) {
    && fs.nodes.Keys == Prefixes(p) && p in fs.nodes && Shown(fs, p) == node
    && forall q :: q <= p && q != p ==> q in fs.nodes && Shown(fs, q) == VDir
  }

  lemma AloneDirs(p: Path)
    ensures !Blocked(EMPTY.nodes, p) && WithDirs(EMPTY.nodes, p).Keys == Prefixes(p)
    ensures forall q :: q in WithDirs(EMPTY.nodes, p) ==> WithDirs(EMPTY.nodes, p)[q] == Dir
  {
    assert [] in Prefixes(p);
  }

  lemma AloneDir(p: Path)
    ensures PlainOp(EMPTY, MkDir(p)).ok && Just(PlainOp(EMPTY, MkDir(p)).fs, p, VDir)
  {
    AloneDirs(p);
    assert p in Prefixes(p);
  }

  /** A file or link put below its directories. */
  lemma AlonePut(p: Path, node: Node, data: map<nat, Bytes>, next: nat)
    requires p != []
    ensures var fs := Fs(WithDirs(EMPTY.nodes, Parent(p))[p := node], data, next);
            Just(fs, p, Shown(fs, p))
    ensures p !in WithDirs(EMPTY.nodes, Parent(p))
    ensures Parent(p) in WithDirs(EMPTY.nodes, Parent(p)) && WithDirs(EMPTY.nodes, Parent(p))[Parent(p)] == Dir
  {
    AloneDirs(Parent(p));
    assert Parent(p) in Prefixes(Parent(p));
    var nodes := WithDirs(EMPTY.nodes, Parent(p))[p := node];
    SplitPrefixes({}, p);
    assert {} + Prefixes(Parent(p)) + {p} == {} + Prefixes(p);
    assert nodes.Keys == Prefixes(p);
    forall q | q <= p && q != p
      ensures q in Prefixes(Parent(p))
    {
      assert q in Prefixes(p);
    }
  }

  lemma AloneFile(p: Path, data: Bytes)
    requires p != []
    ensures PlainOp(EMPTY, Write(p, data)).ok && Just(PlainOp(EMPTY, Write(p, data)).fs, p, VFile(data))
  {
    hide Just, Prefixes, WithDirs;
    AloneDirs(Parent(p));
    AlonePut(p, File(0), map[0 := data], 1);
  }

  lemma AloneLink(p: Path, text: string)
    requires p != []
    ensures PlainOp(EMPTY, SymLink(p, text)).ok && Just(PlainOp(EMPTY, SymLink(p, text)).fs, p, VSym(text))
  {
    hide Just, Prefixes, WithDirs;
    AloneDirs(Parent(p));
    AlonePut(p, Sym(text), map[], 0);
  }

  /** Extracted alone into an empty directory: the entry with its directories, and nothing else. */
  lemma {:induction false} EntryAlone(h: Header)
    requires Entry(h) && (h.kind.TypeReg? || h.kind.TypeSymlink? || h.kind.TypeDir?)
    ensures Extraction(EMPTY, [h]).ok
    ensures Just(Extraction(EMPTY, [h]).fs, Comps(h.name),
                 if h.kind.TypeReg? then VFile(h.data) else if h.kind.TypeSymlink? then VSym(h.linkname) else VDir)
  {
    hide ApplyOp, PlainOp, Survives, Just, Plan, Comps, Entry;
    var p := Comps(h.name);
    EntryPlan(h);
    EntryInside(h);
    ExtractOne(EMPTY, h);
    OpIsPlain(EMPTY, Plan(h));
    match h.kind
    case TypeReg => AloneFile(p, h.data);
    case TypeSymlink => AloneLink(p, h.linkname);
    case TypeDir => AloneDir(p);
    case _ =>
  }

  /** A hard link names the inode of its source. */
  lemma {:induction false} LinkShares(fs: Fs, h: Header)
    requires Entry(h) && h.kind.TypeLink? && Tree(fs) && NoLinkAbove(fs.nodes, Comps(h.name))
    requires Inside(Reduce(false, Split(h.linkname, '/')))
    requires NoLinkAbove(fs.nodes, Reduce(false, Split(h.linkname, '/')))
    requires Comps(h.name) !in fs.nodes && !Blocked(fs.nodes, Parent(Comps(h.name)))
    ensures Extraction(fs, [h]).ok
    ensures var p, src, after := Comps(h.name), Reduce(false, Split(h.linkname, '/')), Extraction(fs, [h]).fs;
            if src in fs.nodes && fs.nodes[src] != Dir
            then p in after.nodes && src in after.nodes && after.nodes[p] == after.nodes[src] == fs.nodes[src]
            else p !in after.nodes
  {
    hide ApplyOp, Survives, Split, Reduce;
    var p, src := Comps(h.name), Reduce(false, Split(h.linkname, '/'));
    EntrySurvives(h);
    ExtractOne(fs, h);
    assert Plan(h) == HardLink(p, src);
    OpIsPlain(fs, Plan(h));
    PlainLinkShares(fs, p, src);
  }

  lemma PlainLinkShares(fs: Fs, p: Path, src: Path)
    requires Tree(fs) && p != [] && p !in fs.nodes && !Blocked(fs.nodes, Parent(p))
    ensures PlainOp(fs, HardLink(p, src)).ok
    ensures var after := PlainOp(fs, HardLink(p, src)).fs;
            if src in fs.nodes && fs.nodes[src] != Dir
            then p in after.nodes && src in after.nodes && after.nodes[p] == after.nodes[src] == fs.nodes[src]
            else p !in after.nodes
  {
    assert Parent(p) in Prefixes(Parent(p));
    assert p !in WithDirs(fs.nodes, Parent(p));
  }

  // ---- when an entry fails

  /** Something that is no directory stands at p or above it. */
  predicate Obstructed(fs: Fs, p: Path) { exists q :: q in fs.nodes && q <= p && fs.nodes[q] != Dir }

  lemma ObstructedIff(fs: Fs, p: Path)
    ensures Obstructed(fs, p) <==> Blocked(fs.nodes, p)
  {
    if q :| q in fs.nodes && q <= p && fs.nodes[q] != Dir {
      assert q in Prefixes(p);
    }
  }

  predicate HasAChild(fs: Fs, p: Path) { exists q :: q in fs.nodes && p <= q && |q| == |p| + 1 }

  /** Exactly when an entry is an error, in a tree where it meets no link. */
  lemma {:induction false} EntryFailsIff(fs: Fs, h: Header)
    requires Entry(h) && Tree(fs) && NoLinkAbove(fs.nodes, Comps(h.name))
    requires h.kind.TypeReg? || h.kind.TypeDir? ==> NoLinkAt(fs.nodes, Comps(h.name))
    ensures var p, ok := Comps(h.name), Extraction(fs, [h]).ok;
            && (h.kind.TypeDir? ==> (ok <==> !Obstructed(fs, p)))
            && (h.kind.TypeReg? ==> (ok <==> !Obstructed(fs, Parent(p)) && (p in fs.nodes ==> fs.nodes[p] != Dir)))
            && (h.kind.TypeSymlink? ==>
                  (ok <==> !Obstructed(fs, Parent(p)) && !(p in fs.nodes && fs.nodes[p] == Dir && HasAChild(fs, p))))
            && (h.kind.TypeOther? ==> ok)
  {
    hide ApplyOp, Survives, Comps, Entry, Tree, Obstructed;
    var p := Comps(h.name);
    EntryInside(h);
    EntryPlan(h);
    ExtractOne(fs, h);
    ObstructedIff(fs, p);
    ObstructedIff(fs, Parent(p));
    match h.kind
    case TypeReg =>
      OpIsPlain(fs, Plan(h));
      PlainWriteOk(fs, p, h.data);
    case TypeSymlink =>
      OpIsPlain(fs, Plan(h));
      PlainLinkOk(fs, p, h.linkname);
    case TypeDir => OpIsPlain(fs, Plan(h));
    case TypeOther =>
      OtherPlan(h);
      SkipDoesNothing(fs);
    case TypeLink =>
  }

  lemma OtherPlan(h: Header)
    requires Entry(h) && h.kind.TypeOther?
    ensures Plan(h) == Skip
  {
    hide Survives, Comps;
    EntrySurvives(h);
  }

  lemma PlainWriteOk(fs: Fs, p: Path, data: Bytes)
    requires Tree(fs) && p != [] && (p in fs.nodes ==> !fs.nodes[p].Sym?)
    ensures PlainOp(fs, Write(p, data)).ok <==> !Blocked(fs.nodes, Parent(p)) && (p in fs.nodes ==> fs.nodes[p] != Dir)
  {
  }

  lemma PlainLinkOk(fs: Fs, p: Path, text: string)
    requires Tree(fs) && p != []
    ensures PlainOp(fs, SymLink(p, text)).ok <==>
      !Blocked(fs.nodes, Parent(p)) && !(p in fs.nodes && fs.nodes[p] == Dir && HasAChild(fs, p))
  {
    var nodes := PlainDirs(fs.nodes, Parent(p));
    if Blocked(fs.nodes, Parent(p)) {
      BlockedNoRoom(fs, p);
    } else {
      assert Parent(p) in Prefixes(Parent(p));
      assert HasChild(nodes, p) <==> HasAChild(fs, p);
    }
  }

  lemma BlockedNoRoom(fs: Fs, p: Path)
    requires Tree(fs) && p != [] && Blocked(fs.nodes, Parent(p))
    ensures !Room(Remove(fs.nodes, p), p)
  {
    var q :| q in Prefixes(Parent(p)) && q in fs.nodes && fs.nodes[q] != Dir;
    if Parent(p) in fs.nodes && fs.nodes[Parent(p)] == Dir {
      TreeAbove(fs, Parent(p), q);
    }
  }

  // ---- an entry cut short

  /** An interruption can leave any beginning of a file's content. */
  lemma {:induction false} AnyBeginning(fs: Fs, p: Path, data: Bytes, n: nat) returns (tear: Tear)
    requires Tree(fs) && p != [] && NoLinkAt(fs.nodes, p) && n <= |data|
    requires !Blocked(fs.nodes, Parent(p)) && (p in fs.nodes ==> fs.nodes[p] != Dir)
    ensures p in Torn(fs, Write(p, data), tear).nodes && Shown(Torn(fs, Write(p, data), tear), p) == VFile(data[..n])
  {
    tear := Tear(0, true, n, {});
    TornWriteIsPlain(fs, p, data, tear);
  }

  /** It can leave a link's name removed and not yet made again. */
  lemma {:induction false} NameGone(fs: Fs, p: Path, text: string, src: Path) returns (tear: Tear)
    requires Tree(fs) && p in fs.nodes && fs.nodes[p] != Dir && NoLinkAbove(fs.nodes, p)
    ensures p !in Torn(fs, SymLink(p, text), tear).nodes
    ensures p !in Torn(fs, HardLink(p, src), tear).nodes
  {
    hide *;
    tear := Tear(0, true, 0, {});
    TornLinkIsPlain(fs, p, tear);
    GoneFromPlain(fs, p);
    LinksTear(fs, p, text, src, tear);
  }

  lemma LinksTear(fs: Fs, p: Path, text: string, src: Path, tear: Tear)
    ensures Torn(fs, SymLink(p, text), tear) == TornLink(fs, p, tear) == Torn(fs, HardLink(p, src), tear)
  {
    hide TornLink;
  }

  lemma GoneFromPlain(fs: Fs, p: Path)
    requires Tree(fs) && p in fs.nodes && fs.nodes[p] != Dir
    ensures p !in PlainTornLink(fs, p, Tear(0, true, 0, {})).nodes
  {
    DirsThere(fs, Parent(p));
  }

  /** And it can leave a whiteout done in any part, as long as directories go after what is in them. */
  lemma {:induction false} AnyPartRemoved(fs: Fs, p: Path, gone: set<Path>) returns (tear: Tear)
    requires Tree(fs) && p != [] && NoLinkAbove(fs.nodes, p)
    requires forall q :: q in gone ==> p <= q && forall r :: r in fs.nodes && q <= r ==> r in gone
    ensures forall q :: q in Torn(fs, Whiteout(p), tear).nodes <==> q in fs.nodes && q !in gone
  {
    hide Resolve;
    RemovedPlain(fs, p, gone);
    tear := Tear(0, false, 0, gone);
  }

  /** It can leave any beginning of the directories that are made. */
  lemma {:induction false} AnyDirsMade(fs: Fs, p: Path, n: nat) returns (tear: Tear)
    requires Tree(fs) && NoLinkAt(fs.nodes, p) && !Blocked(fs.nodes, p) && n <= |p|
    ensures forall q :: q in Torn(fs, MkDir(p), tear).nodes <==> q in fs.nodes || q <= p[..n]
  {
    hide MkdirAll, Resolve;
    tear := Tear(n, false, 0, {});
    UptoPlain(fs, p, n);
    UnblockedAbove(fs.nodes, p, n);
  }

  lemma UnblockedAbove(nodes: map<Path, Node>, p: Path, n: nat)
    requires !Blocked(nodes, p) && n <= |p|
    ensures !Blocked(nodes, p[..n])
  {
    forall q | q in Prefixes(p[..n]) && q in nodes
      ensures nodes[q] == Dir
    {
      assert q in Prefixes(p);
    }
  }

  // ---- markers

  /** The name of a whiteout for x: neither the opaque marker nor one without a name. */
  predicate WhiteoutFor(h: Header, x: string) {
    && !IsAbs(h.name) && Comps(h.name) != [] && !(".." <= Comps(h.name)[0])
    && Last(Comps(h.name)) == ".wh." + x && NamesSibling(x)
  }

  function Sibling(h: Header, x: string): Path
    requires Comps(h.name) != []
  {
    Parent(Comps(h.name)) + [x]
  }

  predicate NamesSibling(x: string) { x != "" && x != "." && x != ".." && x != ".wh..opq" }

  lemma MarkerName(base: string, x: string)
    requires base == ".wh." + x
    ensures HasPrefix(base, WHITEOUT) && TrimPrefix(base, WHITEOUT) == x
    ensures base == OPAQUE <==> x == ".wh..opq"
  {
    assert base[4..] == x;
    assert OPAQUE[4..] == ".wh..opq" && OPAQUE == ".wh." + ".wh..opq";
  }

  lemma MarkerPlan(p: Path, h: Header, x: string)
    requires p != [] && Last(p) == ".wh." + x && NamesSibling(x)
    ensures Classify(p, h) == Whiteout(Parent(p) + [x])
  {
    hide ByKind, HasPrefix, TrimPrefix;
    MarkerName(Last(p), x);
  }

  lemma PlannedMarker(p: Path, h: Header) returns (x: string)
    requires Classify(p, h).Whiteout?
    ensures p != [] && Last(p) == ".wh." + x && NamesSibling(x) && Classify(p, h).p == Parent(p) + [x]
  {
    x := TrimPrefix(Base(p), WHITEOUT);
    if HasPrefix(Base(p), WHITEOUT) {
      assert Base(p) == WHITEOUT + x;
      MarkerName(Base(p), x);
    }
  }

  lemma WhiteoutPlan(h: Header, x: string)
    requires WhiteoutFor(h, x)
    ensures Plan(h) == Meant(h) == Whiteout(Sibling(h, x))
  {
    hide Comps, Classify, Survives;
    SurvivesIff(h.name);
    LostNameIff(h.name);
    MarkerPlan(Comps(h.name), h, x);
  }

  /** A whiteout takes away the sibling it names with everything below it, and nothing else. */
  lemma {:induction false} WhiteoutRemoves(fs: Fs, h: Header, x: string)
    requires WhiteoutFor(h, x) && Tree(fs) && NoLinkAbove(fs.nodes, Sibling(h, x))
    ensures Extraction(fs, [h]).ok
    ensures var after := Extraction(fs, [h]).fs;
            && after.data == fs.data
            && (forall q :: q in after.nodes <==> q in fs.nodes && !(Sibling(h, x) <= q))
            && (forall q :: q in after.nodes ==> after.nodes[q] == fs.nodes[q])
  {
    hide ApplyOp;
    WhiteoutPlan(h, x);
    ExtractOne(fs, h);
    OpIsPlain(fs, Plan(h));
  }

  /** The opaque marker, and names that leave the destination or begin with two dots, change nothing. */
  lemma {:induction false} NothingHappens(fs: Fs, h: Header)
    requires IsAbs(h.name) ||
      (Comps(h.name) != [] && (".." <= Comps(h.name)[0] || Last(Comps(h.name)) == ".wh..wh..opq"))
    ensures Extraction(fs, [h]) == Applied(fs, true)
  {
    hide ApplyOp;
    SurvivesIff(h.name);
    ExtractOne(fs, h);
    SkipDoesNothing(fs);
  }

  // ---- in a whole layer

  lemma EntryPlan(h: Header)
    requires Entry(h)
    ensures h.kind.TypeReg? ==> Plan(h) == Write(Comps(h.name), h.data)
    ensures h.kind.TypeSymlink? ==> Plan(h) == SymLink(Comps(h.name), h.linkname)
    ensures h.kind.TypeDir? ==> Plan(h) == MkDir(Comps(h.name))
    ensures h.kind.TypeLink? && Inside(Reduce(false, Split(h.linkname, '/'))) ==>
      Plan(h) == HardLink(Comps(h.name), Reduce(false, Split(h.linkname, '/')))
  {
    hide Survives, Comps;
    EntrySurvives(h);
  }

  /**
   Over any tree and through any links: an entry is reported done exactly if a reader of
   its name then finds what its header says.
   */
  lemma {:induction false} EntryDelivered(fs: Fs, h: Header)
    requires Tree(fs) && Entry(h)
    ensures var p, after := Comps(h.name), Extraction(fs, [h]);
            && (h.kind.TypeReg? ==> (after.ok <==> Reads(after.fs, p, h.data)))
            && (h.kind.TypeSymlink? ==> (after.ok <==> IsNode(after.fs.nodes, p, Sym(h.linkname))))
            && (h.kind.TypeDir? ==> (after.ok <==> LeadsToDir(after.fs.nodes, p)))
            && (h.kind.TypeOther? ==> after == Applied(fs, true))
  {
    hide Comps, Entry, Plan, Tree, Reads, IsNode, LeadsToDir, Run, PlanAll;
    ExtractOne(fs, h);
    EntryPlan(h);
    match h.kind
    case TypeReg => FileDelivered(fs, Comps(h.name), h.data);
    case TypeSymlink => SymlinkDelivered(fs, Comps(h.name), h.linkname);
    case TypeDir => DirDelivered(fs, Comps(h.name));
    case TypeOther => OtherPlan(h);
    case TypeLink =>
  }

  /** What the layer's directory shows at an entry's path after a full pass is what its own header says. */
  lemma {:induction false} KeptShowsHeader(headers: seq<Header>, fs: Fs, i: nat)
    requires WellFormed(PlanAll(headers)) && Leftover(PlanAll(headers), fs) && i < |headers| && Entry(headers[i])
    requires Comps(headers[i].name) in Extraction(fs, headers).fs.nodes
    ensures var h, p, after := headers[i], Comps(headers[i].name), Extraction(fs, headers).fs;
            && (h.kind.TypeReg? ==> Shown(after, p) == VFile(h.data))
            && (h.kind.TypeSymlink? ==> Shown(after, p) == VSym(h.linkname))
            && (h.kind.TypeDir? ==> Shown(after, p) == VDir)
  {
    hide Run, Comps, Entry, Plan, WellFormed, Leftover, Shown;
    var ops, p := PlanAll(headers), Comps(headers[i].name);
    var after := Run(fs, ops, |ops|).fs;
    PlanAt(headers, i);
    EntryPlan(headers[i]);
    PassShows(ops, fs);
    assert ViewOf(after)[p] == Shown(after, p);
    SaidOf(ops, i);
  }

  lemma SaidOf(ops: seq<LayerOp>, i: nat)
    requires WellFormed(ops) && i < |ops|
    ensures ops[i].Write? ==> ContentOf(ops, ops[i].p) == VFile(ops[i].data)
    ensures ops[i].SymLink? ==> ContentOf(ops, ops[i].p) == VSym(ops[i].text)
    ensures ops[i].MkDir? ==> ContentOf(ops, ops[i].p) == VDir
  {
    if ops[i].Write? || ops[i].SymLink? {
      LeafFits(ops, i);
    }
    if ops[i].MkDir? {
      NoRootAbove(ops, i, ops[i].p);
    }
  }

  /** A hard link shows what the header of its source says. */
  lemma {:induction false} KeptLinkShowsSource(headers: seq<Header>, fs: Fs, k: nat, i: nat)
    requires WellFormed(PlanAll(headers)) && Leftover(PlanAll(headers), fs) && k < |headers| && i < |headers|
    requires Entry(headers[k]) && headers[k].kind.TypeReg? && Entry(headers[i]) && headers[i].kind.TypeLink?
    requires Comps(headers[k].name) == Reduce(false, Split(headers[i].linkname, '/'))
    requires Comps(headers[i].name) in Extraction(fs, headers).fs.nodes
    ensures Shown(Extraction(fs, headers).fs, Comps(headers[i].name)) == VFile(headers[k].data)
  {
    hide Run, Comps, Entry, Plan, WellFormed, Leftover, Shown, Split, Reduce;
    var ops, p := PlanAll(headers), Comps(headers[i].name);
    var after := Run(fs, ops, |ops|).fs;
    PlanAt(headers, i);
    PlanAt(headers, k);
    EntryPlan(headers[k]);
    EntryInside(headers[k]);
    EntryPlan(headers[i]);
    PassShows(ops, fs);
    assert ViewOf(after)[p] == Shown(after, p);
    SaidOfLink(ops, k, i);
  }

  lemma EntryInside(h: Header)
    requires Entry(h)
    ensures Inside(Comps(h.name)) && Comps(h.name) != []
  {
  }

  lemma SaidOfLink(ops: seq<LayerOp>, k: nat, i: nat)
    requires WellFormed(ops) && k < |ops| && i < |ops| && ops[k].Write? && ops[i].HardLink? && ops[i].src == ops[k].p
    ensures ContentOf(ops, ops[i].p) == VFile(ops[k].data)
  {
    LeafFits(ops, k);
    LinkFits(ops, i);
  }

  /** The header is a whiteout for p, or for a directory that p is in. */
  predicate Wipes(h: Header,
                  p: Path) { exists n :: 0 < n <= |p| && WhiteoutFor(h, p[n - 1]) && Sibling(h, p[n - 1]) == p[..n] }

  lemma WipesIff(h: Header, p: Path)
    requires Plan(h).Whiteout? && Plan(h).p <= p
    ensures Wipes(h, p)
  {
    hide Comps, Classify, Survives;
    SurvivesIff(h.name);
    var q := Comps(h.name);
    var x := PlannedMarker(q, h);
    var n := |q|;
    assert Sibling(h, x) == p[..n] && p[n - 1] == x;
    assert WhiteoutFor(h, p[n - 1]);
  }

  /** A file, link or directory entry that no later whiteout names is kept. */
  lemma {:induction false} UnwipedIsPresent(headers: seq<Header>, i: nat)
    requires WellFormed(PlanAll(headers)) && i < |headers| && Entry(headers[i])
    requires headers[i].kind.TypeReg? || headers[i].kind.TypeSymlink? || headers[i].kind.TypeDir?
    requires forall j :: i < j < |headers| ==> !Wipes(headers[j], Comps(headers[i].name))
    ensures Comps(headers[i].name) in Present(PlanAll(headers), |headers|)
  {
    hide Comps, Entry, Plan, WellFormed, Wipes, Present;
    var ops, p := PlanAll(headers), Comps(headers[i].name);
    PlanAt(headers, i);
    EntryPlan(headers[i]);
    forall j | i < j < |ops| && ops[j].Whiteout?
      ensures !(ops[j].p <= p)
    {
      PlanAt(headers, j);
      if ops[j].p <= p {
        WipesIff(headers[j], p);
      }
    }
    KeptByEntry(ops, i);
  }

  lemma UnwipedIsKeepers(headers: seq<Header>, i: nat)
    requires WellFormed(PlanAll(headers)) && i < |headers| && Entry(headers[i]) && headers[i].kind.TypeReg?
    requires forall j :: i < j < |headers| ==> !Wipes(headers[j], Comps(headers[i].name))
    ensures Keeps(PlanAll(headers), Comps(headers[i].name))
  {
    hide *;
    UnwipedIsPresent(headers, i);
    KeptIsPresent(PlanAll(headers), Comps(headers[i].name));
  }

  /** So it is there at the end of a pass. */
  lemma {:induction false} UnwipedIsKept(headers: seq<Header>, fs: Fs, i: nat)
    requires WellFormed(PlanAll(headers)) && Leftover(PlanAll(headers), fs) && i < |headers| && Entry(headers[i])
    requires headers[i].kind.TypeReg? || headers[i].kind.TypeSymlink? || headers[i].kind.TypeDir?
    requires forall j :: i < j < |headers| ==> !Wipes(headers[j], Comps(headers[i].name))
    ensures Comps(headers[i].name) in Extraction(fs, headers).fs.nodes
  {
    hide Run, Comps, Entry, WellFormed, Leftover, Wipes, Present;
    var ops := PlanAll(headers);
    UnwipedIsPresent(headers, i);
    PassShows(ops, fs);
    assert ViewOf(Run(fs, ops, |ops|).fs).Keys == Run(fs, ops, |ops|).fs.nodes.Keys;
  }

  lemma KeptByEntry(ops: seq<LayerOp>, i: nat)
    requires StaysInside(ops) || WellFormed(ops)
    requires i < |ops| && (ops[i].Write? || ops[i].SymLink? || ops[i].MkDir?)
    requires forall j :: i < j < |ops| && ops[j].Whiteout? ==> !(ops[j].p <= ops[i].p)
    ensures ops[i].p in Present(ops, |ops|)
  {
    assert NotWiped(ops, i, |ops|, ops[i].p);
    KeptIff(ops, |ops|, ops[i].p);
  }

  // ---- what the specification makes of it

  /** One header's changeset over any view of an image below. */
  function Changed(low: View, h: Header): View { ApplyChangeset(low, MeantAll([h])) }

  lemma MeantOne(h: Header)
    ensures MeantAll([h]) == [Meant(h)]
  {
    assert [h][1..] == [];
    assert MeantAll([]) == [];
  }

  /** The entry appears with its header's content, type or link name, whatever was there. */
  lemma {:induction false} MeaningShows(low: View, h: Header)
    requires !IsAbs(h.name) && Comps(h.name) != [] && Comps(h.name)[0] != ".." && !(".wh." <= Last(Comps(h.name)))
    ensures var p, after := Comps(h.name), Changed(low, h);
            && (h.kind.TypeReg? ==> p in after && after[p] == VFile(h.data))
            && (h.kind.TypeSymlink? ==> p in after && after[p] == VSym(h.linkname))
            && (h.kind.TypeDir? ==> p in after && after[p] == VDir)
            && (h.kind.TypeOther? ==> forall q :: q in after <==> q in low)
  {
    hide Comps;
    MeantOne(h);
    ChangeOne(low, Meant(h));
  }

  lemma ChangeOne(low: View, op: LayerOp)
    ensures ApplyChangeset(low, [op]) == AddEntry(Strip(low, [op]), op)
    ensures forall p :: Marked([op], p) <==> MarkedBy(op, p)
  {
    var v, ops := Strip(low, [op]), [op];
    assert AddAll(v, ops, 0) == v;
    assert AddAll(v, ops, 1) == AddEntry(AddAll(v, ops, 0), ops[0]);
    forall p
      ensures Marked(ops, p) <==> MarkedBy(op, p)
    {
      assert MarkedBy(ops[0], p) == MarkedBy(op, p);
    }
  }

  /** A whiteout hides exactly the sibling of the layers below, with everything in it. */
  lemma {:induction false} MeaningOfWhiteout(low: View, h: Header, x: string)
    requires WhiteoutFor(h, x)
    ensures forall q :: q in Changed(low, h) <==> q in low && !(Sibling(h, x) <= q)
    ensures forall q :: q in Changed(low, h) ==> Changed(low, h)[q] == low[q]
  {
    WhiteoutPlan(h, x);
    MeantOne(h);
    ChangeOne(low, Meant(h));
  }

  /** The opaque marker hides exactly what lies inside its directory. */
  lemma {:induction false} MeaningOfOpaque(low: View, h: Header)
    requires !IsAbs(h.name) && Comps(h.name) != [] && Comps(h.name)[0] != ".." && Last(Comps(h.name)) == ".wh..wh..opq"
    ensures var dir := Parent(Comps(h.name));
            forall q :: q in Changed(low, h) <==> q in low && !(dir <= q && q != dir)
    ensures forall q :: q in Changed(low, h) ==> Changed(low, h)[q] == low[q]
  {
    MeantOne(h);
    ChangeOne(low, Meant(h));
  }
}
