// Extraction as the kernel sees it: a path is resolved name by name, and a symbolic link
// that is met on the way is followed. And when that makes no difference.

module LinkedTree {
  import opened Strings
  import opened Paths
  import opened LayerOps
  import opened LayerTree

  /** A step of path resolution: down to a name, up to the parent, or nowhere. */
  datatype Hop = Name(name: string) | Up | Here

  function HopOf(c: string): Hop { if c == "" || c == "." then Here else if c == ".." then Up else Name(c) }

  function HopsOf(comps: seq<string>): seq<Hop> {
    if comps == [] then [] else [HopOf(comps[0])] + HopsOf(comps[1..])
  }

  /** The steps that a link's text stands for. */
  function TextHops(text: string): seq<Hop> { HopsOf(Split(text, '/')) }

  function Steps(p: Path): seq<Hop> {
    if p == [] then [] else [Name(p[0])] + Steps(p[1..])
  }

  /** Where a path leads: to a name in a directory, which need not exist; to an error; or out of the tree. */
  datatype Place = At(p: Path) | Nowhere | Away

  const MAX_LINKS := 40

  /** Path resolution from a directory; a link that is the last name is followed only if asked for. */
  function Find(nodes: map<Path, Node>, dir: Path, hops: seq<Hop>, last: bool, links: nat): Place
    decreases links, |hops|
  {
    if hops == [] then At(dir)
    else
      match hops[0]
      case Here => Find(nodes, dir, hops[1..], last, links)
      case Up => if dir == [] then Away else Find(nodes, Parent(dir), hops[1..], last, links)
      case Name(n) =>
        var q := dir + [n];
        if |hops| == 1 && (!last || q !in nodes) then At(q)
        else if q !in nodes then Nowhere
        else
          match nodes[q]
          case Dir => Find(nodes, q, hops[1..], last, links)
          case File(_) => if |hops| == 1 then At(q) else Nowhere
          case Sym(text) =>
            if links == 0 then Nowhere
            else if IsAbs(text) then Away
            else Find(nodes, dir, TextHops(text) + hops[1..], last, links - 1)
  }

  function Resolve(nodes: map<Path, Node>, p: Path, last: bool): Place { Find(nodes, [], Steps(p), last, MAX_LINKS) }

  datatype Made = Made(nodes: map<Path, Node>, ok: bool)

  /** The mkdir inside os.MkdirAll: a directory that is there already will do. */
  function Mkdir(nodes: map<Path, Node>, p: Path): Made {
    match Resolve(nodes, p, false)
    case At(q) => if q in nodes then Made(nodes, nodes[q] == Dir) else Made(nodes[q := Dir], true)
    case _ => Made(nodes, false)
  }

  /** os.MkdirAll: stat, then the parent, then mkdir. */
  function MkdirAll(nodes: map<Path, Node>, p: Path): Made
    decreases |p|
  {
    var there := Resolve(nodes, p, true);
    if there.At? && there.p in nodes then Made(nodes, nodes[there.p] == Dir)
    else if p == [] then Made(nodes, true)
    else
      var up := MkdirAll(nodes, Parent(p));
      if up.ok then Mkdir(up.nodes, p) else up
  }

  /** os.Remove */
  function Unlink(nodes: map<Path, Node>, p: Path): map<Path, Node> {
    match Resolve(nodes, p, false)
    case At(q) => Remove(nodes, q)
    case _ => nodes
  }

  /** os.OpenFile and the copy: a link that is the name itself is followed, too. */
  function OpenThrough(fs: Fs, p: Path, data: Bytes): Applied {
    match Resolve(fs.nodes, p, true)
    case At(q) => OpenAndWrite(fs, q, data)
    case _ => Applied(fs, false)
  }

  /** os.Symlink, and the end of os.Link: the name must be free. */
  function PutAt(fs: Fs, p: Path, node: Node): Applied {
    match Resolve(fs.nodes, p, false)
    case At(q) => if q in fs.nodes then Applied(fs, false) else Applied(fs.(nodes := fs.nodes[q := node]), true)
    case _ => Applied(fs, false)
  }

  /** The parents made and the name freed, as far as possible. */
  function ClearedName(nodes: map<Path, Node>, p: Path): map<Path, Node>
    requires p != []
  {
    Unlink(MkdirAll(nodes, Parent(p)).nodes, p)
  }

  /** os.Link, whose errors are ignored; a source that is a link is not followed. */
  function LinkAt(fs: Fs, p: Path, src: Path): Fs {
    match Resolve(fs.nodes, src, false)
    case At(s) => if s in fs.nodes && fs.nodes[s] != Dir then PutAt(fs, p, fs.nodes[s]).fs else fs
    case _ => fs
  }

  /**
   One iteration of extractLayer's loop; not ok means that it returns an error. A step that
   leads out of the tree does nothing here.
   */
  function ApplyOp(fs: Fs, op: LayerOp): Applied {
    match op
    case Skip => Applied(fs, true)
    case Opaque(_) => Applied(fs, true)
    case Outside => Applied(fs, true)
    case Whiteout(p) => Applied(fs.(nodes := RemovedAt(fs.nodes, p)), true)
    case MkDir(p) =>
      var made := MkdirAll(fs.nodes, p);
      Applied(fs.(nodes := made.nodes), made.ok)
    case Write(p, data) =>
      if p == [] then Applied(fs, false)
      else
        var made := MkdirAll(fs.nodes, Parent(p));
        if made.ok then OpenThrough(fs.(nodes := made.nodes), p, data) else Applied(fs.(nodes := made.nodes), false)
    case SymLink(p, text) =>
      if p == [] then Applied(fs, false) else PutAt(fs.(nodes := ClearedName(fs.nodes, p)), p, Sym(text))
    case HardLink(p, src) =>
      if p == [] then Applied(fs, true) else Applied(LinkAt(fs.(nodes := ClearedName(fs.nodes, p)), p, src), true)
  }

  /** os.RemoveAll, whose errors are ignored. */
  function RemovedAt(nodes: map<Path, Node>, p: Path): map<Path, Node> {
    match Resolve(nodes, p, false)
    case At(q) => RemoveAll(nodes, q)
    case _ => nodes
  }

  /** The loop over the first n entries; it stops at the first error. */
  function Run(fs: Fs, ops: seq<LayerOp>, n: nat): Applied
    requires n <= |ops|
  {
    if n == 0 then Applied(fs, true)
    else
      var before := Run(fs, ops, n - 1);
      if before.ok then ApplyOp(before.fs, ops[n - 1]) else before
  }

  /** The tree an interrupted entry leaves behind. */
  function Torn(fs: Fs, op: LayerOp, tear: Tear): Fs {
    match op
    case Whiteout(p) =>
      match Resolve(fs.nodes, p, false) {
        case At(q) => fs.(nodes := RemoveSome(fs.nodes, q, tear.gone))
        case _ => fs
      }
    case MkDir(p) => fs.(nodes := MkdirAll(fs.nodes, Upto(p, tear.made)).nodes)
    case Write(p, data) =>
      if p == [] then fs
      else if !tear.began then fs.(nodes := MkdirAll(fs.nodes, Upto(Parent(p), tear.made)).nodes)
      else
        var made := MkdirAll(fs.nodes, Parent(p));
        if !made.ok then fs.(nodes := made.nodes)
        else OpenThrough(fs.(nodes := made.nodes), p, if tear.written <= |data| then data[..tear.written] else data).fs
    case SymLink(p, _) => TornLink(fs, p, tear)
    case HardLink(p, _) => TornLink(fs, p, tear)
    case _ => fs
  }

  function TornLink(fs: Fs, p: Path, tear: Tear): Fs {
    if p == [] then fs
    else if !tear.began then fs.(nodes := MkdirAll(fs.nodes, Upto(Parent(p), tear.made)).nodes)
    else fs.(nodes := ClearedName(fs.nodes, p))
  }

  // ---- where resolution ends

  lemma {:induction false} TreeAbove(fs: Fs, p: Path, q: Path)
    requires Tree(fs) && p in fs.nodes && q <= p && q != p
    ensures q in fs.nodes && fs.nodes[q] == Dir
  {
    if q != Parent(p) {
      TreeAbove(fs, Parent(p), q);
    }
  }

  /** A directory to put a name into. */
  predicate Roomy(nodes: map<Path, Node>, q: Path) { q != [] && Parent(q) in nodes && nodes[Parent(q)] == Dir }

  /** Resolution ends at the root or in a directory that exists. */
  lemma {:induction false} FindEnds(fs: Fs, dir: Path, hops: seq<Hop>, last: bool, links: nat)
    requires Tree(fs) && dir in fs.nodes && fs.nodes[dir] == Dir
    ensures var found := Find(fs.nodes, dir, hops, last, links);
            found.At? && found.p != [] ==> Roomy(fs.nodes, found.p)
    decreases links, |hops|
  {
    if hops != [] {
      match hops[0]
      case Here => FindEnds(fs, dir, hops[1..], last, links);
      case Up =>
        if dir != [] {
          FindEnds(fs, Parent(dir), hops[1..], last, links);
        }
      case Name(n) =>
        var q := dir + [n];
        if q in fs.nodes {
          match fs.nodes[q]
          case Dir => FindEnds(fs, q, hops[1..], last, links);
          case File(_) =>
          case Sym(text) =>
            if links > 0 && !IsAbs(text) {
              FindEnds(fs, dir, TextHops(text) + hops[1..], last, links - 1);
            }
        }
    }
  }

  lemma {:induction false} StepsEnd(p: Path)
    ensures |Steps(p)| == |p|
    ensures p != [] ==> Steps(p)[|p| - 1] == Name(p[|p| - 1])
  {
    if p != [] {
      StepsEnd(p[1..]);
    }
  }

  /** A last name that is not followed is a name in some directory. */
  lemma {:induction false} FindEndsInName(nodes: map<Path, Node>, dir: Path, hops: seq<Hop>, links: nat)
    requires hops != [] && hops[|hops| - 1].Name?
    ensures Find(nodes, dir, hops, false, links) != At([])
    decreases links, |hops|
  {
    match hops[0]
    case Here => FindEndsInName(nodes, dir, hops[1..], links);
    case Up =>
      if dir != [] {
        FindEndsInName(nodes, Parent(dir), hops[1..], links);
      }
    case Name(n) =>
      var q := dir + [n];
      if |hops| > 1 && q in nodes {
        match nodes[q]
        case Dir => FindEndsInName(nodes, q, hops[1..], links);
        case File(_) =>
        case Sym(text) =>
          if links > 0 && !IsAbs(text) {
            var more := TextHops(text) + hops[1..];
            assert more[|more| - 1] == hops[|hops| - 1];
            FindEndsInName(nodes, dir, more, links - 1);
          }
      }
  }

  lemma ResolveEnds(fs: Fs, p: Path, last: bool)
    requires Tree(fs)
    ensures var place := Resolve(fs.nodes, p, last);
            && (place.At? && place.p != [] ==> Roomy(fs.nodes, place.p))
            && (p != [] && !last && place.At? ==> place.p != [])
  {
    FindEnds(fs, [], Steps(p), last, MAX_LINKS);
    StepsEnd(p);
    if p != [] {
      FindEndsInName(fs.nodes, [], Steps(p), MAX_LINKS);
    }
  }

  // ---- without links on the way, a path leads where it says

  /** No symbolic link lies strictly above p. */
  ghost predicate NoLinkAbove(nodes: map<Path, Node>, p: Path) {
    forall q :: q <= p && q != p && q in nodes ==> !nodes[q].Sym?
  }

  ghost predicate NoLinkAt(nodes: map<Path, Node>, p: Path) { NoLinkAbove(nodes, p) && (p in nodes ==> !nodes[p].Sym?) }

  lemma FindDir(nodes: map<Path, Node>, dir: Path, n: string, hops: seq<Hop>, last: bool, links: nat)
    requires dir + [n] in nodes && nodes[dir + [n]] == Dir
    ensures Find(nodes, dir, [Name(n)] + hops, last, links) == Find(nodes, dir + [n], hops, last, links)
  {
    assert ([Name(n)] + hops)[1..] == hops;
  }

  lemma FindLast(nodes: map<Path, Node>, dir: Path, n: string, last: bool, links: nat)
    requires last && dir + [n] in nodes ==> !nodes[dir + [n]].Sym?
    ensures Find(nodes, dir, [Name(n)], last, links) == At(dir + [n])
  {
    assert [Name(n)][1..] == [];
  }

  lemma FindStops(nodes: map<Path, Node>, dir: Path, n: string, hops: seq<Hop>, last: bool, links: nat)
    requires hops != [] && (dir + [n] in nodes ==> nodes[dir + [n]].File?)
    ensures Find(nodes, dir, [Name(n)] + hops, last, links) == Nowhere
  {
    assert |[Name(n)] + hops| > 1;
  }

  lemma NothingUnder(fs: Fs, q: Path, p: Path)
    requires Tree(fs) && q <= p && q != p && !(q in fs.nodes && fs.nodes[q] == Dir)
    ensures !Roomy(fs.nodes, p)
  {
    if Roomy(fs.nodes, p) && q != Parent(p) {
      TreeAbove(fs, Parent(p), q);
    }
  }

  lemma {:induction false} FindPlain(fs: Fs, dir: Path, rest: Path, last: bool, links: nat)
    requires Tree(fs) && dir in fs.nodes && fs.nodes[dir] == Dir
    requires NoLinkAbove(fs.nodes, dir + rest) && (last ==> NoLinkAt(fs.nodes, dir + rest))
    ensures Find(fs.nodes, dir, Steps(rest), last, links) ==
      if rest == [] || Roomy(fs.nodes, dir + rest) then At(dir + rest) else Nowhere
    decreases |rest|
  {
    var p := dir + rest;
    if rest == [] {
      assert p == dir;
    } else {
      hide Find, Tree;
      var q := dir + [rest[0]];
      StepsEnd(rest[1..]);
      assert Steps(rest) == [Name(rest[0])] + Steps(rest[1..]);
      assert q + rest[1..] == p && q <= p;
      if |rest| == 1 {
        assert q == p && Parent(p) == dir && Steps(rest) == [Name(rest[0])];
        FindLast(fs.nodes, dir, rest[0], last, links);
      } else if q in fs.nodes && fs.nodes[q] == Dir {
        FindDir(fs.nodes, dir, rest[0], Steps(rest[1..]), last, links);
        FindPlain(fs, q, rest[1..], last, links);
      } else {
        FindStops(fs.nodes, dir, rest[0], Steps(rest[1..]), last, links);
        NothingUnder(fs, q, p);
      }
    }
  }

  lemma ResolvePlain(fs: Fs, p: Path, last: bool)
    requires Tree(fs) && NoLinkAbove(fs.nodes, p) && (last ==> NoLinkAt(fs.nodes, p))
    ensures Resolve(fs.nodes, p, last) == if p == [] || Roomy(fs.nodes, p) then At(p) else Nowhere
  {
    assert [] + p == p;
    FindPlain(fs, [], p, last, MAX_LINKS);
  }
}

module LinkFree {
  import opened LayerOps
  import opened LayerTree
  import opened LinkedTree
  import opened ExtractSteps

  // ---- every step, whole or torn, leaves a tree

  lemma PlacedTree(fs: Fs, q: Path, node: Node)
    requires Tree(fs) && Roomy(fs.nodes, q) && q !in fs.nodes && (node.File? ==> node.ino in fs.data)
    ensures Tree(fs.(nodes := fs.nodes[q := node]))
  {
  }

  lemma RemoveTree(fs: Fs, q: Path)
    requires Tree(fs) && q != []
    ensures Tree(fs.(nodes := Remove(fs.nodes, q))) && Tree(fs.(nodes := RemoveAll(fs.nodes, q)))
  {
    RemoveTakesAway(fs.nodes, q);
    RemoveAllTakesAway(fs.nodes, q);
  }

  lemma MkdirOneTree(fs: Fs, p: Path)
    requires Tree(fs) && p != []
    ensures Tree(fs.(nodes := Mkdir(fs.nodes, p).nodes))
  {
    ResolveEnds(fs, p, false);
    var at := Resolve(fs.nodes, p, false);
    if at.At? && at.p !in fs.nodes {
      PlacedTree(fs, at.p, Dir);
    }
  }

  lemma {:induction false} MkdirTree(fs: Fs, p: Path)
    requires Tree(fs)
    ensures Tree(fs.(nodes := MkdirAll(fs.nodes, p).nodes))
    decreases |p|
  {
    hide Tree, Mkdir, Resolve;
    if p != [] {
      MkdirTree(fs, Parent(p));
      MkdirOneTree(fs.(nodes := MkdirAll(fs.nodes, Parent(p)).nodes), p);
    }
  }

  lemma ClearedTree(fs: Fs, p: Path)
    requires Tree(fs) && p != []
    ensures Tree(fs.(nodes := ClearedName(fs.nodes, p)))
  {
    hide Tree, MkdirAll, Resolve, Remove;
    var made := fs.(nodes := MkdirAll(fs.nodes, Parent(p)).nodes);
    MkdirTree(fs, Parent(p));
    ResolveEnds(made, p, false);
    var at := Resolve(made.nodes, p, false);
    if at.At? {
      RemoveTree(made, at.p);
    }
  }

  lemma OpenedTree(fs: Fs, p: Path, data: Bytes)
    requires Tree(fs)
    ensures Tree(OpenThrough(fs, p, data).fs)
  {
    ResolveEnds(fs, p, true);
    var at := Resolve(fs.nodes, p, true);
    if at.At? && at.p !in fs.nodes {
      var grown := fs.(data := fs.data[fs.next := data], next := fs.next + 1);
      PlacedTree(grown, at.p, File(fs.next));
    }
  }

  lemma PutTree(fs: Fs, p: Path, node: Node)
    requires Tree(fs) && p != [] && (node.File? ==> node.ino in fs.data)
    ensures Tree(PutAt(fs, p, node).fs)
  {
    ResolveEnds(fs, p, false);
    var at := Resolve(fs.nodes, p, false);
    if at.At? && at.p !in fs.nodes {
      PlacedTree(fs, at.p, node);
    }
  }

  lemma LinkAtTree(fs: Fs, p: Path, src: Path)
    requires Tree(fs) && p != []
    ensures Tree(LinkAt(fs, p, src))
  {
    var at := Resolve(fs.nodes, src, false);
    if at.At? && at.p in fs.nodes {
      PutTree(fs, p, fs.nodes[at.p]);
    }
  }

  lemma RemovedTree(fs: Fs, p: Path, gone: set<Path>)
    requires Tree(fs) && p != []
    ensures Tree(fs.(nodes := RemovedAt(fs.nodes, p)))
    ensures Tree(Torn(fs, Whiteout(p), Tear(0, false, 0, gone)))
  {
    ResolveEnds(fs, p, false);
    var at := Resolve(fs.nodes, p, false);
    if at.At? {
      RemoveTree(fs, at.p);
      RemoveSomeTakesAway(fs.nodes, at.p, gone);
    }
  }

  lemma ApplyTree(fs: Fs, op: LayerOp)
    requires Tree(fs) && (op.Whiteout? ==> op.p != [])
    ensures Tree(ApplyOp(fs, op).fs)
  {
    hide Tree, MkdirAll, OpenThrough, PutAt, LinkAt, ClearedName, RemovedAt, Torn;
    match op
    case Whiteout(p) => RemovedTree(fs, p, {});
    case MkDir(p) => MkdirTree(fs, p);
    case Write(p, data) =>
      if p != [] {
        MkdirTree(fs, Parent(p));
        OpenedTree(fs.(nodes := MkdirAll(fs.nodes, Parent(p)).nodes), p, data);
      }
    case SymLink(p, text) =>
      if p != [] {
        ClearedTree(fs, p);
        PutTree(fs.(nodes := ClearedName(fs.nodes, p)), p, Sym(text));
      }
    case HardLink(p, src) =>
      if p != [] {
        ClearedTree(fs, p);
        LinkAtTree(fs.(nodes := ClearedName(fs.nodes, p)), p, src);
      }
    case _ =>
  }

  lemma TornTree(fs: Fs, op: LayerOp, tear: Tear)
    requires Tree(fs) && (op.Whiteout? ==> op.p != [])
    ensures Tree(Torn(fs, op, tear))
  {
    hide Tree, MkdirAll, OpenThrough, ClearedName, Resolve, RemoveSome;
    match op
    case Whiteout(p) => RemovedTree(fs, p, tear.gone);
    case MkDir(p) => MkdirTree(fs, Upto(p, tear.made));
    case Write(p, data) =>
      if p != [] {
        MkdirTree(fs, Upto(Parent(p), tear.made));
        MkdirTree(fs, Parent(p));
        OpenedTree(fs.(nodes := MkdirAll(fs.nodes, Parent(p)).nodes), p,
                   if tear.written <= |data| then data[..tear.written] else data);
      }
    case SymLink(p, _) => TornLinkTree(fs, p, tear);
    case HardLink(p, _) => TornLinkTree(fs, p, tear);
    case _ =>
  }

  lemma TornLinkTree(fs: Fs, p: Path, tear: Tear)
    requires Tree(fs)
    ensures Tree(TornLink(fs, p, tear))
  {
    if p != [] {
      ClearedTree(fs, p);
      MkdirTree(fs, Upto(Parent(p), tear.made));
    }
  }

  // ---- an entry that meets no link

  /** A path that exists in a tree blocks or not by itself. */
  lemma DirsThere(fs: Fs, p: Path)
    requires Tree(fs) && p in fs.nodes
    ensures PlainDirs(fs.nodes, p) == fs.nodes && (Blocked(fs.nodes, p) <==> fs.nodes[p] != Dir)
  {
    forall q | q <= p && q != p
      ensures q in fs.nodes && fs.nodes[q] == Dir
    {
      TreeAbove(fs, p, q);
    }
  }

  /** A path that does not exist is made below its parent. */
  lemma DirsBelow(nodes: map<Path, Node>, p: Path)
    requires p !in nodes && p != []
    ensures Blocked(nodes, p) <==> Blocked(nodes, Parent(p))
    ensures !Blocked(nodes, p) ==> PlainDirs(nodes, p) == PlainDirs(nodes, Parent(p))[p := Dir]
  {
    SplitPrefixes({}, p);
    assert Prefixes(p) == {} + Prefixes(p) && Prefixes(Parent(p)) == {} + Prefixes(Parent(p));
    forall q
      ensures q in Prefixes(p) <==> q in Prefixes(Parent(p)) || q == p
    {
    }
    assert WithDirs(nodes, p).Keys == WithDirs(nodes, Parent(p))[p := Dir].Keys by {
      forall q
        ensures q in WithDirs(nodes, p) <==> q in WithDirs(nodes, Parent(p))[p := Dir]
      {
        assert q <= p <==> q in Prefixes(p);
        assert q <= Parent(p) <==> q in Prefixes(Parent(p));
      }
    }
  }

  lemma PlainDirsTree(fs: Fs, p: Path)
    requires Tree(fs)
    ensures Tree(fs.(nodes := PlainDirs(fs.nodes, p)))
    ensures !Blocked(fs.nodes, p) ==> p in PlainDirs(fs.nodes, p) && PlainDirs(fs.nodes, p)[p] == Dir
    ensures forall q :: q in PlainDirs(fs.nodes, p) && PlainDirs(fs.nodes, p)[q] != Dir ==>
      q in fs.nodes && fs.nodes[q] == PlainDirs(fs.nodes, p)[q]
  {
    if !Blocked(fs.nodes, p) {
      WithDirsTree(fs, p);
      assert p in Prefixes(p);
    }
  }

  lemma MkdirAllThere(fs: Fs, p: Path)
    requires Tree(fs) && NoLinkAt(fs.nodes, p) && p in fs.nodes
    ensures MkdirAll(fs.nodes, p) == Made(fs.nodes, fs.nodes[p] == Dir)
  {
    ResolvePlain(fs, p, true);
  }

  /** Unfolding MkdirAll where the path does not exist yet. */
  lemma MkdirAllBelow(fs: Fs, p: Path)
    requires Tree(fs) && NoLinkAt(fs.nodes, p) && p !in fs.nodes
    ensures p != []
    ensures var up := MkdirAll(fs.nodes, Parent(p));
            MkdirAll(fs.nodes, p) == if up.ok then Mkdir(up.nodes, p) else up
  {
    ResolvePlain(fs, p, true);
  }

  lemma {:induction false} DirsPlain(fs: Fs, p: Path)
    requires Tree(fs) && NoLinkAt(fs.nodes, p)
    ensures MkdirAll(fs.nodes, p) == Made(PlainDirs(fs.nodes, p), !Blocked(fs.nodes, p))
    decreases |p|
  {
    hide MkdirAll, PlainDirs, Blocked, Tree;
    if p in fs.nodes {
      MkdirAllThere(fs, p);
      DirsThere(fs, p);
    } else {
      MkdirAllBelow(fs, p);
      DirsBelow(fs.nodes, p);
      DirsPlain(fs, Parent(p));
      BlockedStays(fs.nodes, p);
      BlockedStays(fs.nodes, Parent(p));
      if !Blocked(fs.nodes, Parent(p)) {
        OneDirPlain(fs, p);
      }
    }
  }

  lemma OneDirPlain(fs: Fs, p: Path)
    requires Tree(fs) && p != [] && p !in fs.nodes && NoLinkAt(fs.nodes, p) && !Blocked(fs.nodes, Parent(p))
    ensures Mkdir(PlainDirs(fs.nodes, Parent(p)), p) == Made(PlainDirs(fs.nodes, Parent(p))[p := Dir], true)
  {
    hide PlainDirs, Blocked, Resolve;
    var up := fs.(nodes := PlainDirs(fs.nodes, Parent(p)));
    PlainDirsTree(fs, Parent(p));
    ResolvePlain(up, p, false);
    StillFree(fs.nodes, p);
  }

  lemma StillFree(nodes: map<Path, Node>, p: Path)
    requires p !in nodes && p != []
    ensures p !in PlainDirs(nodes, Parent(p))
  {
  }

  lemma BlockedStays(nodes: map<Path, Node>, p: Path)
    ensures Blocked(nodes, p) ==> PlainDirs(nodes, p) == nodes
    ensures p != [] && Blocked(nodes, Parent(p)) ==> Blocked(nodes, p)
  {
    if p != [] && Blocked(nodes, Parent(p)) {
      var q :| q in Prefixes(Parent(p)) && q in nodes && nodes[q] != Dir;
      assert q in Prefixes(p);
    }
  }

  // Whatever the name: making its parents and freeing it.

  lemma NoNewLinks(a: map<Path, Node>, b: map<Path, Node>, p: Path)
    requires NoLinkAbove(a, p)
    requires forall q :: q in b && b[q] != Dir ==> q in a && a[q] == b[q]
    ensures NoLinkAbove(b, p) && (NoLinkAt(a, p) ==> NoLinkAt(b, p))
  {
  }

  lemma AboveParent(nodes: map<Path, Node>, p: Path)
    requires p != [] && NoLinkAbove(nodes, p)
    ensures NoLinkAt(nodes, Parent(p))
  {
  }

  lemma ClearedPlain(fs: Fs, p: Path)
    requires Tree(fs) && p != [] && NoLinkAbove(fs.nodes, p)
    ensures ClearedName(fs.nodes, p) == Remove(PlainDirs(fs.nodes, Parent(p)), p)
    ensures Tree(fs.(nodes := ClearedName(fs.nodes, p)))
    ensures forall q :: q in ClearedName(fs.nodes, p) && ClearedName(fs.nodes, p)[q] != Dir ==>
      q in fs.nodes && fs.nodes[q] == ClearedName(fs.nodes, p)[q]
  {
    hide PlainDirs, Blocked, Resolve, Tree, MkdirAll;
    var made := fs.(nodes := PlainDirs(fs.nodes, Parent(p)));
    AboveParent(fs.nodes, p);
    DirsPlain(fs, Parent(p));
    PlainDirsTree(fs, Parent(p));
    NoNewLinks(fs.nodes, made.nodes, p);
    ResolvePlain(made, p, false);
    RemoveTree(made, p);
    RemoveAbsent(made, p);
  }

  lemma RemoveAbsent(fs: Fs, p: Path)
    requires Tree(fs) && p != []
    ensures !Roomy(fs.nodes, p) ==> Remove(fs.nodes, p) == fs.nodes
    ensures forall q :: q in Remove(fs.nodes, p) ==> q in fs.nodes && Remove(fs.nodes, p)[q] == fs.nodes[q]
  {
  }

  lemma PutPlain(fs: Fs, p: Path, node: Node)
    requires Tree(fs) && p != [] && NoLinkAbove(fs.nodes, p)
    ensures PutAt(fs, p, node) ==
      if Room(fs.nodes, p) then Applied(fs.(nodes := fs.nodes[p := node]), true) else Applied(fs, false)
  {
    ResolvePlain(fs, p, false);
  }

  lemma LinkPlain(fs: Fs, p: Path, src: Path)
    requires Tree(fs) && p != [] && NoLinkAbove(fs.nodes, p) && NoLinkAbove(fs.nodes, src)
    ensures LinkAt(fs, p, src) ==
      if Room(fs.nodes, p) && src in fs.nodes && fs.nodes[src] != Dir
          then fs.(nodes := fs.nodes[p := fs.nodes[src]]) else fs
  {
    hide Resolve, PutAt;
    ResolvePlain(fs, src, false);
    if src in fs.nodes {
      PutPlain(fs, p, fs.nodes[src]);
    }
  }

  lemma OpenPlain(fs: Fs, p: Path, data: Bytes)
    requires Tree(fs) && p != [] && NoLinkAt(fs.nodes, p) && Roomy(fs.nodes, p)
    ensures OpenThrough(fs, p, data) == OpenAndWrite(fs, p, data)
  {
    ResolvePlain(fs, p, true);
  }

  lemma RemovedPlain(fs: Fs, p: Path, gone: set<Path>)
    requires Tree(fs) && p != [] && NoLinkAbove(fs.nodes, p)
    ensures RemovedAt(fs.nodes, p) == RemoveAll(fs.nodes, p)
    ensures Torn(fs, Whiteout(p), Tear(0, false, 0, gone)) == fs.(nodes := RemoveSome(fs.nodes, p, gone))
  {
    ResolvePlain(fs, p, false);
    if !Roomy(fs.nodes, p) {
      NothingBelow(fs, p);
      assert RemoveAll(fs.nodes, p) == fs.nodes && RemoveSome(fs.nodes, p, gone) == fs.nodes;
    }
  }

  lemma NothingBelow(fs: Fs, p: Path)
    requires Tree(fs) && p != [] && !Roomy(fs.nodes, p)
    ensures forall q :: q in fs.nodes ==> !(p <= q)
  {
    forall q | q in fs.nodes && p <= q
      ensures false
    {
      assert Parent(p) <= q && Parent(p) != q;
      TreeAbove(fs, q, Parent(p));
    }
  }

  /** The entry meets no symbolic link on its way, in this tree. */
  ghost predicate Straight(nodes: map<Path, Node>, op: LayerOp) {
    match op
    case Whiteout(p) => p != [] && NoLinkAbove(nodes, p)
    case MkDir(p) => NoLinkAt(nodes, p)
    case Write(p, _) => NoLinkAt(nodes, p)
    case SymLink(p, _) => NoLinkAbove(nodes, p)
    case HardLink(p, src) => NoLinkAbove(nodes, p) && NoLinkAbove(nodes, src)
    case _ => true
  }

  /** The open and the copy behind MkdirAll, whole or in part. */
  lemma OpenedPlain(fs: Fs, p: Path, data: Bytes)
    requires Tree(fs) && p != [] && NoLinkAt(fs.nodes, p)
    ensures MkdirAll(fs.nodes, Parent(p)) == Made(PlainDirs(fs.nodes, Parent(p)), !Blocked(fs.nodes, Parent(p)))
    ensures Blocked(fs.nodes, Parent(p)) ==> PlainDirs(fs.nodes, Parent(p)) == fs.nodes
    ensures !Blocked(fs.nodes, Parent(p)) ==>
      PlainDirs(fs.nodes, Parent(p)) == WithDirs(fs.nodes, Parent(p))
    ensures !Blocked(fs.nodes, Parent(p)) ==>
      OpenThrough(fs.(nodes := WithDirs(fs.nodes, Parent(p))), p, data)
        == OpenAndWrite(fs.(nodes := WithDirs(fs.nodes, Parent(p))), p, data)
  {
    hide Resolve, MkdirAll, OpenThrough, OpenAndWrite;
    var dir := Parent(p);
    AboveParent(fs.nodes, p);
    DirsPlain(fs, dir);
    PlainDirsTree(fs, dir);
    if !Blocked(fs.nodes, dir) {
      var made := fs.(nodes := WithDirs(fs.nodes, dir));
      NoNewLinks(fs.nodes, made.nodes, p);
      OpenPlain(made, p, data);
    }
  }

  lemma WriteIsPlain(fs: Fs, p: Path, data: Bytes)
    requires Tree(fs) && NoLinkAt(fs.nodes, p)
    ensures ApplyOp(fs, Write(p, data)) == PlainOp(fs, Write(p, data))
  {
    hide Resolve, MkdirAll, OpenThrough, OpenAndWrite, PlainDirs, Blocked, WithDirs, NoLinkAt, Tree;
    if p != [] {
      OpenedPlain(fs, p, data);
    }
  }

  /** Then following links makes no difference. */
  lemma {:induction false} OpIsPlain(fs: Fs, op: LayerOp)
    requires Tree(fs) && Straight(fs.nodes, op)
    ensures ApplyOp(fs, op) == PlainOp(fs, op)
  {
    hide Resolve, MkdirAll, OpenThrough, PutAt, LinkAt, ClearedName, RemovedAt, NoLinkAbove, Tree, Blocked;
    match op
    case Whiteout(p) => RemovedPlain(fs, p, {});
    case MkDir(p) => DirsPlain(fs, p);
    case Write(p, data) => WriteIsPlain(fs, p, data);
    case SymLink(p, text) =>
      if p != [] {
        ClearedPlain(fs, p);
        NoNewLinks(fs.nodes, ClearedName(fs.nodes, p), p);
        PutPlain(fs.(nodes := ClearedName(fs.nodes, p)), p, Sym(text));
      }
    case HardLink(p, src) =>
      if p != [] {
        ClearedPlain(fs, p);
        NoNewLinks(fs.nodes, ClearedName(fs.nodes, p), p);
        NoNewLinks(fs.nodes, ClearedName(fs.nodes, p), src);
        LinkPlain(fs.(nodes := ClearedName(fs.nodes, p)), p, src);
      }
    case _ =>
  }

  lemma UptoPlain(fs: Fs, p: Path, made: nat)
    requires Tree(fs) && NoLinkAt(fs.nodes, p)
    ensures MkdirAll(fs.nodes, Upto(p, made)).nodes == PlainDirs(fs.nodes, Upto(p, made))
  {
    DirsPlain(fs, Upto(p, made));
  }

  lemma TornWriteIsPlain(fs: Fs, p: Path, data: Bytes, tear: Tear)
    requires Tree(fs) && NoLinkAt(fs.nodes, p)
    ensures Torn(fs, Write(p, data), tear) == PlainTorn(fs, Write(p, data), tear)
  {
    hide Resolve, MkdirAll, OpenThrough, OpenAndWrite, PlainDirs, Blocked, WithDirs, NoLinkAt, Tree;
    if p != [] {
      OpenedPlain(fs, p, if tear.written <= |data| then data[..tear.written] else data);
      ParentPlain(fs, p, tear.made);
    }
  }

  lemma ParentPlain(fs: Fs, p: Path, made: nat)
    requires Tree(fs) && p != [] && NoLinkAt(fs.nodes, p)
    ensures MkdirAll(fs.nodes, Upto(Parent(p), made)).nodes == PlainDirs(fs.nodes, Upto(Parent(p), made))
  {
    AboveParent(fs.nodes, p);
    UptoPlain(fs, Parent(p), made);
  }

  lemma {:induction false} TornIsPlain(fs: Fs, op: LayerOp, tear: Tear)
    requires Tree(fs) && Straight(fs.nodes, op)
    ensures Torn(fs, op, tear) == PlainTorn(fs, op, tear)
  {
    hide Resolve, MkdirAll, OpenThrough, ClearedName, NoLinkAbove, Tree, Blocked, RemoveSome;
    match op
    case Whiteout(p) => RemovedPlain(fs, p, tear.gone);
    case MkDir(p) => UptoPlain(fs, p, tear.made);
    case Write(p, data) => TornWriteIsPlain(fs, p, data, tear);
    case SymLink(p, _) => TornLinkIsPlain(fs, p, tear);
    case HardLink(p, _) => TornLinkIsPlain(fs, p, tear);
    case _ =>
  }

  lemma TornLinkIsPlain(fs: Fs, p: Path, tear: Tear)
    requires Tree(fs) && NoLinkAbove(fs.nodes, p)
    ensures TornLink(fs, p, tear) == PlainTornLink(fs, p, tear)
  {
    if p != [] {
      AboveParent(fs.nodes, p);
      ClearedPlain(fs, p);
      UptoPlain(fs, Parent(p), tear.made);
    }
  }
}
