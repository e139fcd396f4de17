// What an entry leaves at its own path, over any tree and through any links, for a reader
// who resolves that path again afterwards.

module Delivered {
  import opened Strings
  import opened Paths
  import opened LayerOps
  import opened LayerTree
  import opened LinkedTree
  import opened LinkFree

  /** The path, with links followed, is a directory. */
  predicate LeadsToDir(nodes: map<Path, Node>, p: Path) { IsDir(nodes, Resolve(nodes, p, true)) }

  predicate IsDir(nodes: map<Path, Node>, at: Place) { at.At? && at.p in nodes && nodes[at.p] == Dir }

  /** Opening and reading the path gives this content. */
  predicate Reads(fs: Fs, p: Path, data: Bytes) {
    var at := Resolve(fs.nodes, p, true);
    && at.At? && at.p in fs.nodes && fs.nodes[at.p].File?
    && fs.nodes[at.p].ino in fs.data && fs.data[fs.nodes[at.p].ino] == data
  }

  /** The name itself is this node. */
  predicate IsNode(nodes: map<Path, Node>, p: Path, node: Node) {
    var at := Resolve(nodes, p, false);
    at.At? && at.p in nodes && nodes[at.p] == node
  }

  predicate Exists(nodes: map<Path, Node>, p: Path) {
    var at := Resolve(nodes, p, false);
    at.At? && at.p in nodes
  }

  // ---- a way through a tree, and through a larger one

  ghost predicate Within(small: map<Path, Node>, big: map<Path, Node>) {
    forall q :: q in small ==> q in big && big[q] == small[q]
  }

  /** A way that leads somewhere leads there in every larger tree, too. */
  lemma {:induction false} WayGrows(small: map<Path, Node>, big: map<Path, Node>, dir: Path, hops: seq<Hop>,
                                    last: bool, links: nat)
    requires Within(small, big) && Find(small, dir, hops, last, links).At?
    requires var q := Find(small, dir, hops, last, links).p; last && q in big && q !in small ==> !big[q].Sym?
    ensures Find(big, dir, hops, last, links) == Find(small, dir, hops, last, links)
    decreases links, |hops|
  {
    if hops != [] {
      match hops[0]
      case Here => WayGrows(small, big, dir, hops[1..], last, links);
      case Up => WayGrows(small, big, Parent(dir), hops[1..], last, links);
      case Name(n) =>
        var q := dir + [n];
        if q in small && !(|hops| == 1 && !last) {
          match small[q]
          case Dir => WayGrows(small, big, q, hops[1..], last, links);
          case File(_) =>
          case Sym(text) => WayGrows(small, big, dir, TextHops(text) + hops[1..], last, links - 1);
        }
    }
  }

  /** Following a last name makes no difference where it is no link. */
  lemma {:induction false} NoLinkLast(nodes: map<Path, Node>, dir: Path, hops: seq<Hop>, links: nat)
    requires var at := Find(nodes, dir, hops, false, links); at.At? && (at.p in nodes ==> !nodes[at.p].Sym?)
    ensures Find(nodes, dir, hops, true, links) == Find(nodes, dir, hops, false, links)
    decreases links, |hops|
  {
    if hops != [] {
      match hops[0]
      case Here => NoLinkLast(nodes, dir, hops[1..], links);
      case Up => NoLinkLast(nodes, Parent(dir), hops[1..], links);
      case Name(n) =>
        var q := dir + [n];
        if |hops| > 1 {
          match nodes[q]
          case Dir => NoLinkLast(nodes, q, hops[1..], links);
          case File(_) =>
          case Sym(text) => NoLinkLast(nodes, dir, TextHops(text) + hops[1..], links - 1);
        }
    }
  }

  lemma StepsLast(p: Path)
    requires p != []
    ensures Steps(p) == Steps(Parent(p)) + [Name(Base(p))]
  {
    if |p| > 1 {
      StepsLast(p[1..]);
      assert Parent(p)[1..] == Parent(p[1..]);
    }
  }

  ghost predicate DirsHold(nodes: map<Path, Node>) {
    && [] in nodes && nodes[[]] == Dir
    && forall q :: q in nodes && q != [] ==> Parent(q) in nodes && nodes[Parent(q)] == Dir
  }

  lemma DirUp(nodes: map<Path, Node>, dir: Path)
    requires DirsHold(nodes) && dir in nodes && dir != []
    ensures Parent(dir) in nodes && nodes[Parent(dir)] == Dir
  {
  }

  /** A way to a name goes through its directory. */
  lemma {:induction false} ThroughParent(nodes: map<Path, Node>, dir: Path, hops: seq<Hop>, n: string, last: bool,
                                         links: nat)
    requires DirsHold(nodes) && dir in nodes && nodes[dir] == Dir
    requires Find(nodes, dir, hops + [Name(n)], last, links).At?
    ensures IsDir(nodes, Find(nodes, dir, hops, true, links))
    decreases links, |hops|
  {
    hide DirsHold;
    if hops == [] {
      assert hops + [Name(n)] == [Name(n)];
    } else {
      var all := hops + [Name(n)];
      assert all[1..] == hops[1..] + [Name(n)];
      match hops[0]
      case Here => ThroughParent(nodes, dir, hops[1..], n, last, links);
      case Up =>
        if dir != [] {
          DirUp(nodes, dir);
          ThroughParent(nodes, Parent(dir), hops[1..], n, last, links);
        }
      case Name(m) =>
        var q := dir + [m];
        if q in nodes {
          match nodes[q]
          case Dir => ThroughParent(nodes, q, hops[1..], n, last, links);
          case File(_) =>
          case Sym(text) =>
            if links > 0 && !IsAbs(text) {
              assert (TextHops(text) + hops[1..]) + [Name(n)] == TextHops(text) + all[1..];
              ThroughParent(nodes, dir, TextHops(text) + hops[1..], n, last, links - 1);
            }
        }
    }
  }

  /** And from a directory a way leads on to any name. */
  lemma {:induction false} OntoName(nodes: map<Path, Node>, dir: Path, hops: seq<Hop>, n: string, links: nat)
    requires DirsHold(nodes) && dir in nodes && nodes[dir] == Dir
    requires IsDir(nodes, Find(nodes, dir, hops, true, links))
    ensures Find(nodes, dir, hops + [Name(n)], false, links) == At(Find(nodes, dir, hops, true, links).p + [n])
    decreases links, |hops|
  {
    hide DirsHold;
    if hops == [] {
      assert hops + [Name(n)] == [Name(n)];
    } else {
      var all := hops + [Name(n)];
      assert all[1..] == hops[1..] + [Name(n)];
      match hops[0]
      case Here => OntoName(nodes, dir, hops[1..], n, links);
      case Up =>
        if dir != [] {
          DirUp(nodes, dir);
          OntoName(nodes, Parent(dir), hops[1..], n, links);
        }
      case Name(m) =>
        var q := dir + [m];
        if q in nodes {
          match nodes[q]
          case Dir => OntoName(nodes, q, hops[1..], n, links);
          case File(_) =>
          case Sym(text) =>
            if links > 0 && !IsAbs(text) {
              assert (TextHops(text) + hops[1..]) + [Name(n)] == TextHops(text) + all[1..];
              OntoName(nodes, dir, TextHops(text) + hops[1..], n, links - 1);
            }
        }
    }
  }

  lemma ParentLeads(fs: Fs, p: Path, last: bool)
    requires Tree(fs) && p != []
    ensures Resolve(fs.nodes, p, last).At? ==> LeadsToDir(fs.nodes, Parent(p))
    ensures LeadsToDir(fs.nodes, Parent(p)) ==>
      Resolve(fs.nodes, p, false) == At(Resolve(fs.nodes, Parent(p), true).p + [Base(p)])
  {
    StepsLast(p);
    hide Find;
    assert DirsHold(fs.nodes);
    if Resolve(fs.nodes, p, last).At? {
      ThroughParent(fs.nodes, [], Steps(Parent(p)), Base(p), last, MAX_LINKS);
    }
    if LeadsToDir(fs.nodes, Parent(p)) {
      OntoName(fs.nodes, [], Steps(Parent(p)), Base(p), MAX_LINKS);
    }
  }

  // ---- directories

  /** A name that is put where a path leads is found there. */
  lemma PutIsFound(nodes: map<Path, Node>, p: Path, last: bool, node: Node)
    requires Resolve(nodes, p, last).At? && Resolve(nodes, p, last).p !in nodes && (last ==> !node.Sym?)
    ensures Resolve(nodes[Resolve(nodes, p, last).p := node], p, last) == Resolve(nodes, p, last)
  {
    WayGrows(nodes, nodes[Resolve(nodes, p, last).p := node], [], Steps(p), last, MAX_LINKS);
  }

  lemma MkdirDelivers(fs: Fs, p: Path)
    requires Tree(fs) && Mkdir(fs.nodes, p).ok
    ensures LeadsToDir(Mkdir(fs.nodes, p).nodes, p)
  {
    var made, at := Mkdir(fs.nodes, p).nodes, Resolve(fs.nodes, p, false);
    if at.p !in fs.nodes {
      PutIsFound(fs.nodes, p, false, Dir);
    }
    NoLinkLast(made, [], Steps(p), MAX_LINKS);
  }

  predicate Missing(nodes: map<Path, Node>, p: Path) {
    var at := Resolve(nodes, p, true);
    !(at.At? && at.p in nodes)
  }

  lemma RootIsThere(fs: Fs)
    requires Tree(fs)
    ensures !Missing(fs.nodes, []) && LeadsToDir(fs.nodes, [])
  {
  }

  lemma MkdirAllUnfolds(nodes: map<Path, Node>, p: Path)
    requires p != [] && Missing(nodes, p)
    ensures var up := MkdirAll(nodes, Parent(p)); MkdirAll(nodes, p) == if up.ok then Mkdir(up.nodes, p) else up
  {
  }

  lemma MkdirAllFinds(nodes: map<Path, Node>, p: Path)
    requires !Missing(nodes, p)
    ensures MkdirAll(nodes, p) == Made(nodes, LeadsToDir(nodes, p))
  {
  }

  lemma LinkInTheWay(nodes: map<Path, Node>, p: Path)
    requires Resolve(nodes, p, false).At? && Resolve(nodes, p, false).p in nodes
    requires nodes[Resolve(nodes, p, false).p].Sym?
    ensures Mkdir(nodes, p) == Made(nodes, false)
  {
  }

  /** Once the missing parent is made, mkdir finds a free name. */
  lemma {:induction false} ParentIsReady(fs: Fs, p: Path)
    requires Tree(fs) && p != [] && Missing(fs.nodes, p) && MkdirAll(fs.nodes, Parent(p)).ok
    ensures var up := MkdirAll(fs.nodes, Parent(p)).nodes;
            var at := Resolve(up, p, false);
            && LeadsToDir(up, Parent(p)) && at.At?
            && (at.p !in up || (up == fs.nodes && up[at.p].Sym?))
    decreases |p|
  {
    hide Resolve, Mkdir, MkdirAll, Tree;
    var dir := Parent(p);
    var up := fs.(nodes := MkdirAll(fs.nodes, dir).nodes);
    MkdirTree(fs, dir);
    RootIsThere(fs);
    if Missing(fs.nodes, dir) {
      MkdirAllUnfolds(fs.nodes, dir);
      ParentIsReady(fs, dir);
      var above := fs.(nodes := MkdirAll(fs.nodes, Parent(dir)).nodes);
      MkdirTree(fs, Parent(dir));
      MkdirDelivers(above, dir);
      var at := Resolve(above.nodes, dir, false);
      if at.p in above.nodes {
        LinkInTheWay(above.nodes, dir);
      }
      NewIsEmpty(above, dir, Base(p));
      ParentLeads(up, p, false);
    } else {
      MkdirAllFinds(fs.nodes, dir);
      ParentLeads(fs, p, false);
      NotMissing(fs.nodes, p);
    }
  }

  lemma NotMissing(nodes: map<Path, Node>, p: Path)
    requires Missing(nodes, p)
    ensures var at := Resolve(nodes, p, false); at.At? && at.p in nodes ==> nodes[at.p].Sym?
  {
    var at := Resolve(nodes, p, false);
    if at.At? && at.p in nodes && !nodes[at.p].Sym? {
      NoLinkLast(nodes, [], Steps(p), MAX_LINKS);
    }
  }

  /** A directory that mkdir has made has nothing in it. */
  lemma NewIsEmpty(fs: Fs, p: Path, n: string)
    requires Tree(fs) && Mkdir(fs.nodes, p).ok
    requires Resolve(fs.nodes, p, false).At? && Resolve(fs.nodes, p, false).p !in fs.nodes
    ensures var made := Mkdir(fs.nodes, p).nodes;
            Resolve(made, p, true).At? && Resolve(made, p, true).p + [n] !in made
  {
    var q := Resolve(fs.nodes, p, false).p;
    PutIsFound(fs.nodes, p, false, Dir);
    NoLinkLast(Mkdir(fs.nodes, p).nodes, [], Steps(p), MAX_LINKS);
    assert Parent(q + [n]) == q;
  }

  /** os.MkdirAll succeeds exactly if the path leads to a directory afterwards. */
  lemma {:induction false} DirDelivered(fs: Fs, p: Path)
    requires Tree(fs)
    ensures MkdirAll(fs.nodes, p).ok <==> LeadsToDir(MkdirAll(fs.nodes, p).nodes, p)
    decreases |p|
  {
    hide Resolve, Mkdir, MkdirAll, Tree;
    RootIsThere(fs);
    if !Missing(fs.nodes, p) {
      MkdirAllFinds(fs.nodes, p);
    } else {
      MkdirAllUnfolds(fs.nodes, p);
      DirDelivered(fs, Parent(p));
      var up := fs.(nodes := MkdirAll(fs.nodes, Parent(p)).nodes);
      MkdirTree(fs, Parent(p));
      if MkdirAll(fs.nodes, Parent(p)).ok {
        ParentIsReady(fs, p);
        MkdirResult(up, fs, p);
      } else {
        ParentLeads(up, p, true);
      }
    }
  }

  lemma MkdirResult(up: Fs, fs: Fs, p: Path)
    requires Tree(up) && Missing(fs.nodes, p)
    requires var at := Resolve(up.nodes, p, false);
             at.At? && (at.p !in up.nodes || (up.nodes == fs.nodes && up.nodes[at.p].Sym?))
    ensures Mkdir(up.nodes, p).ok <==> LeadsToDir(Mkdir(up.nodes, p).nodes, p)
  {
    if Mkdir(up.nodes, p).ok {
      MkdirDelivers(up, p);
    }
  }

  // ---- files

  /** A regular file's step succeeds exactly if reading its path afterwards gives its content. */
  lemma {:induction false} FileDelivered(fs: Fs, p: Path, data: Bytes)
    requires Tree(fs)
    ensures ApplyOp(fs, Write(p, data)).ok <==> Reads(ApplyOp(fs, Write(p, data)).fs, p, data)
  {
    if p != [] {
      hide Resolve, MkdirAll, OpenThrough, Tree;
      var made := fs.(nodes := MkdirAll(fs.nodes, Parent(p)).nodes);
      DirDelivered(fs, Parent(p));
      MkdirTree(fs, Parent(p));
      if MkdirAll(fs.nodes, Parent(p)).ok {
        OpenDelivers(made, p, data);
      } else {
        ParentLeads(made, p, true);
      }
    } else {
      RootIsThere(fs);
    }
  }

  lemma OpenDelivers(fs: Fs, p: Path, data: Bytes)
    ensures OpenThrough(fs, p, data).ok <==> Reads(OpenThrough(fs, p, data).fs, p, data)
  {
    var at := Resolve(fs.nodes, p, true);
    if at.At? && at.p !in fs.nodes {
      PutIsFound(fs.nodes, p, true, File(fs.next));
    }
  }

  // ---- links and markers

  /** Once a name is cleared, at most a directory with something in it is left there. */
  lemma NameIsFree(nodes: map<Path, Node>, p: Path)
    requires p != []
    ensures var cleared := ClearedName(nodes, p);
            var at := Resolve(cleared, p, false);
            at.At? && at.p in cleared ==> cleared[at.p] == Dir && HasChild(cleared, at.p)
  {
    hide MkdirAll, HasChild;
    var made := MkdirAll(nodes, Parent(p)).nodes;
    var cleared := Unlink(made, p);
    if Resolve(cleared, p, false).At? {
      WayGrows(cleared, made, [], Steps(p), false, MAX_LINKS);
    }
  }

  /** A symbolic link's step succeeds exactly if the name is that link afterwards. */
  lemma {:induction false} SymlinkDelivered(fs: Fs, p: Path, text: string)
    requires Tree(fs)
    ensures ApplyOp(fs, SymLink(p, text)).ok <==> IsNode(ApplyOp(fs, SymLink(p, text)).fs.nodes, p, Sym(text))
  {
    if p != [] {
      hide Resolve, ClearedName, HasChild;
      var cleared := ClearedName(fs.nodes, p);
      NameIsFree(fs.nodes, p);
      if Resolve(cleared, p, false).At? && Resolve(cleared, p, false).p !in cleared {
        PutIsFound(cleared, p, false, Sym(text));
      }
    } else {
      RootIsThere(fs);
    }
  }

  /**
   A hard link's step reports nothing. But where the source is a file or a link, and the
   name can be had, the name is the same file or the same link afterwards.
   */
  lemma {:induction false} HardLinkDelivered(fs: Fs, p: Path, src: Path)
    requires p != []
    ensures ApplyOp(fs, HardLink(p, src)).ok
    ensures var nodes := ApplyOp(fs, HardLink(p, src)).fs.nodes;
            var source, name := Resolve(nodes, src, false), Resolve(nodes, p, false);
            Exists(nodes, src) && nodes[source.p] != Dir && name.At? ==>
              name.p in nodes
              && (nodes[name.p] == nodes[source.p] || (nodes[name.p] == Dir && HasChild(nodes, name.p)))
  {
    hide Resolve, ClearedName, HasChild;
    var cleared := ClearedName(fs.nodes, p);
    NameIsFree(fs.nodes, p);
    var source, name := Resolve(cleared, src, false), Resolve(cleared, p, false);
    if source.At? && source.p in cleared && cleared[source.p] != Dir && name.At? && name.p !in cleared {
      var node := cleared[source.p];
      PutIsFound(cleared, p, false, node);
      SourceStays(cleared, cleared[name.p := node], src);
    }
  }

  lemma SourceStays(small: map<Path, Node>, big: map<Path, Node>, p: Path)
    requires Within(small, big) && Resolve(small, p, false).At?
    ensures Resolve(big, p, false) == Resolve(small, p, false)
  {
    WayGrows(small, big, [], Steps(p), false, MAX_LINKS);
  }

  /** After a whiteout's step nothing is found at its path, and only what was there or below it is gone. */
  lemma {:induction false} WhiteoutDelivered(fs: Fs, p: Path)
    requires Tree(fs)
    ensures var after := ApplyOp(fs, Whiteout(p)).fs;
            && !Exists(after.nodes, p)
            && (forall q :: q in after.nodes ==> q in fs.nodes && after.nodes[q] == fs.nodes[q])
            && (forall q :: q in fs.nodes && q !in after.nodes ==>
                  Exists(fs.nodes, p) && Resolve(fs.nodes, p, false).p <= q)
  {
    var at := Resolve(fs.nodes, p, false);
    var after := ApplyOp(fs, Whiteout(p)).fs.nodes;
    if Resolve(after, p, false).At? {
      WayGrows(after, fs.nodes, [], Steps(p), false, MAX_LINKS);
    }
    forall q | q in fs.nodes && q !in after
      ensures Exists(fs.nodes, p) && at.p <= q
    {
      if at.p != q {
        TreeAbove(fs, q, at.p);
      }
    }
  }

  // ---- how many links are followed

  /** Each name is a link to the next, and the last is a directory. */
  ghost predicate Chain(nodes: map<Path, Node>, names: seq<string>) {
    && names != []
    && (forall i :: 0 <= i < |names| ==> PlainName(names[i]))
    && (forall i :: 0 <= i < |names| - 1 ==> [names[i]] in nodes && nodes[[names[i]]] == Sym(names[i + 1]))
    && [names[|names| - 1]] in nodes && nodes[[names[|names| - 1]]] == Dir
  }

  lemma OneHop(name: string)
    requires PlainName(name)
    ensures TextHops(name) == [Name(name)] && !IsAbs(name)
  {
    SplitNone(name, '/');
    assert [name][1..] == [];
    assert HopsOf([name]) == [HopOf(name)] + HopsOf([]);
  }

  lemma {:induction false} ChainEnds(nodes: map<Path, Node>, names: seq<string>, links: nat)
    requires Chain(nodes, names)
    ensures Find(nodes, [], [Name(names[0])], true, links) ==
      if |names| - 1 <= links then At([names[|names| - 1]]) else Nowhere
    decreases |names|
  {
    assert [] + [names[0]] == [names[0]];
    assert [Name(names[0])][1..] == [];
    if |names| > 1 {
      OneHop(names[1]);
      assert TextHops(names[1]) + [] == [Name(names[1])];
      if links > 0 {
        ChainEnds(nodes, names[1..], links - 1);
      }
    }
  }

  /** Forty links in a row are followed, and not one more. */
  lemma {:induction false} FortyLinks(nodes: map<Path, Node>, names: seq<string>)
    requires Chain(nodes, names)
    ensures LeadsToDir(nodes, [names[0]]) <==> |names| <= 41
  {
    ChainEnds(nodes, names, MAX_LINKS);
    assert Steps([names[0]]) == [Name(names[0])] by {
      assert [names[0]][1..] == [];
    }
  }
}
