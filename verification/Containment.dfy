// When path resolution can leave the directory that a layer is extracted to.

module Containment {
  import opened Strings
  import opened Paths
  import opened LayerOps
  import opened LayerTree
  import opened LinkedTree
  import opened LinkFree
  import opened LayerShape
  import opened ExtractResume

  /** How far the steps climb before they go down. */
  function Climb(hops: seq<Hop>): nat {
    if hops == [] then 0
    else
      match hops[0]
      case Here => Climb(hops[1..])
      case Up => 1 + Climb(hops[1..])
      case Name(_) => 0
  }

  predicate NoUps(hops: seq<Hop>) { forall i :: 0 <= i < |hops| ==> !hops[i].Up? }

  /** As in a cleaned relative path, ".." comes only before the first name. */
  predicate UpsFirst(hops: seq<Hop>) { forall i, j :: 0 <= i < j < |hops| && hops[i].Name? ==> !hops[j].Up? }

  ghost predicate UpsFirstIn(nodes: map<Path, Node>) {
    forall q :: q in nodes && nodes[q].Sym? ==> UpsFirst(TextHops(nodes[q].text))
  }

  /** The link's text is relative and climbs no higher than the top of the tree. */
  predicate Tame(q: Path, text: string) { !IsAbs(text) && Climb(TextHops(text)) < |q| }

  ghost predicate AllTame(nodes: map<Path, Node>) {
    forall q :: q in nodes && nodes[q].Sym? ==> Tame(q, nodes[q].text)
  }

  lemma {:induction false} NoUpsNoClimb(hops: seq<Hop>)
    requires NoUps(hops)
    ensures Climb(hops) == 0
  {
    if hops != [] && hops[0].Here? {
      NoUpsNoClimb(hops[1..]);
    }
  }

  lemma {:induction false} ClimbConcat(a: seq<Hop>, b: seq<Hop>)
    requires NoUps(b)
    ensures Climb(a + b) == Climb(a)
  {
    if a == [] {
      assert a + b == b;
      NoUpsNoClimb(b);
    } else {
      assert (a + b)[1..] == a[1..] + b;
      ClimbConcat(a[1..], b);
    }
  }

  lemma UpsFirstConcat(a: seq<Hop>, b: seq<Hop>)
    requires UpsFirst(a) && NoUps(b)
    ensures UpsFirst(a + b)
  {
  }

  lemma UpsFirstTail(hops: seq<Hop>)
    requires hops != [] && UpsFirst(hops)
    ensures UpsFirst(hops[1..])
    ensures hops[0].Name? ==> NoUps(hops[1..])
  {
  }

  lemma ClimbTail(hops: seq<Hop>)
    requires hops != [] && UpsFirst(hops)
    ensures hops[0].Here? ==> Climb(hops) == Climb(hops[1..])
    ensures hops[0].Up? ==> Climb(hops) == 1 + Climb(hops[1..])
    ensures hops[0].Name? ==> Climb(hops[1..]) == 0
  {
    UpsFirstTail(hops);
    if hops[0].Name? {
      NoUpsNoClimb(hops[1..]);
    }
  }

  /** A tame link's steps, followed by names, do not climb above the link's directory. */
  lemma LinkSteps(nodes: map<Path, Node>, dir: Path, n: string, text: string, rest: seq<Hop>)
    requires UpsFirstIn(nodes) && AllTame(nodes) && dir + [n] in nodes && nodes[dir + [n]] == Sym(text) && NoUps(rest)
    ensures !IsAbs(text) && UpsFirst(TextHops(text) + rest) && Climb(TextHops(text) + rest) <= |dir|
  {
    assert Tame(dir + [n], text);
    UpsFirstConcat(TextHops(text), rest);
    ClimbConcat(TextHops(text), rest);
  }

  lemma {:induction false} FindStays(fs: Fs, dir: Path, hops: seq<Hop>, last: bool, links: nat)
    requires Tree(fs) && UpsFirstIn(fs.nodes) && AllTame(fs.nodes)
    requires UpsFirst(hops) && Climb(hops) <= |dir|
    ensures Find(fs.nodes, dir, hops, last, links) != Away
    decreases links, |hops|
  {
    hide Tree, UpsFirstIn, AllTame, UpsFirst, NoUps, TextHops, Climb;
    if hops != [] {
      UpsFirstTail(hops);
      ClimbTail(hops);
      match hops[0]
      case Here => FindStays(fs, dir, hops[1..], last, links);
      case Up => FindStays(fs, Parent(dir), hops[1..], last, links);
      case Name(n) =>
        var q := dir + [n];
        if q in fs.nodes {
          match fs.nodes[q]
          case Dir => FindStays(fs, q, hops[1..], last, links);
          case File(_) =>
          case Sym(text) =>
            LinkSteps(fs.nodes, dir, n, text, hops[1..]);
            if links > 0 {
              FindStays(fs, dir, TextHops(text) + hops[1..], last, links - 1);
            }
        }
    }
  }

  lemma {:induction false} StepsGoDown(p: Path)
    ensures NoUps(Steps(p)) && UpsFirst(Steps(p)) && Climb(Steps(p)) == 0
  {
    if p != [] {
      StepsGoDown(p[1..]);
    }
  }

  // ---- a link that is not tame leads out

  lemma {:induction false} ClimbsOut(nodes: map<Path, Node>, dir: Path, hops: seq<Hop>, last: bool, links: nat)
    requires Climb(hops) > |dir|
    ensures Find(nodes, dir, hops, last, links) == Away
    decreases |hops|
  {
    match hops[0]
    case Here => ClimbsOut(nodes, dir, hops[1..], last, links);
    case Up =>
      if dir != [] {
        ClimbsOut(nodes, Parent(dir), hops[1..], last, links);
      }
    case Name(_) =>
  }

  lemma {:induction false} StepsConcat(a: Path, b: Path)
    ensures Steps(a + b) == Steps(a) + Steps(b)
  {
    if a == [] {
      assert a + b == b;
    } else {
      assert (a + b)[1..] == a[1..] + b;
      StepsConcat(a[1..], b);
    }
  }

  /** Down through directories. */
  lemma {:induction false} FindDown(fs: Fs, dir: Path, rest: Path, hops: seq<Hop>, last: bool, links: nat)
    requires Tree(fs) && dir + rest in fs.nodes && fs.nodes[dir + rest] == Dir && hops != []
    ensures Find(fs.nodes, dir, Steps(rest) + hops, last, links) == Find(fs.nodes, dir + rest, hops, last, links)
    decreases |rest|
  {
    hide Find, Tree;
    if rest == [] {
      assert dir + rest == dir && Steps(rest) + hops == hops;
    } else {
      var q := dir + [rest[0]];
      assert q + rest[1..] == dir + rest;
      if rest[1..] != [] {
        TreeAbove(fs, dir + rest, q);
      } else {
        assert q == dir + rest;
      }
      assert Steps(rest) + hops == [Name(rest[0])] + (Steps(rest[1..]) + hops);
      FindDir(fs.nodes, dir, rest[0], Steps(rest[1..]) + hops, last, links);
      FindDown(fs, q, rest[1..], hops, last, links);
    }
  }

  lemma {:induction false} WildLinkLeadsOut(fs: Fs, q: Path, text: string, name: string)
    requires Tree(fs) && q in fs.nodes && fs.nodes[q] == Sym(text) && !Tame(q, text)
    ensures Resolve(fs.nodes, q + [name], false) == Away
  {
    var dir, base := Parent(q), q[|q| - 1];
    var hops := [Name(base), Name(name)];
    assert q + [name] == dir + [base, name] && dir + [base] == q;
    assert [base, name][1..] == [name] && [name][1..] == [];
    assert Steps([name]) == [Name(name)] + Steps([]);
    assert Steps([base, name]) == [Name(base)] + Steps([name]) == hops;
    StepsConcat(dir, [base, name]);
    assert [] + dir == dir;
    FindDown(fs, [], dir, hops, false, MAX_LINKS);
    assert hops[1..] == [Name(name)];
    if !IsAbs(text) {
      ClimbConcat(TextHops(text), hops[1..]);
      ClimbsOut(fs.nodes, dir, TextHops(text) + hops[1..], false, MAX_LINKS - 1);
    }
  }

  /** Some path of the tree leads out of it. */
  ghost predicate Leaves(nodes: map<Path, Node>) { exists p, last :: Resolve(nodes, p, last) == Away }

  /**
   In a tree whose links have ".." only in front: no path whatever leads out of the tree if
   and only if every link is relative and climbs no higher than the top.
   */
  lemma {:induction false} ContainedIff(fs: Fs)
    requires Tree(fs) && UpsFirstIn(fs.nodes)
    ensures Leaves(fs.nodes) <==> !AllTame(fs.nodes)
  {
    hide Tame, Find, Tree;
    if AllTame(fs.nodes) {
      forall p, last
        ensures Resolve(fs.nodes, p, last) != Away
      {
        StepsGoDown(p);
        FindStays(fs, [], Steps(p), last, MAX_LINKS);
      }
    } else {
      var q :| q in fs.nodes && fs.nodes[q].Sym? && !Tame(q, fs.nodes[q].text);
      WildLinkLeadsOut(fs, q, fs.nodes[q].text, "x");
    }
  }

  // ---- layers that cannot leave

  /** A relative text without "..". */
  predicate Descends(text: string) { !IsAbs(text) && NoUps(TextHops(text)) }

  ghost predicate AllDescend(nodes: map<Path, Node>) {
    forall q :: q in nodes && nodes[q].Sym? ==> Descends(nodes[q].text)
  }

  /** Whatever a step makes of the tree, its links are old ones or have the given text. */
  ghost predicate OldLinksOr(before: map<Path, Node>, after: map<Path, Node>, text: string) {
    forall q :: q in after && after[q].Sym? ==>
      after[q] == Sym(text) || exists r :: r in before && before[r] == after[q]
  }

  lemma {:induction false} MkdirAllLinks(nodes: map<Path, Node>, p: Path)
    ensures forall q :: q in MkdirAll(nodes, p).nodes && MkdirAll(nodes, p).nodes[q].Sym? ==>
      q in nodes && nodes[q] == MkdirAll(nodes, p).nodes[q]
    decreases |p|
  {
    hide Resolve;
    if p != [] {
      MkdirAllLinks(nodes, Parent(p));
    }
  }

  lemma ClearedLinks(nodes: map<Path, Node>, p: Path)
    requires p != []
    ensures forall q :: q in ClearedName(nodes, p) && ClearedName(nodes, p)[q].Sym? ==>
      q in nodes && nodes[q] == ClearedName(nodes, p)[q]
  {
    hide Resolve, MkdirAll;
    MkdirAllLinks(nodes, Parent(p));
  }

  lemma ApplyOpLinks(fs: Fs, op: LayerOp, text: string)
    requires op.SymLink? ==> text == op.text
    ensures OldLinksOr(fs.nodes, ApplyOp(fs, op).fs.nodes, text)
  {
    hide Resolve, MkdirAll, ClearedName;
    match op
    case MkDir(p) => MkdirAllLinks(fs.nodes, p);
    case Write(p, _) =>
      if p != [] {
        MkdirAllLinks(fs.nodes, Parent(p));
      }
    case SymLink(p, _) =>
      if p != [] {
        ClearedLinks(fs.nodes, p);
      }
    case HardLink(p, _) =>
      if p != [] {
        ClearedLinks(fs.nodes, p);
      }
    case _ =>
  }

  lemma DescendingIsTame(nodes: map<Path, Node>)
    requires AllDescend(nodes) && [] in nodes && nodes[[]] == Dir
    ensures AllTame(nodes) && UpsFirstIn(nodes)
  {
    forall q | q in nodes && nodes[q].Sym?
      ensures Tame(q, nodes[q].text) && UpsFirst(TextHops(nodes[q].text))
    {
      NoUpsNoClimb(TextHops(nodes[q].text));
    }
  }

  /** A layer whose links have no ".." and are not absolute: at no point of the pass does any path lead out. */
  lemma {:induction false} DescendingLinksStay(ops: seq<LayerOp>, n: nat)
    requires forall i :: 0 <= i < |ops| ==>
      (ops[i].SymLink? ==> Descends(ops[i].text)) && (ops[i].Whiteout? ==> ops[i].p != [])
    requires n <= |ops|
    ensures Tree(Run(EMPTY, ops, n).fs) && AllDescend(Run(EMPTY, ops, n).fs.nodes) &&
      !Leaves(Run(EMPTY, ops, n).fs.nodes)
  {
    hide ApplyOp, Tree, Descends, AllTame, UpsFirstIn, Leaves;
    if n == 0 {
      EmptyDescends();
    } else {
      var before, op := Run(EMPTY, ops, n - 1).fs, ops[n - 1];
      DescendingLinksStay(ops, n - 1);
      ApplyTree(before, op);
      ApplyOpLinks(before, op, if op.SymLink? then op.text else "");
      if !op.SymLink? {
        EmptyDescendsText();
      }
    }
    RootOf(Run(EMPTY, ops, n).fs);
    DescendingIsTame(Run(EMPTY, ops, n).fs.nodes);
    ContainedIff(Run(EMPTY, ops, n).fs);
  }

  lemma EmptyDescends()
    ensures Tree(EMPTY) && AllDescend(EMPTY.nodes)
  {
  }

  lemma EmptyDescendsText()
    ensures Descends("")
  {
    assert Split("", '/') == [""];
    assert [""][1..] == [];
    assert HopsOf([""]) == [HopOf("")] + HopsOf([]);
  }

  lemma RootOf(fs: Fs)
    requires Tree(fs)
    ensures [] in fs.nodes && fs.nodes[[]] == Dir
  {
  }

  /** And in an ordinary layer no entry's path leads out, whatever its links say and whatever earlier attempts left. */
  lemma {:induction false} OrdinaryEntryStays(ops: seq<LayerOp>, n: nat, fs: Fs)
    requires WellFormed(ops) && Leftover(ops, fs) && n < |ops|
    ensures Adds(ops[n]) || ops[n].Whiteout? ==> Resolve(fs.nodes, ops[n].p, false) != Away
    ensures ops[n].Write? || ops[n].MkDir? ==> Resolve(fs.nodes, ops[n].p, true) != Away
    ensures ops[n].HardLink? ==> Resolve(fs.nodes, ops[n].src, false) != Away
  {
    hide WellFormed, Resolve, Tree;
    EntryFits(ops, n);
    EntryIsStraight(ops, Roots(ops, |ops|), Touched(ops, n), n, fs);
    if Adds(ops[n]) || ops[n].Whiteout? {
      ResolvePlain(fs, ops[n].p, false);
    }
    if ops[n].Write? || ops[n].MkDir? {
      ResolvePlain(fs, ops[n].p, true);
    }
    if ops[n].HardLink? {
      ResolvePlain(fs, ops[n].src, false);
    }
  }
}
