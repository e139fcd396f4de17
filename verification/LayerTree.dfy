// One layer's archive as a list of tree operations, and the file tree they act on:
// directories, symbolic links, and files that name an inode, so that hard links share.

module LayerOps {
  import opened Strings
  import opened Paths

  type byte = x: int | 0 <= x < 256
  type Bytes = seq<byte>
  type Path = seq<string>

  datatype Kind = TypeDir | TypeReg | TypeSymlink | TypeLink | TypeOther

  /** A tar header with its content. */
  datatype Header = Header(name: string, kind: Kind, linkname: string, data: Bytes)

  /** What extractLayer does with an entry, in components below the destination. */
  datatype LayerOp =
    | Skip
    | Opaque(p: Path)
    | Whiteout(p: Path)
    | MkDir(p: Path)
    | Write(p: Path, data: Bytes)
    | SymLink(p: Path, text: string)
    | HardLink(p: Path, src: Path)
    | Outside  // would act on something that is not below the destination; not modelled further

  const OPAQUE := ".wh..wh..opq"
  const WHITEOUT := ".wh."

  function Parent(p: Path): Path
    requires p != []
  {
    p[..|p| - 1]
  }

  function Base(p: Path): string { if p == [] then "." else p[|p| - 1] }

  /** The name check of extractLayer's loop. */
  function Plan(h: Header): LayerOp {
    if Survives(h.name) then Classify(Comps(h.name), h) else Skip
  }

  /** A name that stays below the destination: relative, and not climbing out. */
  predicate Legal(name: string) { !IsAbs(name) && Inside(Comps(name)) }

  /** What the entry means, were only illegal names skipped. */
  function Meant(h: Header): LayerOp {
    if Legal(h.name) then Classify(Comps(h.name), h) else Skip
  }

  /** The first name begins with two dots and is longer. */
  predicate DotDotted(p: Path) { p != [] && HasPrefix(p[0], "..") && p[0] != ".." }

  /** The branches of the loop body behind the check, in their order. */
  function Classify(p: Path, h: Header): LayerOp {
    if Base(p) == OPAQUE && p != [] then Opaque(Parent(p))
    else if HasPrefix(Base(p), WHITEOUT) && p != [] then MarkFor(Parent(p), TrimPrefix(Base(p), WHITEOUT))
    else ByKind(p, h)
  }

  /** The switch on the entry's type. */
  function ByKind(p: Path, h: Header): LayerOp {
    match h.kind
    case TypeDir => MkDir(p)
    case TypeReg => Write(p, h.data)
    case TypeSymlink => if p == [] then Outside else SymLink(p, h.linkname)
    case TypeLink => LinkTo(p, Reduce(false, Split(h.linkname, '/')))
    case TypeOther => Skip
  }

  function MarkFor(dir: Path, orig: string): LayerOp {
    if orig == "" || orig == "." || orig == ".." then Outside else Whiteout(dir + [orig])
  }

  function LinkTo(p: Path, src: Path): LayerOp {
    if p == [] || !Inside(src) then Outside else HardLink(p, src)
  }

  /** The path an entry creates, if it creates one. */
  predicate Adds(op: LayerOp) { op.MkDir? || op.Write? || op.SymLink? || op.HardLink? }

  /** Entries that end in a file, a symbolic link or a hard link. */
  predicate IsLeaf(op: LayerOp) { op.Write? || op.SymLink? || op.HardLink? }

  /** The check skips more than illegal names: exactly those, too, whose first component only begins with two dots. */
  lemma {:induction false} LostNameIff(name: string)
    ensures Survives(name) ==> Legal(name)
    ensures Legal(name) && !Survives(name) <==> !IsAbs(name) && DotDotted(Comps(name))
  {
    SurvivesIff(name);
  }

  /** The joined target of a surviving entry lies below the destination, at the planned components. */
  lemma PlanTarget(dst: string, h: Header)
    requires dst != "" && Adds(Plan(h))
    ensures Comps(JoinPath(dst, Clean(h.name))) == Comps(dst) + Plan(h).p
    ensures Plan(h).HardLink? ==> Comps(JoinPath(dst, h.linkname)) == Comps(dst) + Plan(h).src
  {
    PlanPath(h);
    TargetInside(dst, h.name);
    if Plan(h).HardLink? {
      JoinExtends(dst, h.linkname);
    }
  }

  lemma {:induction false} PlanPath(h: Header)
    requires Adds(Plan(h))
    ensures Survives(h.name) && Plan(h).p == Comps(h.name)
    ensures Plan(h).HardLink? ==> Plan(h).src == Reduce(false, Split(h.linkname, '/')) && Inside(Plan(h).src)
  {
    ClassifyPath(Comps(h.name), h);
  }

  lemma ClassifyPath(p: Path, h: Header)
    ensures Adds(Classify(p, h)) ==> Classify(p, h).p == p
    ensures Classify(p, h).HardLink? ==>
      Classify(p, h).src == Reduce(false, Split(h.linkname, '/')) && Inside(Classify(p, h).src)
  {
  }
}

module LayerTree {
  import opened LayerOps

  datatype Node = Dir | File(ino: nat) | Sym(text: string)

  /** A tree with its inode heap. */
  datatype Fs = Fs(nodes: map<Path, Node>, data: map<nat, Bytes>, next: nat)

  const EMPTY := Fs(map[[] := Dir], map[], 0)

  /** Every path hangs below directories, and every file's inode is on the heap. */
  ghost predicate Tree(fs: Fs) {
    && [] in fs.nodes && fs.nodes[[]] == Dir
    && (forall p :: p in fs.nodes && p != [] ==> Parent(p) in fs.nodes && fs.nodes[Parent(p)] == Dir)
    && (forall p :: p in fs.nodes && fs.nodes[p].File? ==> fs.nodes[p].ino in fs.data)
    && (forall i :: i in fs.data ==> i < fs.next)
  }

  /** What a reader sees at a path: its type, and its content or text. */
  datatype VNode = VDir | VFile(data: Bytes) | VSym(text: string)

  function Shown(fs: Fs, p: Path): VNode
    requires p in fs.nodes
  {
    match fs.nodes[p]
    case Dir => VDir
    case File(ino) => VFile(if ino in fs.data then fs.data[ino] else [])
    case Sym(text) => VSym(text)
  }

  function ViewOf(fs: Fs): (v: map<Path, VNode>)
    ensures v.Keys == fs.nodes.Keys
    ensures forall p :: p in v ==> v[p] == Shown(fs, p)
  {
    map p | p in fs.nodes :: Shown(fs, p)
  }

  function Prefixes(p: Path): (qs: set<Path>)
    ensures forall q :: q in qs <==> q <= p
  {
    var qs := set k | 0 <= k <= |p| :: p[..k];
    assert forall q :: q <= p ==> q == p[..|q|];
    qs
  }

  /** A name on the way to p, or p itself, is not a directory. */
  predicate Blocked(nodes: map<Path, Node>, p: Path) {
    exists q :: q in Prefixes(p) && q in nodes && nodes[q] != Dir
  }

  /** os.MkdirAll where nothing is in the way. */
  function WithDirs(nodes: map<Path, Node>, p: Path): (r: map<Path, Node>)
    ensures forall q :: q in r <==> q in nodes || q <= p
    ensures forall q :: q in r ==> r[q] == if q in nodes then nodes[q] else Dir
  {
    map q | q in nodes.Keys + Prefixes(p) :: if q in nodes then nodes[q] else Dir
  }

  function PlainDirs(nodes: map<Path, Node>, p: Path): map<Path, Node> {
    if Blocked(nodes, p) then nodes else WithDirs(nodes, p)
  }

  function RemoveAll(nodes: map<Path, Node>, p: Path): (r: map<Path, Node>)
    ensures forall q :: q in r <==> q in nodes && !(p <= q)
    ensures forall q :: q in r ==> r[q] == nodes[q]
  {
    map q | q in nodes && !(p <= q) :: nodes[q]
  }

  predicate HasChild(nodes: map<Path, Node>, p: Path) {
    exists q :: q in nodes && |q| == |p| + 1 && p <= q
  }

  /** os.Remove: a file, a link or an empty directory. */
  function Remove(nodes: map<Path, Node>, p: Path): map<Path, Node> {
    if p in nodes && !(nodes[p] == Dir && HasChild(nodes, p)) then nodes - {p} else nodes
  }

  /** A free name in an existing directory. */
  predicate Room(nodes: map<Path, Node>, p: Path) {
    p != [] && p !in nodes && Parent(p) in nodes && nodes[Parent(p)] == Dir
  }

  datatype Applied = Applied(fs: Fs, ok: bool)

  /** One iteration of extractLayer's loop where no link is met on the way; not ok means that it returns an error. */
  function PlainOp(fs: Fs, op: LayerOp): Applied {
    match op
    case Skip => Applied(fs, true)
    case Opaque(_) => Applied(fs, true)
    case Outside => Applied(fs, true)
    case Whiteout(p) => Applied(fs.(nodes := RemoveAll(fs.nodes, p)), true)
    case MkDir(p) => Applied(fs.(nodes := PlainDirs(fs.nodes, p)), !Blocked(fs.nodes, p))
    case Write(p, data) =>
      if p == [] || Blocked(fs.nodes, Parent(p)) then Applied(fs, false)
      else OpenAndWrite(fs.(nodes := WithDirs(fs.nodes, Parent(p))), p, data)
    case SymLink(p, text) =>
      if p == [] then Applied(fs, false)
      else
        var nodes := Remove(PlainDirs(fs.nodes, Parent(p)), p);
        if Room(nodes, p)
            then Applied(fs.(nodes := nodes[p := Sym(text)]), true) else Applied(fs.(nodes := nodes), false)
    case HardLink(p, src) =>
      if p == [] then Applied(fs, true)
      else
        var nodes := Remove(PlainDirs(fs.nodes, Parent(p)), p);
        if Room(nodes, p) && src in nodes && nodes[src] != Dir
        then Applied(fs.(nodes := nodes[p := nodes[src]]), true)
        else Applied(fs.(nodes := nodes), true)
  }

  /** Open with O_CREATE|O_TRUNC and copy: an existing file keeps its inode and every name it has. */
  function OpenAndWrite(fs: Fs, p: Path, data: Bytes): Applied {
    if p !in fs.nodes then
      Applied(Fs(fs.nodes[p := File(fs.next)], fs.data[fs.next := data], fs.next + 1), true)
    else
      match fs.nodes[p]
      case File(ino) => Applied(fs.(data := fs.data[ino := data]), true)
      case _ => Applied(fs, false)
  }

  /** How far an entry got when a crash or an I/O error stopped it. */
  datatype Tear = Tear(made: nat, began: bool, written: nat, gone: set<Path>)

  function Upto(p: Path, made: nat): Path { if made <= |p| then p[..made] else p }

  /** The tree an interrupted entry leaves behind, likewise. */
  function PlainTorn(fs: Fs, op: LayerOp, tear: Tear): Fs {
    match op
    case Whiteout(p) => fs.(nodes := RemoveSome(fs.nodes, p, tear.gone))
    case MkDir(p) => fs.(nodes := PlainDirs(fs.nodes, Upto(p, tear.made)))
    case Write(p, data) =>
      if p == [] then fs
      else if !tear.began then fs.(nodes := PlainDirs(fs.nodes, Upto(Parent(p), tear.made)))
      else if Blocked(fs.nodes, Parent(p)) then fs
      else
        OpenAndWrite(fs.(nodes := WithDirs(fs.nodes, Parent(p))), p,
                     if tear.written <= |data| then data[..tear.written] else data).fs
    case SymLink(p, _) => PlainTornLink(fs, p, tear)
    case HardLink(p, _) => PlainTornLink(fs, p, tear)
    case _ => fs
  }

  function PlainTornLink(fs: Fs, p: Path, tear: Tear): Fs {
    if p == [] then fs
    else if !tear.began then fs.(nodes := PlainDirs(fs.nodes, Upto(Parent(p), tear.made)))
    else fs.(nodes := Remove(PlainDirs(fs.nodes, Parent(p)), p))
  }

  /** A RemoveAll cut short: children go before their directory. */
  function RemoveSome(nodes: map<Path, Node>, p: Path, gone: set<Path>): (r: map<Path, Node>)
    ensures forall q :: q in r <==> q in nodes && !(p <= q && forall r :: r in nodes && q <= r ==> r in gone)
    ensures forall q :: q in r ==> r[q] == nodes[q]
  {
    map q | q in nodes && !(p <= q && forall r :: r in nodes && q <= r ==> r in gone) :: nodes[q]
  }
}
