// Image references: parsing, printing, and the directory an image is kept in.

module Reference {
  import opened Strings
  import opened Paths

  datatype Reference = Reference(repo: string, tag: string)

  datatype Parsed = Empty | Parsed(ref: Reference)

  /** strings.LastIndex, with |s| for "not there". */
  function LastIndexOf(s: string, c: char): (i: nat)
    ensures i <= |s|
    ensures i < |s| ==> s[i] == c && forall k :: i < k < |s| ==> s[k] != c
    ensures i == |s| ==> c !in s
  {
    if s == "" then 0
    else if s[|s| - 1] == c then |s| - 1
    else
      var i := LastIndexOf(s[..|s| - 1], c);
      if i == |s| - 1 then |s| else i
  }

  const LIBRARY := "library/"

  function ParseRef(s: string): (r: Parsed)
    ensures r.Parsed? <==> s != ""
  {
    if s == "" then Empty
    else
      var i := LastIndexOf(s, ':');
      if 0 < i < |s| && '/' !in s[i..] then Parsed(Reference(WithNamespace(s[..i]), s[i + 1..]))
      else Parsed(Reference(WithNamespace(s), "latest"))
  }

  function WithNamespace(name: string): string { if '/' in name then name else LIBRARY + name }

  /** A name without a tag is "latest", and one without a slash is in "library/". */
  lemma {:induction false} Defaults(name: string, tag: string)
    requires name != "" && ':' !in name
    ensures '/' !in name ==> ParseRef(name) == Parsed(Reference("library/" + name, "latest"))
    ensures '/' in name ==> ParseRef(name) == Parsed(Reference(name, "latest"))
    ensures ':' !in tag && '/' !in tag ==>
      ParseRef(name + ":" + tag) == Parsed(Reference(if '/' in name then name else "library/" + name, tag))
  {
    hide LastIndexOf;
    if ':' !in tag && '/' !in tag {
      LastColon(name, tag);
      var s := name + ":" + tag;
      assert s == name + [':'] + tag;
      assert s[..|name|] == name && s[|name| + 1..] == tag && s[|name|..] == [':'] + tag;
    }
  }

  /** A colon at the front separates nothing, and neither does one before a slash. */
  lemma {:induction false} NoSeparator(name: string, rest: string)
    requires ':' !in rest
    ensures '/' !in rest ==> ParseRef(":" + rest) == Parsed(Reference("library/:" + rest, "latest"))
    ensures '/' in rest ==> ParseRef(name + ":" + rest) == Parsed(Reference(name + ":" + rest, "latest"))
  {
    hide LastIndexOf;
    LastColon("", rest);
    assert "" + [':'] + rest == ":" + rest;
    assert "library/" + (":" + rest) == "library/:" + rest;
    LastColon(name, rest);
    var s := name + ":" + rest;
    assert s == name + [':'] + rest && s[|name|..] == [':'] + rest;
    if '/' in rest {
      assert '/' in [':'] + rest && '/' in s;
    }
  }

  function Print(r: Reference): string { r.repo + ":" + r.tag }

  /** What printing and parsing leaves alone. */
  predicate Normal(r: Reference) { '/' in r.repo && ':' !in r.tag && '/' !in r.tag }

  lemma NamespaceHasSlash(name: string)
    ensures '/' in WithNamespace(name)
  {
    assert (LIBRARY + name)[7] == LIBRARY[7] == '/';
  }

  lemma ParsedIsNormal(s: string)
    ensures ParseRef(s).Parsed? ==> Normal(ParseRef(s).ref)
  {
    hide LastIndexOf, WithNamespace;
    NamespaceHasSlash(s);
    var i := LastIndexOf(s, ':');
    if 0 < i < |s| && '/' !in s[i..] {
      NamespaceHasSlash(s[..i]);
      assert s[i + 1..] == s[i..][1..];
    }
  }

  /** Exactly the normal references survive printing and parsing. */
  lemma {:induction false} ParsePrintIff(r: Reference)
    ensures ParseRef(Print(r)) == Parsed(r) <==> Normal(r)
  {
    var s := Print(r);
    if Normal(r) {
      LastColon(r.repo, r.tag);
      assert s == r.repo + [':'] + r.tag;
      assert s[..|r.repo|] == r.repo && s[|r.repo| + 1..] == r.tag;
      assert s[|r.repo|..] == [':'] + r.tag;
    }
    ParsedIsNormal(s);
  }

  lemma LastColon(repo: string, tag: string)
    requires ':' !in tag
    ensures LastIndexOf(repo + [':'] + tag, ':') == |repo|
  {
    hide LastIndexOf;
    var s := repo + [':'] + tag;
    forall k | |repo| < k < |s|
      ensures s[k] != ':'
    {
      AfterColon(repo, tag, k);
    }
    LastIs(s, ':', |repo|);
  }

  lemma AfterColon(repo: string, tag: string, k: nat)
    requires ':' !in tag && |repo| < k < |repo| + 1 + |tag|
    ensures (repo + [':'] + tag)[k] != ':'
  {
    assert (repo + [':'] + tag)[k] == tag[k - |repo| - 1];
  }

  lemma LastIs(s: string, c: char, k: nat)
    requires k < |s| && s[k] == c && forall j :: k < j < |s| ==> s[j] != c
    ensures LastIndexOf(s, c) == k
  {
    hide LastIndexOf;
    var i := LastIndexOf(s, c);
    assert i == |s| ==> c in s;
  }

  /** Normal form: printing what any string was parsed to, and parsing that, gives the same reference. */
  lemma {:induction false} NormalForm(s: string, r: Reference)
    requires ParseRef(s) == Parsed(r)
    ensures ParseRef(Print(r)) == Parsed(r)
  {
    hide ParseRef, Print;
    ParsedIsNormal(s);
    ParsePrintIff(r);
  }

  // ---- where an image is kept

  const IMAGES := "images"

  /** filepath.Join of root, "images", repository and tag: an empty tag leaves no component. */
  function ImageDir(root: string, r: Reference): string
    requires root != ""
  {
    JoinPath(root, IMAGES + "/" + r.repo + (if r.tag == "" then "" else "/" + r.tag))
  }

  /** The components joined below the root, as they come. */
  function Names(r: Reference): seq<string> {
    [IMAGES] + Split(r.repo, '/') + if r.tag == "" then [] else [r.tag]
  }

  /** And what Clean leaves of them: no empty or "." component, ".." only in front. */
  function Parts(r: Reference): seq<string> { Reduce(false, Names(r)) }

  lemma NamesSplit(r: Reference)
    requires '/' !in r.tag
    ensures Split(IMAGES + "/" + r.repo + (if r.tag == "" then "" else "/" + r.tag), '/') == Names(r)
  {
    SplitNone(IMAGES, '/');
    SplitConcat(IMAGES, r.repo, '/');
    assert IMAGES + "/" + r.repo == IMAGES + ['/'] + r.repo;
    var front := IMAGES + "/" + r.repo;
    if r.tag != "" {
      SplitNone(r.tag, '/');
      SplitConcat(front, r.tag, '/');
      assert front + "/" + r.tag == front + ['/'] + r.tag;
      assert front + "/" + r.tag == front + ("/" + r.tag);
    } else {
      assert front + "" == front;
    }
  }

  /** The directory's components: from the root's, walk along the reference's parts. */
  lemma ImageDirComps(root: string, r: Reference)
    requires root != "" && '/' !in r.tag
    ensures Comps(ImageDir(root, r)) == Walk(IsAbs(root), Comps(root), Parts(r))
    ensures IsAbs(ImageDir(root, r)) == IsAbs(root)
  {
    hide Clean, Split, Reduce;
    var name := IMAGES + "/" + r.repo + (if r.tag == "" then "" else "/" + r.tag);
    var whole := root + "/" + name;
    NamesSplit(r);
    CleanIdempotent(whole);
    SplitConcat(root, name, '/');
    assert whole == root + ['/'] + name;
    ReduceWalk(IsAbs(root), Split(root, '/'), Names(r));
    WalkReduced(IsAbs(root), Comps(root), Names(r));
  }

  lemma SamePathIff(a: string, b: string)
    requires IsAbs(a) == IsAbs(b)
    ensures Clean(a) == Clean(b) <==> Comps(a) == Comps(b)
  {
    hide Render, Comps;
    CleanIdempotent(a);
    CleanIdempotent(b);
  }

  /**
   For any two references that parsing can give: they share a directory exactly if their
   parts lead to the same place below the root.
   */
  lemma {:induction false} ImageDirSharedIff(root: string, s: string, t: string, a: Reference, b: Reference)
    requires root != "" && ParseRef(s) == Parsed(a) && ParseRef(t) == Parsed(b)
    ensures ImageDir(root, a) == ImageDir(root, b) <==>
      Walk(IsAbs(root), Comps(root), Parts(a)) == Walk(IsAbs(root), Comps(root), Parts(b))
  {
    hide ParseRef, ImageDir, Parts, Comps, Clean;
    ParsedIsNormal(s);
    ParsedIsNormal(t);
    ImageDirComps(root, a);
    ImageDirComps(root, b);
    ImageDirClean(root, a);
    ImageDirClean(root, b);
    SamePathIff(ImageDir(root, a), ImageDir(root, b));
  }

  lemma ImageDirClean(root: string, r: Reference)
    requires root != ""
    ensures Clean(ImageDir(root, r)) == ImageDir(root, r)
  {
    hide Clean;
    CleanIdempotent(root + "/" + (IMAGES + "/" + r.repo + (if r.tag == "" then "" else "/" + r.tag)));
  }

  /** Unless ".." climbs out of the images, that is exactly if they have the same parts. */
  lemma {:induction false} ImageDirSharedInsideIff(root: string, s: string, t: string, a: Reference, b: Reference)
    requires root != "" && ParseRef(s) == Parsed(a) && ParseRef(t) == Parsed(b)
    requires Inside(Parts(a)) && Inside(Parts(b))
    ensures ImageDir(root, a) == ImageDir(root, b) <==> Parts(a) == Parts(b)
  {
    hide ParseRef, ImageDir, Comps, Clean;
    ImageDirSharedIff(root, s, t, a, b);
    ParsedIsNormal(s);
    ParsedIsNormal(t);
    NamesHaveNoSlash(a);
    NamesHaveNoSlash(b);
    WalkInside(IsAbs(root), Comps(root), Names(a));
    WalkInside(IsAbs(root), Comps(root), Names(b));
    assert (Comps(root) + Parts(a))[|Comps(root)|..] == Parts(a);
    assert (Comps(root) + Parts(b))[|Comps(root)|..] == Parts(b);
  }

  lemma NamesHaveNoSlash(r: Reference)
    requires '/' !in r.tag
    ensures forall i :: 0 <= i < |Names(r)| ==> '/' !in Names(r)[i]
  {
  }

  /** A reference that ends in a colon has an empty tag, and shares its directory with another reference. */
  lemma {:induction false} EmptyTagShares(root: string, repo: string, tag: string)
    requires root != "" && tag != "" && Normal(Reference(repo, tag))
    ensures ParseRef(repo + "/" + tag + ":") == Parsed(Reference(repo + "/" + tag, ""))
    ensures ParseRef(repo + ":" + tag) == Parsed(Reference(repo, tag))
    ensures ImageDir(root, Reference(repo + "/" + tag, "")) == ImageDir(root, Reference(repo, tag))
  {
    hide ParseRef, JoinPath, Clean;
    var short, long := Reference(repo, tag), Reference(repo + "/" + tag, "");
    assert (repo + "/" + tag)[|repo|] == '/';
    ParsePrintIff(short);
    ParsePrintIff(long);
    assert repo + "/" + tag + ":" == Print(long);
    assert IMAGES + "/" + (repo + "/" + tag) + "" == IMAGES + "/" + repo + ("/" + tag);
  }

  // ---- characters of the directory's path

  predicate PlainRepo(repo: string) {
    forall i :: 0 <= i < |Split(repo, '/')| ==> PlainName(Split(repo, '/')[i])
  }

  predicate SomeHas(comps: seq<string>, c: char) { exists i :: 0 <= i < |comps| && c in comps[i] }

  lemma {:induction false} JoinHas(comps: seq<string>, c: char)
    requires c != '/'
    ensures c in Join(comps, '/') <==> SomeHas(comps, c)
  {
    if |comps| > 1 {
      JoinHas(comps[1..], c);
      assert SomeHas(comps, c) <==> c in comps[0] || SomeHas(comps[1..], c) by {
        if i :| 0 <= i < |comps| && c in comps[i] {
          assert i == 0 || comps[1..][i - 1] == comps[i];
        }
        if i :| 0 <= i < |comps[1..]| && c in comps[1..][i] {
          assert comps[i + 1] == comps[1..][i];
        }
      }
    }
  }

  lemma PlainParts(r: Reference)
    requires PlainRepo(r.repo) && (r.tag == "" || PlainName(r.tag))
    ensures Parts(r) == Names(r) && Inside(Parts(r))
  {
    hide Split;
    assert Names(r)[0] == IMAGES;
    forall i | 0 <= i < |Names(r)|
      ensures PlainName(Names(r)[i])
    {
    }
    ReduceFixed(false, Names(r));
  }

  lemma NamesHaveColonIff(r: Reference)
    requires ':' !in r.tag
    ensures SomeHas(Names(r), ':') <==> ':' in r.repo
  {
    hide Split;
    var parts := Split(r.repo, '/');
    JoinSplit(r.repo, '/');
    JoinHas(parts, ':');
    if i :| 0 <= i < |parts| && ':' in parts[i] {
      assert Names(r)[i + 1] == parts[i];
    }
    if i :| 0 <= i < |Names(r)| && ':' in Names(r)[i] {
      assert 1 <= i <= |parts| && Names(r)[i] == parts[i - 1];
    }
  }

  lemma SomeHasConcat(a: seq<string>, b: seq<string>, c: char)
    ensures SomeHas(a + b, c) <==> SomeHas(a, c) || SomeHas(b, c)
  {
    if i :| 0 <= i < |a| && c in a[i] {
      assert (a + b)[i] == a[i];
    }
    if i :| 0 <= i < |b| && c in b[i] {
      assert (a + b)[|a| + i] == b[i];
    }
  }

  /**
   Exactly when an image's directory holds a colon: the root does, or the cleaned
   repository does, unless ".." climbs out of the images.
   */
  lemma {:induction false} ColonInImageDirIff(root: string, r: Reference)
    requires root != "" && Normal(r) && Inside(Parts(r))
    ensures ':' in ImageDir(root, r) <==> SomeHas(Comps(root), ':') || SomeHas(Parts(r), ':')
  {
    hide Split, Comps, Clean, ImageDir, Parts, Names, Walk;
    var dir := ImageDir(root, r);
    ImageDirClean(root, r);
    ImageDirComps(root, r);
    WalkParts(root, r);
    SomeHasConcat(Comps(root), Parts(r), ':');
    JoinHas(Comps(dir), ':');
    RenderedHas(dir, ':');
  }

  lemma WalkParts(root: string, r: Reference)
    requires Inside(Parts(r)) && '/' !in r.tag
    ensures Walk(IsAbs(root), Comps(root), Parts(r)) == Comps(root) + Parts(r)
  {
    NamesHaveNoSlash(r);
    WalkInside(IsAbs(root), Comps(root), Names(r));
  }

  lemma RenderedHas(path: string, c: char)
    requires c != '/' && c != '.' && Clean(path) == path
    ensures c in path <==> c in Join(Comps(path), '/')
  {
    hide Comps;
  }

  /** A reference to a registry with a port, as users write it. */
  lemma {:induction false} RegistryPortInDir(root: string, host: string, port: string, name: string, tag: string)
    requires root != "" && ':' !in tag && PlainName(tag) && PlainRepo(host + ":" + port + "/" + name)
    ensures ParseRef(host + ":" + port + "/" + name + ":" + tag) ==
      Parsed(Reference(host + ":" + port + "/" + name, tag))
    ensures ':' in ImageDir(root, Reference(host + ":" + port + "/" + name, tag))
  {
    hide ParseRef, ImageDir, Split, PlainRepo;
    var repo := host + ":" + port + "/" + name;
    var r := Reference(repo, tag);
    assert repo[|host|] == ':' && repo[|host| + 1 + |port|] == '/';
    ParsePrintIff(r);
    assert Print(r) == host + ":" + port + "/" + name + ":" + tag;
    PlainParts(r);
    NamesHaveColonIff(r);
    ColonInImageDirIff(root, r);
  }

  /** The directory's components: the root's, "images", the repository's and the tag, if there is one. */
  lemma {:induction false} PlainImageDir(root: string, r: Reference)
    requires root != "" && '/' !in r.tag && PlainRepo(r.repo) && (r.tag == "" || PlainName(r.tag))
    ensures Comps(ImageDir(root, r)) ==
      Comps(root) + (["images"] + Split(r.repo, '/') + if r.tag == "" then [] else [r.tag])
  {
    hide Comps, Split, ImageDir, Parts;
    ImageDirComps(root, r);
    PlainParts(r);
    WalkParts(root, r);
  }
}
