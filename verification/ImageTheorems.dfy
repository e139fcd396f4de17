// End to end: after any history of pulls, a pull that succeeds makes the mounted stack
// show exactly the layers that its manifest names, in the flat form of the image.

module ImageTheorems {
  import opened Strings
  import opened LayerOps
  import opened LayerTree
  import opened LayerShape
  import opened OverlayView
  import opened OciChangeset
  import opened LayerContent
  import opened StackedForm
  import opened Resurfacing
  import opened BlobCache
  import opened ImageStore
  import opened DroppedNames
  import opened HeaderMeaning
  import opened LayerDir
  import opened OverlayOptions
  import Paths
  import Reference

  /** The layers' entries, lowest first, read from the blobs that the digests name. */
  function ImageOf(codec: Codec, s: Store, layers: seq<Layer>): (image: Image)
    requires forall i :: 0 <= i < |layers| ==> NameOf(layers[i].digest) in s.blobs
    ensures |image| == |layers|
    ensures forall i :: 0 <= i < |image| ==> image[i] == OpsOf(codec, s.blobs[NameOf(layers[i].digest)])
  {
    seq(|layers|, i requires 0 <= i < |layers| && NameOf(layers[i].digest) in s.blobs =>
      OpsOf(codec, s.blobs[NameOf(layers[i].digest)]))
  }

  /** Blobs of this name, whatever they are in, hold these entries. */
  ghost predicate Names(codec: Codec, digest: string, ops: seq<LayerOp>) {
    exists blob: Bytes :: codec.hex(blob) == NameOf(digest) && ops == OpsOf(codec, blob)
  }

  /** The image's layers are the manifest's, by digest. */
  ghost predicate ByDigest(codec: Codec, layers: seq<Layer>, image: Image) {
    |image| == |layers| && forall i :: 0 <= i < |layers| ==> Names(codec, layers[i].digest, image[i])
  }

  /** What any successful pull leaves, for any state that a history of pulls can reach. */
  lemma PulledImage(codec: Codec, s: Store, image: string, pull: Pull)
    requires CollisionFree(codec) && Sane(codec, s) && OrdinaryLayers(codec, pull.layers) && Undisturbed(pull.layers)
    requires PullImage(codec, s, image, pull).ok
    ensures AllReady(codec, PullImage(codec, s, image, pull).store, image, pull.layers, |pull.layers|)
    ensures LoadManifest(PullImage(codec, s, image, pull).store, image) == Layers(DirsOf(image, Digests(pull.layers)))
  {
    var manifest := Whole(Digests(pull.layers));
    ManifestKeeps(codec, s, image, manifest);
    PulledLayersReady(codec, WithManifest(s, image, manifest), image, pull.layers, |pull.layers|);
  }

  lemma {:induction false} ReadyIsByDigest(codec: Codec, s: Store, image: string, layers: seq<Layer>)
    requires AllReady(codec, s, image, layers, |layers|)
    ensures ByDigest(codec, layers, ImageOf(codec, s, layers))
  {
    forall i | 0 <= i < |layers|
      ensures Names(codec, layers[i].digest, ImageOf(codec, s, layers)[i])
    {
      assert LayerReady(codec, s, image, NameOf(layers[i].digest));
    }
  }

  lemma ReadyAt(codec: Codec, s: Store, image: string, layers: seq<Layer>, i: nat)
    requires AllReady(codec, s, image, layers, |layers|) && i < |layers|
    ensures ViewOf(TreeAt(s, DirsOf(image, Digests(layers))[i])) == Extracted(ImageOf(codec, s, layers)[i])
  {
    assert LayerReady(codec, s, image, NameOf(layers[i].digest));
  }

  lemma ReadyIsMounted(codec: Codec, s: Store, image: string, layers: seq<Layer>)
    requires AllReady(codec, s, image, layers, |layers|)
    requires LoadManifest(s, image) == Layers(DirsOf(image, Digests(layers)))
    ensures Mounted(s, image) == StackOf(ImageOf(codec, s, layers))
  {
    StacksAgree(s, DirsOf(image, Digests(layers)), ImageOf(codec, s, layers)) by {
      forall i | 0 <= i < |layers|
        ensures ViewOf(TreeAt(s, DirsOf(image, Digests(layers))[i])) == Extracted(ImageOf(codec, s, layers)[i])
      {
        ReadyAt(codec, s, image, layers, i);
      }
    }
  }

  lemma ReversedLast<T>(s: seq<T>)
    requires s != []
    ensures Reversed(s) == [s[|s| - 1]] + Reversed(s[..|s| - 1])
  {
  }

  lemma TreesCons(s: Store, dir: LayerPath, rest: seq<LayerPath>)
    ensures Trees(s, [dir] + rest) == [ViewOf(TreeAt(s, dir))] + Trees(s, rest)
  {
  }

  /** Reversing the directories gives the stack, topmost first. */
  lemma {:induction false} StacksAgree(s: Store, dirs: seq<LayerPath>, image: Image)
    requires |dirs| == |image|
    requires forall i :: 0 <= i < |dirs| ==> ViewOf(TreeAt(s, dirs[i])) == Extracted(image[i])
    ensures Trees(s, Reversed(dirs)) == StackOf(image)
  {
    if dirs != [] {
      ReversedLast(dirs);
      TreesCons(s, dirs[|dirs| - 1], Reversed(dirs[..|dirs| - 1]));
      StacksAgree(s, dirs[..|dirs| - 1], image[..|image| - 1]);
    }
  }

  /** Digests determine the image, so no two histories can make it differ. */
  lemma {:induction false} DigestsDetermine(codec: Codec, layers: seq<Layer>, others: seq<Layer>, a: Image, b: Image)
    requires CollisionFree(codec) && ByDigest(codec, layers, a) && ByDigest(codec, others, b)
    requires Digests(layers) == Digests(others)
    ensures a == b
  {
    forall i | 0 <= i < |layers|
      ensures a[i] == b[i]
    {
      assert Digests(layers)[i] == Digests(others)[i];
      assert Names(codec, layers[i].digest, a[i]) && Names(codec, others[i].digest, b[i]);
    }
  }

  lemma NamedLayersWellFormed(codec: Codec, layers: seq<Layer>, found: Image)
    requires OrdinaryLayers(codec, layers) && ByDigest(codec, layers, found)
    ensures AllWellFormed(found)
  {
    forall i | 0 <= i < |layers|
      ensures WellFormed(found[i])
    {
      assert OrdinaryLayer(codec, NameOf(layers[i].digest)) && Names(codec, layers[i].digest, found[i]);
    }
  }

  /**
   End to end. Any history: any images, tags moved at will, every pull failing or dying at
   any step. Then one pull succeeds. The stack mounted for its image is exactly that of the
   layers that its manifest names by digest.
   */
  lemma {:induction false} MountShowsPulledLayers(codec: Codec, events: seq<Event>, image: string, pull: Pull,
                                                  after: Store)
    returns (layers: Image)
    requires CollisionFree(codec) && OrdinaryLayers(codec, pull.layers) && Undisturbed(pull.layers)
    requires PullImage(codec, History(codec, events), image, pull) == Pulled(after, true)
    ensures ByDigest(codec, pull.layers, layers) && Mounted(after, image) == StackOf(layers)
  {
    hide PullImage, LoadManifest, Mounted;
    var s := History(codec, events);
    HistoryIsSane(codec, events);
    PulledImage(codec, s, image, pull);
    ReadyIsByDigest(codec, after, image, pull.layers);
    ReadyIsMounted(codec, after, image, pull.layers);
    layers := ImageOf(codec, after, pull.layers);
  }

  /** Every lookup through that mount finds what the merge of those layers has. */
  lemma {:induction false} MountLooksUpPulledLayers(codec: Codec, events: seq<Event>, image: string, pull: Pull,
                                                    after: Store,
                                                    layers: Image, p: Path)
    requires CollisionFree(codec) && OrdinaryLayers(codec, pull.layers) && Undisturbed(pull.layers)
    requires PullImage(codec, History(codec, events), image, pull) == Pulled(after, true)
    requires ByDigest(codec, pull.layers, layers)
    ensures Lookup(Mounted(after, image), p) == Shows(StackView(layers), p)
  {
    hide PullImage, Mounted, Lookup, StackOf;
    var found := MountShowsPulledLayers(codec, events, image, pull, after);
    DigestsDetermine(codec, pull.layers, pull.layers, layers, found);
    NamedLayersWellFormed(codec, pull.layers, layers);
    StackProper(layers);
    LookupIsFlatten(StackOf(layers), p);
  }

  /** Blobs of this name, whatever they are in, mean these entries. */
  ghost predicate Means(codec: Codec, digest: string, ops: seq<LayerOp>) {
    exists blob: Bytes :: codec.hex(blob) == NameOf(digest) && ops == MeantAll(codec.untar(blob).headers)
  }

  /** What the manifest's layers mean, no legal name dropped. */
  ghost predicate ByMeaning(codec: Codec, layers: seq<Layer>, meant: Image) {
    |meant| == |layers| && forall i :: 0 <= i < |layers| ==> Means(codec, layers[i].digest, meant[i])
  }

  /**
   And it finds the flat form of the specification, applied to what the layers mean,
   everywhere exactly if the layers' entries agree on every path.
   */
  lemma {:induction false} MountIsFlatFormIff(codec: Codec, events: seq<Event>, image: string, pull: Pull, after: Store,
                                              layers: Image, meant: Image)
    requires CollisionFree(codec) && OrdinaryLayers(codec, pull.layers) && Undisturbed(pull.layers)
    requires PullImage(codec, History(codec, events), image, pull) == Pulled(after, true)
    requires ByDigest(codec, pull.layers, layers) && ByMeaning(codec, pull.layers, meant) && AllWellFormed(meant)
    ensures (forall p :: Lookup(Mounted(after, image), p) == Shows(FlatForm(meant), p)) <==>
      forall p :: Agrees(layers, meant, p)
  {
    hide PullImage, Mounted, Lookup, StackView, FlatForm, Agrees, AllWellFormed, StackOf;
    NamedLayersWellFormed(codec, pull.layers, layers);
    forall p
      ensures Lookup(Mounted(after, image), p) == Shows(FlatForm(meant), p) <==> Agrees(layers, meant, p)
    {
      MountLooksUpPulledLayers(codec, events, image, pull, after, layers, p);
      StackAtPath(layers, meant, p);
    }
  }

  lemma MaskedByDigest(codec: Codec, layers: seq<Layer>, found: Image, meant: Image)
    requires CollisionFree(codec) && ByDigest(codec, layers, found) && ByMeaning(codec, layers, meant)
    ensures AllMasked(found, meant)
  {
    hide Masked;
    forall i | 0 <= i < |layers|
      ensures Masked(found[i], meant[i])
    {
      assert Names(codec, layers[i].digest, found[i]) && Means(codec, layers[i].digest, meant[i]);
      var blob: Bytes :| codec.hex(blob) == NameOf(layers[i].digest) && found[i] == OpsOf(codec, blob);
      var same: Bytes :| codec.hex(same) == NameOf(layers[i].digest) && meant[i] == MeantAll(codec.untar(same).headers);
      assert blob == same;
      PlanAllMasked(codec.untar(blob).headers);
    }
  }

  /**
   For layers that show exactly their additions that is so exactly if no marked path
   resurfaces, and none of the legal entries that the name check drops would be seen.
   */
  lemma {:induction false} OrdinaryMountIsFlatFormIff(codec: Codec, events: seq<Event>, image: string, pull: Pull,
                                                      after: Store,
                                                      layers: Image, meant: Image)
    requires CollisionFree(codec) && OrdinaryLayers(codec, pull.layers) && Undisturbed(pull.layers)
    requires PullImage(codec, History(codec, events), image, pull) == Pulled(after, true)
    requires ByDigest(codec, pull.layers, layers) && ByMeaning(codec, pull.layers, meant) && AllWellFormed(meant)
    requires Ordinary(layers)
    ensures (forall p :: Lookup(Mounted(after, image), p) == Shows(FlatForm(meant), p))
       <==> forall p :: p != [] ==> if DotDotted(p) then !Stands(meant, p) else !SomeResurface(layers, p)
  {
    hide PullImage, Mounted, Lookup, FlatForm, Agrees, Ordinary, AllWellFormed, AllMasked, Stands, SomeResurface,
         DotDotted;
    MountIsFlatFormIff(codec, events, image, pull, after, layers, meant);
    MaskedByDigest(codec, pull.layers, layers, meant);
    forall p
      ensures Agrees(layers, meant, p) <==>
        p == [] || if DotDotted(p) then !Stands(meant, p) else !SomeResurface(layers, p)
    {
      if p == [] {
        RootAgrees(layers, meant);
      } else {
        AgreesWithMeaningIff(layers, meant, p);
      }
    }
  }

  lemma RootAgrees(layers: Image, meant: Image)
    ensures Agrees(layers, meant, [])
  {
  }

  /** No history shows: the same digests pulled into an empty store mount the same stack. */
  lemma {:induction false} HistoryDoesNotShow(codec: Codec, events: seq<Event>, image: string, pull: Pull, after: Store,
                                              first: Pull, alone: Store)
    requires CollisionFree(codec) && OrdinaryLayers(codec, pull.layers) && Digests(pull.layers) == Digests(first.layers)
    requires Undisturbed(pull.layers) && Undisturbed(first.layers)
    requires PullImage(codec, History(codec, events), image, pull) == Pulled(after, true)
    requires PullImage(codec, NOTHING, image, first) == Pulled(alone, true)
    ensures Mounted(after, image) == Mounted(alone, image)
  {
    hide PullImage, Mounted, StackOf, ByDigest;
    forall i | 0 <= i < |first.layers|
      ensures OrdinaryLayer(codec, NameOf(first.layers[i].digest))
    {
      assert Digests(first.layers)[i] == Digests(pull.layers)[i];
    }
    var a := MountShowsPulledLayers(codec, events, image, pull, after);
    var b := MountShowsPulledLayers(codec, [], image, first, alone);
    DigestsDetermine(codec, pull.layers, first.layers, a, b);
  }

  /**
   The option string names that stack's directories, topmost first, exactly if no path in
   it holds a separator or a backslash.
   */
  lemma {:induction false} MountOptionsIff(dirs: seq<LayerPath>, upper: string, work: string)
    requires dirs != []
    ensures
      Parse(Options(Join(Reversed(PathsOf(dirs)), ':'), upper, work)) == Overlay(PathsOf(Reversed(dirs)), upper, work)
      <==> Carried(upper) && Carried(work) &&
           forall i :: 0 <= i < |dirs| ==> ':' !in PathOf(dirs[i]) && Carried(PathOf(dirs[i]))
  {
    hide Parse, Options, Join;
    assert Reversed(PathsOf(dirs)) == PathsOf(Reversed(dirs));
    OptionsRoundTripIff(PathsOf(dirs), upper, work);
  }

  /**
   An image of a registry with a port: its reference parses, its directory holds a colon,
   and whatever layers it has the kernel does not read its directories out of the options.
   */
  lemma {:induction false} RegistryPortBreaksMount(root: string, host: string, port: string, name: string, tag: string,
                                                   dirs: seq<LayerPath>, upper: string, work: string)
    requires root != "" && ':' !in tag && Paths.PlainName(tag) &&
      Reference.PlainRepo(host + ":" + port + "/" + name)
    requires dirs != []
    requires forall i :: 0 <= i < |dirs| ==>
      dirs[i].image == Reference.ImageDir(root, Reference.Reference(host + ":" + port + "/" + name, tag))
    ensures Reference.ParseRef(host + ":" + port + "/" + name + ":" + tag)
         == Reference.Parsed(Reference.Reference(host + ":" + port + "/" + name, tag))
    ensures Parse(Options(Join(Reversed(PathsOf(dirs)), ':'), upper, work)) !=
      Overlay(PathsOf(Reversed(dirs)), upper, work)
  {
    hide Parse, Options, Join, Reference.ParseRef, Reference.ImageDir, Reference.PlainRepo;
    Reference.RegistryPortInDir(root, host, port, name, tag);
    MountOptionsIff(dirs, upper, work);
    assert ':' in dirs[0].image && ':' in PathOf(dirs[0]) by {
      ColonInPath(dirs[0]);
    }
  }

  /** And so are the directories of any image in a store whose root holds a colon. */
  lemma {:induction false} RootColonBreaksMount(root: string, r: Reference.Reference, dirs: seq<LayerPath>,
                                                upper: string, work: string)
    requires root != "" && Reference.Normal(r) && Paths.Inside(Reference.Parts(r)) &&
      Reference.SomeHas(Paths.Comps(root), ':')
    requires dirs != [] && forall i :: 0 <= i < |dirs| ==> dirs[i].image == Reference.ImageDir(root, r)
    ensures Parse(Options(Join(Reversed(PathsOf(dirs)), ':'), upper, work)) !=
      Overlay(PathsOf(Reversed(dirs)), upper, work)
  {
    hide Parse, Options, Join, Reference.ImageDir;
    Reference.ColonInImageDirIff(root, r);
    MountOptionsIff(dirs, upper, work);
    assert ':' in dirs[0].image && ':' in PathOf(dirs[0]) by {
      ColonInPath(dirs[0]);
    }
  }

  lemma ColonInPath(dir: LayerPath)
    ensures ':' in dir.image ==> ':' in PathOf(dir)
  {
    assert PathOf(dir) == dir.image + ("/rootfs/" + dir.name);
  }

  // ---- other images

  lemma {:induction false} PullLayersElsewhere(codec: Codec, s: Store, image: string, layers: seq<Layer>, n: nat,
                                               dir: LayerPath)
    requires n <= |layers| && dir.image != image
    ensures TreeAt(PullLayers(codec, s, image, layers, n).store, dir) == TreeAt(s, dir)
    ensures PullLayers(codec, s, image, layers, n).store.manifests == s.manifests
  {
    if n > 0 {
      PullLayersElsewhere(codec, s, image, layers, n - 1, dir);
    }
  }

  /** A pull, however it ends, changes nothing that another image's mount shows. */
  lemma {:induction false} PullTouchesOneImage(codec: Codec, s: Store, image: string, pull: Pull, other: string)
    requires other != image
    ensures LoadManifest(PullImage(codec, s, image, pull).store, other) == LoadManifest(s, other)
    ensures Mounted(PullImage(codec, s, image, pull).store, other) == Mounted(s, other)
  {
    var after := PullImage(codec, s, image, pull).store;
    var start := WithManifest(s, image, Whole(Digests(pull.layers)));
    PullLayersElsewhere(codec, start, image, pull.layers, |pull.layers|, LayerPath(other, ""));
    match LoadManifest(s, other)
    case NoImage =>
    case Layers(dirs) =>
      forall i | 0 <= i < |dirs|
        ensures TreeAt(after, dirs[i]) == TreeAt(s, dirs[i])
      {
        PullLayersElsewhere(codec, start, image, pull.layers, |pull.layers|, dirs[i]);
      }
      assert Trees(after, Reversed(dirs)) == Trees(s, Reversed(dirs));
  }

  function PullsOn(codec: Codec, s: Store, events: seq<Event>): Store {
    if events == [] then s
    else
      var last := events[|events| - 1];
      PullImage(codec, PullsOn(codec, s, events[..|events| - 1]), last.image, last.pull).store
  }

  /** A pulled image stays as it is through any pulls of other images. */
  lemma {:induction false} OtherPullsKeepImage(codec: Codec, s: Store, events: seq<Event>, image: string)
    requires forall i :: 0 <= i < |events| ==> events[i].image != image
    ensures Mounted(PullsOn(codec, s, events), image) == Mounted(s, image)
  {
    if events != [] {
      var last := events[|events| - 1];
      OtherPullsKeepImage(codec, s, events[..|events| - 1], image);
      PullTouchesOneImage(codec, PullsOn(codec, s, events[..|events| - 1]), last.image, last.pull, image);
    }
  }

  // ---- what any pull leaves, however it ends

  lemma {:induction false} LayersKeepManifests(codec: Codec, s: Store, image: string, layers: seq<Layer>, n: nat)
    requires n <= |layers|
    ensures PullLayers(codec, s, image, layers, n).store.manifests == s.manifests
  {
    hide PullLayer;
    if n > 0 {
      LayersKeepManifests(codec, s, image, layers, n - 1);
      PullLayerManifests(codec, PullLayers(codec, s, image, layers, n - 1).store, image, layers[n - 1]);
    }
  }

  /** The manifest comes first: once it is written the image is the new one, even if no layer of it is ever fetched. */
  lemma {:induction false} ManifestComesFirst(codec: Codec, s: Store, image: string, pull: Pull)
    ensures LoadManifest(PullImage(codec, s, image, pull).store, image) ==
      if !pull.answered || pull.layers == [] || pull.writing == NotWritten then LoadManifest(s, image)
      else if pull.writing == CutShort then NoImage
      else Layers(DirsOf(image, Digests(pull.layers)))
  {
    LayersKeepManifests(codec, WithManifest(s, image, Whole(Digests(pull.layers))), image, pull.layers, |pull.layers|);
  }

  /** Once a layer has failed no later one is worked on: only the directories of the first ones can change. */
  lemma {:induction false} StopsAtFailure(codec: Codec, s: Store, image: string, layers: seq<Layer>, n: nat, m: nat)
    requires n <= m <= |layers| && !PullLayers(codec, s, image, layers, n).ok
    ensures PullLayers(codec, s, image, layers, m) == PullLayers(codec, s, image, layers, n)
    decreases m - n
  {
    hide PullLayer;
    if n < m {
      StopsAtFailure(codec, s, image, layers, n, m - 1);
    }
  }

  lemma {:induction false} UntouchedDirs(codec: Codec, s: Store, image: string, layers: seq<Layer>, n: nat,
                                         dir: LayerPath)
    requires n <= |layers| && forall j :: 0 <= j < n ==> dir != LayerPath(image, NameOf(layers[j].digest))
    ensures TreeAt(PullLayers(codec, s, image, layers, n).store, dir) == TreeAt(s, dir)
  {
    if n > 0 {
      UntouchedDirs(codec, s, image, layers, n - 1, dir);
    }
  }

  /** A failed pull changes only the directories of the layers up to the one that failed. */
  lemma {:induction false} FailureTouchesOnlyFirst(codec: Codec, s: Store, image: string, layers: seq<Layer>, n: nat,
                                                   dir: LayerPath)
    requires n <= |layers| && !PullLayers(codec, s, image, layers, n).ok
    requires forall j :: 0 <= j < n ==> dir != LayerPath(image, NameOf(layers[j].digest))
    ensures TreeAt(PullLayers(codec, s, image, layers, |layers|).store, dir) == TreeAt(s, dir)
  {
    StopsAtFailure(codec, s, image, layers, n, |layers|);
    UntouchedDirs(codec, s, image, layers, n, dir);
  }

  // ---- from the header to the container

  /**
   End to end: a regular file of a pulled layer that no later whiteout of the layer names,
   and that no layer above keeps or keeps something in the way of, is what the container
   finds at its path, with the header's own content.
   */
  lemma {:induction false} ContainerSeesFile(codec: Codec, events: seq<Event>, image: string, pull: Pull, after: Store,
                                             layers: Image, m: nat, headers: seq<Header>, i: nat)
    requires CollisionFree(codec) && OrdinaryLayers(codec, pull.layers) && Undisturbed(pull.layers)
    requires PullImage(codec, History(codec, events), image, pull) == Pulled(after, true)
    requires ByDigest(codec, pull.layers, layers) && m < |layers| && layers[m] == PlanAll(headers)
    requires i < |headers| && Entry(headers[i]) && headers[i].kind.TypeReg?
    requires forall j :: i < j < |headers| ==> !Wipes(headers[j], Paths.Comps(headers[i].name))
    requires var p := Paths.Comps(headers[i].name);
             forall j :: m < j < |layers| ==> !Keeps(layers[j], p) && !KeepsOver(layers[j], p)
    ensures Lookup(Mounted(after, image), Paths.Comps(headers[i].name)) == There(VFile(headers[i].data))
  {
    hide PullImage, Mounted, Lookup, StackView, Keeps, KeepsOver, Paths.Comps, Entry, Wipes, WellFormed, ContentOf;
    var p := Paths.Comps(headers[i].name);
    NamedLayersWellFormed(codec, pull.layers, layers);
    MountLooksUpPulledLayers(codec, events, image, pull, after, layers, p);
    EntryInside(headers[i]);
    assert WellFormed(layers[m]);
    UnwipedIsKeepers(headers, i);
    PlanAt(headers, i);
    EntryPlan(headers[i]);
    SaidOf(layers[m], i);
    assert ShownFrom(layers, m, p);
    InStackIff(layers, p);
  }

  // ---- where a layer is

  /** A layer's directory lies in the image's, under "rootfs", by its name. */
  lemma {:induction false} LayerPathComps(dir: LayerPath)
    requires Paths.PlainName(dir.name)
    ensures Paths.Comps(PathOf(dir)) == Paths.Comps(dir.image) + ["rootfs", dir.name] || dir.image == ""
  {
    hide *;
    if dir.image != "" {
      PathIs(dir);
      RestSplits(dir.name);
      var rooted, comps := Paths.IsAbs(dir.image), Split(dir.image, '/');
      TwoMore(rooted, comps, "rootfs", dir.name);
      SamePathComps(dir.image, "rootfs" + ['/'] + dir.name);
      PathComps(dir.image);
    }
  }

  lemma PathIs(dir: LayerPath)
    ensures PathOf(dir) == dir.image + ['/'] + ("rootfs" + ['/'] + dir.name)
  {
  }

  lemma RestSplits(name: string)
    requires Paths.PlainName(name)
    ensures Split("rootfs" + ['/'] + name, '/') == ["rootfs", name]
  {
    SplitConcat("rootfs", name, '/');
    SplitNone("rootfs", '/');
    SplitNone(name, '/');
  }

  lemma PathComps(s: string)
    ensures Paths.Comps(s) == Paths.Reduce(Paths.IsAbs(s), Split(s, '/'))
  {
  }

  lemma SamePathComps(dst: string, rest: string)
    requires dst != ""
    ensures Paths.Comps(dst + ['/'] + rest) == Paths.Reduce(Paths.IsAbs(dst), Split(dst, '/') + Split(rest, '/'))
  {
    SplitConcat(dst, rest, '/');
  }

  lemma TwoMore(rooted: bool, comps: seq<string>, a: string, b: string)
    requires Paths.PlainName(a) && Paths.PlainName(b)
    ensures Paths.Reduce(rooted, comps + [a, b]) == Paths.Reduce(rooted, comps) + [a, b]
  {
    assert (comps + [a, b])[..|comps| + 1] == comps + [a];
    assert (comps + [a])[..|comps|] == comps;
  }
}
